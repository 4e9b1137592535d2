/** The returning user's PIN login (src/pages/EnterPin.jsx). */
module EnterPin {
  import opened Wrappers
  import opened Text
  import opened Store

  /** The prototype's fixed login PIN and the number of tries before the button locks. */
  const LoginPin := "1234"
  const MaxAttempts: nat := 3
  const UnnamedUser := "User"

  datatype LoginOutcome = PinIncomplete | WrongPin(remaining: nat) | Locked | UserNotFound | LoggedIn(id: UserId)

  class EnterPinPage {
    var pin: string
    var attempts: nat
    var mobile: string

    ghost predicate Valid()
      reads this
    {
      attempts <= MaxAttempts && |pin| <= 4
    }

    constructor ()
      ensures Valid() && pin == "" && attempts == 0 && mobile == ""
    {
      pin, attempts, mobile := "", 0, "";
    }

    predicate LockedOut()
      reads this
    {
      attempts >= MaxAttempts
    }

    /** The mount effect: without a stored number (null or empty) the page goes back to login. */
    method Mount(session: Session) returns (shown: bool)
      requires Valid()
      modifies this
      ensures Valid() && pin == old(pin) && attempts == old(attempts)
      ensures shown <==> Truthy(session.mobile)
      ensures mobile == if shown then session.mobile.value else old(mobile)
    {
      if !Truthy(session.mobile) {
        return false;
      }
      mobile := session.mobile.value;
      return true;
    }

    /** The four-slot input. */
    method Type(p: string)
      requires Valid() && |p| <= 4
      modifies this
      ensures Valid() && pin == p && attempts == old(attempts) && mobile == old(mobile)
    {
      pin := p;
    }

    /** `handleLogin`; the button is disabled once the page is locked, and no action of
        the page lowers `attempts` again. */
    method Login(db: Database, session: Session) returns (outcome: LoginOutcome)
      requires Valid() && !LockedOut()
      modifies this, session
      ensures Valid() && mobile == old(mobile)
      ensures attempts == old(attempts) || attempts == old(attempts) + 1
      ensures outcome == PinIncomplete <==> |old(pin)| != 4
      ensures outcome == PinIncomplete ==> pin == old(pin) && attempts == old(attempts)
      ensures outcome.WrongPin? || outcome == Locked <==> |old(pin)| == 4 && old(pin) != LoginPin
      ensures outcome.WrongPin? || outcome == Locked ==> attempts == old(attempts) + 1 && pin == ""
      ensures outcome.WrongPin? ==> !LockedOut() && outcome.remaining == MaxAttempts - attempts
      ensures outcome == Locked ==> LockedOut()
      ensures outcome == UserNotFound <==>
                old(pin) == LoginPin && forall id :: !SoleHolder(db.users, mobile, id)
      ensures outcome.LoggedIn? ==>
                old(pin) == LoginPin && SoleHolder(db.users, mobile, outcome.id)
                && session.userId == Some(outcome.id)
                && session.userMobile == Some(db.users[outcome.id].mobile)
                && session.userName == Some(OrElse(db.users[outcome.id].fullName, UnnamedUser))
      ensures old(pin) == LoginPin ==> attempts == old(attempts) && pin == old(pin)
      ensures !outcome.LoggedIn? ==>
                session.userId == old(session.userId) && session.userMobile == old(session.userMobile)
                && session.userName == old(session.userName)
      ensures session.mobile == old(session.mobile) && session.isNewUser == old(session.isNewUser)
    {
      if |pin| != 4 {
        return PinIncomplete;
      }
      if pin != LoginPin {
        var newAttempts := attempts + 1;
        attempts := newAttempts;
        pin := "";
        if newAttempts >= MaxAttempts {
          return Locked;
        }
        return WrongPin(MaxAttempts - newAttempts);
      }
      var found := db.FindByMobile(mobile);
      if found.None? {
        return UserNotFound;
      }
      var id := found.value;
      session.userId := Some(id);
      session.userMobile := Some(db.users[id].mobile);
      session.userName := Some(OrElse(db.users[id].fullName, UnnamedUser));
      return LoggedIn(id);
    }
  }

  /** Three wrong four-digit PINs lock the page for good, whatever the database holds. */
  method ThreeWrongPinsLock(page: EnterPinPage, db: Database, session: Session, wrong: string)
    requires page.Valid() && page.attempts == 0 && |wrong| == 4 && wrong != LoginPin
    modifies page, session
    ensures page.Valid() && page.LockedOut() && page.pin == ""
    ensures session.userId == old(session.userId)
  {
    page.Type(wrong);
    var r1 := page.Login(db, session);
    assert r1 == WrongPin(2);
    page.Type(wrong);
    var r2 := page.Login(db, session);
    assert r2 == WrongPin(1);
    page.Type(wrong);
    var r3 := page.Login(db, session);
    assert r3 == Locked;
  }
}
