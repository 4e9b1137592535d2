/** Account opening (src/pages/KYC.jsx): with a name and optional email, or skipped. */
module Kyc {
  import opened Wrappers
  import opened Text
  import opened Store

  /** The opening balance, 1000 rupees, in paise. */
  const InitialBalance := 100000
  const UnnamedUser := "User"

  datatype KycOutcome = BlankName | ToLogin | CreateFailed | Created(id: UserId)

  /** The row `handleSubmit` inserts. */
  function SubmittedUser(mobile: string, fullName: string, email: string): User {
    User(mobile, Some(fullName), NullIfEmpty(email), Pending, InitialBalance)
  }

  /** The row `handleSkip` inserts. */
  function SkippedUser(mobile: string): User {
    User(mobile, None, None, Skipped, InitialBalance)
  }

  class KycPage {
    var fullName: string
    var email: string

    constructor ()
      ensures fullName == "" && email == ""
    {
      fullName, email := "", "";
    }

    method ChangeFullName(text: string)
      modifies this
      ensures fullName == text && email == old(email)
    {
      fullName := text;
    }

    method ChangeEmail(text: string)
      modifies this
      ensures email == text && fullName == old(fullName)
    {
      email := text;
    }

    /** Insert `u`, then record the new account in the session. `rejected` is the database's answer. */
    static method Open(db: Database, session: Session, u: User, name: string, rejected: bool)
      returns (outcome: KycOutcome)
      requires db.Valid() && u.balance >= 0
      modifies db, session
      ensures db.Valid() && db.transactions == old(db.transactions)
      ensures outcome == CreateFailed <==> rejected
      ensures outcome.Created? <==> !rejected
      ensures outcome == CreateFailed ==>
                db.users == old(db.users) && session.userId == old(session.userId)
                && session.userMobile == old(session.userMobile) && session.userName == old(session.userName)
      ensures outcome.Created? ==>
                outcome.id !in old(db.users) && db.users == old(db.users)[outcome.id := u]
                && Total(db.users) == Total(old(db.users)) + u.balance
                && session.userId == Some(outcome.id) && session.userMobile == Some(u.mobile)
                && session.userName == Some(name)
      ensures session.mobile == old(session.mobile) && session.isNewUser == old(session.isNewUser)
    {
      var r := db.InsertUser(u, rejected);
      if r.None? {
        return CreateFailed;
      }
      TotalInsert(old(db.users), r.value, u);
      session.userId := Some(r.value);
      session.userMobile := Some(u.mobile);
      session.userName := Some(name);
      return Created(r.value);
    }

    /** `handleSubmit` */
    method Submit(db: Database, session: Session, rejected: bool) returns (outcome: KycOutcome)
      requires db.Valid()
      modifies db, session
      ensures db.Valid() && db.transactions == old(db.transactions)
      ensures session.mobile == old(session.mobile) && session.isNewUser == old(session.isNewUser)
      ensures outcome == BlankName <==> IsBlank(fullName)
      ensures outcome == ToLogin <==> !IsBlank(fullName) && !Truthy(old(session.mobile))
      ensures outcome == CreateFailed <==> !IsBlank(fullName) && Truthy(old(session.mobile)) && rejected
      ensures !outcome.Created? ==>
                db.users == old(db.users) && session.userId == old(session.userId)
                && session.userMobile == old(session.userMobile) && session.userName == old(session.userName)
      ensures outcome.Created? ==>
                var m := old(session.mobile).value;
                outcome.id !in old(db.users)
                && db.users == old(db.users)[outcome.id := SubmittedUser(m, fullName, email)]
                && Total(db.users) == Total(old(db.users)) + InitialBalance
                && session.userId == Some(outcome.id) && session.userMobile == Some(m)
                && session.userName == Some(fullName)
    {
      if IsBlank(fullName) {
        return BlankName;
      }
      if !Truthy(session.mobile) {
        return ToLogin;
      }
      var m := session.mobile.value;
      var u := SubmittedUser(m, fullName, email);
      outcome := Open(db, session, u, OrElse(u.fullName, UnnamedUser), rejected);
    }

    /** `handleSkip` */
    method Skip(db: Database, session: Session, rejected: bool) returns (outcome: KycOutcome)
      requires db.Valid()
      modifies db, session
      ensures db.Valid() && db.transactions == old(db.transactions)
      ensures session.mobile == old(session.mobile) && session.isNewUser == old(session.isNewUser)
      ensures outcome == ToLogin <==> !Truthy(old(session.mobile))
      ensures outcome == CreateFailed <==> Truthy(old(session.mobile)) && rejected
      ensures outcome != BlankName
      ensures !outcome.Created? ==>
                db.users == old(db.users) && session.userId == old(session.userId)
                && session.userMobile == old(session.userMobile) && session.userName == old(session.userName)
      ensures outcome.Created? ==>
                var m := old(session.mobile).value;
                outcome.id !in old(db.users) && db.users == old(db.users)[outcome.id := SkippedUser(m)]
                && Total(db.users) == Total(old(db.users)) + InitialBalance
                && session.userId == Some(outcome.id) && session.userMobile == Some(m)
                && session.userName == Some(UnnamedUser)
    {
      if !Truthy(session.mobile) {
        return ToLogin;
      }
      var m := session.mobile.value;
      outcome := Open(db, session, SkippedUser(m), UnnamedUser, rejected);
    }
  }
}
