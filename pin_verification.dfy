/** The PIN dialog that guards merchant payment and metro booking
    (src/components/ui/PinVerification.jsx). */
module PinVerification {

  /** The prototype's fixed PIN. */
  const GatePin := "1234"
  const MaxAttempts: nat := 3

  /** What one press of Verify leads to; `Approved` is the single call of `onSuccess`. */
  datatype VerifyResult = Incomplete | WrongPin(remaining: nat) | LockedOut | Approved

  class PinGate {
    /** The `open` prop, owned by the page that shows the dialog. */
    var open: bool
    var pin: string
    var attempts: nat

    ghost predicate Valid()
      reads this
    {
      attempts <= MaxAttempts && |pin| <= 4
    }

    constructor ()
      ensures Valid() && !open && pin == "" && attempts == 0
    {
      open, pin, attempts := false, "", 0;
    }

    /** Typing into the four-slot input. */
    method Type(p: string)
      requires Valid() && |p| <= 4
      modifies this
      ensures Valid() && pin == p && attempts == old(attempts) && open == old(open)
    {
      pin := p;
    }

    /** The page opens the dialog; failures counted earlier are kept. */
    method Show()
      requires Valid()
      modifies this
      ensures Valid() && open && pin == old(pin) && attempts == old(attempts)
    {
      open := true;
    }

    /** `onOpenChange(false)` from the page or from the Escape key. */
    method Close()
      requires Valid()
      modifies this
      ensures Valid() && !open && pin == old(pin) && attempts == old(attempts)
    {
      open := false;
    }

    /** The dialog after one press of Verify, against the PIN typed before it. */
    twostate predicate AfterVerify(result: VerifyResult)
      reads this
    {
      (result == Approved <==> old(pin) == GatePin)
      && (|old(pin)| != 4 ==>
            result == Incomplete && pin == old(pin) && attempts == old(attempts) && open == old(open))
      && (|old(pin)| == 4 && old(pin) != GatePin ==> pin == "" && attempts == old(attempts) + 1)
      && (result.WrongPin? <==> |old(pin)| == 4 && old(pin) != GatePin && attempts < MaxAttempts)
      && (result.WrongPin? ==> result.remaining == MaxAttempts - attempts && open == old(open))
      && (result == LockedOut <==> |old(pin)| == 4 && old(pin) != GatePin && attempts == MaxAttempts)
      && (result == LockedOut ==> !open)
      && (result == Approved ==> pin == "" && attempts == 0 && open == old(open))
    }

    /** `handleVerify`. The Verify button is disabled once `attempts` reaches 3,
        so from then on `onSuccess` cannot fire until `Cancel` resets the count. */
    method Verify() returns (result: VerifyResult)
      requires Valid() && attempts < MaxAttempts
      modifies this
      ensures Valid() && AfterVerify(result)
    {
      if |pin| != 4 {
        return Incomplete;
      }
      if pin != GatePin {
        var newAttempts := attempts + 1;
        attempts := newAttempts;
        if newAttempts >= MaxAttempts {
          pin := "";
          open := false;
          return LockedOut;
        }
        pin := "";
        return WrongPin(MaxAttempts - newAttempts);
      }
      pin := "";
      attempts := 0;
      return Approved;
    }

    /** `handleCancel`: the one action that clears a lockout. */
    method Cancel()
      requires Valid()
      modifies this
      ensures Valid() && pin == "" && attempts == 0 && !open
    {
      pin := "";
      attempts := 0;
      open := false;
    }
  }

  /** Three wrong four-digit PINs in a row lock the dialog and close it. */
  method ThreeWrongPinsLock(g: PinGate, wrong: string)
    requires g.Valid() && g.attempts == 0 && |wrong| == 4 && wrong != GatePin
    modifies g
    ensures g.Valid() && g.attempts == MaxAttempts && !g.open && g.pin == ""
  {
    g.Type(wrong);
    var r1 := g.Verify();
    assert r1 == WrongPin(2);
    g.Type(wrong);
    var r2 := g.Verify();
    assert r2 == WrongPin(1);
    g.Type(wrong);
    var r3 := g.Verify();
    assert r3 == LockedOut;
  }

  /** After one or two wrong PINs the right one is still accepted and the count starts over. */
  method CorrectPinAfterFailures(g: PinGate, wrong: string, failures: nat) returns (r: VerifyResult)
    requires g.Valid() && g.attempts == 0 && |wrong| == 4 && wrong != GatePin
    requires 1 <= failures <= 2
    modifies g
    ensures r == Approved && g.Valid() && g.attempts == 0 && g.pin == "" && g.open == old(g.open)
  {
    g.Type(wrong);
    var r1 := g.Verify();
    if failures == 2 {
      g.Type(wrong);
      var r2 := g.Verify();
    }
    g.Type(GatePin);
    r := g.Verify();
  }
}
