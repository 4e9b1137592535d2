/** Choosing a PIN at registration (src/pages/SetPin.jsx): enter it, then confirm it. */
module SetPin {
  datatype Step = SetStep | ConfirmStep

  datatype ContinueOutcome = PinIncomplete | Confirming | ConfirmIncomplete | Mismatch | ToKyc

  datatype BackOutcome = ToOtp | BackToSet

  class SetPinPage {
    var pin: string
    var confirmPin: string
    var step: Step

    /** The confirmation step is only reached with a four-digit PIN. */
    ghost predicate Valid()
      reads this
    {
      |pin| <= 4 && |confirmPin| <= 4 && (step == ConfirmStep ==> |pin| == 4)
    }

    constructor ()
      ensures Valid() && pin == "" && confirmPin == "" && step == SetStep
    {
      pin, confirmPin, step := "", "", SetStep;
    }

    /** The four-slot input edits the PIN of the current step. */
    method Type(p: string)
      requires Valid() && |p| <= 4
      modifies this
      ensures Valid() && step == old(step)
      ensures step == SetStep ==> pin == p && confirmPin == old(confirmPin)
      ensures step == ConfirmStep ==> confirmPin == p && pin == old(pin)
    {
      if step == SetStep {
        pin := p;
      } else {
        confirmPin := p;
      }
    }

    /** `handleContinue` */
    method Continue() returns (outcome: ContinueOutcome)
      requires Valid()
      modifies this
      ensures Valid() && pin == old(pin)
      ensures outcome == PinIncomplete <==> old(step) == SetStep && |pin| != 4
      ensures outcome == Confirming <==> old(step) == SetStep && |pin| == 4
      ensures old(step) == SetStep ==> confirmPin == old(confirmPin)
      ensures step == if outcome == Confirming then ConfirmStep else old(step)
      ensures outcome == ConfirmIncomplete <==> old(step) == ConfirmStep && |old(confirmPin)| != 4
      ensures outcome == ConfirmIncomplete ==> confirmPin == old(confirmPin)
      ensures outcome == Mismatch <==>
                old(step) == ConfirmStep && |old(confirmPin)| == 4 && old(confirmPin) != pin
      ensures outcome == Mismatch ==> confirmPin == ""
      ensures outcome == ToKyc <==> old(step) == ConfirmStep && old(confirmPin) == pin
      ensures outcome == ToKyc ==> |pin| == 4 && confirmPin == old(confirmPin)
    {
      if step == SetStep {
        if |pin| != 4 {
          return PinIncomplete;
        }
        step := ConfirmStep;
        return Confirming;
      }
      if |confirmPin| != 4 {
        return ConfirmIncomplete;
      }
      if pin != confirmPin {
        confirmPin := "";
        return Mismatch;
      }
      return ToKyc;
    }

    /** The back button: to the OTP page from the first step, to the first step from the second. */
    method Back() returns (outcome: BackOutcome)
      requires Valid()
      modifies this
      ensures Valid() && pin == old(pin) && confirmPin == old(confirmPin) && step == SetStep
      ensures outcome == ToOtp <==> old(step) == SetStep
    {
      if step == SetStep {
        return ToOtp;
      }
      step := SetStep;
      return BackToSet;
    }
  }
}
