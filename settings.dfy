/** The change-PIN panel of the settings page (src/pages/Settings.jsx): the current PIN,
    then a new one, then its confirmation. */
module Settings {
  /** The PIN the current-PIN step accepts. */
  const CurrentPin := "1234"

  datatype Step = CurrentStep | NewStep | ConfirmStep

  datatype ChangeOutcome = WrongCurrent | ToNew | NewIncomplete | ToConfirm | Mismatch | Changed

  class ChangePinPanel {
    var showChangePin: bool
    var currentPin: string
    var newPin: string
    var confirmPin: string
    var step: Step

    /** Each later step is only reached through the earlier ones. */
    ghost predicate Valid()
      reads this
    {
      |currentPin| <= 4 && |newPin| <= 4 && |confirmPin| <= 4
      && (step != CurrentStep ==> currentPin == CurrentPin)
      && (step == ConfirmStep ==> |newPin| == 4)
    }

    /** The panel closed with every field cleared. */
    predicate Initial()
      reads this
    {
      !showChangePin && currentPin == "" && newPin == "" && confirmPin == "" && step == CurrentStep
    }

    constructor ()
      ensures Valid() && Initial()
    {
      showChangePin, currentPin, newPin, confirmPin, step := false, "", "", "", CurrentStep;
    }

    /** "Change PIN" opens the panel where it was left. */
    method Open()
      requires Valid()
      modifies this
      ensures Valid() && showChangePin
      ensures currentPin == old(currentPin) && newPin == old(newPin) && confirmPin == old(confirmPin)
      ensures step == old(step)
    {
      showChangePin := true;
    }

    /** The four-slot input edits the PIN of the current step. */
    method Type(p: string)
      requires Valid() && showChangePin && |p| <= 4
      modifies this
      ensures Valid() && showChangePin && step == old(step)
      ensures currentPin == if step == CurrentStep then p else old(currentPin)
      ensures newPin == if step == NewStep then p else old(newPin)
      ensures confirmPin == if step == ConfirmStep then p else old(confirmPin)
    {
      match step
      case CurrentStep => currentPin := p;
      case NewStep => newPin := p;
      case ConfirmStep => confirmPin := p;
    }

    /** `handleChangePIN` */
    method Continue() returns (outcome: ChangeOutcome)
      requires Valid() && showChangePin
      modifies this
      ensures Valid()
      ensures outcome == WrongCurrent <==> old(step) == CurrentStep && old(currentPin) != CurrentPin
      ensures outcome == WrongCurrent ==>
                currentPin == "" && step == CurrentStep && newPin == old(newPin) && confirmPin == old(confirmPin)
      ensures outcome == ToNew <==> old(step) == CurrentStep && old(currentPin) == CurrentPin
      ensures outcome == NewIncomplete <==> old(step) == NewStep && |old(newPin)| != 4
      ensures outcome == ToConfirm <==> old(step) == NewStep && |old(newPin)| == 4
      ensures outcome == Mismatch <==> old(step) == ConfirmStep && old(confirmPin) != old(newPin)
      ensures outcome == Mismatch ==>
                confirmPin == "" && step == ConfirmStep && currentPin == old(currentPin) && newPin == old(newPin)
      ensures outcome == Changed <==> old(step) == ConfirmStep && old(confirmPin) == old(newPin)
      ensures outcome == Changed ==>
                Initial() && old(currentPin) == CurrentPin && |old(newPin)| == 4
      ensures outcome in {ToNew, NewIncomplete, ToConfirm} ==>
                currentPin == old(currentPin) && newPin == old(newPin) && confirmPin == old(confirmPin)
      ensures outcome != Changed ==> showChangePin
      ensures step == match outcome
                      case ToNew => NewStep
                      case ToConfirm => ConfirmStep
                      case Changed => CurrentStep
                      case _ => old(step)
    {
      match step
      case CurrentStep =>
        if currentPin != CurrentPin {
          currentPin := "";
          return WrongCurrent;
        }
        step := NewStep;
        return ToNew;
      case NewStep =>
        if |newPin| != 4 {
          return NewIncomplete;
        }
        step := ConfirmStep;
        return ToConfirm;
      case ConfirmStep =>
        if confirmPin != newPin {
          confirmPin := "";
          return Mismatch;
        }
        showChangePin, currentPin, newPin, confirmPin, step := false, "", "", "", CurrentStep;
        return Changed;
    }

    /** The Cancel button, from any step. */
    method Cancel()
      requires Valid()
      modifies this
      ensures Valid() && Initial()
    {
      showChangePin, currentPin, newPin, confirmPin, step := false, "", "", "", CurrentStep;
    }
  }

  /** The whole change from an open panel: right current PIN, a four-digit new PIN twice. */
  method ChangeInThreeSteps(panel: ChangePinPanel, newPin: string)
    requires panel.Valid() && panel.showChangePin && panel.step == CurrentStep && |newPin| == 4
    modifies panel
    ensures panel.Valid() && panel.Initial()
  {
    panel.Type(CurrentPin);
    var o1 := panel.Continue();
    assert o1 == ToNew;
    panel.Type(newPin);
    var o2 := panel.Continue();
    assert o2 == ToConfirm;
    panel.Type(newPin);
    var o3 := panel.Continue();
    assert o3 == Changed;
  }
}
