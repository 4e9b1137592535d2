/** The login page (src/pages/Login.jsx): a ten-digit number and the new-user choice,
    stored in the session for the OTP step. */
module Login {
  import opened Wrappers
  import opened Text
  import opened Store
  import opened Mobile

  /** `b.toString()` */
  function BoolText(b: bool): string {
    if b then "true" else "false"
  }

  datatype ContinueOutcome = InvalidMobile | ToOtp

  class LoginPage {
    var mobile: string
    var isNewUser: bool

    ghost predicate Valid()
      reads this
    {
      AllDigits(mobile)
    }

    constructor ()
      ensures Valid() && mobile == "" && !isNewUser
    {
      mobile, isNewUser := "", false;
    }

    /** The input's `onChange` keeps the digits only. */
    method ChangeMobile(input: string)
      requires Valid()
      modifies this
      ensures Valid() && mobile == KeepDigits(input) && isNewUser == old(isNewUser)
    {
      KeepDigitsSpec(input);
      mobile := KeepDigits(input);
    }

    /** "New user? Create account" and back. */
    method ToggleNewUser()
      requires Valid()
      modifies this
      ensures Valid() && isNewUser == !old(isNewUser) && mobile == old(mobile)
    {
      isNewUser := !isNewUser;
    }

    /** `handleContinue` */
    method Continue(session: Session) returns (outcome: ContinueOutcome)
      requires Valid()
      modifies session
      ensures outcome == ToOtp <==> ValidMobile(WithCountryCode(mobile))
      ensures outcome == ToOtp <==> |mobile| == 10
      ensures outcome == ToOtp ==>
                session.mobile == Some(CountryCode + mobile) && session.isNewUser == Some(BoolText(isNewUser))
      ensures outcome == InvalidMobile ==>
                session.mobile == old(session.mobile) && session.isNewUser == old(session.isNewUser)
      ensures session.userId == old(session.userId) && session.userMobile == old(session.userMobile)
      ensures session.userName == old(session.userName)
    {
      DigitEntryAccepted(mobile);
      var formatted := WithCountryCode(mobile);
      if !ValidMobile(formatted) {
        return InvalidMobile;
      }
      session.mobile := Some(formatted);
      session.isNewUser := Some(BoolText(isNewUser));
      return ToOtp;
    }
  }
}
