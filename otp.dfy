/** The one-time-code page (src/pages/OTP.jsx). */
module Otp {
  import opened Wrappers
  import opened Text
  import opened Store
  import Login

  /** The prototype's fixed code. */
  const TestCode := "123456"

  datatype VerifyOutcome = Incomplete | InvalidCode | ToSetPin | ToEnterPin

  /** `handleVerify`: the length first, then the code, then the route by account status. */
  function CheckCode(otp: string, isNewUser: bool): (r: VerifyOutcome)
    ensures r == Incomplete <==> |otp| != 6
    ensures r == InvalidCode <==> |otp| == 6 && otp != TestCode
    ensures r == ToSetPin <==> otp == TestCode && isNewUser
    ensures r == ToEnterPin <==> otp == TestCode && !isNewUser
  {
    if |otp| != 6 then Incomplete
    else if otp != TestCode then InvalidCode
    else if isNewUser then ToSetPin
    else ToEnterPin
  }

  class OtpPage {
    var otp: string
    var mobile: string
    var isNewUser: bool

    ghost predicate Valid()
      reads this
    {
      |otp| <= 6
    }

    constructor ()
      ensures Valid() && otp == "" && mobile == "" && !isNewUser
    {
      otp, mobile, isNewUser := "", "", false;
    }

    /** The mount effect: without a stored number (null or empty) the page goes back to login. */
    method Mount(session: Session) returns (shown: bool)
      requires Valid()
      modifies this
      ensures Valid() && otp == old(otp)
      ensures shown <==> Truthy(session.mobile)
      ensures shown ==> mobile == session.mobile.value && isNewUser == (session.isNewUser == Some("true"))
      ensures !shown ==> mobile == old(mobile) && isNewUser == old(isNewUser)
    {
      if !Truthy(session.mobile) {
        return false;
      }
      mobile := session.mobile.value;
      isNewUser := session.isNewUser == Some("true");
      return true;
    }

    /** The six-slot input. */
    method Type(code: string)
      requires Valid() && |code| <= 6
      modifies this
      ensures Valid() && otp == code && mobile == old(mobile) && isNewUser == old(isNewUser)
    {
      otp := code;
    }

    /** `handleResend` */
    method Resend()
      requires Valid()
      modifies this
      ensures Valid() && otp == "" && mobile == old(mobile) && isNewUser == old(isNewUser)
    {
      otp := "";
    }
  }

  /** The flag written by the login page reads back as the value chosen there. */
  lemma NewUserFlagRoundTrip(b: bool)
    ensures (Login.BoolText(b) == "true") == b
  {
  }

  /** Continuing from login and mounting this page carries over the number and the choice. */
  method LoginThenOtp(login: Login.LoginPage, session: Session, page: OtpPage)
    returns (outcome: Login.ContinueOutcome, shown: bool)
    requires login.Valid() && page.Valid() && |login.mobile| == 10
    modifies session, page
    ensures outcome == Login.ToOtp && shown
    ensures page.mobile == "+91" + login.mobile && page.isNewUser == login.isNewUser
    ensures CheckCode(TestCode, page.isNewUser) == if login.isNewUser then ToSetPin else ToEnterPin
  {
    outcome := login.Continue(session);
    shown := page.Mount(session);
  }
}
