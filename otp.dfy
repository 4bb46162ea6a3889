/**
 * The email-verification screen (OTPVerification.js): a six-digit code box that drops
 * anything but digits, the submit check before the code is sent for verification, the
 * resend cool-down and its one-second countdown.
 */
module OtpScreen {
  import opened Wrappers
  import opened JsText

  const CodeLength := 6
  const ResendCooldown := 60
  const InvalidCode := "Please enter a valid 6-digit OTP"
  const DefaultVerified := "Email verified successfully! Please login to continue."

  /** The regular-expression class `\d`: an ASCII decimal digit. */
  predicate IsDigit(c: char) {
    '0' <= c <= '9'
  }

  predicate AllDigits(s: string) {
    forall k :: 0 <= k < |s| ==> IsDigit(s[k])
  }

  /**
   * `s.replace(/\D/g, '')`: every digit of `s`, in order, and nothing else. Each character
   * occurs in the result as often as in `s` when it is a digit, and not at all otherwise.
   */
  function DigitsOnly(s: string): (r: string)
    ensures AllDigits(r)
    ensures |r| <= |s|
    ensures forall c :: multiset(r)[c] == if IsDigit(c) then multiset(s)[c] else 0
  {
    if s == [] then []
    else
      var rest := DigitsOnly(s[1..]);
      assert s == [s[0]] + s[1..];
      if IsDigit(s[0]) then [s[0]] + rest else rest
  }

  /** Filtering distributes over concatenation: the digits of a pasted text follow those already typed. */
  lemma {:induction false} DigitsOnlyAppend(a: string, b: string)
    ensures DigitsOnly(a + b) == DigitsOnly(a) + DigitsOnly(b)
  {
    if a == [] {
      assert a + b == b;
    } else {
      assert (a + b)[1..] == a[1..] + b;
      DigitsOnlyAppend(a[1..], b);
    }
  }

  /** Text made only of digits passes through unchanged, and only such text does. */
  lemma {:induction false} DigitsOnlyFixedIff(s: string)
    ensures DigitsOnly(s) == s <==> AllDigits(s)
  {
    if s != [] {
      DigitsOnlyFixedIff(s[1..]);
      if !IsDigit(s[0]) {
        assert |DigitsOnly(s)| <= |s[1..]| < |s|;
      }
    }
  }

  /** Filtering twice is filtering once. */
  lemma DigitsOnlyIdempotent(s: string)
    ensures DigitsOnly(DigitsOnly(s)) == DigitsOnly(s)
  {
    DigitsOnlyFixedIff(DigitsOnly(s));
  }

  /** `location.state?.email || ''`: the email handed over by the registration screen, if any. */
  function EmailFrom(state: Option<string>): (e: string)
    ensures e == "" <==> !Truthy(state)
    ensures Truthy(state) ==> e == state.value
  {
    if Truthy(state) then state.value else ""
  }

  /** What `verifyOTP(email, otp)` resolved to. */
  datatype VerifyResult = Verified(message: Option<string>) | NotVerified(error: string)

  /** Where the screen navigated. */
  datatype Route = ToRegister | ToLogin(message: string, email: string)

  class OtpVerification {
    const email: string
    var otp: string
    var otpError: string
    var resendCooldown: int
    /** The (email, code) pairs passed to `verifyOTP`, in order. */
    var verifyCalls: seq<(string, string)>
    var navigatedTo: Option<Route>

    /** The code box holds at most six digits, and the cool-down stays within its minute. */
    predicate Valid()
      reads this
    {
      AllDigits(otp) && |otp| <= CodeLength && 0 <= resendCooldown <= ResendCooldown
    }

    constructor (state: Option<string>)
      ensures Valid()
      ensures email == EmailFrom(state) && otp == "" && otpError == "" && resendCooldown == 0
      ensures verifyCalls == [] && navigatedTo == None
    {
      email := EmailFrom(state);
      otp := "";
      otpError := "";
      resendCooldown := 0;
      verifyCalls := [];
      navigatedTo := None;
    }

    /**
     * The effect and, when it armed one, its timer firing: without an email the screen goes
     * back to registration; otherwise a running cool-down drops by one second.
     */
    method Tick()
      requires Valid()
      modifies this`resendCooldown, this`navigatedTo
      ensures Valid()
      ensures email == "" ==> navigatedTo == Some(ToRegister) && resendCooldown == old(resendCooldown)
      ensures email != "" ==> navigatedTo == old(navigatedTo)
      ensures email != "" && old(resendCooldown) > 0 ==> resendCooldown == old(resendCooldown) - 1
      ensures email != "" && old(resendCooldown) == 0 ==> resendCooldown == 0
    {
      if email == "" {
        navigatedTo := Some(ToRegister);
        return;
      }
      if resendCooldown > 0 {
        resendCooldown := resendCooldown - 1;
      }
    }

    /** handleOTPChange: the digits of the typed text replace the code, unless there are more than six. */
    method HandleOtpChange(value: string)
      requires Valid()
      modifies this`otp
      ensures Valid()
      ensures |DigitsOnly(value)| <= CodeLength ==> otp == DigitsOnly(value)
      ensures |DigitsOnly(value)| > CodeLength ==> otp == old(otp)
    {
      var digits := DigitsOnly(value);
      if |digits| <= CodeLength {
        otp := digits;
      }
    }

    /**
     * handleSubmit: a code that is not exactly six characters is refused without a call.
     * Otherwise the email and code go to `verifyOTP`; success navigates to the login screen
     * with the server's message (or the default one) and the email, failure shows the error.
     */
    method HandleSubmit(result: VerifyResult)
      requires Valid()
      modifies this`otpError, this`verifyCalls, this`navigatedTo
      ensures Valid()
      ensures |otp| != CodeLength ==>
        otpError == InvalidCode && verifyCalls == old(verifyCalls) && navigatedTo == old(navigatedTo)
      ensures |otp| == CodeLength ==> verifyCalls == old(verifyCalls) + [(email, otp)]
      ensures |otp| == CodeLength && result.Verified? ==>
        otpError == "" && navigatedTo == Some(ToLogin(if Truthy(result.message) then result.message.value else DefaultVerified, email))
      ensures |otp| == CodeLength && result.NotVerified? ==>
        otpError == result.error && navigatedTo == old(navigatedTo)
    {
      otpError := "";
      if otp == "" || |otp| != CodeLength {
        otpError := InvalidCode;
        return;
      }
      verifyCalls := verifyCalls + [(email, otp)];
      match result {
        case Verified(message) =>
          navigatedTo := Some(ToLogin(if Truthy(message) then message.value else DefaultVerified, email));
        case NotVerified(error) =>
          otpError := error;
      }
    }

    /** handleResendOTP: ignored while the cool-down runs; otherwise a new minute starts. */
    method HandleResend()
      requires Valid()
      modifies this`resendCooldown
      ensures Valid()
      ensures old(resendCooldown) > 0 ==> resendCooldown == old(resendCooldown)
      ensures old(resendCooldown) == 0 ==> resendCooldown == ResendCooldown
    {
      if resendCooldown > 0 {
        return;
      }
      resendCooldown := ResendCooldown;
    }

    /** With an email present, as many ticks as the cool-down has seconds left make a resend possible again. */
    method WaitOutCooldown() returns (ticks: nat)
      requires Valid() && email != ""
      modifies this`resendCooldown, this`navigatedTo
      ensures Valid()
      ensures resendCooldown == 0 && ticks == old(resendCooldown)
      ensures navigatedTo == old(navigatedTo)
    {
      ticks := 0;
      while resendCooldown > 0
        invariant Valid()
        invariant ticks + resendCooldown == old(resendCooldown)
        invariant navigatedTo == old(navigatedTo)
        decreases resendCooldown
      {
        Tick();
        ticks := ticks + 1;
      }
    }
  }
}
