/** The phone sign-in modal: the phone formatter, the code sanitiser, the
    resend countdown, and the handlers that step the form between entering
    a phone and entering a code. The answers of `sendOtp` and `login` are
    parameters; the interval timer is left to the caller, who applies
    `TickCountdown` once a second. */
module PhoneAuthModal {
  import opened Util

  // ---------------------------------------------------------------------------
  // Pure helpers

  /** `formatPhoneNumber`: ten digits become `(ddd) ddd-dddd`; anything else
      is returned as typed. */
  function FormatPhoneNumber(value: string): (r: string)
    ensures |Digits(value)| == 10 ==> |r| == 14 && r[0] == '(' && r[4] == ')' && r[5] == ' ' && r[9] == '-'
    ensures |Digits(value)| != 10 ==> r == value
  {
    var cleaned := Digits(value);
    if |cleaned| == 10 then "(" + cleaned[..3] + ") " + cleaned[3..6] + "-" + cleaned[6..]
    else value
  }

  /** The formatted text carries the same digits as the input. */
  lemma FormatKeepsDigits(value: string)
    ensures Digits(FormatPhoneNumber(value)) == Digits(value)
  {
    var c := Digits(value);
    if |c| == 10 {
      var a, b, d := c[..3], c[3..6], c[6..];
      assert c == a + b + d;
      DigitsOfDigits(a);
      DigitsOfDigits(b);
      DigitsOfDigits(d);
      DigitsAppend("(" + a + ") " + b + "-", d);
      DigitsAppend("(" + a + ") " + b, "-");
      DigitsAppend("(" + a + ") ", b);
      DigitsAppend("(" + a, ") ");
      DigitsAppend("(", a);
      assert Digits("(") == "" && Digits(") ") == "" && Digits("-") == "";
    }
  }

  /** Formatting formatted text changes nothing. */
  lemma FormatIdempotent(value: string)
    ensures FormatPhoneNumber(FormatPhoneNumber(value)) == FormatPhoneNumber(value)
  {
    FormatKeepsDigits(value);
  }

  /** The code box: digits only, at most six. */
  function SanitizeOtp(value: string): (r: string)
    ensures |r| <= 6 && AllDigits(r)
    ensures r <= Digits(value)
    ensures |Digits(value)| <= 6 ==> r == Digits(value)
    ensures |Digits(value)| > 6 ==> r == Digits(value)[..6]
  {
    var d := Digits(value);
    if |d| <= 6 then d else d[..6]
  }

  lemma SanitizeIdempotent(value: string)
    ensures SanitizeOtp(SanitizeOtp(value)) == SanitizeOtp(value)
  {
    DigitsOfDigits(SanitizeOtp(value));
  }

  /** One second of the countdown: at most 1 becomes 0, else one less. */
  function Tick(c: int): (r: int)
    ensures r >= 0
    ensures c >= 1 ==> r == c - 1
  {
    if c <= 1 then 0 else c - 1
  }

  function Ticks(c: int, k: nat): (r: int)
    ensures r >= 0 || k == 0
  {
    if k == 0 then c else Tick(Ticks(c, k - 1))
  }

  /** After `k` seconds the countdown shows `c - k`, and 0 from then on. */
  lemma {:induction false} TicksCount(c: nat, k: nat)
    ensures Ticks(c, k) == if k <= c then c - k else 0
  {
    if k > 0 {
      TicksCount(c, k - 1);
    }
  }

  /** The resend button comes back after exactly sixty seconds. */
  lemma ResendAfterSixty()
    ensures Ticks(ResendDelay, ResendDelay) == 0
    ensures forall k: nat :: k < ResendDelay ==> Ticks(ResendDelay, k) > 0
  {
    forall k: nat | k <= ResendDelay
      ensures Ticks(ResendDelay, k) == ResendDelay - k
    {
      TicksCount(ResendDelay, k);
    }
  }

  const ResendDelay: nat := 60
  const PhoneError: string := "Please enter a valid 10-digit phone number"
  const OtpError: string := "Please enter the 6-digit verification code"

  // ---------------------------------------------------------------------------
  // The form

  datatype Step = PhoneStep | OtpStep

  /** What `sendOtp` and `login` resolve to. */
  datatype Reply = Reply(success: bool, error: string)

  class PhoneAuthForm {
    var step: Step
    var phone: string
    var otp: string
    var error: string
    var countdown: int
    var loading: bool

    /** The code box holds at most six digits and the countdown is never
        negative. */
    ghost predicate Valid()
      reads this
    {
      |otp| <= 6 && AllDigits(otp) && countdown >= 0
    }

    constructor ()
      ensures Valid()
      ensures step == PhoneStep && phone == "" && otp == "" && error == "" && countdown == 0 && !loading
    {
      step, phone, otp, error, countdown, loading := PhoneStep, "", "", "", 0, false;
    }

    /** Typing in the phone box. */
    method SetPhoneInput(value: string)
      requires Valid()
      modifies this
      ensures Valid()
      ensures phone == FormatPhoneNumber(value)
      ensures step == old(step) && otp == old(otp) && error == old(error)
      ensures countdown == old(countdown) && loading == old(loading)
    {
      phone := FormatPhoneNumber(value);
    }

    /** Typing in the code box. */
    method SetOtpInput(value: string)
      requires Valid()
      modifies this
      ensures Valid()
      ensures otp == SanitizeOtp(value)
      ensures step == old(step) && phone == old(phone) && error == old(error)
      ensures countdown == old(countdown) && loading == old(loading)
    {
      otp := SanitizeOtp(value);
    }

    /** `handlePhoneSubmit`: a busy form ignores the submit; a phone without
        exactly ten digits only sets the error; otherwise the digits go to
        `sendOtp`, and on success the form moves to the code step with a
        sixty-second countdown. Returns what was sent, if anything. */
    method SubmitPhone(reply: Reply) returns (sent: Option<string>)
      requires Valid()
      modifies this
      ensures Valid()
      ensures old(loading) ==> sent.None? && step == old(step) && error == old(error) && countdown == old(countdown)
      ensures !old(loading) && |Digits(old(phone))| != 10 ==>
                sent.None? && error == PhoneError && step == old(step) && countdown == old(countdown)
      ensures !old(loading) && |Digits(old(phone))| == 10 ==> sent == Some(Digits(old(phone)))
      ensures sent.Some? && reply.success ==> step == OtpStep && countdown == ResendDelay && error == ""
      ensures sent.Some? && !reply.success ==>
                step == old(step) && countdown == old(countdown)
                && error == OrElse(reply.error, "Failed to send verification code")
      ensures phone == old(phone) && otp == old(otp) && loading == old(loading)
    {
      if loading {
        return None;
      }
      var cleanPhone := Digits(phone);
      if |cleanPhone| != 10 {
        error := PhoneError;
        return None;
      }
      loading := true;
      error := "";
      sent := Some(cleanPhone);
      if reply.success {
        step := OtpStep;
        countdown := ResendDelay;
      } else {
        error := OrElse(reply.error, "Failed to send verification code");
      }
      loading := false;
    }

    /** `handleOtpSubmit`: a busy form ignores the submit; a code that is not
        six characters only sets the error; otherwise the phone's digits and
        the code go to `login`; success runs `onSuccess` (when the modal was
        given one), closes the modal and resets the form; failure only sets
        the error. Returns the login call, if any, whether `onSuccess` ran and
        whether the modal was closed. */
    method SubmitOtp(reply: Reply, hasOnSuccess: bool)
      returns (login: Option<(string, string)>, successCalled: bool, closed: bool)
      requires Valid()
      modifies this
      ensures Valid()
      ensures old(loading) ==>
                login.None? && !successCalled && !closed
                && step == old(step) && phone == old(phone) && otp == old(otp)
                && error == old(error) && countdown == old(countdown)
      ensures !old(loading) && |old(otp)| != 6 ==>
                login.None? && !successCalled && !closed && error == OtpError
                && step == old(step) && phone == old(phone) && otp == old(otp) && countdown == old(countdown)
      ensures !old(loading) && |old(otp)| == 6 ==> login == Some((Digits(old(phone)), old(otp)))
      ensures login.Some? && reply.success ==>
                closed && (successCalled <==> hasOnSuccess)
                && step == PhoneStep && phone == "" && otp == "" && error == "" && countdown == 0
      ensures login.Some? && !reply.success ==>
                !closed && !successCalled
                && step == old(step) && phone == old(phone) && otp == old(otp) && countdown == old(countdown)
                && error == OrElse(reply.error, "Invalid verification code")
      ensures loading == old(loading)
    {
      if loading {
        return None, false, false;
      }
      if |otp| != 6 {
        error := OtpError;
        return None, false, false;
      }
      loading := true;
      error := "";
      login := Some((Digits(phone), otp));
      if reply.success {
        successCalled := hasOnSuccess;
        closed := true;
        ResetForm();
      } else {
        error := OrElse(reply.error, "Invalid verification code");
        successCalled, closed := false, false;
      }
      loading := false;
    }

    /** `resendOtp`: nothing while the countdown runs; otherwise the phone's
        digits go to `sendOtp` again and success restarts the countdown. */
    method ResendOtp(reply: Reply) returns (sent: Option<string>)
      requires Valid()
      modifies this
      ensures Valid()
      ensures old(countdown) > 0 ==> sent.None? && error == old(error) && countdown == old(countdown)
      ensures old(countdown) <= 0 ==> sent == Some(Digits(old(phone)))
      ensures sent.Some? && reply.success ==> countdown == ResendDelay && error == ""
      ensures sent.Some? && !reply.success ==>
                countdown == old(countdown) && error == OrElse(reply.error, "Failed to resend code")
      ensures step == old(step) && phone == old(phone) && otp == old(otp) && loading == old(loading)
    {
      if countdown > 0 {
        return None;
      }
      var wasLoading := loading;
      loading := true;
      error := "";
      sent := Some(Digits(phone));
      if reply.success {
        countdown := ResendDelay;
      } else {
        error := OrElse(reply.error, "Failed to resend code");
      }
      loading := wasLoading;
    }

    /** One second of the interval timer. */
    method TickCountdown()
      requires Valid()
      modifies this
      ensures Valid()
      ensures countdown == Tick(old(countdown))
      ensures step == old(step) && phone == old(phone) && otp == old(otp) && error == old(error)
      ensures loading == old(loading)
    {
      countdown := Tick(countdown);
    }

    /** `resetForm`: back to an empty phone step. */
    method ResetForm()
      modifies this
      ensures Valid()
      ensures step == PhoneStep && phone == "" && otp == "" && error == "" && countdown == 0
      ensures loading == old(loading)
    {
      step, phone, otp, error, countdown := PhoneStep, "", "", "", 0;
    }

    /** `handleClose`: reset, then close. */
    method HandleClose() returns (closed: bool)
      modifies this
      ensures Valid()
      ensures closed
      ensures step == PhoneStep && phone == "" && otp == "" && error == "" && countdown == 0
    {
      ResetForm();
      closed := true;
    }

    /** "Change phone number": back to the phone step, all else kept. */
    method ChangePhone()
      requires Valid()
      modifies this
      ensures Valid()
      ensures step == PhoneStep
      ensures phone == old(phone) && otp == old(otp) && error == old(error)
      ensures countdown == old(countdown) && loading == old(loading)
    {
      step := PhoneStep;
    }
  }

  /** A signed-out visitor's path: type a ten-digit phone, send, type the
      code, verify; the modal closes and the form is empty again. */
  method SignInScenario(typed: string, code: string)
    requires |Digits(typed)| == 10
    requires |code| == 6 && AllDigits(code)
  {
    var form := new PhoneAuthForm();
    form.SetPhoneInput(typed);
    FormatKeepsDigits(typed);
    var sent := form.SubmitPhone(Reply(true, ""));
    assert sent == Some(Digits(typed));
    assert form.step == OtpStep && form.countdown == 60;
    var again := form.ResendOtp(Reply(true, ""));
    assert again.None?;
    form.SetOtpInput(code);
    DigitsOfDigits(code);
    var login, successCalled, closed := form.SubmitOtp(Reply(true, ""), true);
    assert login == Some((Digits(typed), code));
    assert successCalled && closed && form.step == PhoneStep && form.phone == "";
  }
}
