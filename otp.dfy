/** Phone-number one-time-password authentication: the `send-otp` and
    `verify-otp` routes over a store holding one credential record per
    canonical phone number.

    Time is a natural number of milliseconds; `NODE_ENV` is the `mode`
    parameter; the random code is a caller-supplied number in
    [100000, 999999]; the SMS send is its outcome (module `Sms`); the signed
    session token is an opaque value. */
module OtpAuth {
  import opened Util
  import Sms

  const CooldownMs: nat := 5 * 60 * 1000
  const ValidityMs: nat := 10 * 60 * 1000
  const MaxAttempts: nat := 3
  const SessionSeconds: nat := 7 * 24 * 60 * 60
  const CodeMin: nat := 100000
  const CodeMax: nat := 999999

  // ---------------------------------------------------------------------------
  // Normalisation

  /** Strip every non-digit, then put a `1` in front unless the digits
      already start with `1`. No length is checked. */
  function Normalize(raw: string): (p: string)
    ensures |p| >= 1 && p[0] == '1' && AllDigits(p)
    ensures p == Digits(raw) || p == "1" + Digits(raw)
    ensures p == Digits(raw) <==> Digits(raw) != [] && Digits(raw)[0] == '1'
  {
    var digits := Digits(raw);
    if |digits| > 0 && digits[0] == '1' then digits else "1" + digits
  }

  /** The shape of every key of the store. */
  predicate Canonical(p: string)
  {
    |p| >= 1 && p[0] == '1' && AllDigits(p)
  }

  /** Normalisation always yields a canonical number, its fixed points are
      exactly the canonical numbers, and so it is idempotent. */
  lemma NormalizeFixpoints(raw: string)
    ensures Canonical(Normalize(raw))
    ensures Normalize(raw) == raw <==> Canonical(raw)
    ensures Normalize(Normalize(raw)) == Normalize(raw)
  {
    var n := Normalize(raw);
    assert Canonical(n);
    if Canonical(raw) {
      DigitsOfDigits(raw);
    }
    DigitsOfDigits(n);
  }

  /** Only the digits matter: two inputs with the same digits (any
      punctuation, spaces or a leading `+`) land on the same record. */
  lemma NormalizeIgnoresPunctuation(a: string, b: string)
    requires Digits(a) == Digits(b)
    ensures Normalize(a) == Normalize(b)
  {
  }

  /** A local number and the same number with the `1` country code already
      in front name the same record, when the local part does not itself
      start with `1`. */
  lemma {:induction false} NormalizeCountryCode(local: string)
    requires AllDigits(local) && (local == [] || local[0] != '1')
    ensures Normalize(local) == Normalize("1" + local)
    ensures Normalize(local) == "1" + local
  {
    DigitsOfDigits(local);
    DigitsOfDigits("1" + local);
  }

  // ---------------------------------------------------------------------------
  // The credential record

  datatype Credential = Credential(
    otpCode: Option<string>,
    otpExpiry: Option<nat>,
    otpAttempts: nat,
    lastOtpSent: Option<nat>,
    phoneVerified: bool)

  /** `Math.floor(100000 + Math.random() * 900000).toString()`. */
  predicate IsCodeText(s: string)
  {
    |s| == 6 && AllDigits(s) && s[0] != '0'
  }

  /** The record invariant: code, expiry and send time are present together;
      the expiry is ten minutes after the send; attempts never pass the ceiling. */
  predicate WellFormed(c: Credential)
  {
    && (c.otpCode.Some? <==> c.otpExpiry.Some?)
    && (c.otpExpiry.Some? <==> c.lastOtpSent.Some?)
    && (c.otpExpiry.Some? ==> c.otpExpiry.value == c.lastOtpSent.value + ValidityMs)
    && (c.otpCode.Some? ==> IsCodeText(c.otpCode.value))
    && c.otpAttempts <= MaxAttempts
  }

  type Store = map<string, Credential>

  predicate ValidStore(s: Store)
  {
    forall p :: p in s ==> Canonical(p) && WellFormed(s[p])
  }

  /** The code issued for random number `code` is six decimal digits. */
  lemma CodeText(code: nat)
    requires CodeMin <= code <= CodeMax
    ensures IsCodeText(NatToDecimal(code))
  {
    assert Pow10(5) == 100000 && Pow10(6) == 1000000;
    DecimalLength(code, 6);
  }

  /** The SMS text sent with the code. */
  function OtpMessage(otpCode: string): (m: string)
    ensures Contains(m, otpCode)
  {
    var m := "Your PropertyHub verification code is: " + otpCode + ". This code will expire in 10 minutes.";
    ContainsMiddle("Your PropertyHub verification code is: ", otpCode,
                   ". This code will expire in 10 minutes.");
    m
  }

  lemma {:induction false} ContainsMiddle(a: string, t: string, b: string)
    ensures Contains(a + t + b, t)
  {
    if a == [] {
      assert a + t + b == t + b;
      assert t <= t + b;
    } else {
      assert (a + t + b)[1..] == a[1..] + t + b;
      ContainsMiddle(a[1..], t, b);
    }
  }

  // ---------------------------------------------------------------------------
  // send-otp

  datatype IssueReply =
    | OtpSent(phone: string, echoedOtp: Option<string>)
    | PhoneRequired
    | WaitBeforeRetry
    | SendFailed
  {
    function Status(): nat
    {
      match this
      case OtpSent(_, _) => 200
      case PhoneRequired => 400
      case WaitBeforeRetry => 429
      case SendFailed => 500
    }
  }

  /** `!phone` in the route: the field is absent or the empty string. */
  predicate Missing(field: Option<string>)
  {
    field.None? || field.value == ""
  }

  /** A code went out to `p` less than five minutes before `now`. */
  predicate RecentlySent(s: Store, p: string, now: nat)
  {
    p in s && s[p].lastOtpSent.Some? && s[p].lastOtpSent.value > now - CooldownMs
  }

  /** The production-only cooldown. */
  predicate RateLimited(s: Store, p: string, now: nat, mode: string)
  {
    mode == "production" && RecentlySent(s, p, now)
  }

  /** The upsert of `send-otp`: record `p` of `s'` holds the new code, its
      expiry and send time and a zero attempt count; an existing record keeps
      its verified flag, a new one starts unverified; no other record changes. */
  predicate Upserted(s: Store, s': Store, p: string, otpCode: string, now: nat)
  {
    && s'.Keys == s.Keys + {p}
    && s'[p].otpCode == Some(otpCode)
    && s'[p].otpExpiry == Some(now + ValidityMs)
    && s'[p].otpAttempts == 0
    && s'[p].lastOtpSent == Some(now)
    && s'[p].phoneVerified == (p in s && s[p].phoneVerified)
    && forall q :: q in s && q != p ==> s'[q] == s[q]
  }

  /** One `send-otp` request. `sent` is what the SMS sender did; a sender
      that could not be created counts as one that threw. */
  function IssueStep(s: Store, phone: Option<string>, now: nat, mode: string, code: nat,
                     sent: Sms.SendOutcome): (r: (Store, IssueReply))
    requires CodeMin <= code <= CodeMax
    // a missing or empty phone is the only input rejected with 400
    ensures Missing(phone) <==> r.1 == PhoneRequired
    ensures Missing(phone) ==> r.0 == s
    // the cooldown fires only in production, leaving the store as it was
    ensures r.1 == WaitBeforeRetry <==> !Missing(phone) && RateLimited(s, Normalize(phone.value), now, mode)
    ensures r.1 == WaitBeforeRetry ==> r.0 == s
    // otherwise the record is upserted before the SMS is attempted
    ensures r.1.OtpSent? || r.1.SendFailed? ==> Upserted(s, r.0, Normalize(phone.value), NatToDecimal(code), now)
    // an SMS that reports failure is ignored; only a thrown error turns into 500
    ensures r.1.SendFailed? <==> !Missing(phone) && !RateLimited(s, Normalize(phone.value), now, mode) && sent.Threw?
    // the reply names the canonical phone and echoes the code only in development
    ensures r.1.OtpSent? ==> r.1.phone == Normalize(phone.value)
    ensures r.1.OtpSent? ==> r.1.echoedOtp == (if mode == "development" then Some(NatToDecimal(code)) else None)
  {
    if Missing(phone) then (s, PhoneRequired)
    else
      var p := Normalize(phone.value);
      if RateLimited(s, p, now, mode) then (s, WaitBeforeRetry)
      else
        var otpCode := NatToDecimal(code);
        var rec :=
          if p in s then s[p].(otpCode := Some(otpCode), otpExpiry := Some(now + ValidityMs),
                               otpAttempts := 0, lastOtpSent := Some(now))
          else Credential(Some(otpCode), Some(now + ValidityMs), 0, Some(now), false);
        var s' := s[p := rec];
        if sent.Threw? then (s', SendFailed)
        else (s', OtpSent(p, if mode == "development" then Some(otpCode) else None))
  }

  /** Issuing keeps every record well formed and every key canonical. */
  lemma IssuePreservesValid(s: Store, phone: Option<string>, now: nat, mode: string, code: nat,
                            sent: Sms.SendOutcome)
    requires CodeMin <= code <= CodeMax
    requires ValidStore(s)
    ensures ValidStore(IssueStep(s, phone, now, mode, code, sent).0)
  {
    if !Missing(phone) {
      CodeText(code);
      NormalizeFixpoints(phone.value);
    }
  }

  /** An SMS send that reports failure changes nothing compared with one that succeeds. */
  lemma SmsFailureTolerated(s: Store, phone: Option<string>, now: nat, mode: string, code: nat,
                            ok: Sms.SmsResult, failed: Sms.SmsResult)
    requires CodeMin <= code <= CodeMax
    ensures IssueStep(s, phone, now, mode, code, Sms.Returned(failed))
         == IssueStep(s, phone, now, mode, code, Sms.Returned(ok))
  {
  }

  /** With the Vonage placeholder as sender, every accepted request writes the
      record and then answers 500. */
  lemma VonageIssueFails(s: Store, raw: string, now: nat, mode: string, code: nat,
                         vonage: Sms.Provider, twilio: Sms.TwilioMessage -> Sms.TwilioReply, clock: nat)
    requires CodeMin <= code <= CodeMax
    requires raw != "" && !RateLimited(s, Normalize(raw), now, mode)
    requires vonage.VonageProvider?
    ensures var sent := Sms.SendSms(vonage, Normalize(raw), OtpMessage(NatToDecimal(code)), twilio, clock);
            var r := IssueStep(s, Some(raw), now, mode, code, sent);
            r.1 == SendFailed && r.1.Status() == 500
            && Upserted(s, r.0, Normalize(raw), NatToDecimal(code), now)
  {
  }

  // ---------------------------------------------------------------------------
  // verify-otp

  /** The signed session token, opaque: the claims it carries and its lifetime. */
  datatype Token = Token(phone: string, phoneVerified: bool, lifetimeSeconds: nat)

  datatype Cookie = Cookie(name: string, token: Token, httpOnly: bool, secure: bool,
                           sameSite: string, maxAge: nat)

  datatype VerifyReply =
    | PhoneVerified(phone: string, cookie: Cookie)
    | FieldsRequired
    | UnknownPhone
    | CodeExpired
    | TooManyAttempts
    | WrongCode
  {
    function Status(): nat
    {
      match this
      case PhoneVerified(_, _) => 200
      case TooManyAttempts => 429
      case _ => 400
    }
  }

  /** `!user.otpExpiry || user.otpExpiry < now`: expiry itself is still valid. */
  predicate Expired(c: Credential, now: nat)
  {
    c.otpExpiry.None? || c.otpExpiry.value < now
  }

  /** The session cookie: seven days, http-only, lax, secure in production. */
  function SessionCookie(p: string, mode: string): (k: Cookie)
    ensures k.name == "auth-token" && k.httpOnly && k.sameSite == "lax"
    ensures k.maxAge == k.token.lifetimeSeconds == 604800
    ensures k.secure <==> mode == "production"
    ensures k.token.phone == p && k.token.phoneVerified
  {
    Cookie("auth-token", Token(p, true, SessionSeconds), true, mode == "production", "lax", SessionSeconds)
  }

  /** The record after a successful verification. */
  function Cleared(c: Credential): Credential
  {
    c.(phoneVerified := true, otpCode := None, otpExpiry := None, otpAttempts := 0, lastOtpSent := None)
  }

  /** One `verify-otp` request. */
  function VerifyStep(s: Store, phone: Option<string>, otp: Option<string>, now: nat, mode: string)
    : (r: (Store, VerifyReply))
    // checked in this order: missing field, unknown phone, expiry, attempt ceiling, code
    ensures Missing(phone) || Missing(otp) ==> r == (s, FieldsRequired)
    ensures !Missing(phone) && !Missing(otp) && Normalize(phone.value) !in s ==> r == (s, UnknownPhone)
    ensures !Missing(phone) && !Missing(otp) && Normalize(phone.value) in s ==>
      var c := s[Normalize(phone.value)];
      && (Expired(c, now) ==> r == (s, CodeExpired))
      && (!Expired(c, now) && c.otpAttempts >= MaxAttempts ==> r == (s, TooManyAttempts))
      && (!Expired(c, now) && c.otpAttempts < MaxAttempts && c.otpCode != otp ==>
            r == (s[Normalize(phone.value) := c.(otpAttempts := c.otpAttempts + 1)], WrongCode))
    // success exactly when every check passes and the code matches
    ensures r.1.PhoneVerified? <==>
      && !Missing(phone) && !Missing(otp)
      && var p := Normalize(phone.value);
      && p in s && !Expired(s[p], now) && s[p].otpAttempts < MaxAttempts && s[p].otpCode == otp
    // only a mismatch or a success writes, and only to the record looked up
    ensures r.0 != s ==> r.1.WrongCode? || r.1.PhoneVerified?
    ensures r.1.WrongCode? || r.1.PhoneVerified? ==>
      var p := Normalize(phone.value);
      && p in s && r.0.Keys == s.Keys
      && (forall q :: q in s && q != p ==> r.0[q] == s[q])
      && (r.1.WrongCode? ==> r.0[p] == s[p].(otpAttempts := s[p].otpAttempts + 1))
      && (r.1.PhoneVerified? ==> r.0[p] == Cleared(s[p]) && r.1.cookie == SessionCookie(p, mode))
  {
    if Missing(phone) || Missing(otp) then (s, FieldsRequired)
    else
      var p := Normalize(phone.value);
      if p !in s then (s, UnknownPhone)
      else
        var c := s[p];
        if Expired(c, now) then (s, CodeExpired)
        else if c.otpAttempts >= MaxAttempts then (s, TooManyAttempts)
        else if c.otpCode != otp then (s[p := c.(otpAttempts := c.otpAttempts + 1)], WrongCode)
        else (s[p := Cleared(c)], PhoneVerified(p, SessionCookie(p, mode)))
  }

  /** Verifying keeps every record well formed: in particular a mismatch is
      counted only below the ceiling, so the count never exceeds three. */
  lemma VerifyPreservesValid(s: Store, phone: Option<string>, otp: Option<string>, now: nat, mode: string)
    requires ValidStore(s)
    ensures ValidStore(VerifyStep(s, phone, otp, now, mode).0)
  {
  }

  // ---------------------------------------------------------------------------
  // The store, updated in place

  class CredentialStore {
    var records: Store

    ghost predicate Valid()
      reads this
    {
      ValidStore(records)
    }

    constructor ()
      ensures Valid() && records == map[]
    {
      records := map[];
    }

    /** `POST /api/auth/send-otp`. */
    method Issue(phone: Option<string>, now: nat, mode: string, code: nat, sent: Sms.SendOutcome)
      returns (reply: IssueReply)
      requires Valid()
      requires CodeMin <= code <= CodeMax
      modifies this
      ensures Valid()
      ensures (records, reply) == IssueStep(old(records), phone, now, mode, code, sent)
    {
      IssuePreservesValid(records, phone, now, mode, code, sent);
      if phone.None? || phone.value == "" {
        return PhoneRequired;
      }
      var fullPhone := Normalize(phone.value);
      var existing := if fullPhone in records then Some(records[fullPhone]) else None;
      if mode == "production" && existing.Some? && existing.value.lastOtpSent.Some?
         && existing.value.lastOtpSent.value > now - CooldownMs {
        return WaitBeforeRetry;
      }
      var otpCode := NatToDecimal(code);
      var otpExpiry := now + ValidityMs;
      if existing.Some? {
        records := records[fullPhone := existing.value.(otpCode := Some(otpCode), otpExpiry := Some(otpExpiry),
                                                        otpAttempts := 0, lastOtpSent := Some(now))];
      } else {
        records := records[fullPhone := Credential(Some(otpCode), Some(otpExpiry), 0, Some(now), false)];
      }
      if sent.Threw? {
        return SendFailed;
      }
      reply := OtpSent(fullPhone, if mode == "development" then Some(otpCode) else None);
    }

    /** `POST /api/auth/verify-otp`. */
    method Verify(phone: Option<string>, otp: Option<string>, now: nat, mode: string)
      returns (reply: VerifyReply)
      requires Valid()
      modifies this
      ensures Valid()
      ensures (records, reply) == VerifyStep(old(records), phone, otp, now, mode)
    {
      VerifyPreservesValid(records, phone, otp, now, mode);
      if phone.None? || phone.value == "" || otp.None? || otp.value == "" {
        return FieldsRequired;
      }
      var fullPhone := Normalize(phone.value);
      if fullPhone !in records {
        return UnknownPhone;
      }
      var user := records[fullPhone];
      if user.otpExpiry.None? || user.otpExpiry.value < now {
        return CodeExpired;
      }
      if user.otpAttempts >= 3 {
        return TooManyAttempts;
      }
      if user.otpCode != otp {
        records := records[fullPhone := user.(otpAttempts := user.otpAttempts + 1)];
        return WrongCode;
      }
      records := records[fullPhone := Cleared(user)];
      reply := PhoneVerified(fullPhone, SessionCookie(fullPhone, mode));
    }
  }

  // ---------------------------------------------------------------------------
  // Scenarios over several requests

  /** Issuing to a raw phone and verifying the issued code with the same raw
      phone before the expiry succeeds and marks the phone verified. */
  lemma IssueThenVerify(s: Store, raw: string, now: nat, later: nat, mode: string, code: nat,
                        sent: Sms.SendOutcome)
    requires CodeMin <= code <= CodeMax
    requires raw != "" && !RateLimited(s, Normalize(raw), now, mode)
    requires now <= later <= now + ValidityMs
    ensures var s1 := IssueStep(s, Some(raw), now, mode, code, sent).0;
            var r := VerifyStep(s1, Some(raw), Some(NatToDecimal(code)), later, mode);
            r.1.PhoneVerified? && r.1.Status() == 200 && r.0[Normalize(raw)].phoneVerified
            && r.0[Normalize(raw)].otpCode.None? && r.1.cookie.maxAge == SessionSeconds
  {
    CodeText(code);
  }

  /** Three wrong codes exhaust the attempts: the correct code after them is
      refused with 429 and the count stays at three. */
  lemma ThreeMismatchesThenCorrect(s: Store, raw: string, now: nat, mode: string, code: nat,
                                   sent: Sms.SendOutcome, w1: string, w2: string, w3: string,
                                   t1: nat, t2: nat, t3: nat, t4: nat)
    requires CodeMin <= code <= CodeMax
    requires raw != "" && !RateLimited(s, Normalize(raw), now, mode)
    requires w1 != "" && w2 != "" && w3 != ""
    requires w1 != NatToDecimal(code) && w2 != NatToDecimal(code) && w3 != NatToDecimal(code)
    requires t1 <= now + ValidityMs && t2 <= now + ValidityMs && t3 <= now + ValidityMs && t4 <= now + ValidityMs
    ensures var s0 := IssueStep(s, Some(raw), now, mode, code, sent).0;
            var v1 := VerifyStep(s0, Some(raw), Some(w1), t1, mode);
            var v2 := VerifyStep(v1.0, Some(raw), Some(w2), t2, mode);
            var v3 := VerifyStep(v2.0, Some(raw), Some(w3), t3, mode);
            var v4 := VerifyStep(v3.0, Some(raw), Some(NatToDecimal(code)), t4, mode);
            && v1.1 == WrongCode && v2.1 == WrongCode && v3.1 == WrongCode
            && v4.1 == TooManyAttempts && v4.1.Status() == 429
            && v4.0 == v3.0 && v4.0[Normalize(raw)].otpAttempts == MaxAttempts
  {
    var p := Normalize(raw);
    var issued := IssueStep(s, Some(raw), now, mode, code, sent);
    assert issued.1.OtpSent? || issued.1.SendFailed?;
    var s0 := issued.0;
    assert p in s0 && s0[p].otpCode == Some(NatToDecimal(code)) && s0[p].otpAttempts == 0;
    assert s0[p].otpExpiry == Some(now + ValidityMs);
    var v1 := VerifyStep(s0, Some(raw), Some(w1), t1, mode);
    assert v1.0[p] == s0[p].(otpAttempts := 1);
    var v2 := VerifyStep(v1.0, Some(raw), Some(w2), t2, mode);
    assert v2.0[p] == s0[p].(otpAttempts := 2);
    var v3 := VerifyStep(v2.0, Some(raw), Some(w3), t3, mode);
    assert v3.0[p] == s0[p].(otpAttempts := 3);
  }

  /** After a successful verification the same code is refused as expired,
      even at the same instant. */
  lemma ReplayRejected(s: Store, raw: string, otp: string, now: nat, later: nat, mode: string)
    requires VerifyStep(s, Some(raw), Some(otp), now, mode).1.PhoneVerified?
    ensures VerifyStep(VerifyStep(s, Some(raw), Some(otp), now, mode).0, Some(raw), Some(otp), later, mode).1
            == CodeExpired
  {
  }

  /** A successful verification clears the send time, so an immediate
      re-issue is not held back by the cooldown, even in production. */
  lemma ReissueAfterVerify(s: Store, raw: string, otp: string, now: nat, later: nat, mode: string,
                           code: nat, sent: Sms.SendOutcome)
    requires CodeMin <= code <= CodeMax
    requires VerifyStep(s, Some(raw), Some(otp), now, mode).1.PhoneVerified?
    ensures IssueStep(VerifyStep(s, Some(raw), Some(otp), now, mode).0, Some(raw), later, mode, code, sent).1
            != WaitBeforeRetry
  {
  }

  /** In production a second request within five minutes is refused with 429
      and writes nothing; in any other mode it is served. */
  lemma CooldownOnlyInProduction(s: Store, raw: string, now: nat, later: nat, mode: string,
                                 code1: nat, code2: nat, sent1: Sms.SendOutcome, sent2: Sms.SendOutcome)
    requires CodeMin <= code1 <= CodeMax && CodeMin <= code2 <= CodeMax
    requires raw != "" && !RateLimited(s, Normalize(raw), now, mode)
    requires now <= later < now + CooldownMs
    ensures var s1 := IssueStep(s, Some(raw), now, mode, code1, sent1).0;
            var r := IssueStep(s1, Some(raw), later, mode, code2, sent2);
            (mode == "production" ==> r == (s1, WaitBeforeRetry))
            && (mode != "production" ==> r.1 != WaitBeforeRetry)
  {
  }

  /** A verification request never creates a record. */
  lemma VerifyCreatesNothing(s: Store, phone: Option<string>, otp: Option<string>, now: nat, mode: string)
    ensures VerifyStep(s, phone, otp, now, mode).0.Keys == s.Keys
  {
  }
}
