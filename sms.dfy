/** The pluggable SMS sender: the provider factory, the lazily created
    process-wide instance, each provider's `sendSms` and the shared
    10-to-15-digit phone validator. The network call of the Twilio client is
    an input (`TwilioReply`); the console provider's clock is an input. */
module Sms {
  import opened Util

  /** `Record<string, string>` of credentials as `getSmsService` fills it. */
  datatype Credentials = Credentials(
    accountSid: string,
    authToken: string,
    fromNumber: string,
    apiKey: string,
    apiSecret: string)

  datatype SmsConfig = SmsConfig(provider: string, credentials: Credentials, defaultFrom: string)

  /** The four provider classes with the constructor arguments they keep. */
  datatype Provider =
    | TwilioProvider(accountSid: string, authToken: string, fromNumber: string)
    | VonageProvider(apiKey: string, apiSecret: string, vonageFrom: string)
    | MessageBirdProvider(birdKey: string, birdFrom: string)
    | ConsoleProvider
  {
    /** `validatePhoneNumber`, identical in every provider: 10 to 15 digits
        once every non-digit character is stripped. */
    predicate ValidatePhoneNumber(phoneNumber: string)
    {
      10 <= |Digits(phoneNumber)| <= 15
    }
  }

  datatype Result<+T> = Ok(value: T) | Err(message: string)

  /** `createSmsProvider`: a switch on the configured name; anything else,
      the declared-but-unwired `'messagebird'` included, throws. */
  function CreateSmsProvider(config: SmsConfig): (r: Result<Provider>)
    ensures r.Ok? <==> config.provider in {"twilio", "vonage", "console"}
    ensures r.Ok? ==> !r.value.MessageBirdProvider?
    ensures r.Err? ==> r.message == "Unsupported SMS provider: " + config.provider
    ensures config.provider == "twilio" ==>
      r == Ok(TwilioProvider(config.credentials.accountSid, config.credentials.authToken,
                             OrElse(config.defaultFrom, config.credentials.fromNumber)))
    ensures config.provider == "vonage" ==>
      r == Ok(VonageProvider(OrElse(config.credentials.apiKey, config.credentials.accountSid),
                             OrElse(config.credentials.apiSecret, config.credentials.authToken),
                             OrElse(config.defaultFrom, config.credentials.fromNumber)))
    ensures config.provider == "console" ==> r == Ok(ConsoleProvider)
  {
    var c := config.credentials;
    match config.provider
    case "twilio" => Ok(TwilioProvider(c.accountSid, c.authToken, OrElse(config.defaultFrom, c.fromNumber)))
    case "vonage" => Ok(VonageProvider(OrElse(c.apiKey, c.accountSid), OrElse(c.apiSecret, c.authToken),
                                       OrElse(config.defaultFrom, c.fromNumber)))
    case "console" => Ok(ConsoleProvider)
    case _ => Err("Unsupported SMS provider: " + config.provider)
  }

  /** The environment variables `getSmsService` reads; an unset variable is "". */
  datatype Env = Env(
    smsProvider: string,
    twilioAccountSid: string,
    twilioAuthToken: string,
    twilioFromNumber: string,
    vonageApiKey: string,
    vonageApiSecret: string,
    vonageFromNumber: string,
    smsFromNumber: string)

  /** The configuration `getSmsService` builds from the environment. */
  function ConfigFromEnv(env: Env): (config: SmsConfig)
    ensures env.smsProvider == "" ==> config.provider == "console"
    ensures env.smsProvider != "" ==> config.provider == env.smsProvider
    ensures config.defaultFrom ==
      (if env.smsFromNumber != "" then env.smsFromNumber
       else if env.vonageFromNumber != "" then env.vonageFromNumber
       else env.twilioFromNumber)
  {
    SmsConfig(
      OrElse(env.smsProvider, "console"),
      Credentials(env.twilioAccountSid, env.twilioAuthToken, env.twilioFromNumber,
                  env.vonageApiKey, env.vonageApiSecret),
      OrElse(env.smsFromNumber, OrElse(env.vonageFromNumber, env.twilioFromNumber)))
  }

  /** With no configuration at all the console provider is used. */
  lemma DefaultIsConsole(env: Env)
    requires env.smsProvider == ""
    ensures CreateSmsProvider(ConfigFromEnv(env)) == Ok(ConsoleProvider)
  {
  }

  /** The module-level `smsService` variable and its lazy initialiser. */
  class SmsServiceHolder {
    var smsService: Option<Provider>

    constructor ()
      ensures smsService == None
    {
      smsService := None;
    }

    /** `getSmsService`: builds the provider on the first call only and
        returns that same provider ever after; a factory error propagates and
        leaves the slot empty, so a later call tries again. */
    method GetSmsService(env: Env) returns (r: Result<Provider>)
      modifies this
      ensures old(smsService).Some? ==> r == Ok(old(smsService).value) && smsService == old(smsService)
      ensures old(smsService).None? ==> r == CreateSmsProvider(ConfigFromEnv(env))
      ensures old(smsService).None? ==> smsService == (if r.Ok? then Some(r.value) else None)
    {
      if smsService.None? {
        var created := CreateSmsProvider(ConfigFromEnv(env));
        if created.Err? {
          return created;
        }
        smsService := Some(created.value);
      }
      r := Ok(smsService.value);
    }
  }

  /** A client of the singleton: once a call has succeeded, a later call with
      a different environment still hands back the first provider. */
  method SingletonClient(first: Env, later: Env)
  {
    var holder := new SmsServiceHolder();
    var a := holder.GetSmsService(first);
    var b := holder.GetSmsService(later);
    assert a.Ok? ==> b == a;
  }

  // ---------------------------------------------------------------------------
  // Sending

  datatype SmsResult = SmsResult(success: bool, messageId: Option<string>, error: Option<string>)

  /** What a call of `sendSms` does: it returns a result or it throws. */
  datatype SendOutcome = Returned(result: SmsResult) | Threw(message: string)

  /** What the Twilio SDK's `messages.create` does: resolves with a message
      sid, or rejects with an `Error` carrying a message, or with a non-Error. */
  datatype TwilioReply = Accepted(sid: string) | RejectedWith(errorMessage: string) | RejectedOther

  /** The request handed to the Twilio SDK. */
  datatype TwilioMessage = TwilioMessage(body: string, from: string, to: string)

  /** Twilio wants E.164: `+` is put in front unless the number already has it. */
  function TwilioDestination(to: string): (d: string)
    ensures |d| >= 1 && d[0] == '+'
    ensures d == to || d == "+" + to
    ensures to != [] && to[0] == '+' ==> d == to
  {
    if |to| >= 1 && to[0] == '+' then to else "+" + to
  }

  /** Prefixing twice is prefixing once. */
  lemma TwilioDestinationIdempotent(to: string)
    ensures TwilioDestination(TwilioDestination(to)) == TwilioDestination(to)
  {
  }

  /** The text `messageId` of the console provider: `console_` and the clock. */
  function ConsoleMessageId(clock: nat): (id: string)
    ensures "console_" <= id
  {
    "console_" + NatToDecimal(clock)
  }

  /** `sendSms` of each provider. Twilio never throws: a rejection becomes
      `success = false` with the error's message (or a fixed text); the console
      provider always succeeds; the Vonage and MessageBird placeholders always throw.
      `twilio` is the SDK's answer to the request it is handed. */
  function SendSms(p: Provider, to: string, message: string, twilio: TwilioMessage -> TwilioReply,
                   clock: nat): (o: SendOutcome)
    ensures p.ConsoleProvider? ==> o.Returned? && o.result.success && o.result.messageId.Some?
                                   && "console_" <= o.result.messageId.value
    ensures p.VonageProvider? || p.MessageBirdProvider? ==> o.Threw?
    ensures p.TwilioProvider? ==> o.Returned?
    ensures o.Returned? ==> (o.result.success <==> o.result.messageId.Some?)
    ensures o.Returned? ==> (o.result.success <==> o.result.error.None?)
    ensures p.TwilioProvider? ==>
              (o.result.success <==> twilio(TwilioMessage(message, p.fromNumber, TwilioDestination(to))).Accepted?)
  {
    match p
    case TwilioProvider(_, _, fromNumber) =>
      (match twilio(TwilioMessage(message, fromNumber, TwilioDestination(to)))
       case Accepted(sid) => Returned(SmsResult(true, Some(sid), None))
       case RejectedWith(m) => Returned(SmsResult(false, None, Some(m)))
       case RejectedOther => Returned(SmsResult(false, None, Some("Failed to send SMS"))))
    case VonageProvider(_, _, _) => Threw("Vonage provider not implemented yet")
    case MessageBirdProvider(_, _) => Threw("MessageBird provider not implemented yet")
    case ConsoleProvider => Returned(SmsResult(true, Some(ConsoleMessageId(clock)), None))
  }

  /** Validation looks only at the digits: punctuation never changes the verdict. */
  lemma ValidationIgnoresPunctuation(p: Provider, a: string, b: string)
    requires Digits(a) == Digits(b)
    ensures p.ValidatePhoneNumber(a) <==> p.ValidatePhoneNumber(b)
  {
  }

  /** Inserting separators into a number never makes it valid or invalid. */
  lemma {:induction false} ValidationIgnoresSeparators(p: Provider, digits: string, junk: string)
    requires AllDigits(digits)
    requires forall i :: 0 <= i < |junk| ==> !IsDigit(junk[i])
    ensures p.ValidatePhoneNumber(junk + digits + junk) <==> p.ValidatePhoneNumber(digits)
  {
    NoDigitsStripped(junk);
    DigitsAppend(junk, digits);
    DigitsAppend(junk + digits, junk);
    DigitsOfDigits(digits);
  }

  lemma {:induction false} NoDigitsStripped(s: string)
    requires forall i :: 0 <= i < |s| ==> !IsDigit(s[i])
    ensures Digits(s) == ""
  {
    if s != [] {
      NoDigitsStripped(s[1..]);
    }
  }

  /** The validator's bounds: exactly 10..15 digits are accepted, so 9 and 16 are not. */
  lemma ValidationBounds(p: Provider, s: string)
    ensures |Digits(s)| == 9 || |Digits(s)| == 16 ==> !p.ValidatePhoneNumber(s)
    ensures |Digits(s)| == 10 || |Digits(s)| == 15 ==> p.ValidatePhoneNumber(s)
  {
  }
}
