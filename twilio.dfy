// The Twilio channel of src/communication/channels/twilio.py: its configuration
// checks, the SMS text, the script of a voice call, and which deliveries a `send`
// makes. The REST client and TwiML rendering are not modelled: a voice call is
// described by its list of verbs.
module Twilio {
  import opened Py
  import opened Hub

  datatype TwilioConfig = TwilioConfig(
    accountSid: string,
    authToken: string,
    fromNumber: string,
    toNumbers: seq<string>,
    voice: string,
    language: string)

  /** The placeholder SID of the example configuration: "AC" and thirty 'x'. */
  function PlaceholderSid(): (s: string)
    ensures |s| == 32 && s[..2] == "AC"
    ensures forall i :: 2 <= i < 32 ==> s[i] == 'x'
  {
    "AC" + seq(30, _ => 'x')
  }

  predicate SidConfigured(sid: string) {
    sid != [] && !StartsWith(sid, PlaceholderSid())
  }

  const NoSid: string := "TWILIO_ACCOUNT_SID not configured. Get your credentials at https://www.twilio.com/console"

  /** The constructor's checks, in the order the source makes them. */
  function ValidateConfig(cfg: TwilioConfig): (r: Result<TwilioConfig>)
    ensures r.Ok? <==> SidConfigured(cfg.accountSid) && cfg.authToken != []
                       && cfg.fromNumber != [] && cfg.toNumbers != []
    ensures r.Ok? ==> r.value == cfg
    ensures !SidConfigured(cfg.accountSid) ==> r == Err(NoSid)
    ensures SidConfigured(cfg.accountSid) && cfg.authToken == [] ==> r == Err("TWILIO_AUTH_TOKEN not configured")
  {
    if !SidConfigured(cfg.accountSid) then
      Err(NoSid)
    else if cfg.authToken == [] then
      Err("TWILIO_AUTH_TOKEN not configured")
    else if cfg.fromNumber == [] then
      Err("TWILIO_FROM_NUMBER not configured")
    else if cfg.toNumbers == [] then
      Err("TWILIO_TO_NUMBERS not configured")
    else
      Ok(cfg)
  }

  /** Every SID beginning with the placeholder is refused, whatever follows it. */
  lemma PlaceholderRefused(cfg: TwilioConfig, tail: string)
    requires cfg.accountSid == PlaceholderSid() + tail
    ensures ValidateConfig(cfg).Err?
  {
    assert cfg.accountSid[..|PlaceholderSid()|] == PlaceholderSid();
  }

  const SmsLimit: nat := 140
  const SmsCritical: string := "\U{1F6A8} QUALIAIS: "
  const SmsWarning: string := "\U{26A0}\U{FE0F} QualiaIA: "
  const CheckTelegram: string := "...[CHECK TELEGRAM]"

  /** The SMS prefix: the siren one for priority values up to 2. */
  function SmsPrefix(p: Priority): (r: string)
    ensures r == SmsCritical <==> p.Value() <= 2
    ensures r == SmsWarning <==> p.Value() > 2
    ensures |r| <= 13
  {
    if p.Value() <= 2 then SmsCritical else SmsWarning
  }

  /**
   * The SMS text: the prefix and the body when it fits in 140 characters; otherwise
   * the body is cut 20 characters short of the room left and ends in the marker.
   */
  function FormatSms(msg: Message): (r: string)
  {
    var prefix := SmsPrefix(msg.priority);
    var room := SmsLimit - |prefix|;
    var body := UpTo(msg.body, room);
    if |msg.body| > room then prefix + UpTo(body, room - 20) + CheckTelegram
    else prefix + body
  }

  /** What `_format_sms` promises: the prefix first, at most 140 characters, and the body untouched when it fits. */
  lemma FormatSmsShape(msg: Message)
    ensures StartsWith(FormatSms(msg), SmsPrefix(msg.priority))
    ensures |FormatSms(msg)| <= SmsLimit
    ensures |msg.body| <= SmsLimit - |SmsPrefix(msg.priority)| <==>
              FormatSms(msg) == SmsPrefix(msg.priority) + msg.body
    ensures |msg.body| > SmsLimit - |SmsPrefix(msg.priority)| ==>
              FormatSms(msg) == SmsPrefix(msg.priority) + msg.body[..SmsLimit - |SmsPrefix(msg.priority)| - 20] + CheckTelegram
  {
    var prefix := SmsPrefix(msg.priority);
    var r := FormatSms(msg);
    assert r[..|prefix|] == prefix;
    if |msg.body| > SmsLimit - |prefix| {
      assert |r| == |prefix| + (SmsLimit - |prefix| - 20) + |CheckTelegram|;
      // A cut message always ends in the marker, which a fitting body never would.
      assert r != prefix + msg.body by {
        assert |r| < |prefix| + |msg.body|;
      }
    }
  }

  /** A verb of the TwiML script of a voice call. */
  datatype Verb = Say(text: string, voice: string, language: Option<string>) | Pause(length: nat) | Hangup

  const VoiceLimit: nat := 300

  /** The voice call: greeting, the severity sentence, the body cut to 300 characters, the key prompt, hang-up. */
  function VoiceScript(cfg: TwilioConfig, msg: Message): (r: seq<Verb>)
    ensures |r| == 8 && r[7].Hangup?
    ensures r[4] == Say(UpTo(msg.body, VoiceLimit), cfg.voice, Some(cfg.language))
    ensures |r[4].text| <= VoiceLimit
    ensures |msg.body| <= VoiceLimit ==> r[4].text == msg.body
    ensures r[2] == Say("This is a critical emergency alert.", cfg.voice, None) <==> msg.priority.Critical?
  {
    var severity := if msg.priority.Value() <= 1 then "This is a critical emergency alert."
                    else "This is an urgent notification.";
    [Say("Alert from Qualia I A autonomous system.", cfg.voice, Some(cfg.language)),
     Pause(1),
     Say(severity, cfg.voice, None),
     Pause(1),
     Say(UpTo(msg.body, VoiceLimit), cfg.voice, Some(cfg.language)),
     Pause(1),
     Say("Press 1 to acknowledge. Press 9 to repeat.", cfg.voice, None),
     Hangup]
  }

  /** One attempted delivery: a text message or a call, from the configured number. */
  datatype Delivery =
    | SmsTo(smsTo: string, smsFrom: string, text: string)
    | CallTo(callTo: string, callFrom: string, script: seq<Verb>)

  /**
   * `send`: nothing before `start` created the client; otherwise mode "sms" texts
   * every configured number and any other mode calls every one, in list order.
   */
  function Send(cfg: TwilioConfig, mode: string, started: bool, msg: Message): (r: seq<Delivery>)
    ensures !started ==> r == []
    ensures started ==> |r| == |cfg.toNumbers|
    ensures started && mode == "sms" ==> forall i :: 0 <= i < |r| ==>
              r[i] == SmsTo(cfg.toNumbers[i], cfg.fromNumber, FormatSms(msg))
    ensures started && mode != "sms" ==> forall i :: 0 <= i < |r| ==>
              r[i] == CallTo(cfg.toNumbers[i], cfg.fromNumber, VoiceScript(cfg, msg))
  {
    if !started then []
    else if mode == "sms" then
      var text := FormatSms(msg);
      seq(|cfg.toNumbers|, i requires 0 <= i < |cfg.toNumbers| => SmsTo(cfg.toNumbers[i], cfg.fromNumber, text))
    else
      var script := VoiceScript(cfg, msg);
      seq(|cfg.toNumbers|, i requires 0 <= i < |cfg.toNumbers| => CallTo(cfg.toNumbers[i], cfg.fromNumber, script))
  }

  /** `send_and_wait`: the deliveries of `send`, and never a reply, since replies arrive by webhook. */
  function SendAndWait(cfg: TwilioConfig, mode: string, started: bool, msg: Message): (r: (seq<Delivery>, Option<string>))
    ensures r.1 == None
    ensures r.0 == Send(cfg, mode, started, msg)
  {
    (Send(cfg, mode, started, msg), None)
  }
}
