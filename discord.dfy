// The Discord channel of src/communication/channels/discord.py: the check that some
// webhook is configured, which webhook a message goes to, and the embed posted to
// it. The HTTP post itself is not modelled: `send` yields the URL and the embed.
module Discord {
  import opened Py
  import opened Json
  import opened Hub

  /** The configured webhooks, by channel name ("alerts", "status", "ventures", ...), in insertion order. */
  type Webhooks = seq<(string, string)>

  /** A webhook lookup that Python treats as true: present and not the empty string. */
  predicate Usable(u: Option<string>) {
    u.Some? && u.value != []
  }

  const NoWebhooks: string := "No Discord webhooks configured. Create webhooks in your Discord server and set DISCORD_*_WEBHOOK env vars."

  /** The constructor's check: at least one webhook URL is non-empty. */
  function ValidateWebhooks(w: Webhooks): (r: Result<Webhooks>)
    ensures r.Ok? <==> exists i :: 0 <= i < |w| && w[i].1 != []
    ensures r.Ok? ==> r.value == w
  {
    if exists i :: 0 <= i < |w| && w[i].1 != [] then Ok(w)
    else Err(NoWebhooks)
  }

  const AlertWords: seq<string> := ["alert", "error", "critical", "urgent", "emergency"]
  const StatusWords: seq<string> := ["status", "report", "summary", "metrics"]
  const VentureWords: seq<string> := ["venture", "business", "launch", "shutdown"]

  predicate MentionsAny(text: string, words: seq<string>) {
    exists w :: w in words && Contains(text, w)
  }

  /**
   * The fallback when no keyword matches: "alerts" if usable, else "status" if
   * usable, else the first configured URL, empty or not.
   */
  function Fallback(w: Webhooks): (r: Option<string>)
    ensures Usable(Get(w, "alerts")) ==> r == Get(w, "alerts")
    ensures !Usable(Get(w, "alerts")) && Usable(Get(w, "status")) ==> r == Get(w, "status")
    ensures !Usable(Get(w, "alerts")) && !Usable(Get(w, "status")) ==>
              r == (if w == [] then None else Some(w[0].1))
  {
    var alerts := Get(w, "alerts");
    var status := Get(w, "status");
    if Usable(alerts) then alerts
    else if Usable(status) then status
    else if w == [] then None
    else Some(w[0].1)
  }

  /**
   * The webhook for a message, by keywords in its lower-cased subject: alert words
   * pick "alerts" (even when it is missing), then status words "status", then venture
   * words "ventures"; otherwise the fallback.
   */
  function WebhookFor(w: Webhooks, subject: string): (r: Option<string>)
    ensures MentionsAny(Lower(subject), AlertWords) ==> r == Get(w, "alerts")
    ensures !MentionsAny(Lower(subject), AlertWords) && MentionsAny(Lower(subject), StatusWords) ==>
              r == Get(w, "status")
    ensures (!MentionsAny(Lower(subject), AlertWords) && !MentionsAny(Lower(subject), StatusWords)
             && MentionsAny(Lower(subject), VentureWords)) ==> r == Get(w, "ventures")
    ensures (!MentionsAny(Lower(subject), AlertWords) && !MentionsAny(Lower(subject), StatusWords)
             && !MentionsAny(Lower(subject), VentureWords)) ==> r == Fallback(w)
  {
    var s := Lower(subject);
    if MentionsAny(s, AlertWords) then Get(w, "alerts")
    else if MentionsAny(s, StatusWords) then Get(w, "status")
    else if MentionsAny(s, VentureWords) then Get(w, "ventures")
    else Fallback(w)
  }

  /** With any webhook configured, a message without keywords always finds some URL (possibly an empty one). */
  lemma {:induction false} FallbackDefined(w: Webhooks)
    requires ValidateWebhooks(w).Ok?
    ensures Fallback(w).Some?
  {
    var i :| 0 <= i < |w| && w[i].1 != [];
    assert w != [];
  }

  /** When "alerts" is usable, every message without status or venture words goes there. */
  lemma AlertsIsTheDefault(w: Webhooks, subject: string)
    requires Usable(Get(w, "alerts"))
    requires !MentionsAny(Lower(subject), StatusWords) && !MentionsAny(Lower(subject), VentureWords)
    ensures WebhookFor(w, subject) == Get(w, "alerts")
  {
  }

  const Red: int := 0xFF0000
  const Orange: int := 0xFFA500
  const Green: int := 0x00FF00
  const Blue: int := 0x0000FF
  const Gray: int := 0x808080

  /** The embed colour by priority value, green when the value is not in the table. */
  function Colour(p: Priority): (c: int)
    ensures c == Red <==> p.Critical?
    ensures c == Orange <==> p.Urgent?
    ensures c == Green <==> p.Standard?
    ensures c == Blue <==> p.Async?
    ensures c == Gray <==> p.Passive?
  {
    match p.Value()
    case 1 => Red
    case 2 => Orange
    case 3 => Green
    case 4 => Blue
    case 5 => Gray
    case _ => Green
  }

  datatype EmbedField = EmbedField(name: string, value: string, inline: bool)

  datatype Embed = Embed(
    title: string,
    description: string,
    colour: int,
    timestamp: int,
    footer: string,
    fields: Option<seq<EmbedField>>)

  const MaxDescription: nat := 4096
  const MaxFields: nat := 25
  const MaxFieldValue: nat := 1024

  /**
   * One field per context entry, for the first 25 entries, values rendered by `show`
   * (Python's `str`) and cut to 1024 characters.
   */
  function Fields(items: seq<(string, Value)>, show: Value -> string): (r: seq<EmbedField>)
    ensures |r| == Min(|items|, MaxFields)
    ensures forall i :: 0 <= i < |r| ==>
              r[i] == EmbedField(SpacedTitle(items[i].0), UpTo(show(items[i].1), MaxFieldValue), true)
    ensures forall i :: 0 <= i < |r| ==> |r[i].value| <= MaxFieldValue
  {
    var n := Min(|items|, MaxFields);
    seq(n, i requires 0 <= i < n => EmbedField(SpacedTitle(items[i].0), UpTo(show(items[i].1), MaxFieldValue), true))
  }

  // The title and footer carry the characters the source file spells them with
  // (a mis-decoded megaphone emoji and bullet).
  const TitleMark: string := "\U{F0}\U{178}\U{201C}\U{A2} "
  const FooterText: string := "QualiaIA \U{E2}\U{20AC}\U{A2} Priority: "

  /**
   * `_format_embed`. A context that is true in Python but not a dictionary has no
   * `items()` and raises.
   */
  function FormatEmbed(msg: Message, show: Value -> string): (r: Result<Embed>)
    ensures r.Ok? <==> !Truthy(msg.context) || msg.context.JObj?
    ensures r.Ok? ==> r.value.description == UpTo(msg.body, MaxDescription)
                      && |r.value.description| <= MaxDescription
                      && r.value.colour == Colour(msg.priority)
                      && r.value.title == TitleMark + msg.Subject()
    ensures r.Ok? ==> (r.value.fields.Some? <==> msg.context.JObj? && msg.context.fields != [])
    ensures r.Ok? && r.value.fields.Some? ==>
              r.value.fields.value == Fields(msg.context.fields, show) && 1 <= |r.value.fields.value| <= MaxFields
  {
    var base := Embed(TitleMark + msg.Subject(), UpTo(msg.body, MaxDescription), Colour(msg.priority),
                      msg.createdAt, FooterText + msg.priority.Name(), None);
    if !Truthy(msg.context) then Ok(base)
    else match msg.context
      case JObj(items) =>
        var fs := Fields(items, show);
        if fs != [] then Ok(base.(fields := Some(fs))) else Ok(base)
      case _ => Err("object has no attribute 'items'")
  }

  /** The post `send` makes: the webhook URL and the embed. */
  datatype Post = Post(url: string, embed: Embed)

  /**
   * `send`: nothing before `start` opened the session or when the message's webhook
   * is missing or empty; otherwise one post.
   */
  function Send(w: Webhooks, started: bool, msg: Message, show: Value -> string): (r: Result<Option<Post>>)
    ensures !started || !Usable(WebhookFor(w, msg.Subject())) ==> r == Ok(None)
    ensures started && Usable(WebhookFor(w, msg.Subject())) ==>
              (r.Ok? <==> FormatEmbed(msg, show).Ok?)
    ensures r.Ok? && r.value.Some? ==>
              started && Some(r.value.value.url) == WebhookFor(w, msg.Subject()) && r.value.value.url != []
              && Ok(r.value.value.embed) == FormatEmbed(msg, show)
  {
    var url := WebhookFor(w, msg.Subject());
    if !started || !Usable(url) then Ok(None)
    else
      match FormatEmbed(msg, show)
      case Ok(embed) => Ok(Some(Post(url.value, embed)))
      case Err(e) => Err(e)
  }

  /** `send_and_wait`: the post of `send`, and never a reply, since webhooks cannot answer. */
  function SendAndWait(w: Webhooks, started: bool, msg: Message, show: Value -> string): (r: Result<(Option<Post>, Option<string>)>)
    ensures r.Ok? <==> Send(w, started, msg, show).Ok?
    ensures r.Ok? ==> r.value.1 == None && Ok(r.value.0) == Send(w, started, msg, show)
  {
    match Send(w, started, msg, show)
    case Ok(post) => Ok((post, None))
    case Err(e) => Err(e)
  }
}
