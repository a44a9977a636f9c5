// The email channel of src/communication/channels/email.py: its configuration
// checks, the HTML page of a message, the plain-text alternative derived from it, and
// the emails a `send` produces. SMTP delivery is not modelled, and the time line of
// the page is given already formatted.
module Email {
  import opened Py
  import opened Numerals
  import opened Json
  import opened Hub

  datatype EmailConfig = EmailConfig(
    host: string,
    port: int,
    username: string,
    password: string,
    useTls: bool,
    fromAddress: string,
    toAddresses: seq<string>)

  const NoUsername: string := "SMTP_USERNAME not configured. Set your email address in the configuration."

  const NoPassword: string := "SMTP_PASSWORD not configured. For Gmail, create an App Password at https://myaccount.google.com/apppasswords"

  /** The constructor's checks, in the order the source makes them. */
  function ValidateConfig(cfg: EmailConfig): (r: Result<EmailConfig>)
    ensures r.Ok? <==> cfg.username != [] && cfg.password != [] && cfg.toAddresses != []
    ensures r.Ok? ==> r.value == cfg
    ensures cfg.username == [] ==> r == Err(NoUsername)
  {
    if cfg.username == [] then
      Err(NoUsername)
    else if cfg.password == [] then
      Err(NoPassword)
    else if cfg.toAddresses == [] then
      Err("EMAIL_TO not configured")
    else
      Ok(cfg)
  }

  /** The From header: the configured address, or the SMTP user when that is empty. */
  function Sender(cfg: EmailConfig): (r: string)
    ensures cfg.fromAddress != [] ==> r == cfg.fromAddress
    ensures cfg.fromAddress == [] ==> r == cfg.username
  {
    if cfg.fromAddress != [] then cfg.fromAddress else cfg.username
  }

  // ---------------------------------------------------------------------------
  // The plain-text alternative: `re.sub(r'<[^>]+>', '', html)`, then "&nbsp;" -> " "

  /**
   * Removes every tag: a '<' whose first following '>' is at least two characters
   * on is dropped together with everything up to and including that '>'; any other
   * character is kept. Scanning resumes after the removed tag, as the regular
   * expression does.
   */
  function StripTags(s: string): (r: string)
    ensures |r| <= |s|
    decreases |s|
  {
    if s == [] then []
    else if s[0] == '<' then
      match IndexOf(s[1..], '>')
      case Some(k) =>
        if k >= 1 then StripTags(s[k + 2..]) else [s[0]] + StripTags(s[1..])
      case None => [s[0]] + StripTags(s[1..])
    else [s[0]] + StripTags(s[1..])
  }

  /** A tag: '<', a non-empty text without '>', and '>'. */
  function Tag(inner: string): string {
    "<" + inner + ">"
  }

  /** Text without '<' passes through unchanged. */
  lemma {:induction false} StripTagsKeepsText(a: string, b: string)
    requires '<' !in a
    ensures StripTags(a + b) == a + StripTags(b)
    decreases |a|
  {
    if a != [] {
      var s := a + b;
      assert s[0] == a[0] && a[0] != '<';
      assert s[1..] == a[1..] + b;
      assert StripTags(s) == [a[0]] + StripTags(a[1..] + b);
      StripTagsKeepsText(a[1..], b);
      assert a == [a[0]] + a[1..];
      assert [a[0]] + (a[1..] + StripTags(b)) == a + StripTags(b);
    } else {
      assert a + b == b;
    }
  }

  /** A tag vanishes entirely. */
  lemma StripTagsDropsTag(inner: string, b: string)
    requires inner != [] && '>' !in inner
    ensures StripTags(Tag(inner) + b) == StripTags(b)
  {
    var s := Tag(inner) + b;
    assert s[1..][|inner|] == '>';
    var k := IndexOf(s[1..], '>');
    assert k == Some(|inner|) by {
      assert forall i :: 0 <= i < |inner| ==> s[1..][i] == inner[i];
    }
    assert s[|inner| + 2..] == b;
  }

  /** Tags written one after another. */
  function Tags(inners: seq<string>): string {
    if inners == [] then [] else Tag(inners[0]) + Tags(inners[1..])
  }

  predicate TagInners(inners: seq<string>) {
    forall i :: 0 <= i < |inners| ==> inners[i] != [] && '>' !in inners[i]
  }

  /** A run of tags vanishes entirely. */
  lemma {:induction false} StripTagsDropsTags(inners: seq<string>, b: string)
    requires TagInners(inners)
    ensures StripTags(Tags(inners) + b) == StripTags(b)
  {
    if inners != [] {
      assert Tags(inners) + b == Tag(inners[0]) + (Tags(inners[1..]) + b);
      StripTagsDropsTag(inners[0], Tags(inners[1..]) + b);
      StripTagsDropsTags(inners[1..], b);
    } else {
      assert Tags(inners) + b == b;
    }
  }

  /** Without '<' there is nothing to strip. */
  lemma StripTagsOfText(a: string)
    requires '<' !in a
    ensures StripTags(a) == a
  {
    StripTagsKeepsText(a, []);
    assert a + [] == a;
  }

  /** The plain-text body sent beside the HTML one. */
  function PlainText(html: string): string {
    Replace(StripTags(html), "&nbsp;", " ")
  }

  // ---------------------------------------------------------------------------
  // The HTML page

  /** The badge colour by priority value, "#28a745" when the value is not in the table. */
  function BadgeColour(p: Priority): (c: string)
    ensures c == "#dc3545" <==> p.Critical?
    ensures c == "#ffc107" <==> p.Urgent?
    ensures c == "#28a745" <==> p.Standard?
    ensures c == "#007bff" <==> p.Async?
    ensures c == "#6c757d" <==> p.Passive?
  {
    match p.Value()
    case 1 => "#dc3545"
    case 2 => "#ffc107"
    case 3 => "#28a745"
    case 4 => "#007bff"
    case 5 => "#6c757d"
    case _ => "#28a745"
  }

  // Written in short pieces so that the verifier can see it holds no '>'.
  const CellStyle: string := "td style=" + "'padding:" + "8px;" + "border-" + "bottom:" + "1px " + "solid " + "#eee;'"
  const RowOpen: seq<string> := ["tr", CellStyle, "strong"]
  const RowMiddle: seq<string> := ["/strong", "/td", CellStyle]
  const RowClose: seq<string> := ["/td", "/tr"]

  /** One row of the details table: the key as a title in bold, then the value as `show` (Python's `str`) renders it. */
  function DetailRow(key: string, value: Value, show: Value -> string): string {
    Tags(RowOpen) + (SpacedTitle(key) + (Tags(RowMiddle) + (show(value) + Tags(RowClose))))
  }

  lemma RowTagsWellFormed()
    ensures TagInners(RowOpen) && TagInners(RowMiddle) && TagInners(RowClose)
  {
  }

  /** Tags around two texts without '<' leave just the texts. */
  lemma StripTagsAround(open: seq<string>, name: string, middle: seq<string>, v: string, close: seq<string>)
    requires TagInners(open) && TagInners(middle) && TagInners(close)
    requires '<' !in name && '<' !in v
    ensures StripTags(Tags(open) + (name + (Tags(middle) + (v + Tags(close))))) == name + v
  {
    var c := Tags(close);
    var rest := Tags(middle) + (v + c);
    StripTagsDropsTags(close, []);
    assert c + [] == c;
    StripTagsKeepsText(v, c);
    StripTagsDropsTags(middle, v + c);
    StripTagsKeepsText(name, rest);
    StripTagsDropsTags(open, name + rest);
  }

  /** The plain text of a row is the key's title followed by the value, when neither holds a '<'. */
  lemma DetailRowPlain(key: string, value: Value, show: Value -> string)
    requires '<' !in key && '<' !in show(value)
    ensures StripTags(DetailRow(key, value, show)) == SpacedTitle(key) + show(value)
  {
    var name := SpacedTitle(key);
    assert '<' !in name by {
      forall i | 0 <= i < |name| ensures name[i] != '<' {
        assert key[i] != '<';
      }
    }
    RowTagsWellFormed();
    StripTagsAround(RowOpen, name, RowMiddle, show(value), RowClose);
  }

  /** One row per context entry, in order. */
  function DetailRows(items: seq<(string, Value)>, show: Value -> string): (r: seq<string>)
    ensures |r| == |items|
    ensures forall i :: 0 <= i < |r| ==> r[i] == DetailRow(items[i].0, items[i].1, show)
  {
    seq(|items|, i requires 0 <= i < |items| => DetailRow(items[i].0, items[i].1, show))
  }

  function Concat(parts: seq<string>): string {
    if parts == [] then [] else Concat(parts[..|parts| - 1]) + parts[|parts| - 1]
  }

  const DetailsOpen: string :=
    "\n" +
    "            <h3 style=\"color:#333;margin-top:20px;\">Details</h3>\n" +
    "            <table style=\"width:100%;border-collapse:collapse;\">\n" +
    "                "
  const DetailsClose: string := "\n            </table>\n            "

  /**
   * The details section: empty when the context is false in Python (missing or an
   * empty dictionary), the table of its entries for a dictionary, and an error for
   * any other true value, which has no `items()`.
   */
  function Details(context: Value, show: Value -> string): (r: Result<string>)
    ensures r.Ok? <==> !Truthy(context) || context.JObj?
    ensures r == Ok([]) <==> !Truthy(context)
    ensures r.Ok? && Truthy(context) ==>
              r.value == DetailsOpen + Concat(DetailRows(context.fields, show)) + DetailsClose
  {
    if !Truthy(context) then Ok([])
    else match context
      case JObj(items) => Ok(DetailsOpen + Concat(DetailRows(items, show)) + DetailsClose)
      case _ => Err("object has no attribute 'items'")
  }

  const PageTop: string :=
    "\n" +
    "<!DOCTYPE html>\n" +
    "<html>\n" +
    "<head>\n" +
    "    <meta charset=\"utf-8\">\n" +
    "    <meta name=\"viewport\" content=\"width=device-width, initial-scale=1.0\">\n" +
    "</head>\n" +
    "<body style=\"font-family:-apple-system,BlinkMacSystemFont,'Segoe UI',Roboto,sans-serif;margin:0;padding:0;background:#f5f5f5;\">\n" +
    "    <div style=\"max-width:600px;margin:0 auto;padding:20px;\">\n" +
    "        <div style=\"background:linear-gradient(135deg,#667eea 0%,#764ba2 100%);color:white;padding:20px;border-radius:8px 8px 0 0;\">\n" +
    "            <h1 style=\"margin:0;font-size:24px;\">QualiaIA</h1>\n" +
    "            <p style=\"margin:5px 0 0 0;opacity:0.9;font-size:14px;\">Autonomous Business System</p>\n" +
    "        </div>\n" +
    "        \n" +
    "        <div style=\"background:white;padding:20px;border-radius:0 0 8px 8px;box-shadow:0 2px 4px rgba(0,0,0,0.1);\">\n" +
    "            <span style=\"display:inline-block;padding:4px 12px;border-radius:4px;font-size:12px;font-weight:bold;background:"
  const PageAfterColour: string := ";color:white;\">\n                "
  const PageAfterPriority: string :=
    "\n" +
    "            </span>\n" +
    "            \n" +
    "            <h2 style=\"color:#333;margin:15px 0 10px 0;\">"
  const PageAfterSubject: string :=
    "</h2>\n" +
    "            \n" +
    "            <div style=\"color:#555;line-height:1.6;white-space:pre-wrap;\">"
  const PageAfterBody: string := "</div>\n            \n            "
  const PageAfterDetails: string :=
    "\n" +
    "            \n" +
    "            <hr style=\"border:none;border-top:1px solid #eee;margin:20px 0;\">\n" +
    "            \n" +
    "            <p style=\"color:#999;font-size:12px;margin:0;\">\n" +
    "                Message ID: "
  const PageAfterId: string := "<br>\n                Time: "
  const PageBottom: string :=
    "\n" +
    "            </p>\n" +
    "        </div>\n" +
    "        \n" +
    "        <div style=\"text-align:center;padding:20px;color:#999;font-size:12px;\">\n" +
    "            <p>QualiaIA Autonomous Business System<br>\n" +
    "            This is an automated message.</p>\n" +
    "        </div>\n" +
    "    </div>\n" +
    "</body>\n" +
    "</html>\n"

  /** What the page of a message shows, in template order. */
  datatype PageData = PageData(colour: string, priority: string, subject: string, body: string,
                               details: string, id: string, time: string)
  {
    /** The page template, filled in. */
    function Html(): string {
      PageTop + colour + PageAfterColour + priority + PageAfterPriority + subject + PageAfterSubject + body
      + PageAfterBody + details + PageAfterDetails + id + PageAfterId + time + PageBottom
    }
  }

  /**
   * The page of a message: its priority's badge colour and name, subject, body, the
   * details of its context and its id; `time` is its creation time, formatted. A
   * context `_format_html` cannot list makes it raise.
   */
  function PageOf(msg: Message, show: Value -> string, time: string): (r: Result<PageData>)
    ensures r.Ok? <==> Details(msg.context, show).Ok?
    ensures r.Ok? ==> r.value.colour == BadgeColour(msg.priority) && r.value.priority == msg.priority.Name()
                      && r.value.subject == msg.Subject() && r.value.body == msg.body
                      && r.value.details == Details(msg.context, show).value
                      && r.value.id == msg.id && r.value.time == time
  {
    match Details(msg.context, show)
    case Ok(details) => Ok(PageData(BadgeColour(msg.priority), msg.priority.Name(), msg.Subject(), msg.body, details, msg.id, time))
    case Err(e) => Err(e)
  }

  /** `_format_html`: the page of a message, rendered. */
  function FormatHtml(msg: Message, show: Value -> string, time: string): (r: Result<string>)
    ensures r.Ok? <==> PageOf(msg, show, time).Ok?
    ensures r.Ok? ==> r.value == PageOf(msg, show, time).value.Html()
  {
    match PageOf(msg, show, time)
    case Ok(page) => Ok(page.Html())
    case Err(e) => Err(e)
  }

  // ---------------------------------------------------------------------------
  // Sending

  const SubjectTag: string := "[QualiaIA] "

  /** One email, as `_send_email` assembles it: the HTML page and, derived from it, a plain-text part. */
  datatype Mail = Mail(to: string, from: string, subject: string, page: PageData) {
    function Html(): string {
      page.Html()
    }

    /** The plain-text alternative: the page with its tags removed and `&nbsp;` as spaces. */
    function Plain(): string {
      PlainText(page.Html())
    }
  }

  /** The same page to every recipient, in list order, under the tagged subject. */
  function Mails(cfg: EmailConfig, subject: string, page: PageData): (r: seq<Mail>)
    ensures |r| == |cfg.toAddresses|
    ensures forall i :: 0 <= i < |r| ==> r[i] == Mail(cfg.toAddresses[i], Sender(cfg), SubjectTag + subject, page)
  {
    var n := |cfg.toAddresses|;
    seq(n, i requires 0 <= i < n => Mail(cfg.toAddresses[i], Sender(cfg), SubjectTag + subject, page))
  }

  /**
   * `send`: one email to each configured recipient, in order, each carrying the page
   * of the message under the tagged subject; or the error `_format_html` raises.
   */
  function Send(cfg: EmailConfig, msg: Message, show: Value -> string, time: string): (r: Result<seq<Mail>>)
    ensures r.Ok? <==> PageOf(msg, show, time).Ok?
    ensures r.Ok? ==> |r.value| == |cfg.toAddresses|
    ensures r.Ok? ==> forall i :: 0 <= i < |r.value| ==>
              r.value[i].to == cfg.toAddresses[i] && r.value[i].from == Sender(cfg)
              && r.value[i].subject == SubjectTag + msg.Subject()
              && r.value[i].page == PageOf(msg, show, time).value
  {
    match PageOf(msg, show, time)
    case Ok(page) => Ok(Mails(cfg, msg.Subject(), page))
    case Err(e) => Err(e)
  }

  /** Every email `send` makes carries exactly the HTML `_format_html` renders. */
  lemma SentPageIsFormatted(cfg: EmailConfig, msg: Message, show: Value -> string, time: string, i: nat)
    requires Send(cfg, msg, show, time).Ok? && i < |Send(cfg, msg, show, time).value|
    ensures FormatHtml(msg, show, time) == Ok(Send(cfg, msg, show, time).value[i].Html())
  {
  }

  /** `send_and_wait`: the emails of `send`, and never a reply. */
  function SendAndWait(cfg: EmailConfig, msg: Message, show: Value -> string, time: string): (r: Result<(seq<Mail>, Option<string>)>)
    ensures r.Ok? <==> Send(cfg, msg, show, time).Ok?
    ensures r.Ok? ==> r.value.1 == None && Ok(r.value.0) == Send(cfg, msg, show, time)
  {
    match Send(cfg, msg, show, time)
    case Ok(mails) => Ok((mails, None))
    case Err(e) => Err(e)
  }
}
