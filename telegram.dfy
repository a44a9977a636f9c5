// The Telegram channel of src/communication/channels/telegram.py: configuration
// checks, who may talk to the bot, the text it sends, the inline-button callback
// data, and the table of replies awaited by `send_and_wait`, which button presses
// and text replies settle. The Bot API itself is not modelled: updates arriving while
// a message waits are an input, in arrival order.
module Telegram {
  import opened Py
  import opened Numerals
  import opened State
  import opened Hub

  datatype TelegramConfig = TelegramConfig(
    botToken: string,
    authorizedUserIds: seq<int>,
    parseMode: string,
    disableNotificationStandard: bool)

  const NoToken: string := "TELEGRAM_BOT_TOKEN not configured. Create a bot via @BotFather on Telegram and set the token."
  const NoUsers: string := "TELEGRAM_AUTHORIZED_USER_IDS not configured. Get your user ID via @userinfobot on Telegram."

  /**
   * The constructor's checks: a bot token containing ':' and at least one authorised
   * user. The result is the set of authorised users.
   */
  function ValidateConfig(cfg: TelegramConfig): (r: Result<set<int>>)
    ensures r.Ok? <==> ':' in cfg.botToken && cfg.authorizedUserIds != []
    ensures r.Ok? ==> forall u :: u in r.value <==> u in cfg.authorizedUserIds
  {
    if cfg.botToken == [] || ':' !in cfg.botToken then
      Err(NoToken)
    else if cfg.authorizedUserIds == [] then
      Err(NoUsers)
    else
      Ok(set u | u in cfg.authorizedUserIds)
  }

  /** Telegram's limit on the length of one message. */
  const MaxMessageLength: nat := 4096

  /** A text over the limit keeps its first 4090 characters and ends in "\n\n...". */
  function Truncate(text: string): (r: string)
    ensures |r| <= MaxMessageLength
    ensures |text| <= MaxMessageLength ==> r == text
    ensures |text| > MaxMessageLength ==> r == text[..4090] + "\n\n..."
  {
    if |text| > MaxMessageLength then text[..4090] + "\n\n..." else text
  }

  /** The emoji `send` puts before a message, by priority name; a megaphone by default. */
  function SendEmoji(p: Priority): string {
    match p.Name()
    case "CRITICAL" => "\U{1F6A8}"
    case "URGENT" => "\U{26A0}\U{FE0F}"
    case "STANDARD" => "\U{1F4E2}"
    case "ASYNC" => "\U{1F4E7}"
    case "PASSIVE" => "\U{2139}\U{FE0F}"
    case _ => "\U{1F4E2}"
  }

  function Headline(emoji: string, msg: Message): string {
    emoji + " **" + msg.Subject() + "**\n\n" + msg.body
  }

  /** Standard and lower priorities arrive silently when the configuration asks for it. */
  function DisableNotification(p: Priority, flag: bool): (r: bool)
    ensures r <==> flag && !p.Critical? && !p.Urgent?
  {
    p.Value() >= Standard.Value() && flag
  }

  /** What `send` hands the Bot API: the same text to every authorised user. */
  datatype Outgoing = Outgoing(recipients: set<int>, text: string, parseMode: string, silent: bool)

  /** The callback data of an inline button: "<action>_<message id>". */
  function CallbackData(action: string, messageId: string): string {
    action + "_" + messageId
  }

  /** The position of the last `c` in `s`. */
  function LastIndexOf(s: string, c: char): (r: Option<nat>)
    ensures r.None? <==> c !in s
    ensures r.Some? ==> r.value < |s| && s[r.value] == c && forall j :: r.value < j < |s| ==> s[j] != c
  {
    if s == [] then None
    else if s[|s| - 1] == c then Some(|s| - 1)
    else
      var r := LastIndexOf(s[..|s| - 1], c);
      assert forall j :: 0 <= j < |s| - 1 ==> s[..|s| - 1][j] == s[j];
      assert c in s ==> c in s[..|s| - 1] by {
        if c in s {
          var k :| 0 <= k < |s| && s[k] == c;
          assert s[..|s| - 1][k] == c;
        }
      }
      r
  }

  /** `data.rsplit("_", 1)` when it gives two parts: the text before and after the last "_". */
  function SplitCallback(data: string): (r: Option<(string, string)>)
    ensures r.None? <==> '_' !in data
    ensures r.Some? ==> '_' !in r.value.1 && data == r.value.0 + "_" + r.value.1
  {
    match LastIndexOf(data, '_')
    case None => None
    case Some(i) =>
      assert data == data[..i] + "_" + data[i + 1..];
      var tail := data[i + 1..];
      forall k | 0 <= k < |tail| ensures tail[k] != '_' {
        assert tail[k] == data[i + 1 + k];
      }
      Some((data[..i], tail))
  }

  /** Parsing the data of a button gives back its action and message id, for an id without "_". */
  lemma CallbackRoundTrip(action: string, messageId: string)
    requires '_' !in messageId
    ensures SplitCallback(CallbackData(action, messageId)) == Some((action, messageId))
  {
    var data := CallbackData(action, messageId);
    assert data[|action|] == '_';
    var r := SplitCallback(data);
    var i := |r.value.0|;
    assert data[i] == '_';
    assert forall j :: |action| < j < |data| ==> data[j] == messageId[j - |action| - 1];
    assert i == |action|;
    assert r.value.0 == data[..i] == action;
  }

  const RejectWords: set<string> := {"reject", "rejected", "no", "deny", "n", "0"}

  /** How a text reply, stripped and lower-cased, settles a wait, if it does. */
  function ClassifyReply(text: string): (r: Option<string>)
    ensures r == Some("approve") <==> text in ApproveWords
    ensures r == Some("reject") <==> text in RejectWords
    ensures r.None? <==> text !in ApproveWords && text !in RejectWords
  {
    if text in ApproveWords then Some("approve")
    else if text in RejectWords then Some("reject")
    else None
  }

  /** A reply awaited by `send_and_wait`: still open, or settled with an action. */
  datatype Future = Waiting | Resolved(action: string)

  /** The table of awaited replies, by message id, in registration order. */
  type Futures = seq<(string, Future)>

  /** The first reply still awaited. */
  function FirstWaiting(f: Futures): (r: Option<nat>)
    ensures r.Some? ==> r.value < |f| && f[r.value].1.Waiting?
    ensures r.Some? ==> forall j :: 0 <= j < r.value ==> !f[j].1.Waiting?
    ensures r.None? ==> forall j :: 0 <= j < |f| ==> !f[j].1.Waiting?
  {
    if f == [] then None
    else if f[0].1.Waiting? then Some(0)
    else
      var r := FirstWaiting(f[1..]);
      assert forall j :: 1 <= j < |f| ==> f[j] == f[1..][j - 1];
      if r.Some? then Some(r.value + 1) else None
  }

  /** What one button press does to the table: it settles the message's reply if still open. */
  function PressButton(f: Futures, data: string): Futures {
    match SplitCallback(data)
    case None => f
    case Some((action, messageId)) =>
      if Get(f, messageId) == Some(Waiting) then Put(f, messageId, Resolved(action)) else f
  }

  /** What one text reply does: settle the first open reply with "approve" or "reject". */
  function SendText(f: Futures, text: string): Futures {
    var w := FirstWaiting(f);
    var verdict := ClassifyReply(Lower(Strip(text)));
    if w.Some? && verdict.Some? then f[w.value := (f[w.value].0, Resolved(verdict.value))] else f
  }

  /** The first open reply is the one before which every reply is settled. */
  lemma FirstWaitingAt(f: Futures, i: nat)
    requires i < |f| && f[i].1.Waiting?
    requires forall j :: 0 <= j < i ==> !f[j].1.Waiting?
    ensures FirstWaiting(f) == Some(i)
  {
  }

  /** Settling one reply in place keeps the messages and their keys. */
  lemma ResolveKeepsUnique(f: Futures, i: nat, verdict: string)
    requires UniqueKeys(f) && i < |f|
    ensures UniqueKeys(f[i := (f[i].0, Resolved(verdict))])
  {
    var g := f[i := (f[i].0, Resolved(verdict))];
    assert forall j :: 0 <= j < |g| ==> g[j].0 == f[j].0;
  }

  /** An update the bot receives: a button press or a text message. */
  datatype Update = Press(pressUser: int, data: string) | Text(textUser: int, text: string)

  /** Updates from unauthorised users change nothing. */
  function ApplyUpdate(f: Futures, authorized: set<int>, u: Update): Futures {
    match u
    case Press(user, data) => if user in authorized then PressButton(f, data) else f
    case Text(user, text) => if user in authorized then SendText(f, text) else f
  }

  function ApplyUpdates(f: Futures, authorized: set<int>, us: seq<Update>): Futures
    decreases |us|
  {
    if us == [] then f
    else ApplyUpdate(ApplyUpdates(f, authorized, us[..|us| - 1]), authorized, us[|us| - 1])
  }

  /** No update changes which messages are awaited, or their order. */
  lemma ApplyUpdateKeepsKeys(f: Futures, authorized: set<int>, u: Update)
    ensures Keys(ApplyUpdate(f, authorized, u)) == Keys(f)
  {
    match u
    case Press(user, data) =>
      var s := SplitCallback(data);
      if user in authorized && s.Some? && Get(f, s.value.1) == Some(Waiting) {
        PutShape(f, s.value.1, Resolved(s.value.0));
      }
    case Text(_, _) =>
  }

  /** The first answer wins: a settled reply is never changed by a later update. */
  lemma {:induction false} FirstAnswerWins(f: Futures, authorized: set<int>, us: seq<Update>, id: string, action: string)
    requires UniqueKeys(f) && Get(f, id) == Some(Resolved(action))
    ensures Get(ApplyUpdates(f, authorized, us), id) == Some(Resolved(action))
    ensures UniqueKeys(ApplyUpdates(f, authorized, us))
    decreases |us|
  {
    if us != [] {
      var before := ApplyUpdates(f, authorized, us[..|us| - 1]);
      FirstAnswerWins(f, authorized, us[..|us| - 1], id, action);
      UpdateKeepsAnswer(before, authorized, us[|us| - 1], id, action);
    }
  }

  lemma SameKeysUnique(f: Futures, g: Futures)
    requires UniqueKeys(f) && Keys(g) == Keys(f)
    ensures UniqueKeys(g)
  {
    forall i, j | 0 <= i < j < |g|
      ensures g[i].0 != g[j].0
    {
      assert g[i].0 == Keys(g)[i] == f[i].0;
      assert g[j].0 == Keys(g)[j] == f[j].0;
    }
  }

  lemma PressKeepsAnswer(f: Futures, data: string, id: string, action: string)
    requires Get(f, id) == Some(Resolved(action))
    ensures Get(PressButton(f, data), id) == Some(Resolved(action))
  {
    var s := SplitCallback(data);
    if s.Some? && Get(f, s.value.1) == Some(Waiting) {
      PutGet(f, s.value.1, Resolved(s.value.0), id);
    }
  }

  lemma TextKeepsAnswer(f: Futures, text: string, id: string, action: string)
    requires UniqueKeys(f) && Get(f, id) == Some(Resolved(action))
    ensures Get(SendText(f, text), id) == Some(Resolved(action))
  {
    var w := FirstWaiting(f);
    var verdict := ClassifyReply(Lower(Strip(text)));
    if w.Some? && verdict.Some? {
      var g := SendText(f, text);
      var k :| 0 <= k < |f| && f[k] == (id, Resolved(action));
      assert k != w.value;
      assert g[k] == f[k];
      forall j | 0 <= j < k
        ensures g[j].0 != g[k].0
      {
        assert g[j].0 == f[j].0;
      }
      GetAtFirst(g, k);
    }
  }

  lemma UpdateKeepsAnswer(f: Futures, authorized: set<int>, u: Update, id: string, action: string)
    requires UniqueKeys(f) && Get(f, id) == Some(Resolved(action))
    ensures Get(ApplyUpdate(f, authorized, u), id) == Some(Resolved(action))
    ensures UniqueKeys(ApplyUpdate(f, authorized, u))
  {
    ApplyUpdateKeepsKeys(f, authorized, u);
    SameKeysUnique(f, ApplyUpdate(f, authorized, u));
    match u
    case Press(user, data) =>
      PressKeepsAnswer(f, data, id, action);
    case Text(user, text) =>
      TextKeepsAnswer(f, text, id, action);
  }

  /** The longest `send_and_wait` waits, in seconds: the message's timeout, at most a day. */
  function WaitSeconds(timeoutHours: int): (s: int)
    ensures s <= 86400
    ensures s == 86400 || s == timeoutHours * 3600
  {
    Min(timeoutHours * 3600, 86400)
  }

  /** Removing a key: `dict.pop(key, None)`. */
  function Without(f: Futures, id: string): (r: Futures)
    ensures Get(r, id).None?
    ensures forall k :: k != id ==> Get(r, k) == Get(f, k)
  {
    if f == [] then []
    else if f[0].0 == id then Without(f[1..], id)
    else [f[0]] + Without(f[1..], id)
  }

  lemma {:induction false} WithoutKeepsUniqueKeys(f: Futures, id: string)
    requires UniqueKeys(f)
    ensures UniqueKeys(Without(f, id))
    ensures forall i :: 0 <= i < |Without(f, id)| ==> Without(f, id)[i] in f
  {
    if f != [] {
      WithoutKeepsUniqueKeys(f[1..], id);
      var rest := Without(f[1..], id);
      if f[0].0 != id {
        forall i | 0 <= i < |rest| ensures rest[i].0 != f[0].0 {
          var j :| 0 <= j < |f[1..]| && f[1..][j] == rest[i];
          assert f[j + 1] == rest[i];
        }
      }
    }
  }

  /** `/pending`: at most ten decisions, then how many more there are. */
  function PendingLines(pending: seq<PendingDecision>, money: real -> string): (lines: seq<string>)
    ensures pending == [] ==> lines == ["\U{1F4CB} No pending decisions"]
    ensures pending != [] ==>
      && |lines| == 1 + Min(|pending|, 10) + (if |pending| > 10 then 1 else 0)
      && lines[0] == "\U{1F4CB} **Pending Decisions**\n"
      && (forall i :: 0 <= i < Min(|pending|, 10) ==> lines[i + 1] == PendingEntry(pending[i], money))
      && (|pending| > 10 ==> lines[|lines| - 1] == "\n_...and " + NatToString(|pending| - 10) + " more_")
  {
    if pending == [] then ["\U{1F4CB} No pending decisions"]
    else
      var shown := FirstN(pending, 10);
      var entries := seq(|shown|, i requires 0 <= i < |shown| => PendingEntry(shown[i], money));
      ["\U{1F4CB} **Pending Decisions**\n"] + entries
      + (if |pending| > 10 then ["\n_...and " + NatToString(|pending| - 10) + " more_"] else [])
  }

  /** `pending[:10]` */
  function FirstN(s: seq<PendingDecision>, n: nat): (r: seq<PendingDecision>)
    ensures |r| == Min(n, |s|) && r == s[..|r|]
  {
    if |s| <= n then s else s[..n]
  }

  /** One decision in the `/pending` listing; `money` formats an amount. */
  function PendingEntry(d: PendingDecision, money: real -> string): string {
    var amount := if d.amount.Some? && d.amount.value != 0.0 then "$" + money(d.amount.value) else "N/A";
    "\U{2022} `" + d.id + "` - " + d.decisionType + "\n  " + UpTo(d.action, 50) + "...\n  Amount: " + amount
  }

  /** What a button press led to. */
  datatype PressOutcome =
    | Unauthorized
    | Malformed
    | AlreadyAnswered
    | Recorded(action: string, messageId: string, pause: bool)

  class TelegramChannel {
    const config: TelegramConfig
    const authorizedUsers: set<int>
    /** `_response_futures` */
    var futures: Futures

    ghost predicate Valid()
      reads this
    {
      UniqueKeys(futures)
    }

    constructor(config: TelegramConfig)
      requires ValidateConfig(config).Ok?
      ensures Valid()
      ensures this.config == config && authorizedUsers == ValidateConfig(config).value && futures == []
    {
      this.config := config;
      authorizedUsers := ValidateConfig(config).value;
      futures := [];
    }

    /** `_is_authorized` */
    predicate IsAuthorized(userId: int) {
      userId in authorizedUsers
    }

    /**
     * `send`: nothing before the bot is started; otherwise the headline, truncated to
     * Telegram's limit, to every authorised user.
     */
    function Send(msg: Message, botStarted: bool): (r: Option<Outgoing>)
      ensures r.Some? <==> botStarted
      ensures r.Some? ==>
        && r.value.recipients == authorizedUsers
        && r.value.text == Truncate(Headline(SendEmoji(msg.priority), msg))
        && |r.value.text| <= MaxMessageLength
        && (r.value.silent <==> config.disableNotificationStandard && msg.priority.Value() >= 3)
    {
      if !botStarted then None
      else
        Some(Outgoing(authorizedUsers, Truncate(Headline(SendEmoji(msg.priority), msg)), config.parseMode,
                      DisableNotification(msg.priority, config.disableNotificationStandard)))
    }

    /**
     * `_handle_callback`: an authorised press with well-formed data settles the reply
     * awaited for that message; pressing again after it is settled raises, and nothing
     * changes.
     */
    method HandleCallback(userId: int, data: string) returns (outcome: PressOutcome)
      requires Valid()
      modifies this
      ensures Valid()
      ensures futures == ApplyUpdate(old(futures), authorizedUsers, Press(userId, data))
      ensures outcome.Unauthorized? <==> !IsAuthorized(userId)
      ensures outcome.Malformed? <==> IsAuthorized(userId) && '_' !in data
      ensures outcome.AlreadyAnswered? <==>
        IsAuthorized(userId) && '_' in data && Get(old(futures), SplitCallback(data).value.1).Some?
        && Get(old(futures), SplitCallback(data).value.1).value.Resolved?
      ensures outcome.Recorded? ==>
        outcome.pause == (outcome.action == "pause") && data == CallbackData(outcome.action, outcome.messageId)
    {
      if !IsAuthorized(userId) {
        return Unauthorized;
      }
      var parts := SplitCallback(data);
      if parts.None? {
        return Malformed;
      }
      var (action, messageId) := parts.value;
      var current := Get(futures, messageId);
      if current.Some? {
        if current.value.Resolved? {
          return AlreadyAnswered;
        }
        PutKeepsUniqueKeys(futures, messageId, Resolved(action));
        futures := Put(futures, messageId, Resolved(action));
      }
      outcome := Recorded(action, messageId, action == "pause");
    }

    /**
     * `_handle_message`: an authorised text reply, stripped and lower-cased, settles
     * the first reply still awaited with "approve" or "reject"; other text settles
     * nothing.
     */
    method HandleMessage(userId: int, text: string) returns (settled: Option<string>)
      requires Valid()
      modifies this
      ensures Valid()
      ensures futures == ApplyUpdate(old(futures), authorizedUsers, Text(userId, text))
      ensures settled.Some? <==>
        IsAuthorized(userId) && FirstWaiting(old(futures)).Some? && ClassifyReply(Lower(Strip(text))).Some?
      ensures settled.Some? ==> settled == ClassifyReply(Lower(Strip(text)))
    {
      settled := None;
      if !IsAuthorized(userId) {
        return;
      }
      ghost var f := futures;
      assert ApplyUpdate(f, authorizedUsers, Text(userId, text)) == SendText(f, text);
      var t := Lower(Strip(text));
      var i := 0;
      while i < |futures|
        invariant 0 <= i <= |futures| && futures == f
        invariant forall j :: 0 <= j < i ==> !futures[j].1.Waiting?
      {
        if futures[i].1.Waiting? {
          var verdict := ClassifyReply(t);
          FirstWaitingAt(futures, i);
          if verdict.Some? {
            ResolveKeepsUnique(futures, i, verdict.value);
            futures := futures[i := (futures[i].0, Resolved(verdict.value))];
            settled := verdict;
          }
          return;
        }
        i := i + 1;
      }
      assert FirstWaiting(f).None?;
    }

    /** One update, routed to its handler. */
    method Receive(u: Update)
      requires Valid()
      modifies this
      ensures Valid()
      ensures futures == ApplyUpdate(old(futures), authorizedUsers, u)
    {
      match u
      case Press(user, data) =>
        var _ := HandleCallback(user, data);
      case Text(user, text) =>
        var _ := HandleMessage(user, text);
    }

    /**
     * `send_and_wait`: registers an open reply for the message, lets the updates that
     * arrive within `WaitSeconds(msg.timeoutHours)` settle replies, returns the action
     * that settled this one (None on timeout) and always drops it from the table.
     * Without a started bot it returns None at once.
     */
    method SendAndWait(msg: Message, botStarted: bool, arrivals: seq<Update>) returns (r: Option<string>)
      requires Valid()
      modifies this
      ensures Valid()
      ensures !botStarted ==> r.None? && futures == old(futures)
      ensures botStarted ==>
        var settled := ApplyUpdates(Put(old(futures), msg.id, Waiting), authorizedUsers, arrivals);
        && futures == Without(settled, msg.id)
        && r == (if Get(settled, msg.id).Some? && Get(settled, msg.id).value.Resolved?
                 then Some(Get(settled, msg.id).value.action) else None)
      ensures Get(futures, msg.id).None? || !botStarted
    {
      if !botStarted {
        return None;
      }
      PutKeepsUniqueKeys(futures, msg.id, Waiting);
      futures := Put(futures, msg.id, Waiting);
      ghost var start := futures;
      var i := 0;
      while i < |arrivals|
        invariant 0 <= i <= |arrivals|
        invariant Valid()
        invariant futures == ApplyUpdates(start, authorizedUsers, arrivals[..i])
      {
        assert arrivals[..i + 1][..i] == arrivals[..i];
        Receive(arrivals[i]);
        i := i + 1;
      }
      assert arrivals[..i] == arrivals;
      var current := Get(futures, msg.id);
      r := if current.Some? && current.value.Resolved? then Some(current.value.action) else None;
      WithoutKeepsUniqueKeys(futures, msg.id);
      futures := Without(futures, msg.id);
    }
  }

  /** A reply settled by a button press before the wait ends is what `send_and_wait` returns. */
  lemma PressSettlesWait(f: Futures, authorized: set<int>, user: int, action: string, id: string,
                         later: seq<Update>)
    requires UniqueKeys(f) && user in authorized && '_' !in id
    ensures var g := ApplyUpdate(Put(f, id, Waiting), authorized, Press(user, CallbackData(action, id)));
      Get(ApplyUpdates(g, authorized, later), id) == Some(Resolved(action))
  {
    PutGet(f, id, Waiting, id);
    PutKeepsUniqueKeys(f, id, Waiting);
    CallbackRoundTrip(action, id);
    var f1 := Put(f, id, Waiting);
    PutGet(f1, id, Resolved(action), id);
    PutKeepsUniqueKeys(f1, id, Resolved(action));
    FirstAnswerWins(Put(f1, id, Resolved(action)), authorized, later, id, action);
  }
}
