// The communication hub of src/communication/hub.py: event priorities, the
// channels each priority is routed to, the "first channel that answers wins"
// send loop and the human approval gate. What each channel does with a message
// (deliver, raise, answer) is an input; so are message ids, the clock and the
// approval text.
module Hub {
  import opened Py
  import opened Json
  import opened State

  /** Message priority; a lower value is more urgent. */
  datatype Priority = Critical | Urgent | Standard | Async | Passive {
    function Value(): (v: nat)
      ensures 1 <= v <= 5
    {
      match this
      case Critical => 1
      case Urgent => 2
      case Standard => 3
      case Async => 4
      case Passive => 5
    }

    function Name(): string {
      match this
      case Critical => "CRITICAL"
      case Urgent => "URGENT"
      case Standard => "STANDARD"
      case Async => "ASYNC"
      case Passive => "PASSIVE"
    }
  }

  datatype Channel = Phone | Sms | Telegram | Discord | Email | Dashboard

  /** `Channel(name)`: the channel whose value is `name`, None where Python raises ValueError. */
  function ChannelNamed(name: string): (r: Option<Channel>)
    ensures r.Some? <==> name in {"phone", "sms", "telegram", "discord", "email", "dashboard"}
  {
    match name
    case "phone" => Some(Phone)
    case "sms" => Some(Sms)
    case "telegram" => Some(Telegram)
    case "discord" => Some(Discord)
    case "email" => Some(Email)
    case "dashboard" => Some(Dashboard)
    case _ => None
  }

  const EventPriorityMap: seq<(string, Priority)> := [
    ("security_breach", Critical), ("unauthorized_access", Critical),
    ("wallet_drained", Critical), ("system_compromised", Critical),
    ("emergency_shutdown", Critical),
    ("wallet_balance_low", Urgent), ("transaction_failed", Urgent),
    ("threshold_exceeded", Urgent), ("council_deadlock", Urgent),
    ("high_value_approval", Urgent), ("legal_decision_required", Urgent),
    ("agent_hire_approval", Urgent), ("error_rate_high", Urgent),
    ("opportunity_found", Standard), ("task_completed", Standard),
    ("venture_status_update", Standard), ("market_alert", Standard),
    ("council_decision", Standard), ("system_started", Standard),
    ("system_paused", Standard), ("system_resumed", Standard),
    ("daily_report", Async), ("weekly_summary", Async), ("monthly_report", Async),
    ("legal_document_review", Async), ("tax_filing_reminder", Async),
    ("venture_launch", Async),
    ("audit_log", Passive), ("metrics_update", Passive), ("debug_info", Passive),
    ("heartbeat", Passive)
  ]

  /** `_get_priority_for_event`: the table's entry, STANDARD for an event it does not list. */
  function EventPriority(eventType: string): (p: Priority)
    ensures (forall i :: 0 <= i < |EventPriorityMap| ==> EventPriorityMap[i].0 != eventType) ==> p == Standard
    ensures (exists i :: 0 <= i < |EventPriorityMap| && EventPriorityMap[i].0 == eventType)
      ==> exists i :: 0 <= i < |EventPriorityMap| && EventPriorityMap[i] == (eventType, p)
  {
    GetOr(EventPriorityMap, eventType, Standard)
  }

  /** The routing key and default channel list of each priority. */
  function RoutingKey(p: Priority): string {
    match p
    case Critical => "critical"
    case Urgent => "urgent"
    case Standard => "standard"
    case Async => "async"
    case Passive => "passive"
  }

  function DefaultRoute(p: Priority): seq<string> {
    match p
    case Critical => ["phone", "sms", "telegram"]
    case Urgent => ["telegram", "sms"]
    case Standard => ["discord", "telegram"]
    case Async => ["email"]
    case Passive => ["dashboard"]
  }

  /**
   * The named channels that are running, in the listed order; the first name that is
   * not a channel raises ValueError.
   */
  function LiveChannels(names: seq<string>, live: set<Channel>): (r: Result<seq<Channel>>)
    ensures r.Ok? <==> forall i :: 0 <= i < |names| ==> ChannelNamed(names[i]).Some?
    ensures r.Ok? ==> forall c :: c in r.value ==> c in live
    ensures r.Ok? ==> forall i | 0 <= i < |names| :: ChannelNamed(names[i]).value in live ==> ChannelNamed(names[i]).value in r.value
    ensures r.Ok? ==> |r.value| <= |names|
  {
    if names == [] then Ok([])
    else match ChannelNamed(names[0])
      case None => Err("ValueError: '" + names[0] + "' is not a valid Channel")
      case Some(c) =>
        match LiveChannels(names[1..], live)
        case Err(e) => Err(e)
        case Ok(cs) =>
          assert forall i :: 1 <= i < |names| ==> names[i] == names[1..][i - 1];
          Ok(if c in live then [c] + cs else cs)
  }

  /** `_get_channels_for_priority`: the configured list for the priority, or its default. */
  function ChannelsForPriority(routing: seq<(string, seq<string>)>, live: set<Channel>, p: Priority)
    : Result<seq<Channel>>
  {
    LiveChannels(GetOr(routing, RoutingKey(p), DefaultRoute(p)), live)
  }

  /**
   * A hub message. It keeps the event type it was sent for; its subject is derived
   * from that as `send` derives it.
   */
  datatype Message = Message(
    id: string,
    priority: Priority,
    eventType: string,
    body: string,
    context: Value,
    requiresResponse: bool,
    timeoutHours: int,
    createdAt: int)
  {
    /** The subject: underscores of the event type become spaces, then title case. */
    function Subject(): string { SpacedTitle(eventType) }
  }

  const MaxMessageHistory: nat := 1000

  /** What one channel did with the message: raised, or returned (a reply, when asked for one). */
  datatype ChannelResult = Raised(error: string) | Returned(reply: Option<string>)

  /** Whether the send loop stops at a channel that did this. */
  predicate Stops(res: ChannelResult, requireResponse: bool) {
    res.Returned? && (!requireResponse || (res.reply.Some? && res.reply.value != ""))
  }

  /**
   * The send loop over the routed channels: the reply it returns and how many channels
   * it tried. Without a wanted reply it stops at the first channel that does not raise
   * and returns nothing; with one it returns the first non-empty reply.
   */
  function Deliver(cs: seq<Channel>, requireResponse: bool, outcome: Channel -> ChannelResult)
    : (r: (Option<string>, nat))
    ensures r.1 <= |cs|
    ensures !requireResponse ==> r.0.None?
    ensures r.0.Some? ==> r.0.value != "" && r.1 >= 1 && outcome(cs[r.1 - 1]) == Returned(r.0)
    ensures forall j :: 0 <= j < r.1 - 1 ==> !Stops(outcome(cs[j]), requireResponse)
    ensures r.1 < |cs| ==> r.1 >= 1 && Stops(outcome(cs[r.1 - 1]), requireResponse)
    ensures r.0.None? && requireResponse ==> forall j :: 0 <= j < |cs| ==> !Stops(outcome(cs[j]), true)
  {
    if cs == [] then (None, 0)
    else if Stops(outcome(cs[0]), requireResponse) then
      (if requireResponse then outcome(cs[0]).reply else None, 1)
    else
      var rest := Deliver(cs[1..], requireResponse, outcome);
      assert forall j :: 1 <= j < |cs| ==> cs[j] == cs[1..][j - 1];
      (rest.0, rest.1 + 1)
  }

  /** `request_approval`'s priority: URGENT exactly for an amount over 2000. */
  function ApprovalPriority(amount: Option<real>): (p: Priority)
    ensures p == Urgent <==> amount.Some? && amount.value > 2000.0
    ensures p != Urgent ==> p == Standard
  {
    if amount.Some? && amount.value != 0.0 && amount.value > 2000.0 then Urgent else Standard
  }

  const ApproveWords: set<string> := {"approve", "approved", "yes", "ok", "y", "1"}

  /** A reply approves when, lower-cased and stripped, it is one of the approve words. */
  predicate IsApproval(reply: string) {
    Strip(Lower(reply)) in ApproveWords
  }

  /**
   * How the gate settles a decision given the hub's reply: (approved, comment, status,
   * responder). Silence never approves.
   */
  function ApprovalOutcome(response: Option<string>): (r: (bool, string, string, string))
    ensures r.0 <==> response.Some? && response.value != "" && IsApproval(response.value)
    ensures (response.None? || response.value == "") ==> r == (false, "Timeout - auto-rejected", "timeout", "system")
    ensures response.Some? && response.value != "" ==>
      r.1 == response.value && r.3 == "human" && (r.2 == "approved" <==> r.0) && r.2 in {"approved", "rejected"}
  {
    if response.Some? && response.value != "" then
      var approved := IsApproval(response.value);
      (approved, response.value, if approved then "approved" else "rejected", "human")
    else (false, "Timeout - auto-rejected", "timeout", "system")
  }

  /** The time a message was created, by which the history is ordered. */
  function SentAt(m: Message): int {
    m.createdAt
  }

  /** The decision `request_approval` registers: pending, with no response yet. */
  function NewDecision(id: string, decisionType: string, action: string, amount: Option<real>, reason: string,
                       recommendation: Option<string>, confidence: Option<real>, now: int,
                       timeoutHours: int): PendingDecision {
    PendingDecision(id, decisionType, action, amount, reason, recommendation, confidence, "pending", now,
                    timeoutHours, None, None)
  }

  const ApprovalEventType: string := "high_value_approval"
  /** The message `request_approval` sends for `d`: a reply is wanted, at the priority its amount sets. */
  function ApprovalMessage(d: PendingDecision, msgId: string, body: string): Message {
    Message(msgId, ApprovalPriority(d.amount), ApprovalEventType, body, DecisionContext(d),
            true, d.timeoutHours, d.createdAt)
  }

  /**
   * The decision table after `request_approval` registers `d` and settles it: with no
   * channel to route to, `d` stays pending; otherwise it carries the settled status, the
   * responder and `answeredAt`, the clock reading taken when the wait ended. Every other
   * decision is untouched.
   */
  function PendingAfterApproval(routing: seq<(string, seq<string>)>, live: set<Channel>,
                                pending: DecisionTable, d: PendingDecision, answeredAt: int,
                                outcome: Channel -> ChannelResult): (r: DecisionTable)
    ensures forall other :: other != d.id ==> Get(r, other) == Get(pending, other)
    ensures ChannelsForPriority(routing, live, ApprovalPriority(d.amount)).Err? ==> Get(r, d.id) == Some(d)
    ensures ChannelsForPriority(routing, live, ApprovalPriority(d.amount)).Ok? ==>
      var settled := ApprovalOutcome(Deliver(ChannelsForPriority(routing, live, ApprovalPriority(d.amount)).value,
                                             true, outcome).0);
      Get(r, d.id) == Some(d.(status := settled.2, respondedAt := Some(answeredAt), respondedBy := Some(settled.3)))
  {
    var added := Put(pending, d.id, d);
    PutGet(pending, d.id, d, d.id);
    forall other | other != d.id ensures Get(added, other) == Get(pending, other) {
      PutGet(pending, d.id, d, other);
    }
    match ChannelsForPriority(routing, live, ApprovalPriority(d.amount))
    case Err(_) => added
    case Ok(cs) =>
      var settled := ApprovalOutcome(Deliver(cs, true, outcome).0);
      Resolve(added, d.id, settled.2, settled.3, answeredAt).0
  }

  /**
   * What `request_approval` answers: the routing error when no channel serves the
   * priority its amount sets, otherwise whether the reply approves, and the reply or the
   * timeout note.
   */
  function ApprovalAnswer(routing: seq<(string, seq<string>)>, live: set<Channel>, amount: Option<real>,
                          outcome: Channel -> ChannelResult): (r: Result<(bool, string)>)
    ensures r.Err? <==> ChannelsForPriority(routing, live, ApprovalPriority(amount)).Err?
    ensures r.Ok? ==>
      var reply := Deliver(ChannelsForPriority(routing, live, ApprovalPriority(amount)).value, true, outcome).0;
      (r.value.0 <==> reply.Some? && IsApproval(reply.value))
      && r.value.1 == (if reply.Some? then reply.value else "Timeout - auto-rejected")
  {
    match ChannelsForPriority(routing, live, ApprovalPriority(amount))
    case Err(e) => Err(e)
    case Ok(cs) =>
      var settled := ApprovalOutcome(Deliver(cs, true, outcome).0);
      Ok((settled.0, settled.1))
  }

  /**
   * The message and event histories after `request_approval` sent `d`: each gained the
   * approval message (the event stamped with the decision's creation time), capped.
   */
  predicate ApprovalSent(sent: seq<Message>, sent': seq<Message>, events: seq<Event>, events': seq<Event>,
                         d: PendingDecision, msgId: string, body: string)
  {
    var msg := ApprovalMessage(d, msgId, body);
    && sent' == AppendCapped(sent, msg, MaxMessageHistory)
    && events' == AppendCapped(events, Event(ApprovalEventType, d.createdAt, SendEventData(msg)), MaxHistory)
  }

  /** An optional number as JSON: `None` becomes null. */
  function NumberOrNull(o: Option<real>): Value {
    if o.Some? then JNum(o.value) else JNull
  }

  /** An optional text as JSON: `None` becomes null. */
  function TextOrNull(o: Option<string>): Value {
    if o.Some? then JStr(o.value) else JNull
  }

  /**
   * `decision.to_dict()`, the context attached to the approval message. The expiry flag is
   * read at the creation instant, since the dictionary is built straight after the decision;
   * times are seconds.
   */
  function DecisionContext(d: PendingDecision): (r: Value)
    ensures r.JObj?
    ensures GetKey(r, "id", JNull) == Ok(JStr(d.id))
    ensures GetKey(r, "status", JNull) == Ok(JStr(d.status))
  {
    var fields := [
      ("id", JStr(d.id)),
      ("decision_type", JStr(d.decisionType)),
      ("action", JStr(d.action)),
      ("amount", NumberOrNull(d.amount)),
      ("reason", JStr(d.reason)),
      ("council_recommendation", TextOrNull(d.councilRecommendation)),
      ("council_confidence", NumberOrNull(d.councilConfidence)),
      ("status", JStr(d.status)),
      ("created_at", JNum(d.createdAt as real)),
      ("timeout_hours", JNum(d.timeoutHours as real)),
      ("is_expired", JBool(IsExpired(d, d.createdAt)))
    ];
    GetAtFirst(fields, 7);
    JObj(fields)
  }

  /**
   * The context a new approval request carries reports it expired only when its timeout
   * is negative: the flag is read at the creation instant.
   */
  lemma ContextExpiryFlag(d: PendingDecision)
    ensures GetKey(DecisionContext(d), "is_expired", JNull) == Ok(JBool(d.timeoutHours < 0))
  {
    GetAtFirst(DecisionContext(d).fields, 10);
  }

  /** The event `send` records for a message. */
  function SendEventData(msg: Message): Value {
    JObj([
      ("message_id", JStr(msg.id)),
      ("priority", JStr(msg.priority.Name())),
      ("body_preview", JStr(UpTo(msg.body, 100)))
    ])
  }

  /** One step of `Deliver` along the channel list. */
  lemma DeliverStep(cs: seq<Channel>, i: nat, requireResponse: bool, outcome: Channel -> ChannelResult)
    requires i < |cs|
    ensures Deliver(cs[i..], requireResponse, outcome)
            == if Stops(outcome(cs[i]), requireResponse)
               then (if requireResponse then outcome(cs[i]).reply else None, 1)
               else (Deliver(cs[i + 1..], requireResponse, outcome).0, 1 + Deliver(cs[i + 1..], requireResponse, outcome).1)
  {
    assert cs[i..][1..] == cs[i + 1..];
  }

  /** The loop of `send` over the routed channels. */
  method TryChannels(cs: seq<Channel>, requireResponse: bool, outcome: Channel -> ChannelResult)
    returns (reply: Option<string>, n: nat)
    ensures (reply, n) == Deliver(cs, requireResponse, outcome)
  {
    var i := 0;
    while i < |cs|
      invariant 0 <= i <= |cs|
      invariant Deliver(cs, requireResponse, outcome).0 == Deliver(cs[i..], requireResponse, outcome).0
      invariant Deliver(cs, requireResponse, outcome).1 == i + Deliver(cs[i..], requireResponse, outcome).1
    {
      DeliverStep(cs, i, requireResponse, outcome);
      var res := outcome(cs[i]);
      if Stops(res, requireResponse) {
        return (if requireResponse then res.reply else None), i + 1;
      }
      i := i + 1;
    }
    assert cs[i..] == [];
    return None, i;
  }

  class CommunicationHub {
    /** `priority_routing` from the configuration. */
    const routing: seq<(string, seq<string>)>
    /** The channels that were initialised. */
    const live: set<Channel>
    const state: SystemState
    var messageHistory: seq<Message>

    ghost predicate Valid()
      reads this, state
    {
      state.Valid() && |messageHistory| <= MaxMessageHistory
    }

    constructor(routing: seq<(string, seq<string>)>, live: set<Channel>, state: SystemState)
      requires state.Valid()
      ensures Valid() && messageHistory == []
      ensures this.routing == routing && this.live == live && this.state == state
    {
      this.routing := routing;
      this.live := live;
      this.state := state;
      messageHistory := [];
    }

    /**
     * `send`: records the message and an event, then tries the routed channels in order.
     * Returns the routing error, or the reply, and the channels it tried.
     */
    method Send(eventType: string, body: string, context: Value, priority: Option<Priority>,
                requireResponse: bool, timeoutHours: int, msgId: string, now: int,
                outcome: Channel -> ChannelResult)
      returns (r: Result<Option<string>>, tried: seq<Channel>)
      requires Valid()
      modifies this, state
      ensures Valid()
      ensures var p := if priority.Some? then priority.value else EventPriority(eventType);
        var msg := Message(msgId, p, eventType, body, context, requireResponse, timeoutHours, now);
        messageHistory == AppendCapped(old(messageHistory), msg, MaxMessageHistory)
        && state.eventHistory == AppendCapped(old(state.eventHistory), Event(eventType, now, SendEventData(msg)), MaxHistory)
        && match ChannelsForPriority(routing, live, p)
           case Err(e) => r == Err(e) && tried == []
           case Ok(cs) =>
             var d := Deliver(cs, requireResponse, outcome);
             r == Ok(d.0) && tried == cs[..d.1]
      ensures state.today == old(state.today) && state.pending == old(state.pending)
      ensures state.attributes == old(state.attributes)
    {
      var p := if priority.Some? then priority.value else EventPriority(eventType);
      var msg := Message(msgId, p, eventType, body, context, requireResponse, timeoutHours, now);
      messageHistory := AppendCapped(messageHistory, msg, MaxMessageHistory);
      state.RecordEvent(eventType, SendEventData(msg), now);
      var routed := ChannelsForPriority(routing, live, p);
      if routed.Err? {
        return Err(routed.error), [];
      }
      var reply, n := TryChannels(routed.value, requireResponse, outcome);
      r, tried := Ok(reply), routed.value[..n];
    }

    /**
     * `request_approval`: registers the decision, sends it for a reply and settles it.
     * `body` is the formatted approval text; `id` and `msgId` are the generated ids. `now`
     * stamps the decision and the message; `answeredAt` is the clock reading
     * `resolve_decision` takes once the wait for a reply is over.
     */
    method RequestApproval(decisionType: string, action: string, amount: Option<real>, reason: string,
                           recommendation: Option<string>, confidence: Option<real>, timeoutHours: int,
                           id: string, msgId: string, now: int, answeredAt: int, body: string,
                           outcome: Channel -> ChannelResult)
      returns (r: Result<(bool, string)>)
      requires Valid()
      modifies this, state
      ensures Valid()
      ensures r == ApprovalAnswer(routing, live, amount, outcome)
      ensures var d := NewDecision(id, decisionType, action, amount, reason, recommendation, confidence,
                                   now, timeoutHours);
        state.pending == PendingAfterApproval(routing, live, old(state.pending), d, answeredAt, outcome)
      ensures var d := NewDecision(id, decisionType, action, amount, reason, recommendation, confidence,
                                   now, timeoutHours);
        ApprovalSent(old(messageHistory), messageHistory, old(state.eventHistory), state.eventHistory, d, msgId, body)
      ensures state.today == old(state.today) && state.attributes == old(state.attributes)
    {
      var d := NewDecision(id, decisionType, action, amount, reason, recommendation, confidence,
                           now, timeoutHours);
      state.AddPendingDecision(d);
      var sent, _ := Send(ApprovalEventType, body, DecisionContext(d), Some(ApprovalPriority(amount)),
                          true, timeoutHours, msgId, now, outcome);
      if sent.Err? {
        return Err(sent.error);
      }
      var settled := ApprovalOutcome(sent.value);
      var _ := state.ResolveDecision(id, settled.2, settled.3, answeredAt);
      r := Ok((settled.0, settled.1));
    }

    /** `get_message_history(limit)`: newest first, at most `limit`. */
    function MessageHistory(limit: int): (r: seq<Message>)
      reads this
      ensures limit >= 0 ==> |r| == Min(limit, |messageHistory|)
      ensures NewestFirst(r, SentAt)
      ensures multiset(r) <= multiset(messageHistory)
      ensures r == UpTo(SortNewestFirst(messageHistory, SentAt), limit)
      ensures forall x, y :: x in messageHistory && x !in r && y in r ==> SentAt(x) <= SentAt(y)
    {
      NewestFirstTop(messageHistory, SentAt, limit);
      UpTo(SortNewestFirst(messageHistory, SentAt), limit)
    }
  }

  /** A reply the send loop returns is the reply of a channel it tried. */
  lemma ReplySource(cs: seq<Channel>, outcome: Channel -> ChannelResult) returns (i: nat)
    requires Deliver(cs, true, outcome).0.Some?
    ensures i < |cs| && outcome(cs[i]) == Returned(Deliver(cs, true, outcome).0)
  {
    i := Deliver(cs, true, outcome).1 - 1;
  }

  /** The gate approves only on a non-empty reply that some channel returned and that is an approve word. */
  lemma ApprovalNeedsAnApprovingReply(cs: seq<Channel>, outcome: Channel -> ChannelResult)
    requires ApprovalOutcome(Deliver(cs, true, outcome).0).0
    ensures exists i :: (0 <= i < |cs| && outcome(cs[i]).Returned? && outcome(cs[i]).reply.Some?
      && IsApproval(outcome(cs[i]).reply.value))
  {
    var reply := Deliver(cs, true, outcome).0;
    var i := ReplySource(cs, outcome);
    ApprovingChannel(cs, outcome, i, reply);
  }

  lemma ApprovingChannel(cs: seq<Channel>, outcome: Channel -> ChannelResult, i: nat, reply: Option<string>)
    requires i < |cs| && outcome(cs[i]) == Returned(reply) && reply.Some? && IsApproval(reply.value)
    ensures exists j :: (0 <= j < |cs| && outcome(cs[j]).Returned? && outcome(cs[j]).reply.Some?
      && IsApproval(outcome(cs[j]).reply.value))
  {
    assert outcome(cs[i]).reply == reply;
  }

  /** When no channel answers, the decision times out and is rejected. */
  lemma SilenceRejects(cs: seq<Channel>, outcome: Channel -> ChannelResult)
    requires forall i :: 0 <= i < |cs| ==> !Stops(outcome(cs[i]), true)
    ensures ApprovalOutcome(Deliver(cs, true, outcome).0) == (false, "Timeout - auto-rejected", "timeout", "system")
  {
  }
}
