// The orchestrator of src/main.py: the three-tier spend decision (automatic,
// council, human) and the health-check alert rules. The council is a function
// from the question and context it is asked to its deliberation; what the
// channels do with the approval request is an input, as in the hub.
module Orchestrator {
  import opened Py
  import opened Json
  import opened Numerals
  import opened Config
  import opened Council
  import opened State
  import opened Hub

  /** Which way a decision went. */
  datatype Route =
    | AutoApproved
    | CouncilDecided(verdict: Deliberation)
    | Escalated(recommendation: Option<Deliberation>)

  /**
   * The tier of `make_decision`: under the automatic threshold it is approved outright;
   * under the human threshold the council decides when it reaches consensus; everything
   * else, and every council without consensus, goes to a human. Both bounds are strict.
   */
  function RouteFor(amount: real, t: Thresholds, verdict: Deliberation): (r: Route)
    ensures r.AutoApproved? <==> amount < t.autoApproveUsd
    ensures r.CouncilDecided? <==> (t.autoApproveUsd <= amount < t.humanRequiredUsd
                                    && verdict.consensus && !verdict.vote.NoConsensus?)
    ensures r.CouncilDecided? ==> r.verdict == verdict
    ensures r.Escalated? ==> (r.recommendation.Some? <==> amount < t.humanRequiredUsd)
    ensures r.Escalated? && r.recommendation.Some? ==> r.recommendation.value == verdict
  {
    if amount < t.autoApproveUsd then AutoApproved
    else if amount < t.humanRequiredUsd then
      if verdict.consensus && (verdict.vote.Approve? || verdict.vote.Reject?) then CouncilDecided(verdict)
      else Escalated(Some(verdict))
    else Escalated(None)
  }

  /** The `record_decision` calls a route makes, in order. */
  function RecordedTiers(r: Route): (tiers: seq<string>)
    ensures "autonomous" in tiers <==> r.AutoApproved?
    ensures "council" in tiers <==> r.CouncilDecided? || (r.Escalated? && r.recommendation.Some?)
    ensures "human" in tiers <==> r.Escalated?
    ensures 1 <= |tiers| <= 2
  {
    match r
    case AutoApproved => ["autonomous"]
    case CouncilDecided(_) => ["council"]
    case Escalated(None) => ["human"]
    case Escalated(Some(_)) => ["council", "human"]
  }

  function RecordAll(m: DailyMetrics, tiers: seq<string>): DailyMetrics
    decreases |tiers|
  {
    if tiers == [] then m else RecordAll(RecordDecision(m, tiers[0]), tiers[1..])
  }

  lemma RecordAllOne(m: DailyMetrics, t: string)
    ensures RecordAll(m, [t]) == RecordDecision(m, t)
  {
    assert [t][1..] == [];
  }

  lemma RecordAllTwo(m: DailyMetrics, t: string, u: string)
    ensures RecordAll(m, [t, u]) == RecordDecision(RecordDecision(m, t), u)
  {
    assert [t, u][1..] == [u];
    RecordAllOne(RecordDecision(m, t), u);
  }

  /** Each decision adds one to the total per recorded tier, and keeps the tiers within it. */
  lemma RecordAllCounts(m: DailyMetrics, tiers: seq<string>)
    requires TiersWithinTotal(m)
    ensures RecordAll(m, tiers).decisionsTotal == m.decisionsTotal + |tiers|
    ensures TiersWithinTotal(RecordAll(m, tiers))
    ensures RecordAll(m, tiers).errorsCount == m.errorsCount
    decreases |tiers|
  {
    if tiers != [] {
      RecordDecisionKeepsTiersWithinTotal(m, tiers[0]);
      RecordAllCounts(RecordDecision(m, tiers[0]), tiers[1..]);
    }
  }

  /** The answer of a council that reached consensus. */
  function CouncilAnswer(d: Deliberation): (r: (bool, string))
    ensures r.0 <==> d.vote == Approve
    ensures d.vote == Reject ==> r.1 == "Council rejected: " + d.reasoning
  {
    if d.vote == Approve then (true, "Council approved (" + Percent(d.confidence) + " confidence)")
    else (false, "Council rejected: " + d.reasoning)
  }

  /** The question the council is asked. */
  function Question(action: string): string {
    "Should we: " + action + "?"
  }

  /** `{**context, "amount": amount}` */
  function CouncilContext(context: seq<(string, Value)>, amount: real): (r: seq<(string, Value)>)
    ensures Get(r, "amount") == Some(JNum(amount))
    ensures forall k :: k != "amount" ==> Get(r, k) == Get(context, k)
  {
    PutGet(context, "amount", JNum(amount), "amount");
    forall k | k != "amount" ensures Get(Put(context, "amount", JNum(amount)), k) == Get(context, k) {
      PutGet(context, "amount", JNum(amount), k);
    }
    Put(context, "amount", JNum(amount))
  }

  /** `context.get("reason", "Requires human approval")`; a non-text reason is shown as "". */
  function ReasonOf(context: seq<(string, Value)>): string {
    var reason := Py.Get(context, "reason");
    if reason.None? then "Requires human approval"
    else if reason.value.JStr? then reason.value.s
    else ""
  }

  /** The amount the approval request carries: None unless positive. */
  function HumanAmount(amount: real): (r: Option<real>)
    ensures r.Some? <==> amount > 0.0
    ensures r.Some? ==> r.value == amount
  {
    if amount > 0.0 then Some(amount) else None
  }

  function DecisionTypeFor(amount: real): string {
    if amount > 0.0 then "financial" else "operational"
  }

  /** The answer of the human path: the gate's verdict and its comment, or "Human decision". */
  function HumanAnswer(settled: (bool, string, string, string)): (bool, string) {
    (settled.0, if settled.1 == "" then "Human decision" else settled.1)
  }

  /** The decision the human tier registers, `id` and `now` being its generated id and time. */
  function HumanDecision(action: string, amount: real, context: seq<(string, Value)>,
                         recommendation: Option<Deliberation>, id: string, now: int): PendingDecision {
    NewDecision(id, DecisionTypeFor(amount), action, HumanAmount(amount), ReasonOf(context),
                RecommendedVote(recommendation), RecommendedConfidence(recommendation), now, 24)
  }

  /** `result.vote if 'result' in locals() else None` */
  function RecommendedVote(recommendation: Option<Deliberation>): Option<string> {
    if recommendation.Some? then Some(recommendation.value.vote.Text()) else None
  }

  /** `result.confidence if 'result' in locals() else None` */
  function RecommendedConfidence(recommendation: Option<Deliberation>): Option<real> {
    if recommendation.Some? then Some(recommendation.value.confidence) else None
  }

  class QualiaIA {
    const thresholds: Thresholds
    const hub: CommunicationHub

    ghost predicate Valid()
      reads this, hub, hub.state
    {
      hub.Valid()
    }

    constructor(thresholds: Thresholds, hub: CommunicationHub)
      requires hub.Valid()
      ensures Valid() && this.thresholds == thresholds && this.hub == hub
    {
      this.thresholds := thresholds;
      this.hub := hub;
    }

    /**
     * `make_decision`. The council is consulted only between the two thresholds; the
     * human gate is reached on the top tier and on a council without consensus.
     * `id`, `msgId`, `now`, `answeredAt` and `body` are what the approval request needs.
     */
    method MakeDecision(action: string, amount: real, context: seq<(string, Value)>,
                        council: (string, seq<(string, Value)>) -> Deliberation,
                        id: string, msgId: string, now: int, answeredAt: int, body: string,
                        outcome: Channel -> ChannelResult)
      returns (r: Result<(bool, string)>)
      requires Valid()
      modifies hub, hub.state
      ensures Valid()
      ensures var route := RouteFor(amount, thresholds, council(Question(action), CouncilContext(context, amount)));
        var human := HumanPath(hub.routing, hub.live, amount, outcome);
        r == Decided(route, human)
        && hub.state.today == RecordAll(old(hub.state.today), TiersRecorded(route, human.Ok?))
        && (!route.Escalated? ==> hub.state.pending == old(hub.state.pending))
      ensures var route := RouteFor(amount, thresholds, council(Question(action), CouncilContext(context, amount)));
        !route.Escalated? ==>
          hub.messageHistory == old(hub.messageHistory) && hub.state.eventHistory == old(hub.state.eventHistory)
      ensures var route := RouteFor(amount, thresholds, council(Question(action), CouncilContext(context, amount)));
        route.Escalated? ==>
          var d := HumanDecision(action, amount, context, route.recommendation, id, now);
          && hub.state.pending == PendingAfterApproval(hub.routing, hub.live, old(hub.state.pending), d, answeredAt, outcome)
          && ApprovalSent(old(hub.messageHistory), hub.messageHistory, old(hub.state.eventHistory),
                          hub.state.eventHistory, d, msgId, body)
      ensures hub.state.attributes == old(hub.state.attributes)
    {
      ghost var route := RouteFor(amount, thresholds, council(Question(action), CouncilContext(context, amount)));
      if amount < thresholds.autoApproveUsd {
        hub.state.RecordDecisionMetric("autonomous");
        RecordAllOne(old(hub.state.today), "autonomous");
        return Ok((true, "Auto-approved (under threshold)"));
      }
      var recommendation: Option<Deliberation> := None;
      if amount < thresholds.humanRequiredUsd {
        var result := council(Question(action), CouncilContext(context, amount));
        hub.state.RecordDecisionMetric("council");
        RecordAllOne(old(hub.state.today), "council");
        if result.consensus && result.vote.Approve? {
          return Ok(CouncilAnswer(result));
        } else if result.consensus && result.vote.Reject? {
          return Ok(CouncilAnswer(result));
        }
        recommendation := Some(result);
        RecordAllTwo(old(hub.state.today), "council", "human");
      } else {
        RecordAllOne(old(hub.state.today), "human");
      }
      assert route == Escalated(recommendation);
      r := AskHuman(action, amount, context, recommendation, id, msgId, now, answeredAt, body, outcome);
    }

    /** The human tier of `make_decision`: the approval request and its record. */
    method AskHuman(action: string, amount: real, context: seq<(string, Value)>,
                    recommendation: Option<Deliberation>,
                    id: string, msgId: string, now: int, answeredAt: int, body: string,
                    outcome: Channel -> ChannelResult)
      returns (r: Result<(bool, string)>)
      requires Valid()
      modifies hub, hub.state
      ensures Valid()
      ensures r == HumanPath(hub.routing, hub.live, amount, outcome)
      ensures r.Ok? ==> hub.state.today == RecordDecision(old(hub.state.today), "human")
      ensures r.Err? ==> hub.state.today == old(hub.state.today)
      ensures var d := HumanDecision(action, amount, context, recommendation, id, now);
        && hub.state.pending == PendingAfterApproval(hub.routing, hub.live, old(hub.state.pending), d, answeredAt, outcome)
        && ApprovalSent(old(hub.messageHistory), hub.messageHistory, old(hub.state.eventHistory),
                        hub.state.eventHistory, d, msgId, body)
      ensures hub.state.attributes == old(hub.state.attributes)
    {
      var approval := hub.RequestApproval(
        DecisionTypeFor(amount), action, HumanAmount(amount), ReasonOf(context),
        RecommendedVote(recommendation), RecommendedConfidence(recommendation),
        24, id, msgId, now, answeredAt, body, outcome);
      if approval.Err? {
        return Err(approval.error);
      }
      hub.state.RecordDecisionMetric("human");
      var (approved, comment) := approval.value;
      r := Ok((approved, if comment == "" then "Human decision" else comment));
    }
  }

  /** `comment or "Human decision"` on the gate's answer. */
  function HumanReply(a: Result<(bool, string)>): Result<(bool, string)> {
    match a
    case Err(e) => Err(e)
    case Ok(v) => Ok((v.0, if v.1 == "" then "Human decision" else v.1))
  }

  /** What the human gate answers, given the routing and what each channel does. */
  function HumanPath(routing: seq<(string, seq<string>)>, live: set<Channel>, amount: real,
                     outcome: Channel -> ChannelResult): Result<(bool, string)>
  {
    HumanReply(ApprovalAnswer(routing, live, HumanAmount(amount), outcome))
  }

  /** The answer of `make_decision` on a route, given what the human gate would answer. */
  function Decided(route: Route, human: Result<(bool, string)>): Result<(bool, string)> {
    match route
    case AutoApproved => Ok((true, "Auto-approved (under threshold)"))
    case CouncilDecided(d) => Ok(CouncilAnswer(d))
    case Escalated(_) => human
  }

  /** The tiers recorded: a failed approval request records the council tier only. */
  function TiersRecorded(route: Route, humanAnswered: bool): (tiers: seq<string>)
    ensures humanAnswered ==> tiers == RecordedTiers(route)
    ensures !humanAnswered && route.Escalated? ==> tiers + ["human"] == RecordedTiers(route)
  {
    if route.Escalated? && !humanAnswered then
      (if route.recommendation.Some? then ["council"] else [])
    else RecordedTiers(route)
  }

  /** A human-path approval needs a channel to have returned an approve word. */
  lemma HumanApprovalNeedsApproveWord(cs: seq<Channel>, outcome: Channel -> ChannelResult)
    requires HumanAnswer(ApprovalOutcome(Deliver(cs, true, outcome).0)).0
    ensures exists i :: (0 <= i < |cs| && outcome(cs[i]).Returned? && outcome(cs[i]).reply.Some?
      && IsApproval(outcome(cs[i]).reply.value))
  {
    ApprovalNeedsAnApprovingReply(cs, outcome);
  }

  /** An amount at or over the human threshold (and the automatic one) never skips the human. */
  lemma TopTierAlwaysAsksHuman(amount: real, t: Thresholds, verdict: Deliberation)
    requires amount >= t.humanRequiredUsd && amount >= t.autoApproveUsd
    ensures RouteFor(amount, t, verdict) == Escalated(None)
    ensures RecordedTiers(RouteFor(amount, t, verdict)) == ["human"]
  {
  }

  /**
   * With the default thresholds (100 and 2000 dollars) an amount just under 100 is approved
   * outright, exactly 100 goes to the council, and exactly 2000 goes straight to a human.
   */
  lemma DefaultTierBoundaries(verdict: Deliberation)
    ensures RouteFor(99.99, DefaultThresholds, verdict).AutoApproved?
    ensures !RouteFor(100.0, DefaultThresholds, verdict).AutoApproved?
    ensures RouteFor(100.0, DefaultThresholds, verdict) != Escalated(None)
    ensures RouteFor(2000.0, DefaultThresholds, verdict) == Escalated(None)
  {
  }

  /** A council without consensus makes the decision count for both the council and the human. */
  lemma FallThroughCountsTwice(amount: real, t: Thresholds, verdict: Deliberation, m: DailyMetrics)
    requires t.autoApproveUsd <= amount < t.humanRequiredUsd && !verdict.consensus
    ensures var m' := RecordAll(m, RecordedTiers(RouteFor(amount, t, verdict)));
      m'.decisionsCouncil == m.decisionsCouncil + 1 && m'.decisionsHuman == m.decisionsHuman + 1
      && m'.decisionsTotal == m.decisionsTotal + 2
  {
    var m1 := RecordDecision(m, "council");
    assert RecordAll(m, ["council", "human"]) == RecordAll(m1, ["human"]);
    assert RecordAll(m1, ["human"]) == RecordAll(RecordDecision(m1, "human"), []);
  }

  // ---------------------------------------------------------------------------
  // Health check

  function Sum(xs: seq<real>): real {
    if xs == [] then 0.0 else xs[0] + Sum(xs[1..])
  }

  /** The low-balance rule: a wallet whose balances add up to less than the threshold. */
  predicate LowBalanceAlert(balances: Option<seq<real>>, a: AlertsConfig) {
    balances.Some? && Sum(balances.value) < a.walletLowBalanceUsd
  }

  /** The error-rate rule, evaluated only once a decision has been made. */
  predicate ErrorRateAlert(m: DailyMetrics, a: AlertsConfig) {
    m.decisionsTotal > 0 && (m.errorsCount as real) / (m.decisionsTotal as real) > a.errorRateThreshold
  }

  /** `_health_check`: the alerts it sends, in order. */
  function HealthAlerts(balances: Option<seq<real>>, m: DailyMetrics, a: AlertsConfig): (alerts: seq<string>)
    ensures "wallet_balance_low" in alerts <==> LowBalanceAlert(balances, a)
    ensures "error_rate_high" in alerts <==> ErrorRateAlert(m, a)
    ensures |alerts| <= 2
  {
    (if LowBalanceAlert(balances, a) then ["wallet_balance_low"] else [])
    + (if ErrorRateAlert(m, a) then ["error_rate_high"] else [])
  }

  /**
   * No state operation ever counts an error, so from fresh metrics the error-rate alert
   * stays silent for every non-negative threshold.
   */
  lemma ErrorRateSilentWithoutErrors(date: string, tiers: seq<string>, a: AlertsConfig)
    requires a.errorRateThreshold >= 0.0
    ensures !ErrorRateAlert(RecordAll(FreshMetrics(date), tiers), a)
  {
    RecordAllCounts(FreshMetrics(date), tiers);
  }
}
