// The venture portfolio of src/core/ventures.py: venture records and their metrics,
// creation behind a council vote, metric updates followed by the health check that
// may scale a venture up or put its shutdown to the council, and the portfolio
// summary over the active ventures. The council is an input (a function from the
// question and its context to a deliberation), as are the venture id and the clock;
// notifications to the communication hub are not modelled.
module Ventures {
  import opened Py
  import opened Json
  import opened Config
  import opened Council

  datatype VentureStatus = Ideation | Validation | Building | Launching | Active | Scaling | Paused | Shutdown {
    function Text(): string {
      match this
      case Ideation => "ideation"
      case Validation => "validation"
      case Building => "building"
      case Launching => "launching"
      case Active => "active"
      case Scaling => "scaling"
      case Paused => "paused"
      case Shutdown => "shutdown"
    }

    /** The statuses `get_active_ventures` reports. */
    predicate IsActive() {
      Building? || Launching? || Active? || Scaling?
    }
  }

  datatype VentureType = Ecommerce | Saas | Content | Service | Marketplace | Other {
    function Text(): string {
      match this
      case Ecommerce => "e-commerce"
      case Saas => "saas"
      case Content => "content"
      case Service => "service"
      case Marketplace => "marketplace"
      case Other => "other"
    }
  }

  datatype VentureMetrics = VentureMetrics(
    revenue: real,
    expenses: real,
    customers: int,
    conversionRate: real,
    churnRate: real)
  {
    /** Revenue minus expenses. */
    function Profit(): real { revenue - expenses }

    /**
     * Profit as a fraction of revenue; 0 when there is no positive revenue. With
     * positive revenue and no negative expenses the margin is at most 1.
     */
    function Margin(): (m: real)
      ensures revenue > 0.0 ==> m * revenue == revenue - expenses
      ensures revenue <= 0.0 ==> m == 0.0
      ensures revenue > 0.0 ==> (m > 0.0 <==> revenue > expenses)
      ensures revenue > 0.0 && expenses >= 0.0 ==> m <= 1.0
    {
      if revenue > 0.0 then
        var m := Profit() / revenue;
        assert m * revenue == revenue - expenses;
        assert expenses >= 0.0 ==> m <= 1.0 by {
          if expenses >= 0.0 {
            FractionAtMostOne(revenue - expenses, revenue);
          }
        }
        m
      else 0.0
    }
  }

  /** A quotient whose numerator does not exceed its positive denominator is at most one. */
  lemma FractionAtMostOne(a: real, b: real)
    requires b > 0.0 && a <= b
    ensures a / b <= 1.0
  {
  }

  const NoMetrics := VentureMetrics(0.0, 0.0, 0, 0.0, 0.0)

  datatype Venture = Venture(
    id: string,
    name: string,
    kind: VentureType,
    status: VentureStatus,
    market: string,
    description: string,
    createdAt: int,
    metrics: VentureMetrics,
    config: seq<(string, Value)>,
    entityType: Option<string>,
    jurisdiction: Option<string>,
    registrationId: Option<string>)

  /** The question put to the council before a launch. */
  function LaunchQuestion(name: string): string {
    "Should we launch new venture: " + name + "?"
  }

  function LaunchContext(name: string, kind: VentureType, market: string, investment: real,
                         description: string): seq<(string, Value)> {
    [("name", JStr(name)), ("type", JStr(kind.Text())), ("market", JStr(market)),
     ("initial_investment", JNum(investment)), ("description", JStr(description))]
  }

  /** The question put to the council before a shutdown. */
  function ShutdownQuestion(name: string): string {
    "Should we shut down " + name + "?"
  }

  function ShutdownContext(v: Venture, threshold: real): seq<(string, Value)> {
    [("venture_id", JStr(v.id)), ("name", JStr(v.name)), ("profit", JNum(v.metrics.Profit())),
     ("revenue", JNum(v.metrics.revenue)), ("threshold", JNum(threshold))]
  }

  /** Whether a deliberation settles on approval: consensus and an "approve" vote. */
  predicate Approved(d: Deliberation) {
    d.consensus && d.vote.Approve?
  }

  /**
   * `update_metrics` overwrites exactly the fields given a value; every other field
   * keeps its old value.
   */
  function MergeMetrics(m: VentureMetrics, revenue: Option<real>, expenses: Option<real>,
                        customers: Option<int>, conversionRate: Option<real>,
                        churnRate: Option<real>): (r: VentureMetrics)
    ensures r.revenue == (if revenue.Some? then revenue.value else m.revenue)
    ensures r.expenses == (if expenses.Some? then expenses.value else m.expenses)
    ensures r.customers == (if customers.Some? then customers.value else m.customers)
    ensures r.conversionRate == (if conversionRate.Some? then conversionRate.value else m.conversionRate)
    ensures r.churnRate == (if churnRate.Some? then churnRate.value else m.churnRate)
  {
    var m1 := if revenue.Some? then m.(revenue := revenue.value) else m;
    var m2 := if expenses.Some? then m1.(expenses := expenses.value) else m1;
    var m3 := if customers.Some? then m2.(customers := customers.value) else m2;
    var m4 := if conversionRate.Some? then m3.(conversionRate := conversionRate.value) else m3;
    if churnRate.Some? then m4.(churnRate := churnRate.value) else m4
  }

  /** What `_evaluate_health` turns to: the shutdown review, the scaling review, or nothing. */
  datatype HealthAction = ConsiderShutdown | ConsiderScaling | Healthy

  /**
   * The health triggers: a profit below the loss threshold sends the venture to the
   * shutdown review; otherwise an ACTIVE venture whose revenue and margin both exceed
   * their triggers goes to the scaling review.
   */
  function HealthCheck(m: VentureMetrics, status: VentureStatus, t: VenturesConfig): (a: HealthAction)
    ensures a.ConsiderShutdown? <==> m.Profit() < t.shutdownLossThresholdUsd
    ensures a.ConsiderScaling? <==>
      && m.Profit() >= t.shutdownLossThresholdUsd
      && status.Active?
      && m.revenue > t.scaleTriggerRevenueUsd
      && m.Margin() > t.scaleTriggerMargin
  {
    if m.Profit() < t.shutdownLossThresholdUsd then ConsiderShutdown
    else if status.Active? && m.revenue > t.scaleTriggerRevenueUsd && m.Margin() > t.scaleTriggerMargin
    then ConsiderScaling
    else Healthy
  }

  /**
   * With non-negative triggers only a profitable venture is ever sent to the scaling
   * review: its revenue is positive, so a positive margin means a positive profit.
   */
  lemma ScalingNeedsProfit(m: VentureMetrics, status: VentureStatus, t: VenturesConfig)
    requires t.scaleTriggerRevenueUsd >= 0.0 && t.scaleTriggerMargin >= 0.0
    ensures HealthCheck(m, status, t).ConsiderScaling? ==> m.Profit() > 0.0 && m.revenue > 0.0
  {
    if HealthCheck(m, status, t).ConsiderScaling? {
      assert m.revenue > 0.0;
      assert m.Margin() > 0.0;
    }
  }

  /**
   * The status a venture ends in after the health check of `update_metrics`: SCALING
   * after the scaling review, SHUTDOWN when the council is set and approves the
   * shutdown, unchanged otherwise.
   */
  function StatusAfterHealthCheck(v: Venture, t: VenturesConfig, hasCouncil: bool,
                                  council: (string, seq<(string, Value)>) -> Deliberation): (s: VentureStatus)
    ensures s == v.status || s.Scaling? || s.Shutdown?
    ensures s.Scaling? && !v.status.Scaling? ==> HealthCheck(v.metrics, v.status, t).ConsiderScaling?
    ensures s.Shutdown? && !v.status.Shutdown? ==>
      && HealthCheck(v.metrics, v.status, t).ConsiderShutdown?
      && hasCouncil
      && Approved(council(ShutdownQuestion(v.name), ShutdownContext(v, t.shutdownLossThresholdUsd)))
    ensures HealthCheck(v.metrics, v.status, t).ConsiderScaling? ==> s == Scaling
    ensures (&& HealthCheck(v.metrics, v.status, t).ConsiderShutdown?
             && hasCouncil
             && Approved(council(ShutdownQuestion(v.name), ShutdownContext(v, t.shutdownLossThresholdUsd))))
            ==> s == Shutdown
    ensures HealthCheck(v.metrics, v.status, t).ConsiderShutdown? && !hasCouncil ==> s == v.status
    ensures HealthCheck(v.metrics, v.status, t).Healthy? ==> s == v.status
  {
    match HealthCheck(v.metrics, v.status, t)
    case ConsiderShutdown =>
      if hasCouncil && Approved(council(ShutdownQuestion(v.name), ShutdownContext(v, t.shutdownLossThresholdUsd)))
      then Shutdown
      else v.status
    case ConsiderScaling => Scaling
    case Healthy => v.status
  }

  /** The ventures, in insertion order, whose status is active. */
  function ActiveOf(vs: seq<(string, Venture)>): (r: seq<Venture>)
    ensures |r| <= |vs|
    ensures forall v :: v in r <==> exists i :: 0 <= i < |vs| && vs[i].1 == v && v.status.IsActive()
  {
    if vs == [] then []
    else
      var rest := ActiveOf(vs[1..]);
      assert forall i :: 1 <= i < |vs| ==> vs[i] == vs[1..][i - 1];
      if vs[0].1.status.IsActive() then [vs[0].1] + rest else rest
  }

  lemma {:induction false} ActiveOfSnoc(vs: seq<(string, Venture)>, e: (string, Venture))
    ensures ActiveOf(vs + [e]) == ActiveOf(vs) + (if e.1.status.IsActive() then [e.1] else [])
    decreases |vs|
  {
    if vs == [] {
      assert [e][1..] == [];
    } else {
      assert (vs + [e])[1..] == vs[1..] + [e];
      ActiveOfSnoc(vs[1..], e);
    }
  }

  function SumRevenue(vs: seq<Venture>): real {
    if vs == [] then 0.0 else vs[0].metrics.revenue + SumRevenue(vs[1..])
  }

  function SumExpenses(vs: seq<Venture>): real {
    if vs == [] then 0.0 else vs[0].metrics.expenses + SumExpenses(vs[1..])
  }

  function SumProfit(vs: seq<Venture>): real {
    if vs == [] then 0.0 else vs[0].metrics.Profit() + SumProfit(vs[1..])
  }

  function SumCustomers(vs: seq<Venture>): int {
    if vs == [] then 0 else vs[0].metrics.customers + SumCustomers(vs[1..])
  }

  /** The portfolio's profit is its revenue minus its expenses. */
  lemma {:induction false} ProfitIsRevenueMinusExpenses(vs: seq<Venture>)
    ensures SumProfit(vs) == SumRevenue(vs) - SumExpenses(vs)
  {
    if vs != [] {
      ProfitIsRevenueMinusExpenses(vs[1..]);
    }
  }

  /** `get_portfolio_summary`; the per-venture dicts are the venture records themselves. */
  datatype PortfolioSummary = PortfolioSummary(
    totalVentures: int,
    activeVentures: int,
    totalRevenue: real,
    totalExpenses: real,
    totalProfit: real,
    totalCustomers: int,
    ventures: seq<Venture>)

  function Summary(vs: seq<(string, Venture)>): (r: PortfolioSummary)
    ensures r.totalVentures == |vs| && 0 <= r.activeVentures <= r.totalVentures
    ensures r.ventures == ActiveOf(vs) && r.activeVentures == |r.ventures|
    ensures r.totalProfit == r.totalRevenue - r.totalExpenses
    ensures r.totalRevenue == SumRevenue(r.ventures) && r.totalExpenses == SumExpenses(r.ventures)
    ensures r.totalCustomers == SumCustomers(r.ventures)
  {
    var active := ActiveOf(vs);
    ProfitIsRevenueMinusExpenses(active);
    PortfolioSummary(|vs|, |active|, SumRevenue(active), SumExpenses(active), SumProfit(active),
                     SumCustomers(active), active)
  }

  /**
   * An inactive venture added to the portfolio changes nothing in the summary but
   * the total count.
   */
  lemma InactiveVentureNotSummed(vs: seq<(string, Venture)>, e: (string, Venture))
    requires !e.1.status.IsActive()
    ensures Summary(vs + [e]) == Summary(vs).(totalVentures := |vs| + 1)
  {
    ActiveOfSnoc(vs, e);
    assert ActiveOf(vs + [e]) == ActiveOf(vs);
  }

  class VentureManager {
    const thresholds: VenturesConfig
    /** Whether a council is attached. */
    const hasCouncil: bool
    /** The `ventures` dict, in insertion order. */
    var ventures: seq<(string, Venture)>

    /** Every venture is stored under its own id, each id once. */
    ghost predicate Valid()
      reads this
    {
      UniqueKeys(ventures) && forall i :: 0 <= i < |ventures| ==> ventures[i].1.id == ventures[i].0
    }

    constructor(thresholds: VenturesConfig, hasCouncil: bool)
      ensures Valid()
      ensures this.thresholds == thresholds && this.hasCouncil == hasCouncil && ventures == []
    {
      this.thresholds := thresholds;
      this.hasCouncil := hasCouncil;
      ventures := [];
    }

    /**
     * `create_venture`. With a council and a positive investment the launch is put
     * to the council, and anything but a consensus to approve returns None and stores
     * nothing. Otherwise a new venture in IDEATION is stored under its id.
     */
    method CreateVenture(name: string, kind: VentureType, market: string, investment: real,
                         description: string, config: Option<seq<(string, Value)>>,
                         council: (string, seq<(string, Value)>) -> Deliberation, id: string, now: int)
      returns (r: Option<Venture>)
      requires Valid()
      modifies this
      ensures Valid()
      ensures r.None? <==>
        hasCouncil && investment > 0.0
        && !Approved(council(LaunchQuestion(name), LaunchContext(name, kind, market, investment, description)))
      ensures r.None? ==> ventures == old(ventures)
      ensures r.Some? ==>
        && r.value == Venture(id, name, kind, Ideation, market, description, now, NoMetrics,
                              if config.Some? then config.value else [], None, None, None)
        && ventures == Put(old(ventures), id, r.value)
        && Get(ventures, id) == Some(r.value)
    {
      if hasCouncil && investment > 0.0 {
        var result := council(LaunchQuestion(name), LaunchContext(name, kind, market, investment, description));
        if !Approved(result) {
          return None;
        }
      }
      var v := Venture(id, name, kind, Ideation, market, description, now, NoMetrics,
                       if config.Some? then config.value else [], None, None, None);
      Store(id, v);
      r := Some(v);
    }

    /** `self.ventures[id] = v` for a venture whose id is `id`. */
    method Store(id: string, v: Venture)
      requires Valid() && v.id == id
      modifies this
      ensures Valid()
      ensures ventures == Put(old(ventures), id, v)
      ensures Get(ventures, id) == Some(v)
      ensures forall k :: k != id ==> Get(ventures, k) == Get(old(ventures), k)
    {
      PutKeepsUniqueKeys(ventures, id, v);
      KeyedPut(ventures, id, v);
      forall k | k != id ensures Get(Put(ventures, id, v), k) == Get(ventures, k) {
        PutGet(ventures, id, v, k);
      }
      PutGet(ventures, id, v, id);
      ventures := Put(ventures, id, v);
    }

    /** `shutdown_venture`: an unknown id gives false; a known one is set to SHUTDOWN. */
    method ShutdownVenture(id: string) returns (ok: bool)
      requires Valid()
      modifies this
      ensures Valid()
      ensures ok <==> Get(old(ventures), id).Some?
      ensures !ok ==> ventures == old(ventures)
      ensures ok ==> ventures == Put(old(ventures), id, Get(old(ventures), id).value.(status := Shutdown))
      ensures ok ==> Get(ventures, id) == Some(Get(old(ventures), id).value.(status := Shutdown))
    {
      var found := Get(ventures, id);
      if found.None? {
        return false;
      }
      GetIsStored(id);
      Store(id, found.value.(status := Shutdown));
      ok := true;
    }

    /** A venture found under an id carries that id. */
    lemma GetIsStored(id: string)
      requires Valid() && Get(ventures, id).Some?
      ensures Get(ventures, id).value.id == id
    {
      var i :| 0 <= i < |ventures| && ventures[i] == (id, Get(ventures, id).value);
    }

    /**
     * `update_metrics`: an unknown id gives None and changes nothing. Otherwise the
     * given fields are overwritten and the health check runs on the updated venture,
     * which may move it to SCALING or, through the council, to SHUTDOWN.
     */
    method UpdateMetrics(id: string, revenue: Option<real>, expenses: Option<real>,
                         customers: Option<int>, conversionRate: Option<real>, churnRate: Option<real>,
                         council: (string, seq<(string, Value)>) -> Deliberation)
      returns (r: Option<Venture>)
      requires Valid()
      modifies this
      ensures Valid()
      ensures r.None? <==> Get(old(ventures), id).None?
      ensures r.None? ==> ventures == old(ventures)
      ensures r.Some? ==>
        var old_v := Get(old(ventures), id).value;
        var updated := old_v.(metrics := MergeMetrics(old_v.metrics, revenue, expenses, customers,
                                                      conversionRate, churnRate));
        && r.value == updated.(status := StatusAfterHealthCheck(updated, thresholds, hasCouncil, council))
        && ventures == Put(old(ventures), id, r.value)
    {
      var found := Get(ventures, id);
      if found.None? {
        return None;
      }
      GetIsStored(id);
      var v := found.value;
      v := v.(metrics := MergeMetrics(v.metrics, revenue, expenses, customers, conversionRate, churnRate));
      Store(id, v);
      EvaluateHealth(v, council);
      r := Get(ventures, id);
      PutPutSame(old(ventures), id, v, r.value);
    }

    /**
     * `_evaluate_health` on the stored venture `v`, with `_consider_shutdown` and
     * `_consider_scaling` inlined.
     */
    method EvaluateHealth(v: Venture, council: (string, seq<(string, Value)>) -> Deliberation)
      requires Valid() && Get(ventures, v.id) == Some(v)
      modifies this
      ensures Valid()
      ensures Get(ventures, v.id) == Some(v.(status := StatusAfterHealthCheck(v, thresholds, hasCouncil, council)))
      ensures ventures == Put(old(ventures), v.id, v.(status := StatusAfterHealthCheck(v, thresholds, hasCouncil, council)))
    {
      PutUnchanged(ventures, v.id, v);
      match HealthCheck(v.metrics, v.status, thresholds)
      case ConsiderShutdown =>
        if hasCouncil {
          var result := council(ShutdownQuestion(v.name), ShutdownContext(v, thresholds.shutdownLossThresholdUsd));
          if Approved(result) {
            var _ := ShutdownVenture(v.id);
          }
        }
      case ConsiderScaling =>
        Store(v.id, v.(status := Scaling));
      case Healthy =>
    }

    /** `get_active_ventures` */
    function ActiveVentures(): (r: seq<Venture>)
      reads this
      ensures forall v :: v in r ==> v.status.IsActive()
      ensures forall i :: 0 <= i < |ventures| && ventures[i].1.status.IsActive() ==> ventures[i].1 in r
    {
      ActiveOf(ventures)
    }

    /** `get_portfolio_summary` */
    function PortfolioSummaryNow(): (r: PortfolioSummary)
      reads this
      ensures r.totalVentures == |ventures| && r.activeVentures == |ActiveVentures()|
      ensures r.totalProfit == r.totalRevenue - r.totalExpenses
      ensures r.totalRevenue == SumRevenue(ActiveVentures())
    {
      Summary(ventures)
    }
  }

  /** Storing a venture under its own id keeps every venture under its own id. */
  lemma {:induction false} KeyedPut(d: seq<(string, Venture)>, k: string, v: Venture)
    requires v.id == k && forall i :: 0 <= i < |d| ==> d[i].1.id == d[i].0
    ensures var r := Put(d, k, v); forall i :: 0 <= i < |r| ==> r[i].1.id == r[i].0
  {
    if d != [] && d[0].0 != k {
      KeyedPut(d[1..], k, v);
      var r := Put(d, k, v);
      forall i | 0 < i < |r| ensures r[i].1.id == r[i].0 {
        assert r[i] == Put(d[1..], k, v)[i - 1];
      }
    }
  }

  /** Storing the value already stored under a key changes nothing. */
  lemma {:induction false} PutUnchanged(d: seq<(string, Venture)>, k: string, v: Venture)
    requires Get(d, k) == Some(v) && UniqueKeys(d)
    ensures Put(d, k, v) == d
  {
    if d != [] && d[0].0 != k {
      PutUnchanged(d[1..], k, v);
    }
  }

  /** A second store under the same key replaces the first. */
  lemma {:induction false} PutPutSame(d: seq<(string, Venture)>, k: string, v: Venture, w: Venture)
    ensures Put(Put(d, k, v), k, w) == Put(d, k, w)
  {
    if d != [] && d[0].0 != k {
      PutPutSame(d[1..], k, v, w);
    }
  }
}
