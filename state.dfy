// The shared system state of src/core/state.py: today's metrics, the table of
// decisions waiting for a human, the bounded event log and the generic
// attribute update. The asyncio lock and the observer callbacks are not modelled;
// the keys an operation would notify are returned instead.
module State {
  import opened Py
  import opened Json

  /** Today's counters. `date` is the "%Y-%m-%d" text of the day they belong to. */
  datatype DailyMetrics = DailyMetrics(
    date: string,
    revenue: real,
    expenses: real,
    decisionsTotal: nat,
    decisionsAutonomous: nat,
    decisionsCouncil: nat,
    decisionsHuman: nat,
    transactionsCount: nat,
    transactionsVolume: real,
    errorsCount: nat)

  /** `DailyMetrics()` on the given day, and equally `reset()`: every counter zero. */
  function FreshMetrics(date: string): (m: DailyMetrics)
    ensures m.date == date && Balanced(m) && TiersWithinTotal(m) && Profit(m) == 0.0
    ensures m.decisionsTotal == 0 && m.transactionsCount == 0 && m.errorsCount == 0
  {
    DailyMetrics(date, 0.0, 0.0, 0, 0, 0, 0, 0, 0.0, 0)
  }

  function Profit(m: DailyMetrics): real {
    m.revenue - m.expenses
  }

  /** The transaction volume is the revenue plus the expenses. */
  predicate Balanced(m: DailyMetrics) {
    m.transactionsVolume == m.revenue + m.expenses && m.revenue >= 0.0 && m.expenses >= 0.0
  }

  /** No tier counts more decisions than were made. */
  predicate TiersWithinTotal(m: DailyMetrics) {
    m.decisionsAutonomous + m.decisionsCouncil + m.decisionsHuman <= m.decisionsTotal
  }

  function Abs(x: real): real { if x < 0.0 then -x else x }

  /** `record_decision`: the total and at most the one tier named. */
  function RecordDecision(m: DailyMetrics, decisionType: string): (r: DailyMetrics)
    ensures r.decisionsTotal == m.decisionsTotal + 1
    ensures r.decisionsAutonomous + r.decisionsCouncil + r.decisionsHuman
      == m.decisionsAutonomous + m.decisionsCouncil + m.decisionsHuman
         + (if decisionType in {"autonomous", "council", "human"} then 1 else 0)
    ensures decisionType == "human" ==> r.decisionsHuman == m.decisionsHuman + 1
    ensures decisionType == "council" ==> r.decisionsCouncil == m.decisionsCouncil + 1
    ensures decisionType == "autonomous" ==> r.decisionsAutonomous == m.decisionsAutonomous + 1
    ensures r.date == m.date && r.revenue == m.revenue && r.expenses == m.expenses
    ensures r.transactionsCount == m.transactionsCount && r.transactionsVolume == m.transactionsVolume
    ensures r.errorsCount == m.errorsCount
  {
    var m' := m.(decisionsTotal := m.decisionsTotal + 1);
    if decisionType == "autonomous" then m'.(decisionsAutonomous := m.decisionsAutonomous + 1)
    else if decisionType == "council" then m'.(decisionsCouncil := m.decisionsCouncil + 1)
    else if decisionType == "human" then m'.(decisionsHuman := m.decisionsHuman + 1)
    else m'
  }

  lemma RecordDecisionKeepsTiersWithinTotal(m: DailyMetrics, decisionType: string)
    requires TiersWithinTotal(m)
    ensures TiersWithinTotal(RecordDecision(m, decisionType))
  {
  }

  /** `record_transaction`: one more transaction, its absolute amount as revenue or expense. */
  function RecordTransaction(m: DailyMetrics, amount: real, isExpense: bool): (r: DailyMetrics)
    ensures r.transactionsCount == m.transactionsCount + 1
    ensures r.transactionsVolume == m.transactionsVolume + Abs(amount)
    ensures isExpense ==> r.expenses == m.expenses + Abs(amount) && r.revenue == m.revenue
    ensures !isExpense ==> r.revenue == m.revenue + Abs(amount) && r.expenses == m.expenses
    ensures r.date == m.date && r.decisionsTotal == m.decisionsTotal && r.errorsCount == m.errorsCount
    ensures r.decisionsAutonomous == m.decisionsAutonomous && r.decisionsCouncil == m.decisionsCouncil
    ensures r.decisionsHuman == m.decisionsHuman
  {
    var m' := m.(transactionsCount := m.transactionsCount + 1,
                 transactionsVolume := m.transactionsVolume + Abs(amount));
    if isExpense then m'.(expenses := m.expenses + Abs(amount))
    else m'.(revenue := m.revenue + Abs(amount))
  }

  /** Every transaction lands on exactly one side of the books. */
  lemma RecordTransactionKeepsBalance(m: DailyMetrics, amount: real, isExpense: bool)
    requires Balanced(m)
    ensures Balanced(RecordTransaction(m, amount, isExpense))
    ensures Profit(RecordTransaction(m, amount, isExpense))
      == Profit(m) + (if isExpense then -Abs(amount) else Abs(amount))
  {
  }

  /** A decision waiting for (or given) a human answer. Times are seconds. */
  datatype PendingDecision = PendingDecision(
    id: string,
    decisionType: string,
    action: string,
    amount: Option<real>,
    reason: string,
    councilRecommendation: Option<string>,
    councilConfidence: Option<real>,
    status: string,
    createdAt: int,
    timeoutHours: int,
    respondedAt: Option<int>,
    respondedBy: Option<string>)

  /** `is_expired`: strictly past the creation time plus the timeout. */
  predicate IsExpired(d: PendingDecision, now: int) {
    now > d.createdAt + d.timeoutHours * 3600
  }

  /**
   * A decision is still live at the very end of its timeout and expired one second later;
   * once expired it stays expired.
   */
  lemma ExpiryBoundary(d: PendingDecision, later: int)
    ensures !IsExpired(d, d.createdAt + d.timeoutHours * 3600)
    ensures IsExpired(d, d.createdAt + d.timeoutHours * 3600 + 1)
    ensures IsExpired(d, d.createdAt + d.timeoutHours * 3600 + 1) && later > d.createdAt + d.timeoutHours * 3600
            ==> IsExpired(d, later)
  {
  }

  /** The table keyed by decision id, in insertion order. */
  type DecisionTable = seq<(string, PendingDecision)>

  predicate KeyedById(t: DecisionTable) {
    UniqueKeys(t) && forall i :: 0 <= i < |t| ==> t[i].1.id == t[i].0
  }

  /** The decisions of the table whose status is `status`, in table order. */
  function WithStatus(t: DecisionTable, status: string): (r: seq<PendingDecision>)
    ensures forall d :: d in r ==> d.status == status
    ensures forall i :: 0 <= i < |t| && t[i].1.status == status ==> t[i].1 in r
    ensures forall d :: d in r ==> exists i :: 0 <= i < |t| && t[i].1 == d
    ensures |r| <= |t|
  {
    if t == [] then []
    else
      var rest := WithStatus(t[1..], status);
      assert forall d :: d in rest ==> exists i :: 0 <= i < |t| && t[i].1 == d by {
        forall d | d in rest ensures exists i :: 0 <= i < |t| && t[i].1 == d {
          var j :| 0 <= j < |t[1..]| && t[1..][j].1 == d;
          assert t[j + 1].1 == d;
        }
      }
      if t[0].1.status == status then [t[0].1] + rest else rest
  }

  /** Filtering by status keeps table order: the filter of two tables laid end to end is the
    * filter of the first followed by the filter of the second. */
  lemma {:induction false} WithStatusAppend(t1: DecisionTable, t2: DecisionTable, status: string)
    ensures WithStatus(t1 + t2, status) == WithStatus(t1, status) + WithStatus(t2, status)
  {
    if t1 != [] {
      assert (t1 + t2)[1..] == t1[1..] + t2;
      WithStatusAppend(t1[1..], t2, status);
    } else {
      assert t1 + t2 == t2;
    }
  }

  /** The stored decision after `resolve_decision`, or None for an unknown id. */
  function Resolve(t: DecisionTable, id: string, status: string, responder: string, now: int)
    : (r: (DecisionTable, Option<PendingDecision>))
    ensures Get(t, id).None? ==> r == (t, None)
    ensures Get(t, id).Some? ==> r.1.Some? && r.1.value == Get(t, id).value.(status := status,
      respondedAt := Some(now), respondedBy := Some(responder))
    ensures Get(t, id).Some? ==> Get(r.0, id) == r.1
    ensures forall other :: other != id ==> Get(r.0, other) == Get(t, other)
  {
    match Get(t, id)
    case None => (t, None)
    case Some(d) =>
      var d' := d.(status := status, respondedAt := Some(now), respondedBy := Some(responder));
      PutGet(t, id, d', id);
      forall other | other != id ensures Get(Put(t, id, d'), other) == Get(t, other) {
        PutGet(t, id, d', other);
      }
      (Put(t, id, d'), Some(d'))
  }

  /** A second resolution overwrites the first: resolving is not idempotent. */
  lemma ResolveOverwrites(t: DecisionTable, id: string, s1: string, b1: string, t1: int,
                          s2: string, b2: string, t2: int)
    ensures Resolve(Resolve(t, id, s1, b1, t1).0, id, s2, b2, t2).1
      == Resolve(t, id, s2, b2, t2).1
  {
  }

  lemma ResolveKeepsKeyedById(t: DecisionTable, id: string, status: string, responder: string, now: int)
    requires KeyedById(t)
    ensures KeyedById(Resolve(t, id, status, responder, now).0)
  {
    match Get(t, id)
    case None =>
    case Some(d) =>
      var d' := d.(status := status, respondedAt := Some(now), respondedBy := Some(responder));
      PutShape(t, id, d');
      PutKeepsUniqueKeys(t, id, d');
      var r := Put(t, id, d');
      forall i | 0 <= i < |r| ensures r[i].1.id == r[i].0 {
        if r[i].0 == id {
          PutGet(t, id, d', id);
          assert Get(r, id) == Some(r[i].1) by { GetUnique(r, i); }
          assert exists j :: 0 <= j < |t| && t[j] == (id, d);
        } else {
          PutGet(t, id, d', r[i].0);
          GetUnique(r, i);
          GetUnique(t, IndexOfKey(t, r[i].0));
        }
      }
  }

  /** In a table with unique keys the entry at `i` is what `Get` finds for its key. */
  lemma {:induction false} GetUnique<V>(t: seq<(string, V)>, i: nat)
    requires UniqueKeys(t) && i < |t|
    ensures Get(t, t[i].0) == Some(t[i].1)
  {
    if i > 0 {
      GetUnique(t[1..], i - 1);
    }
  }

  function IndexOfKey<V>(t: seq<(string, V)>, k: string): (i: nat)
    requires Get(t, k).Some?
    ensures i < |t| && t[i].0 == k
  {
    if t[0].0 == k then 0 else 1 + IndexOfKey(t[1..], k)
  }

  /** One entry of `event_history`. */
  datatype Event = Event(eventType: string, timestamp: int, data: Value)

  const MaxHistory: nat := 1000

  /** The attribute table `update` works on: attribute name to current value. */
  type Attributes = seq<(string, Value)>

  /**
   * `update(**kwargs)`: each keyword naming an existing attribute whose value differs is
   * set; the result pairs the new attributes with the keys that changed, in keyword order.
   */
  function UpdateAttributes(attrs: Attributes, kwargs: seq<(string, Value)>): (Attributes, seq<string>)
    decreases |kwargs|
  {
    if kwargs == [] then (attrs, [])
    else
      var (k, v) := kwargs[0];
      match Get(attrs, k)
      case Some(current) =>
        if current != v then
          var rest := UpdateAttributes(Put(attrs, k, v), kwargs[1..]);
          (rest.0, [k] + rest.1)
        else UpdateAttributes(attrs, kwargs[1..])
      case None => UpdateAttributes(attrs, kwargs[1..])
  }

  /**
   * What an update does, for distinct keywords: a key is reported changed exactly when it
   * names an existing attribute with a different value; such attributes take the keyword's
   * value, every other attribute keeps its value, and no attribute is created.
   */
  lemma {:induction false} UpdateAttributesMeaning(attrs: Attributes, kwargs: seq<(string, Value)>, k: string)
    requires UniqueKeys(kwargs)
    decreases |kwargs|
    ensures var (a, changed) := UpdateAttributes(attrs, kwargs);
      (k in changed <==> Get(attrs, k).Some? && Get(kwargs, k).Some? && Get(attrs, k) != Get(kwargs, k))
      && Get(a, k) == (if k in changed then Get(kwargs, k) else Get(attrs, k))
      && (Get(a, k).Some? <==> Get(attrs, k).Some?)
  {
    if kwargs != [] {
      var (k0, v0) := kwargs[0];
      var tail := kwargs[1..];
      assert UniqueKeys(tail);
      assert forall i :: 0 <= i < |tail| ==> tail[i].0 != k0 by {
        forall i | 0 <= i < |tail| ensures tail[i].0 != k0 {
          assert tail[i] == kwargs[i + 1];
        }
      }
      assert Get(tail, k0).None?;
      assert k != k0 ==> Get(kwargs, k) == Get(tail, k);
      match Get(attrs, k0)
      case Some(current) =>
        if current != v0 {
          var attrs' := Put(attrs, k0, v0);
          UpdateAttributesMeaning(attrs', tail, k);
          PutGet(attrs, k0, v0, k);
          if k == k0 {
            UpdateUntouched(attrs', tail, k0);
          }
        } else {
          UpdateAttributesMeaning(attrs, tail, k);
          if k == k0 {
            UpdateUntouched(attrs, tail, k0);
          }
        }
      case None =>
        UpdateAttributesMeaning(attrs, tail, k);
        if k == k0 {
          UpdateUntouched(attrs, tail, k0);
        }
    }
  }

  /** A key that no keyword names is neither changed nor reported. */
  lemma {:induction false} UpdateUntouched(attrs: Attributes, kwargs: seq<(string, Value)>, k: string)
    requires Get(kwargs, k).None?
    decreases |kwargs|
    ensures k !in UpdateAttributes(attrs, kwargs).1
    ensures Get(UpdateAttributes(attrs, kwargs).0, k) == Get(attrs, k)
  {
    if kwargs != [] {
      var (k0, v0) := kwargs[0];
      assert k0 != k;
      assert Get(kwargs[1..], k).None?;
      match Get(attrs, k0)
      case Some(current) =>
        if current != v0 {
          PutGet(attrs, k0, v0, k);
          UpdateUntouched(Put(attrs, k0, v0), kwargs[1..], k);
        } else {
          UpdateUntouched(attrs, kwargs[1..], k);
        }
      case None =>
        UpdateUntouched(attrs, kwargs[1..], k);
    }
  }

  /** `SystemState`: the fields the core updates in place. */
  class SystemState {
    var today: DailyMetrics
    var pending: DecisionTable
    var eventHistory: seq<Event>
    /** The remaining attributes (status, wallets, ventures, config) by name. */
    var attributes: Attributes

    ghost predicate Valid()
      reads this
    {
      KeyedById(pending) && |eventHistory| <= MaxHistory
      && Balanced(today) && TiersWithinTotal(today)
    }

    constructor(date: string, attributes: Attributes)
      ensures Valid()
      ensures today == FreshMetrics(date) && pending == [] && eventHistory == []
      ensures this.attributes == attributes
    {
      today := FreshMetrics(date);
      pending := [];
      eventHistory := [];
      this.attributes := attributes;
    }

    /** `update(**kwargs)`; returns the keys whose observers would be notified. */
    method Update(kwargs: seq<(string, Value)>) returns (changed: seq<string>)
      requires Valid() && UniqueKeys(kwargs)
      modifies this
      ensures Valid()
      ensures (attributes, changed) == UpdateAttributes(old(attributes), kwargs)
      ensures today == old(today) && pending == old(pending) && eventHistory == old(eventHistory)
    {
      changed := [];
      var i := 0;
      assert kwargs[i..] == kwargs;
      assert changed + UpdateAttributes(attributes, kwargs).1 == UpdateAttributes(attributes, kwargs).1;
      while i < |kwargs|
        invariant 0 <= i <= |kwargs|
        invariant Valid() && today == old(today) && pending == old(pending)
        invariant eventHistory == old(eventHistory)
        invariant UpdateAttributes(old(attributes), kwargs)
          == (var rest := UpdateAttributes(attributes, kwargs[i..]); (rest.0, changed + rest.1))
      {
        var (k, v) := kwargs[i];
        assert kwargs[i..][1..] == kwargs[i + 1..];
        var current := Get(attributes, k);
        if current.Some? && current.value != v {
          var rest := UpdateAttributes(Put(attributes, k, v), kwargs[i + 1..]);
          assert UpdateAttributes(attributes, kwargs[i..]) == (rest.0, [k] + rest.1);
          assert changed + ([k] + rest.1) == (changed + [k]) + rest.1;
          attributes := Put(attributes, k, v);
          changed := changed + [k];
        } else {
          assert UpdateAttributes(attributes, kwargs[i..]) == UpdateAttributes(attributes, kwargs[i + 1..]);
        }
        i := i + 1;
      }
      assert kwargs[i..] == [];
      assert changed + [] == changed;
    }

    /** `add_pending_decision`: stored under its id, replacing any earlier entry. */
    method AddPendingDecision(d: PendingDecision)
      requires Valid()
      modifies this
      ensures Valid()
      ensures pending == Put(old(pending), d.id, d)
      ensures today == old(today) && eventHistory == old(eventHistory) && attributes == old(attributes)
    {
      AddKeepsKeyedById(pending, d);
      pending := Put(pending, d.id, d);
    }

    /** `resolve_decision` */
    method ResolveDecision(id: string, status: string, responder: string, now: int)
      returns (r: Option<PendingDecision>)
      requires Valid()
      modifies this
      ensures Valid()
      ensures (pending, r) == Resolve(old(pending), id, status, responder, now)
      ensures today == old(today) && eventHistory == old(eventHistory) && attributes == old(attributes)
    {
      ResolveKeepsKeyedById(pending, id, status, responder, now);
      var res := Resolve(pending, id, status, responder, now);
      pending := res.0;
      r := res.1;
    }

    /** `get_pending_decisions(status)` */
    function GetPendingDecisions(status: string): (r: seq<PendingDecision>)
      reads this
      ensures forall d :: d in r ==> d.status == status && exists i :: 0 <= i < |pending| && pending[i].1 == d
      ensures forall i :: 0 <= i < |pending| && pending[i].1.status == status ==> pending[i].1 in r
    {
      WithStatus(pending, status)
    }

    /** `record_decision` */
    method RecordDecisionMetric(decisionType: string)
      requires Valid()
      modifies this
      ensures Valid()
      ensures today == RecordDecision(old(today), decisionType)
      ensures pending == old(pending) && eventHistory == old(eventHistory) && attributes == old(attributes)
    {
      RecordDecisionKeepsTiersWithinTotal(today, decisionType);
      today := RecordDecision(today, decisionType);
    }

    /** `record_transaction` */
    method RecordTransactionMetric(amount: real, isExpense: bool)
      requires Valid()
      modifies this
      ensures Valid()
      ensures today == RecordTransaction(old(today), amount, isExpense)
      ensures pending == old(pending) && eventHistory == old(eventHistory) && attributes == old(attributes)
    {
      RecordTransactionKeepsBalance(today, amount, isExpense);
      today := RecordTransaction(today, amount, isExpense);
    }

    /** `record_event`: appended, then only the last 1000 kept. */
    method RecordEvent(eventType: string, data: Value, now: int)
      requires Valid()
      modifies this
      ensures Valid()
      ensures eventHistory == AppendCapped(old(eventHistory), Event(eventType, now, data), MaxHistory)
      ensures today == old(today) && pending == old(pending) && attributes == old(attributes)
    {
      eventHistory := AppendCapped(eventHistory, Event(eventType, now, data), MaxHistory);
    }

    /** `check_daily_reset`: fresh metrics exactly when the stored date is not today. */
    method CheckDailyReset(todayDate: string) returns (reset: bool)
      requires Valid()
      modifies this
      ensures Valid()
      ensures reset <==> old(today).date != todayDate
      ensures today == (if reset then FreshMetrics(todayDate) else old(today))
      ensures pending == old(pending) && eventHistory == old(eventHistory) && attributes == old(attributes)
    {
      reset := today.date != todayDate;
      if reset {
        today := FreshMetrics(todayDate);
      }
    }
  }

  lemma AddKeepsKeyedById(t: DecisionTable, d: PendingDecision)
    requires KeyedById(t)
    ensures KeyedById(Put(t, d.id, d))
  {
    PutShape(t, d.id, d);
    PutKeepsUniqueKeys(t, d.id, d);
    var r := Put(t, d.id, d);
    forall i | 0 <= i < |r| ensures r[i].1.id == r[i].0 {
      GetUnique(r, i);
      PutGet(t, d.id, d, r[i].0);
      if r[i].0 != d.id {
        GetUnique(t, IndexOfKey(t, r[i].0));
      }
    }
  }

  /** After a decision is added, listing by its status finds it. */
  lemma AddedDecisionIsListed(t: DecisionTable, d: PendingDecision)
    ensures d in WithStatus(Put(t, d.id, d), d.status)
  {
    PutGet(t, d.id, d, d.id);
    var r := Put(t, d.id, d);
    var i :| 0 <= i < |r| && r[i] == (d.id, d);
  }

  /** After a known decision is resolved with status s, listing by s finds the resolved record. */
  lemma ResolvedDecisionIsListed(t: DecisionTable, id: string, status: string, responder: string, now: int)
    requires Get(t, id).Some?
    ensures var (t', r) := Resolve(t, id, status, responder, now); r.value in WithStatus(t', status)
  {
    var (t', r) := Resolve(t, id, status, responder, now);
    var i :| 0 <= i < |t'| && t'[i] == (id, r.value);
  }
}
