// The market scanner agent of src/agents/market_scanner.py: which handler a task
// type reaches, how a scan turns the model's answer into stored opportunities (in
// order, with defaults and dated ids, keeping those made before a bad entry), the
// fallbacks of validation and competition analysis, and the confidence query.
// The model's answer, `json.loads` (`None` for a JSONDecodeError) and the clock's
// text (`%Y%m%d` for ids, ISO time for `discovered_at`) are inputs.
module MarketScanner {
  import opened Py
  import opened Numerals
  import opened Json
  import AgentBase

  const ScannerPrompt: string :=
    "You are a Market Research Analyst for QualiaIA autonomous business system.\n" +
    "\n" +
    "Your mission:\n" +
    "- Identify profitable market opportunities\n" +
    "- Analyze competitive landscapes\n" +
    "- Evaluate market potential and risks\n" +
    "- Recommend actionable business ideas\n" +
    "\n" +
    "Focus areas:\n" +
    "- Digital services (low capital requirement)\n" +
    "- AI/automation tools (leverage existing capabilities)\n" +
    "- B2B SaaS (recurring revenue)\n" +
    "- E-commerce niches (quick validation)\n" +
    "\n" +
    "Evaluation criteria:\n" +
    "- Market size and growth potential\n" +
    "- Competition level\n" +
    "- Required initial investment\n" +
    "- Time to profitability\n" +
    "- Alignment with QualiaIA capabilities\n" +
    "\n" +
    "Always provide structured analysis with confidence scores."

  /**
   * `MarketOpportunity`. The text fields hold whatever the model put there (the
   * dataclass does not check them); the numbers went through `float()`.
   */
  datatype Opportunity = Opportunity(
    id: string,
    title: Value,
    market: Value,
    problem: Value,
    solution: Value,
    targetAudience: Value,
    revenueModel: Value,
    estimatedTam: real,
    estimatedInvestment: real,
    confidence: real,
    validationScore: real,
    discoveredAt: string)

  // The keys of an opportunity's dictionary that it reads and writes as numbers or longer names.
  const TamKey: string := "estimated_tam"
  const InvestmentKey: string := "estimated_investment"
  const AudienceKey: string := "target_audience"
  const RevenueModelKey: string := "revenue_model"
  const ConfidenceKey: string := "confidence"

  /** `to_dict` */
  function ToDict(o: Opportunity): (r: Value)
    ensures r.JObj? && |r.fields| == 12
    ensures Get(r.fields, "id") == Some(JStr(o.id))
  {
    JObj([("id", JStr(o.id)), ("title", o.title), ("market", o.market), ("problem", o.problem),
          ("solution", o.solution), (AudienceKey, o.targetAudience),
          (RevenueModelKey, o.revenueModel), (TamKey, JNum(o.estimatedTam)),
          (InvestmentKey, JNum(o.estimatedInvestment)), (ConfidenceKey, JNum(o.confidence)),
          ("validation_score", JNum(o.validationScore)), ("discovered_at", JStr(o.discoveredAt))])
  }

  /** The id of the `index`-th opportunity of a scan on the day `date` (`%Y%m%d`). */
  function Id(date: string, index: nat): string {
    "opp_" + date + "_" + NatToString(index)
  }

  /** Within one day, different positions get different ids. */
  lemma IdInjective(date: string, i: nat, j: nat)
    requires Id(date, i) == Id(date, j)
    ensures i == j
  {
    var p := "opp_" + date + "_";
    assert NatToString(i) == Id(date, i)[|p|..];
    assert NatToString(j) == Id(date, j)[|p|..];
    DigitsValueOfNatToString(i);
    DigitsValueOfNatToString(j);
  }

  /**
   * One entry of the answer as an opportunity: `.get` with the defaults ("Untitled",
   * empty strings, 0, confidence 0.5) and `float()` of the numbers. An entry that is
   * not a dictionary has no `.get`, and a number `float()` refuses raises.
   */
  function Convert(entry: Value, date: string, index: nat, now: string): (r: Result<Opportunity>)
    ensures r.Ok? ==> r.value.id == Id(date, index)
  {
    if !entry.JObj? then Err(NoGet)
    else
      var f := entry.fields;
      var tam := ToFloat(GetOr(f, TamKey, JNum(0.0)));
      var investment := ToFloat(GetOr(f, InvestmentKey, JNum(0.0)));
      var confidence := ToFloat(GetOr(f, ConfidenceKey, JNum(0.5)));
      if tam.Err? then Err(tam.error)
      else if investment.Err? then Err(investment.error)
      else if confidence.Err? then Err(confidence.error)
      else
        Ok(Opportunity(Id(date, index), GetOr(f, "title", JStr("Untitled")), GetOr(f, "market", JStr("")),
                       GetOr(f, "problem", JStr("")), GetOr(f, "solution", JStr("")),
                       GetOr(f, AudienceKey, JStr("")), GetOr(f, RevenueModelKey, JStr("")),
                       tam.value, investment.value, confidence.value, 0.0, now))
  }

  /** What `Convert` reads from an entry: every field with its default, and when it raises. */
  lemma ConvertFields(entry: Value, date: string, index: nat, now: string)
    ensures var c := Convert(entry, date, index, now);
      c.Ok? <==> entry.JObj?
                 && ToFloat(GetOr(entry.fields, TamKey, JNum(0.0))).Ok?
                 && ToFloat(GetOr(entry.fields, InvestmentKey, JNum(0.0))).Ok?
                 && ToFloat(GetOr(entry.fields, ConfidenceKey, JNum(0.5))).Ok?
    ensures var c := Convert(entry, date, index, now);
      c.Ok? ==>
        c.value.discoveredAt == now && c.value.validationScore == 0.0
        && c.value.title == GetOr(entry.fields, "title", JStr("Untitled"))
        && c.value.market == GetOr(entry.fields, "market", JStr(""))
        && c.value.problem == GetOr(entry.fields, "problem", JStr(""))
        && c.value.solution == GetOr(entry.fields, "solution", JStr(""))
        && c.value.targetAudience == GetOr(entry.fields, AudienceKey, JStr(""))
        && c.value.revenueModel == GetOr(entry.fields, RevenueModelKey, JStr(""))
        && Ok(c.value.estimatedTam) == ToFloat(GetOr(entry.fields, TamKey, JNum(0.0)))
        && Ok(c.value.estimatedInvestment) == ToFloat(GetOr(entry.fields, InvestmentKey, JNum(0.0)))
        && Ok(c.value.confidence) == ToFloat(GetOr(entry.fields, ConfidenceKey, JNum(0.5)))
  {
  }

  /** An empty entry becomes an untitled opportunity with every default. */
  lemma EmptyEntryDefaults(date: string, index: nat, now: string)
    ensures Convert(JObj([]), date, index, now)
            == Ok(Opportunity(Id(date, index), JStr("Untitled"), JStr(""), JStr(""), JStr(""), JStr(""), JStr(""),
                              0.0, 0.0, 0.5, 0.0, now))
  {
  }

  /** The answer's entries: a list as it is, anything else as a one-element list. */
  function Entries(v: Value): (r: seq<Value>)
    ensures v.JArr? ==> r == v.items
    ensures !v.JArr? ==> r == [v]
  {
    if v.JArr? then v.items else [v]
  }

  /** Every entry converted, each at its own position. */
  function Conversions(entries: seq<Value>, date: string, now: string): (r: seq<Result<Opportunity>>)
    ensures |r| == |entries|
    ensures forall i :: 0 <= i < |entries| ==> r[i] == Convert(entries[i], date, i, now)
  {
    seq(|entries|, i requires 0 <= i < |entries| => Convert(entries[i], date, i, now))
  }

  /** The opportunities a scan made, in order, and the error that stopped it, if any. */
  datatype Scan = Scan(made: seq<Opportunity>, error: Option<string>)

  /** The scan loop over the first `n` conversions: it stops at the first entry that raised. */
  function ScanOf(cs: seq<Result<Opportunity>>, n: nat): Scan
    requires n <= |cs|
  {
    if n == 0 then Scan([], None)
    else
      var prev := ScanOf(cs, n - 1);
      if prev.error.Some? then prev
      else match cs[n - 1]
        case Ok(o) => Scan(prev.made + [o], None)
        case Err(e) => Scan(prev.made, Some(e))
  }

  /** The conversion of the `i`-th entry, as the scan loop makes it. */
  method ConvertEntry(entries: seq<Value>, date: string, i: nat, now: string) returns (o: Result<Opportunity>)
    requires i < |entries|
    ensures o == Conversions(entries, date, now)[i]
  {
    o := Convert(entries[i], date, i, now);
  }

  /** One step of the scan loop, from the conversion it has just made. */
  lemma ScanStep(cs: seq<Result<Opportunity>>, i: nat, o: Result<Opportunity>)
    requires i < |cs| && cs[i] == o && ScanOf(cs, i).error.None?
    ensures o.Ok? ==> ScanOf(cs, i + 1) == Scan(ScanOf(cs, i).made + [o.value], None)
    ensures o.Err? ==> ScanOf(cs, i + 1) == Scan(ScanOf(cs, i).made, Some(o.error))
  {
  }

  /** Once an entry has raised, later entries change nothing. */
  lemma {:induction false} ErrorSticks(cs: seq<Result<Opportunity>>, n: nat, m: nat)
    requires n <= m <= |cs|
    requires ScanOf(cs, n).error.Some?
    ensures ScanOf(cs, m) == ScanOf(cs, n)
    decreases m - n
  {
    if n < m {
      ErrorSticks(cs, n, m - 1);
    }
  }

  /**
   * What a scan made: the k-th opportunity is the k-th conversion; without an error,
   * every entry became one, and with one, it is the error of the entry after the last made.
   */
  lemma {:induction false} ScanMade(cs: seq<Result<Opportunity>>, n: nat)
    requires n <= |cs|
    ensures var s := ScanOf(cs, n);
      |s.made| <= n
      && (s.error.None? ==> |s.made| == n)
      && (s.error.Some? ==> |s.made| < n && cs[|s.made|] == Err(s.error.value))
      && forall k :: 0 <= k < |s.made| ==> cs[k] == Ok(s.made[k])
  {
    if n > 0 {
      var prev := ScanOf(cs, n - 1);
      ScanMade(cs, n - 1);
      if prev.error.None? && cs[n - 1].Ok? {
        var s := prev.made + [cs[n - 1].value];
        assert ScanOf(cs, n) == Scan(s, None);
        forall k | 0 <= k < |s|
          ensures cs[k] == Ok(s[k])
        {
          if k < |prev.made| {
            assert s[k] == prev.made[k];
          }
        }
      }
    }
  }

  /** No two opportunities of one scan share an id. */
  lemma ScanIdsDistinct(entries: seq<Value>, date: string, now: string, j: nat, k: nat)
    requires j < k < |ScanOf(Conversions(entries, date, now), |entries|).made|
    ensures ScanOf(Conversions(entries, date, now), |entries|).made[j].id
            != ScanOf(Conversions(entries, date, now), |entries|).made[k].id
  {
    var cs := Conversions(entries, date, now);
    var s := ScanOf(cs, |entries|);
    ScanMade(cs, |entries|);
    assert Convert(entries[j], date, j, now) == Ok(s.made[j]);
    assert Convert(entries[k], date, k, now) == Ok(s.made[k]);
    if s.made[j].id == s.made[k].id {
      IdInjective(date, j, k);
    }
  }

  /** The dictionaries a scan returns. */
  function Dicts(os: seq<Opportunity>): (r: seq<Value>)
    ensures |r| == |os|
    ensures forall i :: 0 <= i < |os| ==> r[i] == ToDict(os[i])
  {
    seq(|os|, i requires 0 <= i < |os| => ToDict(os[i]))
  }

  lemma DictsSnoc(os: seq<Opportunity>, o: Opportunity)
    ensures Dicts(os + [o]) == Dicts(os) + [ToDict(o)]
  {
    assert forall i :: 0 <= i < |os| ==> (os + [o])[i] == os[i];
  }

  /**
   * `_scan_market` after the model has answered: the result, and the opportunities
   * appended to the agent's list. Unparseable text yields `[]` and stores nothing; an
   * entry that raises ends the task with its error, the earlier ones already stored.
   */
  function ScanOutcome(response: string, loads: string -> Option<Value>, date: string, now: string)
    : (r: (Result<Value>, seq<Opportunity>))
    ensures loads(response).None? ==> r == (Ok(JArr([])), [])
    ensures loads(response).Some? ==>
              var entries := Entries(loads(response).value);
              var s := ScanOf(Conversions(entries, date, now), |entries|);
              r.1 == s.made && (r.0.Ok? <==> s.error.None?)
    ensures r.0.Ok? ==> r.0.value.JArr? && r.0.value.items == Dicts(r.1)
  {
    match loads(response)
    case None => (Ok(JArr([])), [])
    case Some(v) =>
      var entries := Entries(v);
      var s := ScanOf(Conversions(entries, date, now), |entries|);
      (if s.error.None? then Ok(JArr(Dicts(s.made))) else Err(s.error.value), s.made)
  }

  /**
   * The opportunities at or above a confidence, in their order: `get_opportunities`.
   */
  function AtLeast(os: seq<Opportunity>, minConfidence: real): (r: seq<Opportunity>)
    ensures forall o :: o in r <==> o in os && o.confidence >= minConfidence
    ensures |r| <= |os|
  {
    if os == [] then []
    else
      var init := os[..|os| - 1];
      var last := os[|os| - 1];
      assert os == init + [last];
      var kept := AtLeast(init, minConfidence);
      if last.confidence >= minConfidence then kept + [last] else kept
  }

  /** The query of two lists one after the other is the query of each, in that order. */
  lemma {:induction false} AtLeastConcat(a: seq<Opportunity>, b: seq<Opportunity>, minConfidence: real)
    ensures AtLeast(a + b, minConfidence) == AtLeast(a, minConfidence) + AtLeast(b, minConfidence)
    decreases |b|
  {
    if b == [] {
      assert a + b == a;
    } else {
      var init := b[..|b| - 1];
      var last := b[|b| - 1];
      assert (a + b)[..|a + b| - 1] == a + init;
      assert (a + b)[|a + b| - 1] == last;
      AtLeastConcat(a, init, minConfidence);
    }
  }

  /** The handlers of `execute`. */
  datatype Handler = ScanHandler | ValidateHandler | AnalyzeHandler | ResearchHandler

  /** `execute`'s dispatch on the lower-cased task type; anything else is generic research. */
  function Dispatch(taskType: string): (h: Handler)
    ensures h.ScanHandler? <==> Lower(taskType) == "scan"
    ensures h.ValidateHandler? <==> Lower(taskType) == "validate"
    ensures h.AnalyzeHandler? <==> Lower(taskType) == "analyze"
    ensures h.ResearchHandler? <==> Lower(taskType) !in {"scan", "validate", "analyze"}
  {
    var t := Lower(taskType);
    if t == "scan" then ScanHandler
    else if t == "validate" then ValidateHandler
    else if t == "analyze" then AnalyzeHandler
    else ResearchHandler
  }

  /** How a handler calls `think`: whether a JSON answer is asked for, and the token limit. */
  function Request(h: Handler): (r: (bool, nat))
    ensures r.0 <==> !h.ResearchHandler?
    ensures r.1 == (if h.ResearchHandler? then 2000 else 1000)
  {
    match h
    case ScanHandler => (true, 1000)
    case ValidateHandler => (true, 1000)
    case AnalyzeHandler => (true, 1000)
    case ResearchHandler => (false, 2000)
  }

  /** `_validate_opportunity` when the answer is not JSON: no score, and more data needed. */
  function ValidateFallback(response: string): Value {
    JObj([("validation_score", JNum(0.0)), ("go_no_go", JStr("need_more_data")), ("error", JStr(response))])
  }

  /** `_analyze_competition` when the answer is not JSON: the text as the overview. */
  function AnalyzeFallback(response: string): Value {
    JObj([("market_overview", JStr(response))])
  }

  /** A validation the model did not answer in JSON is never a "go". */
  lemma UnparsedValidationNeedsData(response: string)
    ensures Get(ValidateFallback(response).fields, "go_no_go") == Some(JStr("need_more_data"))
    ensures Get(ValidateFallback(response).fields, "validation_score") == Some(JNum(0.0))
  {
  }

  /** `MarketScannerAgent`: the base agent and the opportunities its scans have found. */
  class ScannerAgent {
    const agent: AgentBase.Agent
    var opportunities: seq<Opportunity>

    constructor(cfg: AgentBase.OpenRouterConfig)
      requires AgentBase.ValidateConfig(cfg).Ok?
      ensures fresh(agent) && agent.Valid()
      ensures agent.name == "MarketScanner" && agent.role == "Market Research Analyst"
      ensures agent.model == cfg.operationalModel && agent.systemPrompt == ScannerPrompt
      ensures agent.tasks == [] && agent.memory == []
      ensures opportunities == []
    {
      agent := new AgentBase.Agent("MarketScanner", "Market Research Analyst", None, Some(ScannerPrompt), cfg);
      opportunities := [];
    }

    /**
     * The loop of `_scan_market`: each entry is converted and appended, to the stored
     * list and to the results, until one raises.
     */
    method ScanEntries(entries: seq<Value>, date: string, now: string) returns (r: Result<seq<Value>>)
      modifies this
      ensures var s := ScanOf(Conversions(entries, date, now), |entries|);
        opportunities == old(opportunities) + s.made
        && (s.error.None? ==> r == Ok(Dicts(s.made)))
        && (s.error.Some? ==> r == Err(s.error.value))
    {
      ghost var cs := Conversions(entries, date, now);
      ghost var start := opportunities;
      var results: seq<Value> := [];
      var i := 0;
      while i < |entries|
        invariant 0 <= i <= |entries|
        invariant ScanOf(cs, i).error.None?
        invariant opportunities == start + ScanOf(cs, i).made
        invariant results == Dicts(ScanOf(cs, i).made)
      {
        var o := ConvertEntry(entries, date, i, now);
        ScanStep(cs, i, o);
        if o.Err? {
          ErrorSticks(cs, i + 1, |entries|);
          return Err(o.error);
        }
        DictsSnoc(ScanOf(cs, i).made, o.value);
        opportunities := opportunities + [o.value];
        results := results + [ToDict(o.value)];
        i := i + 1;
      }
      r := Ok(results);
    }

    /** `_scan_market` after the model has answered: unparseable text yields `[]` and stores nothing. */
    method ScanMarket(response: string, loads: string -> Option<Value>, date: string, now: string)
      returns (r: Result<Value>)
      modifies this
      ensures r == ScanOutcome(response, loads, date, now).0
      ensures opportunities == old(opportunities) + ScanOutcome(response, loads, date, now).1
    {
      var parsed := loads(response);
      if parsed.None? {
        return Ok(JArr([]));
      }
      var results := ScanEntries(Entries(parsed.value), date, now);
      if results.Err? {
        return Err(results.error);
      }
      r := Ok(JArr(results.value));
    }

    /** `get_opportunities(min_confidence)` */
    function Opportunities(minConfidence: real): (r: seq<Opportunity>)
      reads this
      ensures forall o :: o in r <==> o in opportunities && o.confidence >= minConfidence
    {
      AtLeast(opportunities, minConfidence)
    }

    /**
     * `execute`, given the model's answer (or the error `think` raised, which
     * propagates). Only a scan changes the stored opportunities.
     */
    method Execute(taskType: string, response: Result<string>, loads: string -> Option<Value>,
                   date: string, now: string) returns (r: Result<Value>)
      modifies this
      ensures response.Err? ==> r == Err(response.error) && opportunities == old(opportunities)
      ensures response.Ok? && Dispatch(taskType).ScanHandler? ==>
                r == ScanOutcome(response.value, loads, date, now).0
                && opportunities == old(opportunities) + ScanOutcome(response.value, loads, date, now).1
      ensures !Dispatch(taskType).ScanHandler? ==> opportunities == old(opportunities)
      ensures response.Ok? && Dispatch(taskType).ValidateHandler? ==>
                r == Ok(if loads(response.value).Some? then loads(response.value).value else ValidateFallback(response.value))
      ensures response.Ok? && Dispatch(taskType).AnalyzeHandler? ==>
                r == Ok(if loads(response.value).Some? then loads(response.value).value else AnalyzeFallback(response.value))
      ensures response.Ok? && Dispatch(taskType).ResearchHandler? ==> r == Ok(JStr(response.value))
    {
      if response.Err? {
        return Err(response.error);
      }
      var text := response.value;
      match Dispatch(taskType) {
        case ScanHandler =>
          r := ScanMarket(text, loads, date, now);
        case ValidateHandler =>
          r := Ok(if loads(text).Some? then loads(text).value else ValidateFallback(text));
        case AnalyzeHandler =>
          r := Ok(if loads(text).Some? then loads(text).value else AnalyzeFallback(text));
        case ResearchHandler =>
          r := Ok(JStr(text));
      }
    }
  }

  /**
   * After a scan, the query lists what it listed before and then the new
   * opportunities at or above the threshold, in the order the model gave them.
   */
  lemma ScanThenQuery(before: seq<Opportunity>, response: string, loads: string -> Option<Value>,
                      date: string, now: string, minConfidence: real)
    ensures AtLeast(before + ScanOutcome(response, loads, date, now).1, minConfidence)
            == AtLeast(before, minConfidence) + AtLeast(ScanOutcome(response, loads, date, now).1, minConfidence)
  {
    AtLeastConcat(before, ScanOutcome(response, loads, date, now).1, minConfidence);
  }

  /** An entry without a confidence is listed by the default query (threshold 0.5). */
  lemma DefaultConfidenceListed(entry: Value, date: string, index: nat, now: string)
    requires Convert(entry, date, index, now).Ok?
    requires Get(entry.fields, ConfidenceKey).None?
    ensures Convert(entry, date, index, now).value in AtLeast([Convert(entry, date, index, now).value], 0.5)
  {
  }
}
