// The weighted council vote of src/council/deliberation.py.
//
// Each council member is asked the same question; the language-model call is an
// input here (`MemberCall`), as is the JSON decoder. Opinions are weighed as
// weight x confidence, an approve ratio over the approve+reject weight is
// compared with a super-majority threshold, approve first, and the result
// carries a plain-text synthesis.
module Council {
  import opened Py
  import opened Numerals
  import opened Json

  datatype Member = Member(model: string, role: string, weight: real)

  datatype Opinion = Opinion(member: Member, vote: string, confidence: real, reasoning: string)

  /** The three verdicts a deliberation can reach. */
  datatype Verdict = Approve | Reject | NoConsensus {
    /** The vote string the source reports. */
    function Text(): string {
      match this
      case Approve => "approve"
      case Reject => "reject"
      case NoConsensus => "no_consensus"
    }
  }

  /** A deliberation outcome; the wall-clock duration is not modelled. */
  datatype Deliberation = Deliberation(
    consensus: bool,
    vote: Verdict,
    confidence: real,
    reasoning: string,
    opinions: seq<Opinion>)

  /** One entry of `council_models`: a dict with optional keys, or a bare model id. */
  datatype MemberConfig =
    | FromDict(id: Option<string>, role: Option<string>, weight: Option<real>)
    | ModelId(model: string)

  datatype CouncilConfig = CouncilConfig(members: seq<Member>, threshold: real)

  /**
   * What one member's language-model call did: answered with text, answered with no
   * text at all, timed out, raised an exception inside the opinion call (caught there),
   * or raised one that escaped the opinion call and reached the gatherer.
   */
  datatype MemberCall =
    | Answered(content: string)
    | NoContent
    | TimedOut
    | Raised(error: string)
    | Escaped(error: string)

  const DefaultMembers: seq<Member> := [
    Member("anthropic/claude-sonnet-4", "Risk Analyst", 1.0),
    Member("openai/gpt-4o", "Strategy Director", 1.0),
    Member("google/gemini-2.5-pro", "Finance Officer", 1.0),
    Member("x-ai/grok-3", "Chairman", 1.5)
  ]

  // ---------------------------------------------------------------------------
  // Constructor

  function MemberOf(c: MemberConfig): Member {
    match c
    case FromDict(id, role, weight) =>
      Member(
        match id case Some(m) => m case None => "",
        match role case Some(r) => r case None => "Advisor",
        match weight case Some(w) => w case None => 1.0)
    case ModelId(m) => Member(m, "Advisor", 1.0)
  }

  /** Builds the member list in configuration order, falling back to the four defaults. */
  method BuildMembers(configs: seq<MemberConfig>) returns (members: seq<Member>)
    ensures configs == [] ==> members == DefaultMembers
    ensures configs != [] ==> |members| == |configs|
    ensures configs != [] ==> forall i :: 0 <= i < |configs| ==> members[i] == MemberOf(configs[i])
  {
    members := [];
    var i := 0;
    while i < |configs|
      invariant 0 <= i <= |configs|
      invariant |members| == i
      invariant forall k :: 0 <= k < i ==> members[k] == MemberOf(configs[k])
    {
      members := members + [MemberOf(configs[i])];
      i := i + 1;
    }
    if members == [] {
      members := DefaultMembers;
    }
  }

  const NoApiKey: string := "OPENROUTER_API_KEY not configured. Get your API key at https://openrouter.ai/keys"

  /** The constructor: refuses an empty API key, then builds the members. */
  method NewCouncil(apiKey: string, configs: seq<MemberConfig>, threshold: real)
    returns (r: Result<CouncilConfig>)
    ensures r.Err? <==> apiKey == ""
    ensures r.Ok? ==> r.value.threshold == threshold && |r.value.members| >= 1
    ensures r.Ok? && configs != [] ==>
      (|r.value.members| == |configs| && forall i :: 0 <= i < |configs| ==> r.value.members[i] == MemberOf(configs[i]))
    ensures r.Ok? && configs == [] ==> r.value.members == DefaultMembers
  {
    if apiKey == "" {
      return Err(NoApiKey);
    }
    var members := BuildMembers(configs);
    return Ok(CouncilConfig(members, threshold));
  }

  // ---------------------------------------------------------------------------
  // Reading one member's reply

  /** The regex `\{[^{}]*\}` matches `s[i..j]`: a brace pair with no brace inside. */
  predicate FlatObjectAt(s: string, i: nat, j: nat) {
    i < j <= |s| && j - i >= 2 && s[i] == '{' && s[j - 1] == '}'
    && forall k :: i < k < j - 1 ==> s[k] != '{' && s[k] != '}'
  }

  /** The first index at or after `k` holding a brace character. */
  function NextBrace(s: string, k: nat): (r: Option<nat>)
    decreases |s| - k
    ensures r.Some? ==>
      (k <= r.value < |s| && (s[r.value] == '{' || s[r.value] == '}')
       && forall m :: k <= m < r.value ==> s[m] != '{' && s[m] != '}')
    ensures r.None? ==> forall m :: k <= m < |s| ==> s[m] != '{' && s[m] != '}'
  {
    if k >= |s| then None
    else if s[k] == '{' || s[k] == '}' then Some(k)
    else NextBrace(s, k + 1)
  }

  /**
   * `re.search(r'\{[^{}]*\}', s)`: the leftmost flat brace pair, as a half-open index
   * range. A match starting at `i` is unique, since `[^{}]*` must stop at the first brace.
   */
  function FirstFlatObject(s: string, from: nat): (r: Option<(nat, nat)>)
    decreases |s| - from
    ensures r.Some? ==> from <= r.value.0 && FlatObjectAt(s, r.value.0, r.value.1)
    ensures r.Some? ==> forall i, j :: from <= i < r.value.0 && i < j <= |s| ==> !FlatObjectAt(s, i, j)
    ensures r.None? ==> forall i, j :: from <= i < j <= |s| ==> !FlatObjectAt(s, i, j)
  {
    if from >= |s| then None
    else if s[from] == '{' then
      match NextBrace(s, from + 1)
      case None => None
      case Some(j) =>
        if s[j] == '}' then Some((from, j + 1))
        else
          var r := FirstFlatObject(s, from + 1);
          assert forall j' :: from < j' <= |s| ==> !FlatObjectAt(s, from, j');
          r
    else FirstFlatObject(s, from + 1)
  }

  /** `json.loads(content)`, then the first flat `{...}` substring; errors raise. */
  function ParseReply(content: string, decode: string -> Option<Value>): (r: Result<Value>)
    ensures decode(content).Some? ==> r == Ok(decode(content).value)
    ensures decode(content).None? && FirstFlatObject(content, 0).None? ==>
      r == Err("No valid JSON found in response: " + UpTo(content, 200))
    ensures decode(content).None? && FirstFlatObject(content, 0).Some? ==>
      var span := FirstFlatObject(content, 0).value;
      && (decode(content[span.0..span.1]).Some? ==> r == Ok(decode(content[span.0..span.1]).value))
      && (decode(content[span.0..span.1]).None? ==> r.Err?)
  {
    match decode(content)
    case Some(v) => Ok(v)
    case None =>
      match FirstFlatObject(content, 0)
      case None => Err("No valid JSON found in response: " + UpTo(content, 200))
      case Some(span) =>
        match decode(content[span.0..span.1])
        case Some(v) => Ok(v)
        case None => Err("Expecting value")
  }

  /**
   * The opinion built from a decoded reply: the "vote" field lower-cased ("abstain" when
   * absent), the "confidence" field as a float (0.5 when absent) and the "reasoning" field.
   * A reply that is not an object, a vote that is not text or a confidence that is not a
   * number fails.
   */
  function OpinionFromJson(m: Member, v: Value): (r: Result<Opinion>)
    ensures !v.JObj? ==> r == Err(NoGet)
    ensures v.JObj? ==>
      (r.Ok? <==> GetOr(v.fields, "vote", JStr("abstain")).JStr?
                  && ToFloat(GetOr(v.fields, "confidence", JNum(0.5))).Ok?)
    ensures r.Ok? ==> r.value.member == m
    ensures v.JObj? && r.Ok? ==>
      && (Get(v.fields, "vote").None? ==> r.value.vote == "abstain")
      && (Get(v.fields, "vote").Some? ==> r.value.vote == Lower(Get(v.fields, "vote").value.s))
      && (Get(v.fields, "confidence").None? ==> r.value.confidence == 0.5)
      && (Get(v.fields, "confidence").Some? ==> ToFloat(Get(v.fields, "confidence").value) == Ok(r.value.confidence))
      && (Get(v.fields, "reasoning").None? ==> r.value.reasoning == "No reasoning provided")
      && (Get(v.fields, "reasoning").Some? && Get(v.fields, "reasoning").value.JStr? ==>
            r.value.reasoning == Get(v.fields, "reasoning").value.s)
  {
    if !v.JObj? then Err(NoGet)
    else
      var lowered := LowerOf(Py.GetOr(v.fields, "vote", JStr("abstain")));
      var confidence := ToFloat(Py.GetOr(v.fields, "confidence", JNum(0.5)));
      if lowered.Err? then Err(lowered.error)
      else if confidence.Err? then Err(confidence.error)
      else
        var reasoning := match Py.GetOr(v.fields, "reasoning", JStr("No reasoning provided"))
          case JStr(t) => t
          case _ => "No reasoning provided";
        Ok(Opinion(m, lowered.value, confidence.value, reasoning))
  }

  /** `_get_opinion`: every failure inside it becomes an abstention with no confidence. */
  function GetOpinion(m: Member, call: MemberCall, decode: string -> Option<Value>): (o: Opinion)
    requires !call.Escaped?
    ensures o.member == m
    ensures call.TimedOut? ==> o == Opinion(m, "abstain", 0.0, "Timeout - no response")
    ensures call.Raised? ==> o == Opinion(m, "abstain", 0.0, "Error: " + call.error)
    ensures call.NoContent? ==> o.vote == "abstain" && o.confidence == 0.0
    ensures !call.Answered? ==> o.vote == "abstain" && o.confidence == 0.0
    ensures call.Answered? ==>
      var parsed := ParseReply(Strip(call.content), decode);
      && (parsed.Ok? && OpinionFromJson(m, parsed.value).Ok? ==> o == OpinionFromJson(m, parsed.value).value)
      && (parsed.Err? ==> o == Opinion(m, "abstain", 0.0, "Error: " + parsed.error))
      && (parsed.Ok? && OpinionFromJson(m, parsed.value).Err? ==>
            o.vote == "abstain" && o.confidence == 0.0 && "Error: " <= o.reasoning)
  {
    match call
    case TimedOut => Opinion(m, "abstain", 0.0, "Timeout - no response")
    case Raised(e) => Opinion(m, "abstain", 0.0, "Error: " + e)
    case NoContent => Opinion(m, "abstain", 0.0, "Error: 'NoneType' object has no attribute 'strip'")
    case Answered(text) =>
      var parsed := ParseReply(Strip(text), decode);
      var opinion := if parsed.Ok? then OpinionFromJson(m, parsed.value) else Err(parsed.error);
      match opinion
      case Ok(o) => o
      case Err(e) => Opinion(m, "abstain", 0.0, "Error: " + e)
  }

  /** What the gatherer keeps for one member: an escaped exception becomes an "error" vote. */
  function GatheredOpinion(m: Member, call: MemberCall, decode: string -> Option<Value>): Opinion {
    if call.Escaped? then Opinion(m, "error", 0.0, call.error) else GetOpinion(m, call, decode)
  }

  /** `_gather_opinions`: one opinion per member, in member order. */
  method GatherOpinions(members: seq<Member>, calls: seq<MemberCall>, decode: string -> Option<Value>)
    returns (opinions: seq<Opinion>)
    requires |calls| == |members|
    ensures |opinions| == |members|
    ensures forall i :: 0 <= i < |members| ==> opinions[i].member == members[i]
    ensures forall i :: 0 <= i < |members| ==> opinions[i] == GatheredOpinion(members[i], calls[i], decode)
  {
    opinions := [];
    var i := 0;
    while i < |members|
      invariant 0 <= i <= |members|
      invariant |opinions| == i
      invariant forall k :: 0 <= k < i ==> opinions[k] == GatheredOpinion(members[k], calls[k], decode)
    {
      opinions := opinions + [GatheredOpinion(members[i], calls[i], decode)];
      i := i + 1;
    }
  }

  // ---------------------------------------------------------------------------
  // Weighing

  predicate Decisive(o: Opinion) { o.vote == "approve" || o.vote == "reject" }

  /** One opinion's weight x confidence. */
  function Scaled(o: Opinion): real { o.member.weight * o.confidence }

  /** Sum of weight x confidence over the "approve" opinions. */
  function ApproveWeight(ops: seq<Opinion>): real {
    if ops == [] then 0.0
    else
      var head := if ops[0].vote == "approve" then Scaled(ops[0]) else 0.0;
      head + ApproveWeight(ops[1..])
  }

  /** Sum of weight x confidence over the "reject" opinions (computed by the source, never read). */
  function RejectWeight(ops: seq<Opinion>): real {
    if ops == [] then 0.0
    else
      var head := if ops[0].vote == "reject" then Scaled(ops[0]) else 0.0;
      head + RejectWeight(ops[1..])
  }

  /** Sum of the weights of the members who voted "approve" or "reject". */
  function DecisiveWeight(ops: seq<Opinion>): real {
    if ops == [] then 0.0
    else
      var head := if Decisive(ops[0]) then ops[0].member.weight else 0.0;
      head + DecisiveWeight(ops[1..])
  }

  function CountVote(ops: seq<Opinion>, vote: string): (n: nat)
    ensures n <= |ops|
  {
    if ops == [] then 0
    else
      var head := if ops[0].vote == vote then 1 else 0;
      head + CountVote(ops[1..], vote)
  }

  function RealMax(a: real, b: real): real { if a >= b then a else b }

  /** The "- role: reasoning..." lines for the decisive opinions, in order. */
  function KeyLines(ops: seq<Opinion>): (lines: seq<string>)
    ensures |lines| == CountVote(ops, "approve") + CountVote(ops, "reject")
  {
    if ops == [] then []
    else
      var rest := KeyLines(ops[1..]);
      if Decisive(ops[0]) then ["- " + ops[0].member.role + ": " + UpTo(ops[0].reasoning, 100) + "..."] + rest
      else rest
  }

  /** `_generate_synthesis` */
  function SynthesisLines(ops: seq<Opinion>, vote: Verdict, ratio: real): seq<string> {
    [ "Council Vote: " + NatToString(CountVote(ops, "approve")) + " approve, "
        + NatToString(CountVote(ops, "reject")) + " reject, "
        + NatToString(CountVote(ops, "abstain")) + " abstain",
      "Weighted approval: " + Percent(ratio),
      "Decision: " + Upper(vote.Text()),
      "",
      "Key considerations:" ]
    + KeyLines(ops)
  }

  function GenerateSynthesis(ops: seq<Opinion>, vote: Verdict, ratio: real): string {
    Join(SynthesisLines(ops, vote, ratio), '\n')
  }

  /** `_synthesize` */
  function Synthesize(ops: seq<Opinion>, threshold: real): (r: Deliberation)
    ensures r.opinions == ops
  {
    var total := DecisiveWeight(ops);
    if total == 0.0 then
      Deliberation(false, NoConsensus, 0.0, "All council members abstained", ops)
    else
      var ratio := ApproveRatio(ops);
      if ratio >= threshold then
        Deliberation(true, Approve, ratio, GenerateSynthesis(ops, Approve, ratio), ops)
      else if 1.0 - ratio >= threshold then
        Deliberation(true, Reject, 1.0 - ratio, GenerateSynthesis(ops, Reject, ratio), ops)
      else
        Deliberation(false, NoConsensus, RealMax(ratio, 1.0 - ratio), GenerateSynthesis(ops, NoConsensus, ratio), ops)
  }

  function ValidOpinions(ops: seq<Opinion>): (r: seq<Opinion>)
    ensures |r| <= |ops|
    ensures forall i :: 0 <= i < |r| ==> r[i].vote != "error" && r[i] in ops
    ensures forall i :: 0 <= i < |ops| && ops[i].vote != "error" ==> ops[i] in r
    ensures r == [] <==> forall i :: 0 <= i < |ops| ==> ops[i].vote == "error"
  {
    if ops == [] then []
    else if ops[0].vote == "error" then ValidOpinions(ops[1..])
    else [ops[0]] + ValidOpinions(ops[1..])
  }

  const AllFailed := Deliberation(false, NoConsensus, 0.0, "All council members failed to respond", [])

  /** `deliberate` over the gathered opinions: drop the "error" ones, then synthesise. */
  function Deliberate(ops: seq<Opinion>, threshold: real): (r: Deliberation)
    ensures (forall i :: 0 <= i < |ops| ==> ops[i].vote == "error") ==> r == AllFailed
    ensures forall i :: 0 <= i < |r.opinions| ==> r.opinions[i].vote != "error"
    ensures (exists i :: 0 <= i < |ops| && ops[i].vote != "error") ==> r.opinions == ValidOpinions(ops)
    ensures ValidOpinions(ops) != [] ==> r == Synthesize(ValidOpinions(ops), threshold)
  {
    var valid := ValidOpinions(ops);
    if valid == [] then AllFailed else Synthesize(valid, threshold)
  }

  /** The filter keeps the non-"error" opinions in their order: it distributes over concatenation. */
  lemma {:induction false} ValidOpinionsAppend(a: seq<Opinion>, b: seq<Opinion>)
    ensures ValidOpinions(a + b) == ValidOpinions(a) + ValidOpinions(b)
  {
    if a == [] {
      assert a + b == b;
    } else {
      assert (a + b)[1..] == a[1..] + b;
      ValidOpinionsAppend(a[1..], b);
    }
  }

  /** One opinion survives the filter exactly when it is not an "error" vote. */
  lemma ValidOpinionsSingle(o: Opinion)
    ensures ValidOpinions([o]) == (if o.vote == "error" then [] else [o])
  {
    assert [o][1..] == [];
  }

  /** A member that failed with an "error" vote, wherever it sits, does not change the deliberation. */
  lemma ErrorOpinionIgnored(a: seq<Opinion>, o: Opinion, b: seq<Opinion>, threshold: real)
    requires o.vote == "error"
    ensures Deliberate(a + [o] + b, threshold) == Deliberate(a + b, threshold)
  {
    calc {
      ValidOpinions(a + [o] + b);
      { ValidOpinionsAppend(a + [o], b); }
      ValidOpinions(a + [o]) + ValidOpinions(b);
      { ValidOpinionsAppend(a, [o]); ValidOpinionsSingle(o); }
      ValidOpinions(a) + ValidOpinions(b);
      { ValidOpinionsAppend(a, b); }
      ValidOpinions(a + b);
    }
    SameValidOpinionsSameDeliberation(a + [o] + b, a + b, threshold);
  }

  lemma SameValidOpinionsSameDeliberation(x: seq<Opinion>, y: seq<Opinion>, threshold: real)
    requires ValidOpinions(x) == ValidOpinions(y)
    ensures Deliberate(x, threshold) == Deliberate(y, threshold)
  {
  }

  // ---------------------------------------------------------------------------
  // Properties of the vote

  /** In every branch the council reports consensus exactly for an approve or reject verdict. */
  lemma ConsensusIffDecisiveVote(ops: seq<Opinion>, threshold: real)
    ensures Synthesize(ops, threshold).consensus <==>
      Synthesize(ops, threshold).vote != NoConsensus
    ensures Deliberate(ops, threshold).consensus <==>
      Deliberate(ops, threshold).vote != NoConsensus
  {
    SynthesisConsensus(ops, threshold);
    var valid := ValidOpinions(ops);
    if valid != [] {
      SynthesisConsensus(valid, threshold);
    }
  }

  lemma SynthesisConsensus(ops: seq<Opinion>, threshold: real)
    ensures Synthesize(ops, threshold).consensus <==> Synthesize(ops, threshold).vote != NoConsensus
  {
    if DecisiveWeight(ops) != 0.0 {
      var ratio := ApproveRatio(ops);
      if ratio >= threshold {
        ApproveWhenRatioReachesThreshold(ops, threshold);
      } else if 1.0 - ratio >= threshold {
        RejectWhenComplementReachesThreshold(ops, threshold);
      } else {
        NoConsensusOtherwise(ops, threshold);
      }
    }
  }

  /** With no approve or reject weight the council reports that everyone abstained. */
  lemma AllAbstainedVerdict(ops: seq<Opinion>, threshold: real)
    requires DecisiveWeight(ops) == 0.0
    ensures Synthesize(ops, threshold) == Deliberation(false, NoConsensus, 0.0, "All council members abstained", ops)
  {
  }

  function ApproveRatio(ops: seq<Opinion>): real
    requires DecisiveWeight(ops) != 0.0
  {
    ApproveWeight(ops) / DecisiveWeight(ops)
  }

  /** An approve ratio at the threshold approves, whatever 1 - ratio is: approve is tested first. */
  lemma ApproveWhenRatioReachesThreshold(ops: seq<Opinion>, threshold: real)
    requires DecisiveWeight(ops) != 0.0 && ApproveRatio(ops) >= threshold
    ensures Synthesize(ops, threshold).consensus
    ensures Synthesize(ops, threshold).vote == Approve
    ensures Synthesize(ops, threshold).confidence == ApproveRatio(ops)
  {
  }

  /** Below the threshold, 1 - ratio at the threshold rejects with that confidence. */
  lemma RejectWhenComplementReachesThreshold(ops: seq<Opinion>, threshold: real)
    requires DecisiveWeight(ops) != 0.0 && ApproveRatio(ops) < threshold && 1.0 - ApproveRatio(ops) >= threshold
    ensures Synthesize(ops, threshold).consensus
    ensures Synthesize(ops, threshold).vote == Reject
    ensures Synthesize(ops, threshold).confidence == 1.0 - ApproveRatio(ops)
  {
  }

  /** When neither side reaches the threshold there is no consensus, at the larger side's confidence. */
  lemma NoConsensusOtherwise(ops: seq<Opinion>, threshold: real)
    requires DecisiveWeight(ops) != 0.0 && ApproveRatio(ops) < threshold && 1.0 - ApproveRatio(ops) < threshold
    ensures !Synthesize(ops, threshold).consensus
    ensures Synthesize(ops, threshold).vote == NoConsensus
    ensures Synthesize(ops, threshold).confidence == RealMax(ApproveRatio(ops), 1.0 - ApproveRatio(ops))
  {
  }

  /** Two opinion lists with the same approve and decisive weights get the same verdict, whatever their reject weights. */
  lemma RejectWeightIsIgnored(a: seq<Opinion>, b: seq<Opinion>, threshold: real)
    requires ApproveWeight(a) == ApproveWeight(b) && DecisiveWeight(a) == DecisiveWeight(b)
    ensures Synthesize(a, threshold).vote == Synthesize(b, threshold).vote
    ensures Synthesize(a, threshold).consensus == Synthesize(b, threshold).consensus
    ensures Synthesize(a, threshold).confidence == Synthesize(b, threshold).confidence
  {
    if DecisiveWeight(a) != 0.0 {
      var ratio := ApproveRatio(a);
      assert ratio == ApproveRatio(b);
      if ratio >= threshold {
        ApproveWhenRatioReachesThreshold(a, threshold);
        ApproveWhenRatioReachesThreshold(b, threshold);
      } else if 1.0 - ratio >= threshold {
        RejectWhenComplementReachesThreshold(a, threshold);
        RejectWhenComplementReachesThreshold(b, threshold);
      } else {
        NoConsensusOtherwise(a, threshold);
        NoConsensusOtherwise(b, threshold);
      }
    }
  }

  /** A lone approve vote at confidence 0.2 is judged a rejection with confidence 0.8, though nobody voted reject. */
  lemma LoneLowConfidenceApproveRejects(m: Member)
    requires m.weight > 0.0
    ensures var ops := [Opinion(m, "approve", 0.2, "weak yes")];
      RejectWeight(ops) == 0.0
      && Synthesize(ops, 0.66).vote == Reject
      && Synthesize(ops, 0.66).confidence == 0.8
  {
    var ops := [Opinion(m, "approve", 0.2, "weak yes")];
    assert ApproveWeight(ops) == m.weight * 0.2;
    assert DecisiveWeight(ops) == m.weight;
    assert ApproveWeight(ops) / DecisiveWeight(ops) == 0.2;
  }

  predicate WellFormedOpinions(ops: seq<Opinion>) {
    forall i :: 0 <= i < |ops| ==> 0.0 <= ops[i].confidence <= 1.0 && ops[i].member.weight >= 0.0
  }

  lemma ScaledBounds(o: Opinion)
    requires 0.0 <= o.confidence <= 1.0 && o.member.weight >= 0.0
    ensures 0.0 <= Scaled(o) <= o.member.weight
  {
    assert o.member.weight * o.confidence <= o.member.weight * 1.0;
  }

  /** With confidences in [0, 1] and non-negative weights, the approve weight never exceeds the decisive weight. */
  lemma {:induction false} ApproveWeightBounded(ops: seq<Opinion>)
    requires WellFormedOpinions(ops)
    ensures 0.0 <= ApproveWeight(ops) <= DecisiveWeight(ops)
  {
    if ops != [] {
      var o, rest := ops[0], ops[1..];
      assert WellFormedOpinions(rest);
      ApproveWeightBounded(rest);
      ScaledBounds(o);
      var a := if o.vote == "approve" then Scaled(o) else 0.0;
      var d := if Decisive(o) then o.member.weight else 0.0;
      assert ApproveWeight(ops) == a + ApproveWeight(rest);
      assert DecisiveWeight(ops) == d + DecisiveWeight(rest);
      assert 0.0 <= a <= d;
    }
  }

  lemma RatioBounds(a: real, t: real)
    requires 0.0 <= a <= t && t != 0.0
    ensures 0.0 <= a / t <= 1.0
  {
    assert (a / t) * t == a;
  }

  /** Under the same conditions the verdict's confidence is a proportion, and a consensus verdict reaches the threshold. */
  lemma ConfidenceIsProportion(ops: seq<Opinion>, threshold: real)
    requires WellFormedOpinions(ops)
    ensures 0.0 <= Synthesize(ops, threshold).confidence <= 1.0
    ensures Synthesize(ops, threshold).consensus ==> Synthesize(ops, threshold).confidence >= threshold
  {
    ApproveWeightBounded(ops);
    if DecisiveWeight(ops) != 0.0 {
      RatioBounds(ApproveWeight(ops), DecisiveWeight(ops));
      var ratio := ApproveRatio(ops);
      if ratio >= threshold {
        ApproveWhenRatioReachesThreshold(ops, threshold);
      } else if 1.0 - ratio >= threshold {
        RejectWhenComplementReachesThreshold(ops, threshold);
      } else {
        NoConsensusOtherwise(ops, threshold);
      }
    }
  }

  /** Abstentions and unrecognised votes do not move the weights. */
  lemma {:induction false} NonDecisiveVotesIgnored(ops: seq<Opinion>, o: Opinion)
    requires !Decisive(o)
    ensures ApproveWeight(ops + [o]) == ApproveWeight(ops)
    ensures DecisiveWeight(ops + [o]) == DecisiveWeight(ops)
  {
    if ops != [] {
      assert (ops + [o])[1..] == ops[1..] + [o];
      NonDecisiveVotesIgnored(ops[1..], o);
    } else {
      assert ApproveWeight([o]) == 0.0 + ApproveWeight([]);
    }
  }

  /** The synthesis text lists one key line per decisive opinion after the five header lines. */
  lemma SynthesisShape(ops: seq<Opinion>, vote: Verdict, ratio: real)
    ensures |SynthesisLines(ops, vote, ratio)| == 5 + CountVote(ops, "approve") + CountVote(ops, "reject")
    ensures SynthesisLines(ops, vote, ratio)[2] == "Decision: " + Upper(vote.Text())
  {
  }
}
