// The operator agent of src/agents/operator.py: which handler a task type reaches,
// how each handler asks the model, and what it makes of the answer, including the
// forced escalation of decisions over $100. The model's answer is an input, and so
// is `json.loads` (`None` when the text is not JSON) and Python's `str` of a value.
module Operator {
  import opened Py
  import opened Json
  import AgentBase

  const OperatorPrompt: string :=
    "You are the Operator, the primary operational agent for QualiaIA autonomous business system.\n" +
    "\n" +
    "Your role:\n" +
    "- Execute routine business operations efficiently\n" +
    "- Make autonomous decisions for small amounts (<$100)\n" +
    "- Escalate larger decisions to the Council\n" +
    "- Maintain operational excellence\n" +
    "\n" +
    "Guidelines:\n" +
    "- Be concise and action-oriented\n" +
    "- Always consider cost-effectiveness\n" +
    "- Prioritize revenue-generating activities\n" +
    "- Document all decisions for audit\n" +
    "\n" +
    "When asked for structured data, respond with valid JSON.\n" +
    "When uncertain, recommend escalation to the Council."

  /** The operator: the base agent named "Operator", on the operational model, with its own prompt. */
  method NewOperator(cfg: AgentBase.OpenRouterConfig) returns (agent: AgentBase.Agent)
    requires AgentBase.ValidateConfig(cfg).Ok?
    ensures fresh(agent) && agent.Valid()
    ensures agent.name == "Operator" && agent.role == "Chief Operating Agent"
    ensures agent.model == cfg.operationalModel && agent.systemPrompt == OperatorPrompt
    ensures agent.tasks == [] && agent.memory == []
  {
    agent := new AgentBase.Agent("Operator", "Chief Operating Agent", None, Some(OperatorPrompt), cfg);
  }

  /** The handlers of `execute`. */
  datatype Handler = Analyze | Generate | Decide | Plan | Generic

  /** `execute`'s dispatch on the lower-cased task type; anything else is generic. */
  function Dispatch(taskType: string): (h: Handler)
    ensures h.Analyze? <==> Lower(taskType) == "analyze"
    ensures h.Generate? <==> Lower(taskType) == "generate"
    ensures h.Decide? <==> Lower(taskType) == "decide"
    ensures h.Plan? <==> Lower(taskType) == "plan"
    ensures h.Generic? <==> Lower(taskType) !in {"analyze", "generate", "decide", "plan"}
  {
    var t := Lower(taskType);
    if t == "analyze" then Analyze
    else if t == "generate" then Generate
    else if t == "decide" then Decide
    else if t == "plan" then Plan
    else Generic
  }

  /** How a handler calls `think`: whether a JSON answer is asked for, and the token limit. */
  function Request(h: Handler): (r: (bool, nat))
    ensures r.0 <==> h.Analyze? || h.Decide? || h.Plan?
    ensures r.1 == (if h.Generate? then 2000 else 1000)
  {
    match h
    case Analyze => (true, 1000)
    case Generate => (false, 2000)
    case Decide => (true, 1000)
    case Plan => (true, 1000)
    case Generic => (false, 1000)
  }

  /** The autonomous limit, in dollars. */
  const AutonomousLimit: real := 100.0

  /**
   * `amount > 100` in Python: numbers compare by value and booleans as 0 and 1;
   * anything else raises TypeError.
   */
  function OverLimit(amount: Value): (r: Result<bool>)
    ensures r.Ok? <==> amount.JNum? || amount.JBool?
    ensures amount.JNum? ==> r == Ok(amount.n > AutonomousLimit)
    ensures amount.JBool? ==> r == Ok(false)
  {
    match amount
    case JNum(n) => Ok(n > AutonomousLimit)
    case JBool(_) => Ok(false)
    case _ => Err("TypeError: '>' not supported between instances")
  }

  function AnalyzeFallback(response: string): Value {
    JObj([("summary", JStr(response)), ("confidence", JNum(0.5)), ("escalate", JBool(true))])
  }

  function DecideFallback(response: string): Value {
    JObj([("decision", JStr("escalate")), ("reasoning", JStr(response)), ("confidence", JNum(0.5))])
  }

  function PlanFallback(description: string): Value {
    JObj([("goal", JStr(description)), ("steps", JArr([])), ("error", JStr("Failed to parse plan"))])
  }

  /** The reasoning that replaces the model's when the amount is over the limit. */
  function LimitReasoning(amount: Value, show: Value -> string): string {
    "Amount $" + show(amount) + " exceeds autonomous limit"
  }

  /** `task.context.get("amount", 0)` */
  function Amount(context: Value): Value
    requires context.JObj?
  {
    GetOr(context.fields, "amount", JNum(0.0))
  }

  /**
   * `_decide` after the model has answered: an unparseable answer escalates with the
   * raw text as reasoning; otherwise, for an amount over $100, the parsed dictionary's
   * decision is overwritten with "escalate" and its reasoning with the limit message;
   * otherwise the parsed value is returned as it is. The comparison and the item
   * assignments raise for values Python cannot compare or assign into.
   */
  method DecideAnswer(context: Value, response: string, loads: string -> Option<Value>, show: Value -> string)
    returns (r: Result<Value>)
    requires context.JObj?
    ensures loads(response).None? ==> r == Ok(DecideFallback(response))
    ensures loads(response).Some? && OverLimit(Amount(context)) == Ok(false) ==> r == Ok(loads(response).value)
    ensures loads(response).Some? && OverLimit(Amount(context)) == Ok(true) ==>
              (r.Ok? <==> loads(response).value.JObj?)
    ensures loads(response).Some? && OverLimit(Amount(context)) == Ok(true) && r.Ok? ==>
              r.value.JObj?
              && Get(r.value.fields, "decision") == Some(JStr("escalate"))
              && Get(r.value.fields, "reasoning") == Some(JStr(LimitReasoning(Amount(context), show)))
              && forall k :: k != "decision" && k != "reasoning" ==>
                   Get(r.value.fields, k) == Get(loads(response).value.fields, k)
    ensures loads(response).Some? && OverLimit(Amount(context)).Err? ==> r.Err?
  {
    var amount := Amount(context);
    var parsed := loads(response);
    if parsed.None? {
      return Ok(DecideFallback(response));
    }
    var result := parsed.value;
    var over := OverLimit(amount);
    if over.Err? {
      return Err(over.error);
    }
    if over.value {
      if !result.JObj? {
        return Err("TypeError: object does not support item assignment");
      }
      var reason := JStr(LimitReasoning(amount, show));
      var fields := Put(result.fields, "decision", JStr("escalate"));
      PutGet(result.fields, "decision", JStr("escalate"), "decision");
      PutGet(fields, "reasoning", reason, "decision");
      PutGet(fields, "reasoning", reason, "reasoning");
      forall k | k != "decision" && k != "reasoning"
        ensures Get(Put(fields, "reasoning", reason), k) == Get(result.fields, k)
      {
        PutGet(result.fields, "decision", JStr("escalate"), k);
        PutGet(fields, "reasoning", reason, k);
      }
      fields := Put(fields, "reasoning", reason);
      result := JObj(fields);
    }
    r := Ok(result);
  }

  /**
   * `execute`: the handler for the task's type, given the model's answer (or the
   * error `think` raised, which propagates). Generating and generic tasks return the
   * answer's text; analysis and plans return the parsed answer or their fallbacks.
   */
  method Execute(taskType: string, description: string, context: Value, response: Result<string>,
                 loads: string -> Option<Value>, show: Value -> string) returns (r: Result<Value>)
    requires context.JObj?
    ensures response.Err? ==> r == Err(response.error)
    ensures response.Ok? && (Dispatch(taskType).Generate? || Dispatch(taskType).Generic?) ==>
              r == Ok(JStr(response.value))
    ensures response.Ok? && Dispatch(taskType).Analyze? ==>
              r == Ok(if loads(response.value).Some? then loads(response.value).value else AnalyzeFallback(response.value))
    ensures response.Ok? && Dispatch(taskType).Plan? ==>
              r == Ok(if loads(response.value).Some? then loads(response.value).value else PlanFallback(description))
    ensures response.Ok? && Dispatch(taskType).Decide? && loads(response.value).None? ==>
              r == Ok(DecideFallback(response.value))
    ensures (response.Ok? && Dispatch(taskType).Decide? && loads(response.value).Some?
             && OverLimit(Amount(context)) == Ok(false)) ==> r == Ok(loads(response.value).value)
    ensures (response.Ok? && Dispatch(taskType).Decide? && loads(response.value).Some?
             && OverLimit(Amount(context)) == Ok(true)) ==>
              && (r.Ok? <==> loads(response.value).value.JObj?)
              && (r.Ok? ==> r.value.JObj?
                            && Get(r.value.fields, "decision") == Some(JStr("escalate"))
                            && Get(r.value.fields, "reasoning") == Some(JStr(LimitReasoning(Amount(context), show))))
    ensures (response.Ok? && Dispatch(taskType).Decide? && loads(response.value).Some?
             && OverLimit(Amount(context)).Err?) ==> r.Err?
  {
    if response.Err? {
      return Err(response.error);
    }
    var text := response.value;
    match Dispatch(taskType) {
      case Analyze =>
        r := Ok(if loads(text).Some? then loads(text).value else AnalyzeFallback(text));
      case Generate =>
        r := Ok(JStr(text));
      case Decide =>
        r := DecideAnswer(context, text, loads, show);
      case Plan =>
        r := Ok(if loads(text).Some? then loads(text).value else PlanFallback(description));
      case Generic =>
        r := Ok(JStr(text));
    }
  }
}
