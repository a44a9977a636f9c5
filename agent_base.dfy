// The agent foundation of src/agents/base.py: the conversation sent to the language
// model and the bounded memory of past turns, and the task records `run_task` creates,
// runs and keeps (the last 100). The model's answer and the outcome of a subclass's
// `execute` are inputs; ids and times are parameters.
module AgentBase {
  import opened Py
  import opened Json

  datatype OpenRouterConfig = OpenRouterConfig(apiKey: string, baseUrl: string, operationalModel: string)

  const NoApiKey: string := "OPENROUTER_API_KEY not configured. Get your API key at https://openrouter.ai/keys"

  /** The constructor's check on the OpenRouter key. */
  function ValidateConfig(cfg: OpenRouterConfig): (r: Result<OpenRouterConfig>)
    ensures r.Ok? <==> cfg.apiKey != []
    ensures r.Ok? ==> r.value == cfg
    ensures r.Err? ==> r.error == NoApiKey
  {
    if cfg.apiKey == [] then Err(NoApiKey)
    else Ok(cfg)
  }

  /** `model or config.operational_model`: a missing or empty model name means the operational model. */
  function ChooseModel(model: Option<string>, cfg: OpenRouterConfig): (r: string)
    ensures model.Some? && model.value != [] ==> r == model.value
    ensures model.None? || model.value == [] ==> r == cfg.operationalModel
  {
    if model.Some? && model.value != [] then model.value else cfg.operationalModel
  }

  /** The rest of the default system prompt, after the agent's name and role. */
  const PromptDuties: string :=
    " agent in the QualiaIA autonomous business system.\n" +
    "\n" +
    "Your responsibilities:\n" +
    "- Execute tasks efficiently and accurately\n" +
    "- Report results in structured JSON format when requested\n" +
    "- Escalate uncertain decisions to the council\n" +
    "- Maintain compliance with spending limits and policies\n" +
    "\n" +
    "Always be concise, accurate, and action-oriented."

  function DefaultSystemPrompt(name: string, role: string): string {
    "You are " + name + ", a " + role + PromptDuties
  }

  /** `system_prompt or _default_system_prompt()` */
  function ChoosePrompt(systemPrompt: Option<string>, name: string, role: string): (r: string)
    ensures systemPrompt.Some? && systemPrompt.value != [] ==> r == systemPrompt.value
    ensures systemPrompt.None? || systemPrompt.value == [] ==> r == DefaultSystemPrompt(name, role)
  {
    if systemPrompt.Some? && systemPrompt.value != [] then systemPrompt.value else DefaultSystemPrompt(name, role)
  }

  /** One chat message: a role ("system", "user", "assistant") and its text. */
  datatype ChatMessage = ChatMessage(role: string, content: string)

  const JsonOnly: string := "\n\nRespond with valid JSON only."
  /** The memory keeps the last 20 exchanges, i.e. 40 messages. */
  const MaxMemory: nat := 20
  const MaxTasks: nat := 100

  /** The prompt as sent: with the JSON instruction appended when a JSON answer is wanted. */
  function UserPrompt(prompt: string, jsonResponse: bool): (r: string)
    ensures jsonResponse ==> r == prompt + JsonOnly
    ensures !jsonResponse ==> r == prompt
  {
    if jsonResponse then prompt + JsonOnly else prompt
  }

  /** A remembered conversation never exceeds 40 messages, and its last two are the newest exchange. */
  lemma MemoryWindow(m: seq<ChatMessage>, user: ChatMessage, assistant: ChatMessage)
    ensures var w := From(m + [user, assistant], -(MaxMemory as int) * 2);
      |w| == Min(|m| + 2, MaxMemory * 2) && w[|w| - 2..] == [user, assistant]
  {
    var s := m + [user, assistant];
    LastN(s, MaxMemory * 2);
    var w := From(s, -(MaxMemory as int) * 2);
    assert w[|w| - 2..] == s[|s| - 2..];
  }

  /** The life of a task. */
  datatype TaskStatus = Pending | Running | Completed | Failed {
    function Text(): string {
      match this
      case Pending => "pending"
      case Running => "running"
      case Completed => "completed"
      case Failed => "failed"
    }
  }

  /** `AgentTask`: the record of one task, updated in place as it runs. */
  class AgentTask {
    const id: string
    const kind: string
    const description: string
    const context: Value
    const createdAt: int
    var status: TaskStatus
    var result: Value
    var error: Option<string>
    var completedAt: Option<int>

    constructor(id: string, kind: string, description: string, context: Value, createdAt: int)
      ensures this.id == id && this.kind == kind && this.description == description
      ensures this.context == context && this.createdAt == createdAt
      ensures status == Pending && result == JNull && error == None && completedAt == None
    {
      this.id := id;
      this.kind := kind;
      this.description := description;
      this.context := context;
      this.createdAt := createdAt;
      status := Pending;
      result := JNull;
      error := None;
      completedAt := None;
    }
  }

  /** `BaseAgent`: its identity, the model it asks, its task list and its conversation memory. */
  class Agent {
    const name: string
    const role: string
    const model: string
    const systemPrompt: string
    var tasks: seq<AgentTask>
    var memory: seq<ChatMessage>

    ghost predicate Valid()
      reads this
    {
      |tasks| <= MaxTasks && |memory| <= MaxMemory * 2
    }

    /** The key check is the caller's: construction raises without one. */
    constructor(name: string, role: string, model: Option<string>, systemPrompt: Option<string>, cfg: OpenRouterConfig)
      requires ValidateConfig(cfg).Ok?
      ensures Valid()
      ensures this.name == name && this.role == role && this.model == ChooseModel(model, cfg)
      ensures this.systemPrompt == ChoosePrompt(systemPrompt, name, role)
      ensures tasks == [] && memory == []
    {
      this.name := name;
      this.role := role;
      this.model := ChooseModel(model, cfg);
      this.systemPrompt := ChoosePrompt(systemPrompt, name, role);
      tasks := [];
      memory := [];
    }

    /**
     * `think`: the conversation sent is the system prompt, then the memory when asked
     * for, then the user prompt. `reply` is the model's answer or the error raised
     * while asking; an error is passed on and leaves the memory alone. A successful
     * answer with memory adds the exchange and keeps the last 40 messages.
     */
    method Think(prompt: string, useMemory: bool, jsonResponse: bool, reply: Result<string>)
      returns (sent: seq<ChatMessage>, r: Result<string>)
      requires Valid()
      modifies this
      ensures Valid()
      ensures |sent| == 2 + (if useMemory then |old(memory)| else 0)
      ensures sent[0] == ChatMessage("system", systemPrompt)
      ensures sent[|sent| - 1] == ChatMessage("user", UserPrompt(prompt, jsonResponse))
      ensures useMemory ==> sent[1..|sent| - 1] == old(memory)
      ensures r == reply
      ensures reply.Err? || !useMemory ==> memory == old(memory)
      ensures reply.Ok? && useMemory ==>
                memory == From(old(memory) + [ChatMessage("user", UserPrompt(prompt, jsonResponse)),
                                              ChatMessage("assistant", reply.value)], -(MaxMemory as int) * 2)
      ensures tasks == old(tasks)
    {
      var p := UserPrompt(prompt, jsonResponse);
      var messages := [ChatMessage("system", systemPrompt)];
      if useMemory {
        messages := messages + memory;
      }
      messages := messages + [ChatMessage("user", p)];
      sent := messages;
      if reply.Err? {
        return sent, reply;
      }
      if useMemory {
        memory := memory + [ChatMessage("user", p)];
        memory := memory + [ChatMessage("assistant", reply.value)];
        if |memory| > MaxMemory * 2 {
          memory := From(memory, -(MaxMemory as int) * 2);
        }
      }
      r := reply;
    }

    /** `clear_memory` */
    method ClearMemory()
      requires Valid()
      modifies this
      ensures Valid()
      ensures memory == [] && tasks == old(tasks)
    {
      memory := [];
    }

    /**
     * The first half of `run_task`: a new task, with the context or `{}`, is marked
     * running and appended before `execute` is called.
     */
    method StartTask(id: string, kind: string, description: string, context: Value, now: int)
      returns (task: AgentTask)
      requires Valid()
      modifies this
      ensures fresh(task)
      ensures task.id == id && task.kind == kind && task.description == description && task.createdAt == now
      ensures task.context == (if Truthy(context) then context else JObj([]))
      ensures task.status == Running && task.result == JNull && task.error == None && task.completedAt == None
      ensures tasks == old(tasks) + [task] && |tasks| <= MaxTasks + 1
      ensures memory == old(memory)
    {
      task := new AgentTask(id, kind, description, if Truthy(context) then context else JObj([]), now);
      task.status := Running;
      tasks := tasks + [task];
    }

    /**
     * The second half of `run_task`: `outcome` is what `execute` returned or the text
     * of what it raised. The task ends completed with the result or failed with the
     * error, stamped with `now`; then the task list keeps its last 100.
     */
    method FinishTask(task: AgentTask, outcome: Result<Value>, now: int)
      requires |tasks| <= MaxTasks + 1 && |memory| <= MaxMemory * 2
      modifies this, task
      ensures Valid()
      ensures outcome.Ok? ==> task.status == Completed && task.result == outcome.value && task.error == old(task.error)
      ensures outcome.Err? ==> task.status == Failed && task.error == Some(outcome.error) && task.result == old(task.result)
      ensures task.completedAt == Some(now)
      ensures tasks == From(old(tasks), -(MaxTasks as int))
      ensures memory == old(memory)
    {
      match outcome {
        case Ok(v) =>
          task.result := v;
          task.status := Completed;
        case Err(e) =>
          task.error := Some(e);
          task.status := Failed;
      }
      task.completedAt := Some(now);
      if |tasks| > MaxTasks {
        tasks := From(tasks, -(MaxTasks as int));
      }
    }

    /** `run_task`: start, execute with the given outcome, finish. The new task is the last one kept. */
    method RunTask(id: string, kind: string, description: string, context: Value, now: int,
                   outcome: Result<Value>, doneAt: int) returns (task: AgentTask)
      requires Valid()
      modifies this
      ensures Valid()
      ensures fresh(task)
      ensures tasks == AppendCapped(old(tasks), task, MaxTasks)
      ensures task.status == (if outcome.Ok? then Completed else Failed)
      ensures outcome.Ok? ==> task.result == outcome.value && task.error == None
      ensures outcome.Err? ==> task.error == Some(outcome.error) && task.result == JNull
      ensures task.completedAt == Some(doneAt) && task.createdAt == now && task.kind == kind
      ensures memory == old(memory)
    {
      task := StartTask(id, kind, description, context, now);
      FinishTask(task, outcome, doneAt);
    }

    /** `get_task_history(limit)`: `tasks[-limit:]`. */
    function TaskHistory(limit: int): (r: seq<AgentTask>)
      reads this
      ensures limit > 0 ==> r == tasks[|tasks| - Min(limit, |tasks|)..] && |r| == Min(limit, |tasks|)
      ensures limit == 0 ==> r == tasks
      ensures limit < 0 ==> r == tasks[Min(-limit, |tasks|)..]
    {
      if limit > 0 then LastN(tasks, limit); From(tasks, -limit)
      else From(tasks, -limit)
    }
  }
}
