/** The stage wrappers of `backend/main.py` around the language-model service.
    Each call to the service is an oracle in `Services` that returns the parsed
    reply or the message of the exception it raised; the wrappers add the
    documented fallbacks. */
module Stages {
  import opened Wrappers
  import Tools

  /** One entry of the plan's `sub_tasks`; `dependsOn == None` is a missing `depends_on` key. */
  datatype SubTask = SubTask(id: int, task: string, dependsOn: Option<seq<int>>)

  /** The planner's JSON reply; `None` stands for a missing key. */
  datatype Plan = Plan(userIntent: Option<string>, subTasks: Option<seq<SubTask>>)

  /** A key of a JSON object that is missing, set to null, or set to a value. */
  datatype Field<T> = Absent | Null | Present(value: T)

  /** The executor's JSON reply. `needTool` is the truthiness of `need_tool` (false when the
      key is missing); `toolName == None` is a missing or null `tool_name`. */
  datatype Decision = Decision(needTool: bool, toolName: Option<string>, toolParams: Field<Tools.Params>, reason: string)

  /** The external collaborators of one request. Each model call takes the user-role
      content it is sent (the system prompt of each stage is a constant) and returns the
      parsed reply or the message of the exception. */
  datatype Services = Services(
    planner: string -> Result<Plan>,
    executor: string -> Result<Decision>,
    reasoner: string -> Result<string>,
    verifier: string -> Result<string>,
    search: Tools.SearchLibrary)

  const DirectAnswerTask := "直接回答用户问题"

  /** The single task of the plan used when planning fails. */
  const FallbackTask := SubTask(1, DirectAnswerTask, Some([]))

  /** `call_planner`: the model's plan, or on any failure a one-task plan that answers directly. */
  function CallPlanner(s: Services, userMessage: string): (plan: Plan)
    ensures s.planner(userMessage).Ok? ==> plan == s.planner(userMessage).value
    ensures s.planner(userMessage).Err? ==>
              && plan.userIntent == Some(userMessage)
              && plan.subTasks == Some([FallbackTask])
  {
    match s.planner(userMessage)
    case Ok(p) => p
    case Err(_) => Plan(Some(userMessage), Some([FallbackTask]))
  }

  /** The user-role content the executor stage sends for a sub-task. */
  function ExecutorRequest(taskDescription: string): string
  {
    "子任务：" + taskDescription
  }

  /** `call_executor`: the model's decision, or on failure a decision to use no tool
      whose reason is the error text. */
  function CallExecutor(s: Services, taskDescription: string): (d: Decision)
    ensures s.executor(ExecutorRequest(taskDescription)).Ok? ==> d == s.executor(ExecutorRequest(taskDescription)).value
    ensures s.executor(ExecutorRequest(taskDescription)).Err? ==>
              d == Decision(false, None, Null, s.executor(ExecutorRequest(taskDescription)).error)
  {
    match s.executor(ExecutorRequest(taskDescription))
    case Ok(d) => d
    case Err(e) => Decision(false, None, Null, e)
  }

  /** `executor_result.get("tool_params", {})`: a missing key reads as `{}`, null stays None. */
  function ToolParamsOf(d: Decision): (p: Option<Tools.Params>)
    ensures d.toolParams.Absent? ==> p == Some(Tools.Params(None, None))
    ensures p.None? <==> d.toolParams.Null?
    ensures d.toolParams.Present? ==> p == Some(d.toolParams.value)
  {
    match d.toolParams
    case Absent => Some(Tools.Params(None, None))
    case Null => None
    case Present(p) => Some(p)
  }

  /** `call_reasoner`: the reasoning model's text; a failure is re-raised, not absorbed. */
  function CallReasoner(s: Services, message: string): Result<string>
  {
    s.reasoner(message)
  }

  /** The user-role content the verifier stage sends. */
  function VerifyPrompt(userQuestion: string, draftAnswer: string): string
  {
    "用户问题：" + userQuestion + "\n\nAI生成的回答：\n" + draftAnswer + "\n\n请校验并优化以上回答。"
  }

  /** `call_verify`: the polished answer, or the draft unchanged when the call fails. */
  function CallVerify(s: Services, userQuestion: string, draftAnswer: string): (answer: string)
    ensures s.verifier(VerifyPrompt(userQuestion, draftAnswer)).Err? ==> answer == draftAnswer
    ensures s.verifier(VerifyPrompt(userQuestion, draftAnswer)).Ok? ==>
              answer == s.verifier(VerifyPrompt(userQuestion, draftAnswer)).value
  {
    match s.verifier(VerifyPrompt(userQuestion, draftAnswer))
    case Ok(text) => text
    case Err(_) => draftAnswer
  }
}
