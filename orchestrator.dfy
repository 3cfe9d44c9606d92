/** The request orchestrator of `backend/main.py` (`process_chat_stream`): plan the
    request, run the sub-tasks in their listed order while streaming progress events,
    take the last task's result as the draft, verify it and emit the reply.

    The stream is a sequence of `Event` values; the results recorded so far are a map
    from task id to text. A reasoner or tool exception ends the stream early: the
    events already yielded stay, and the outcome carries the exception's message. */
module Orchestrator {
  import opened Wrappers
  import opened Text
  import Tools
  import opened Stages

  datatype TodoStatus = Pending | Running | Done

  /** One entry of the `todo_list` event. */
  datatype Todo = Todo(id: int, task: string, status: TodoStatus)

  /** A progress event; `StreamDone` is the final `{type: "done"}` event. */
  datatype Event =
    | Status(state: string, message: string)
    | TodoList(userIntent: string, todos: seq<Todo>)
    | TodoUpdate(id: int, status: TodoStatus)
    | Reply(content: string)
    | StreamDone

  datatype Outcome = Completed | Aborted(error: string)

  /** The events yielded, the results recorded and how the run ended. */
  datatype Run = Run(events: seq<Event>, results: map<int, string>, outcome: Outcome)

  const PlanningEvent := Status("planning", "正在规划任务...")
  const NoTaskDraft := "没有可执行的任务"
  const MissingResultDraft := "处理失败"
  const DirectAnswerMarker := "直接回答"

  /** `plan.get("sub_tasks", [])` */
  function SubTasksOf(plan: Plan): seq<SubTask>
  {
    plan.subTasks.GetOr([])
  }

  /** `task.get("depends_on", [])` */
  function DependsOn(t: SubTask): seq<int>
  {
    t.dependsOn.GetOr([])
  }

  /** The `todos` of the `todo_list` event: every task, in order, pending. */
  function TodoListOf(tasks: seq<SubTask>): (todos: seq<Todo>)
    ensures |todos| == |tasks|
    ensures forall i :: 0 <= i < |tasks| ==> todos[i] == Todo(tasks[i].id, tasks[i].task, Pending)
  {
    seq(|tasks|, i requires 0 <= i < |tasks| => Todo(tasks[i].id, tasks[i].task, Pending))
  }

  /** The ids of the tasks, in order. */
  function Ids(tasks: seq<SubTask>): (ids: seq<int>)
    ensures |ids| == |tasks|
    ensures forall i :: 0 <= i < |tasks| ==> ids[i] == tasks[i].id
    decreases |tasks|
  {
    if |tasks| == 0 then [] else Ids(tasks[..|tasks| - 1]) + [tasks[|tasks| - 1].id]
  }

  predicate UniqueIds(tasks: seq<SubTask>)
  {
    forall i, j :: 0 <= i < j < |tasks| ==> tasks[i].id != tasks[j].id
  }

  // ---------------------------------------------------------------- context

  /** The labelled result of dependency `d`. */
  function ContextLabel(d: int, result: string): string
  {
    "【任务" + IntToString(d) + "结果】\n" + result
  }

  /** One labelled part per dependency already recorded, in `depends_on` order. */
  function ContextParts(deps: seq<int>, results: map<int, string>): (parts: seq<string>)
    ensures |parts| <= |deps|
    ensures forall i :: 0 <= i < |parts| ==> parts[i] != ""
    decreases |deps|
  {
    if |deps| == 0 then []
    else
      var d := deps[|deps| - 1];
      ContextParts(deps[..|deps| - 1], results) + (if d in results then [ContextLabel(d, results[d])] else [])
  }

  /** The context a task is given: its parts separated by blank lines. */
  function ContextOf(deps: seq<int>, results: map<int, string>): string
  {
    Join("\n\n", ContextParts(deps, results))
  }

  /** Builds the context part by part, skipping dependencies with no recorded result. */
  method BuildContext(deps: seq<int>, results: map<int, string>) returns (context: string)
    ensures context == ContextOf(deps, results)
  {
    var contextParts: seq<string> := [];
    for i := 0 to |deps|
      invariant contextParts == ContextParts(deps[..i], results)
    {
      var depId := deps[i];
      if depId in results {
        contextParts := contextParts + ["【任务" + IntToString(depId) + "结果】\n" + results[depId]];
      }
      assert deps[..i + 1][..i] == deps[..i];
    }
    assert deps[..|deps|] == deps;
    context := Join("\n\n", contextParts);
  }

  lemma {:induction false} ContextPartsEmptyIff(deps: seq<int>, results: map<int, string>)
    ensures ContextParts(deps, results) == [] <==> forall i :: 0 <= i < |deps| ==> deps[i] !in results
    decreases |deps|
  {
    if |deps| > 0 {
      var init := deps[..|deps| - 1];
      var d := deps[|deps| - 1];
      ContextPartsEmptyIff(init, results);
      if d in results {
        assert |ContextParts(deps, results)| == |ContextParts(init, results)| + 1;
      } else {
        assert ContextParts(deps, results) == ContextParts(init, results);
        assert (forall i :: 0 <= i < |deps| ==> deps[i] !in results)
               <==> (forall i :: 0 <= i < |init| ==> init[i] !in results) by {
          assert forall i :: 0 <= i < |init| ==> init[i] == deps[i];
        }
      }
    }
  }

  /** The context is empty exactly when no dependency has a recorded result. */
  lemma ContextEmptyIff(deps: seq<int>, results: map<int, string>)
    ensures ContextOf(deps, results) == "" <==> forall i :: 0 <= i < |deps| ==> deps[i] !in results
  {
    ContextPartsEmptyIff(deps, results);
    JoinEmptyIff("\n\n", ContextParts(deps, results));
  }

  /** When every dependency is recorded, the context has one part per dependency,
      in `depends_on` order, each labelling that dependency's result. */
  lemma {:induction false} ContextAllPresent(deps: seq<int>, results: map<int, string>)
    requires forall i :: 0 <= i < |deps| ==> deps[i] in results
    ensures |ContextParts(deps, results)| == |deps|
    ensures forall i :: 0 <= i < |deps| ==> ContextParts(deps, results)[i] == ContextLabel(deps[i], results[deps[i]])
    decreases |deps|
  {
    if |deps| > 0 {
      var init := deps[..|deps| - 1];
      var d := deps[|deps| - 1];
      assert forall i :: 0 <= i < |init| ==> init[i] == deps[i];
      ContextAllPresent(init, results);
      var prefix := ContextParts(init, results);
      var parts := ContextParts(deps, results);
      assert parts == prefix + [ContextLabel(d, results[d])];
      forall i | 0 <= i < |deps|
        ensures parts[i] == ContextLabel(deps[i], results[deps[i]])
      {
        if i < |init| {
          assert parts[i] == prefix[i] == ContextLabel(init[i], results[init[i]]);
        } else {
          assert i == |prefix| && deps[i] == d;
          assert parts[i] == ContextLabel(d, results[d]);
        }
      }
    }
  }

  lemma {:induction false} ContextPartsAppend(a: seq<int>, b: seq<int>, results: map<int, string>)
    ensures ContextParts(a + b, results) == ContextParts(a, results) + ContextParts(b, results)
    decreases |b|
  {
    if |b| == 0 {
      assert a + b == a;
    } else {
      var binit := b[..|b| - 1];
      assert (a + b)[..|a + b| - 1] == a + binit;
      assert (a + b)[|a + b| - 1] == b[|b| - 1];
      ContextPartsAppend(a, binit, results);
    }
  }

  /** A dependency with no recorded result is skipped: removing it leaves the context unchanged. */
  lemma ContextSkipsAbsent(deps: seq<int>, results: map<int, string>, i: nat)
    requires i < |deps| && deps[i] !in results
    ensures ContextOf(deps[..i] + deps[i + 1..], results) == ContextOf(deps, results)
  {
    var before, x, after := deps[..i], [deps[i]], deps[i + 1..];
    assert deps == before + (x + after);
    ContextPartsAppend(before, x + after, results);
    ContextPartsAppend(x, after, results);
    ContextPartsAppend(before, after, results);
    assert x[..0] == [];
    assert ContextParts(x, results) == [];
    assert ContextParts(deps, results) == ContextParts(before, results) + ContextParts(after, results);
    assert deps[..i] + deps[i + 1..] == before + after;
  }

  // ---------------------------------------------------------------- one task

  /** The prompt for a task answered by the reasoner. */
  function ChoosePrompt(context: string, taskDescription: string, userMessage: string): (prompt: string)
    ensures context != "" ==>
              "已收集的信息：\n" <= prompt && Contains(prompt, context) && Contains(prompt, taskDescription)
    ensures context == "" && Contains(taskDescription, DirectAnswerMarker) ==> prompt == userMessage
    ensures context == "" && !Contains(taskDescription, DirectAnswerMarker) ==>
              Contains(prompt, taskDescription) && Contains(prompt, userMessage)
  {
    if context != "" then
      var head, tail := "已收集的信息：\n", "\n\n任务：" + taskDescription + "\n\n请根据以上信息完成任务。";
      var prompt := "已收集的信息：\n" + context + "\n\n任务：" + taskDescription + "\n\n请根据以上信息完成任务。";
      assert prompt == head + context + tail;
      ContainsInfix(head, context, tail);
      assert prompt == (head + context + "\n\n任务：") + taskDescription + "\n\n请根据以上信息完成任务。";
      ContainsInfix(head + context + "\n\n任务：", taskDescription, "\n\n请根据以上信息完成任务。");
      prompt
    else if Contains(taskDescription, DirectAnswerMarker) then userMessage
    else
      var prompt := "任务：" + taskDescription + "\n\n原始问题：" + userMessage;
      assert prompt == "任务：" + taskDescription + ("\n\n原始问题：" + userMessage);
      ContainsInfix("任务：", taskDescription, "\n\n原始问题：" + userMessage);
      assert prompt == ("任务：" + taskDescription + "\n\n原始问题：") + userMessage + "";
      ContainsInfix("任务：" + taskDescription + "\n\n原始问题：", userMessage, "");
      prompt
  }

  /** The result of one task given the results recorded before it: the tool's text
      when the executor asks for a tool, otherwise the reasoner's reply; `Err` when
      either raises. */
  function TaskResult(s: Services, userMessage: string, t: SubTask, results: map<int, string>): Result<string>
  {
    var context := ContextOf(DependsOn(t), results);
    var decision := CallExecutor(s, t.task);
    if decision.needTool then Tools.ToolOutput(decision.toolName, ToolParamsOf(decision), s.search)
    else CallReasoner(s, ChoosePrompt(context, t.task, userMessage))
  }

  /** A task that needs a tool gets exactly the tool's output, whatever the reasoner would say. */
  lemma ToolTaskSkipsReasoner(s: Services, userMessage: string, t: SubTask, results: map<int, string>,
                              other: string -> Result<string>)
    requires CallExecutor(s, t.task).needTool
    ensures TaskResult(s, userMessage, t, results)
         == Tools.ToolOutput(CallExecutor(s, t.task).toolName, ToolParamsOf(CallExecutor(s, t.task)), s.search)
    ensures TaskResult(s.(reasoner := other), userMessage, t, results) == TaskResult(s, userMessage, t, results)
  {
  }

  /** How a task that asks for a tool reads `tool_params`: for the web search a missing
      key means the default arguments and null raises; any other name gives the
      unknown-tool text whatever the arguments. */
  lemma ToolParamsAtDispatch(s: Services, userMessage: string, t: SubTask, results: map<int, string>)
    requires CallExecutor(s, t.task).needTool
    ensures var d := CallExecutor(s, t.task);
      d.toolName == Some(Tools.WebSearchName) && d.toolParams.Null? ==>
        TaskResult(s, userMessage, t, results) == Err(Tools.NoneGetError)
    ensures var d := CallExecutor(s, t.task);
      d.toolName == Some(Tools.WebSearchName) && d.toolParams.Absent? ==>
        TaskResult(s, userMessage, t, results)
        == Tools.ToolOutput(Some(Tools.WebSearchName), Some(Tools.Params(Some(""), Some(Tools.DefaultMaxResults))), s.search)
    ensures var d := CallExecutor(s, t.task);
      d.toolName != Some(Tools.WebSearchName) ==>
        TaskResult(s, userMessage, t, results) == Ok(Tools.UnknownToolPrefix + Tools.NameText(d.toolName))
  {
    Tools.DefaultParams(s.search);
  }

  /** The reasoner's prompt for a task that needs no tool: the context prompt when some
      dependency is recorded; otherwise the user's message itself for a direct-answer
      task, and the task-plus-question prompt for any other. */
  lemma ReasonerPrompt(s: Services, userMessage: string, t: SubTask, results: map<int, string>)
    requires !CallExecutor(s, t.task).needTool
    ensures var deps := DependsOn(t);
      && ((exists i :: 0 <= i < |deps| && deps[i] in results) ==>
            TaskResult(s, userMessage, t, results)
            == s.reasoner("已收集的信息：\n" + ContextOf(deps, results) + "\n\n任务：" + t.task + "\n\n请根据以上信息完成任务。"))
      && ((forall i :: 0 <= i < |deps| ==> deps[i] !in results) && Contains(t.task, DirectAnswerMarker) ==>
            TaskResult(s, userMessage, t, results) == s.reasoner(userMessage))
      && ((forall i :: 0 <= i < |deps| ==> deps[i] !in results) && !Contains(t.task, DirectAnswerMarker) ==>
            TaskResult(s, userMessage, t, results) == s.reasoner("任务：" + t.task + "\n\n原始问题：" + userMessage))
  {
    ContextEmptyIff(DependsOn(t), results);
  }

  // ---------------------------------------------------------------- the task loop

  /** The task loop over `tasks` in listed order, from no recorded results. */
  function RunTasks(s: Services, userMessage: string, tasks: seq<SubTask>): Run
    decreases |tasks|
  {
    if |tasks| == 0 then Run([], map[], Completed)
    else
      var prev := RunTasks(s, userMessage, tasks[..|tasks| - 1]);
      var t := tasks[|tasks| - 1];
      if prev.outcome.Aborted? then prev
      else
        match TaskResult(s, userMessage, t, prev.results)
        case Err(e) => Run(prev.events + [TodoUpdate(t.id, Running)], prev.results, Aborted(e))
        case Ok(r) => Run(prev.events + [TodoUpdate(t.id, Running), TodoUpdate(t.id, Done)], prev.results[t.id := r], Completed)
  }

  /** `task_results.get(sub_tasks[-1]["id"], "处理失败") if sub_tasks else "没有可执行的任务"` */
  function Draft(tasks: seq<SubTask>, results: map<int, string>): (draft: string)
    ensures |tasks| == 0 ==> draft == NoTaskDraft
    ensures |tasks| > 0 && tasks[|tasks| - 1].id in results ==> draft == results[tasks[|tasks| - 1].id]
    ensures |tasks| > 0 && tasks[|tasks| - 1].id !in results ==> draft == MissingResultDraft
  {
    if |tasks| == 0 then NoTaskDraft
    else if tasks[|tasks| - 1].id in results then results[tasks[|tasks| - 1].id]
    else MissingResultDraft
  }

  /** The whole stream of one request. */
  function Stream(s: Services, userMessage: string): Run
  {
    var plan := CallPlanner(s, userMessage);
    var tasks := SubTasksOf(plan);
    var head := [PlanningEvent, TodoList(plan.userIntent.GetOr(""), TodoListOf(tasks))];
    var run := RunTasks(s, userMessage, tasks);
    if run.outcome.Aborted? then Run(head + run.events, run.results, run.outcome)
    else Run(head + run.events + [Reply(CallVerify(s, userMessage, Draft(tasks, run.results))), StreamDone],
             run.results, Completed)
  }

  /** One more task: the loop over `tasks[..i + 1]` from the loop over `tasks[..i]`. */
  lemma RunTasksStep(s: Services, userMessage: string, tasks: seq<SubTask>, i: nat)
    requires i < |tasks|
    requires RunTasks(s, userMessage, tasks[..i]).outcome.Completed?
    ensures var prev := RunTasks(s, userMessage, tasks[..i]);
            var r := TaskResult(s, userMessage, tasks[i], prev.results);
      r.Err? ==> RunTasks(s, userMessage, tasks[..i + 1]) == Run(prev.events + [TodoUpdate(tasks[i].id, Running)], prev.results, Aborted(r.error))
    ensures var prev := RunTasks(s, userMessage, tasks[..i]);
            var r := TaskResult(s, userMessage, tasks[i], prev.results);
      r.Ok? ==> RunTasks(s, userMessage, tasks[..i + 1])
                == Run(prev.events + [TodoUpdate(tasks[i].id, Running), TodoUpdate(tasks[i].id, Done)],
                       prev.results[tasks[i].id := r.value], Completed)
  {
    assert tasks[..i + 1][..i] == tasks[..i];
    assert tasks[..i + 1][i] == tasks[i];
  }

  /** Once the loop has stopped on an exception, the later tasks change nothing. */
  lemma {:induction false} AbortPersists(s: Services, userMessage: string, tasks: seq<SubTask>, k: nat)
    requires k <= |tasks|
    requires RunTasks(s, userMessage, tasks[..k]).outcome.Aborted?
    ensures RunTasks(s, userMessage, tasks) == RunTasks(s, userMessage, tasks[..k])
    decreases |tasks|
  {
    if k == |tasks| {
      assert tasks[..k] == tasks;
    } else {
      var init := tasks[..|tasks| - 1];
      assert init[..k] == tasks[..k];
      AbortPersists(s, userMessage, init, k);
    }
  }

  /** Every prefix of a completed loop completed. */
  lemma {:induction false} CompletedPrefix(s: Services, userMessage: string, tasks: seq<SubTask>, k: nat)
    requires k <= |tasks|
    requires RunTasks(s, userMessage, tasks).outcome.Completed?
    ensures RunTasks(s, userMessage, tasks[..k]).outcome.Completed?
    decreases |tasks|
  {
    if k == |tasks| {
      assert tasks[..k] == tasks;
    } else {
      var init := tasks[..|tasks| - 1];
      assert init[..k] == tasks[..k];
      CompletedPrefix(s, userMessage, init, k);
    }
  }

  /** A completed loop yields, for each task in listed order, `running` and then `done`
      for that task's id, and nothing else. */
  lemma {:induction false} CompletedRunShape(s: Services, userMessage: string, tasks: seq<SubTask>)
    requires RunTasks(s, userMessage, tasks).outcome.Completed?
    ensures |RunTasks(s, userMessage, tasks).events| == 2 * |tasks|
    ensures forall k :: 0 <= k < |tasks| ==>
              && RunTasks(s, userMessage, tasks).events[2 * k] == TodoUpdate(tasks[k].id, Running)
              && RunTasks(s, userMessage, tasks).events[2 * k + 1] == TodoUpdate(tasks[k].id, Done)
    ensures forall m :: 0 <= m < |RunTasks(s, userMessage, tasks).events| ==> RunTasks(s, userMessage, tasks).events[m].TodoUpdate?
    decreases |tasks|
  {
    if |tasks| > 0 {
      var init := tasks[..|tasks| - 1];
      CompletedRunShape(s, userMessage, init);
      assert forall k :: 0 <= k < |init| ==> init[k] == tasks[k];
    }
  }

  /** A completed loop has recorded a result for exactly the ids of its tasks. */
  lemma {:induction false} CompletedRunKeys(s: Services, userMessage: string, tasks: seq<SubTask>)
    requires RunTasks(s, userMessage, tasks).outcome.Completed?
    ensures forall id :: id in RunTasks(s, userMessage, tasks).results <==> id in Ids(tasks)
    decreases |tasks|
  {
    if |tasks| > 0 {
      CompletedRunKeys(s, userMessage, tasks[..|tasks| - 1]);
    }
  }

  /** The final result for a task's id is what that task produced, provided no later task
      reuses the id (a later task with the same id overwrites it). */
  lemma {:induction false} LastWriteWins(s: Services, userMessage: string, tasks: seq<SubTask>, k: nat)
    requires RunTasks(s, userMessage, tasks).outcome.Completed?
    requires k < |tasks|
    requires forall j :: k < j < |tasks| ==> tasks[j].id != tasks[k].id
    ensures tasks[k].id in RunTasks(s, userMessage, tasks).results
    ensures TaskResult(s, userMessage, tasks[k], RunTasks(s, userMessage, tasks[..k]).results)
         == Ok(RunTasks(s, userMessage, tasks).results[tasks[k].id])
    decreases |tasks|
  {
    var init := tasks[..|tasks| - 1];
    if k < |tasks| - 1 {
      assert init[..k] == tasks[..k];
      assert init[k] == tasks[k];
      assert forall j :: k < j < |init| ==> init[j] == tasks[j];
      LastWriteWins(s, userMessage, init, k);
    }
  }

  /** With unique ids each result is written once: a task's id is not yet recorded when
      it starts, and the final map holds what it produced. */
  lemma UniqueIdsWrittenOnce(s: Services, userMessage: string, tasks: seq<SubTask>, k: nat)
    requires RunTasks(s, userMessage, tasks).outcome.Completed?
    requires UniqueIds(tasks)
    requires k < |tasks|
    ensures tasks[k].id !in RunTasks(s, userMessage, tasks[..k]).results
    ensures tasks[k].id in RunTasks(s, userMessage, tasks).results
    ensures TaskResult(s, userMessage, tasks[k], RunTasks(s, userMessage, tasks[..k]).results)
         == Ok(RunTasks(s, userMessage, tasks).results[tasks[k].id])
  {
    LastWriteWins(s, userMessage, tasks, k);
    CompletedPrefix(s, userMessage, tasks, k);
    CompletedRunKeys(s, userMessage, tasks[..k]);
    assert forall j :: 0 <= j < k ==> Ids(tasks[..k])[j] == tasks[j].id;
  }

  /** The draft of a completed loop: the sentinel when there are no tasks, otherwise the
      result the last listed task produced (never the missing-result text). */
  lemma DraftIsLastTaskResult(s: Services, userMessage: string, tasks: seq<SubTask>)
    requires RunTasks(s, userMessage, tasks).outcome.Completed?
    ensures |tasks| == 0 ==> Draft(tasks, RunTasks(s, userMessage, tasks).results) == NoTaskDraft
    ensures |tasks| > 0 ==>
              TaskResult(s, userMessage, tasks[|tasks| - 1], RunTasks(s, userMessage, tasks[..|tasks| - 1]).results)
              == Ok(Draft(tasks, RunTasks(s, userMessage, tasks).results))
  {
    if |tasks| > 0 {
      LastWriteWins(s, userMessage, tasks, |tasks| - 1);
    }
  }

  /** The loop stops at task `k`: the tasks before it completed and task `k` raised. */
  ghost predicate FailsAt(s: Services, userMessage: string, tasks: seq<SubTask>, k: int)
  {
    && 0 <= k < |tasks|
    && RunTasks(s, userMessage, tasks[..k]).outcome.Completed?
    && TaskResult(s, userMessage, tasks[k], RunTasks(s, userMessage, tasks[..k]).results).Err?
  }

  /** A loop that stopped early stopped at some task. */
  lemma {:induction false} AbortedRunFailsAt(s: Services, userMessage: string, tasks: seq<SubTask>)
    requires RunTasks(s, userMessage, tasks).outcome.Aborted?
    ensures exists k :: FailsAt(s, userMessage, tasks, k)
    decreases |tasks|
  {
    var init := tasks[..|tasks| - 1];
    if RunTasks(s, userMessage, init).outcome.Aborted? {
      AbortedRunFailsAt(s, userMessage, init);
      var k :| FailsAt(s, userMessage, init, k);
      assert init[..k] == tasks[..k];
      assert init[k] == tasks[k];
      assert FailsAt(s, userMessage, tasks, k);
    } else {
      assert tasks[..|tasks| - 1] == init;
      assert FailsAt(s, userMessage, tasks, |tasks| - 1);
    }
  }

  /** A task that raises ends the loop: after the earlier tasks' events only its `running`
      event is yielded, no result is recorded for it, and the outcome carries its error. */
  lemma FailureAborts(s: Services, userMessage: string, tasks: seq<SubTask>, k: nat)
    requires FailsAt(s, userMessage, tasks, k)
    ensures var run := RunTasks(s, userMessage, tasks);
            var prev := RunTasks(s, userMessage, tasks[..k]);
      && run.outcome == Aborted(TaskResult(s, userMessage, tasks[k], prev.results).error)
      && run.events == prev.events + [TodoUpdate(tasks[k].id, Running)]
      && run.results == prev.results
  {
    assert tasks[..k + 1][..k] == tasks[..k];
    assert tasks[..k + 1][k] == tasks[k];
    AbortPersists(s, userMessage, tasks, k + 1);
  }

  // ---------------------------------------------------------------- the stream

  /** A completed stream has 2n + 4 events for n sub-tasks: the planning status, the
      todo list, `running` then `done` per task in listed order, the reply holding the
      verified draft, and the final done event. */
  lemma CompletedStreamShape(s: Services, userMessage: string)
    requires Stream(s, userMessage).outcome.Completed?
    ensures var plan := CallPlanner(s, userMessage);
            var events := Stream(s, userMessage).events;
      && |events| == 2 * |SubTasksOf(plan)| + 4
      && events[0] == PlanningEvent
      && events[1] == TodoList(plan.userIntent.GetOr(""), TodoListOf(SubTasksOf(plan)))
    ensures var tasks := SubTasksOf(CallPlanner(s, userMessage));
            var events := Stream(s, userMessage).events;
      forall k :: 0 <= k < |tasks| ==>
        events[2 * k + 2] == TodoUpdate(tasks[k].id, Running) && events[2 * k + 3] == TodoUpdate(tasks[k].id, Done)
    ensures var tasks := SubTasksOf(CallPlanner(s, userMessage));
            var events := Stream(s, userMessage).events;
      && events[2 * |tasks| + 2] == Reply(CallVerify(s, userMessage, Draft(tasks, Stream(s, userMessage).results)))
      && events[2 * |tasks| + 3] == StreamDone
  {
    var plan := CallPlanner(s, userMessage);
    var tasks := SubTasksOf(plan);
    var run := RunTasks(s, userMessage, tasks);
    var head := [PlanningEvent, TodoList(plan.userIntent.GetOr(""), TodoListOf(tasks))];
    var tail := [Reply(CallVerify(s, userMessage, Draft(tasks, run.results))), StreamDone];
    var events := Stream(s, userMessage).events;
    assert run.outcome.Completed?;
    assert events == head + run.events + tail;
    CompletedRunShape(s, userMessage, tasks);
    FramedProgress(head, tasks, run.events, tail);
  }

  /** The progress events of a completed loop, between two head events and the tail. */
  lemma FramedProgress(head: seq<Event>, tasks: seq<SubTask>, updates: seq<Event>, tail: seq<Event>)
    requires |head| == 2 && |tail| == 2 && |updates| == 2 * |tasks|
    requires forall k :: 0 <= k < |tasks| ==>
               updates[2 * k] == TodoUpdate(tasks[k].id, Running) && updates[2 * k + 1] == TodoUpdate(tasks[k].id, Done)
    ensures var events := head + updates + tail;
      && |events| == 2 * |tasks| + 4
      && events[0] == head[0] && events[1] == head[1]
      && events[2 * |tasks| + 2] == tail[0] && events[2 * |tasks| + 3] == tail[1]
    ensures var events := head + updates + tail;
      forall k :: 0 <= k < |tasks| ==>
        events[2 * k + 2] == TodoUpdate(tasks[k].id, Running) && events[2 * k + 3] == TodoUpdate(tasks[k].id, Done)
  {
    var body := head + updates;
    var events := body + tail;
    forall k | 0 <= k < |tasks|
      ensures events[2 * k + 2] == TodoUpdate(tasks[k].id, Running) && events[2 * k + 3] == TodoUpdate(tasks[k].id, Done)
    {
      assert events[2 * k + 2] == body[2 * k + 2] == updates[2 * k];
      assert events[2 * k + 3] == body[2 * k + 3] == updates[2 * k + 1];
    }
  }

  /** A stream ended by an exception at task k has 2k + 3 events, the last being that
      task's `running`; it has no reply and no done event. */
  lemma AbortedStreamShape(s: Services, userMessage: string)
    requires Stream(s, userMessage).outcome.Aborted?
    ensures var tasks := SubTasksOf(CallPlanner(s, userMessage));
            var events := Stream(s, userMessage).events;
      exists k :: FailsAt(s, userMessage, tasks, k) && |events| == 2 * k + 3
                  && events[2 * k + 2] == TodoUpdate(tasks[k].id, Running)
    ensures forall i :: 0 <= i < |Stream(s, userMessage).events| ==>
              !Stream(s, userMessage).events[i].Reply? && !Stream(s, userMessage).events[i].StreamDone?
  {
    var plan := CallPlanner(s, userMessage);
    var tasks := SubTasksOf(plan);
    var run := RunTasks(s, userMessage, tasks);
    var head := [PlanningEvent, TodoList(plan.userIntent.GetOr(""), TodoListOf(tasks))];
    var events := Stream(s, userMessage).events;
    assert run.outcome.Aborted?;
    assert events == head + run.events;
    AbortedRunFailsAt(s, userMessage, tasks);
    var k :| FailsAt(s, userMessage, tasks, k);
    FailureAborts(s, userMessage, tasks, k);
    var prev := RunTasks(s, userMessage, tasks[..k]);
    CompletedRunShape(s, userMessage, tasks[..k]);
    var tail := prev.events + [TodoUpdate(tasks[k].id, Running)];
    assert events == head + tail;
    assert |events| == 2 * k + 3;
    assert events[2 * k + 2] == tail[2 * k];
    forall i | 0 <= i < |events|
      ensures !events[i].Reply? && !events[i].StreamDone?
    {
      if 2 <= i {
        assert events[i] == tail[i - 2];
        if i < 2 * k + 2 {
          assert tail[i - 2] == prev.events[i - 2];
        }
      }
    }
  }

  /** A reasoner failure on task k is not absorbed: the stream ends right after that
      task's `running` event, with the reasoner's error. */
  lemma ReasonerFailureEndsStream(s: Services, userMessage: string, k: nat)
    requires var tasks := SubTasksOf(CallPlanner(s, userMessage));
      && k < |tasks|
      && RunTasks(s, userMessage, tasks[..k]).outcome.Completed?
      && !CallExecutor(s, tasks[k].task).needTool
      && s.reasoner(ChoosePrompt(ContextOf(DependsOn(tasks[k]), RunTasks(s, userMessage, tasks[..k]).results),
                                 tasks[k].task, userMessage)).Err?
    ensures var plan := CallPlanner(s, userMessage);
            var tasks := SubTasksOf(plan);
            var prev := RunTasks(s, userMessage, tasks[..k]);
      && Stream(s, userMessage).outcome
         == Aborted(s.reasoner(ChoosePrompt(ContextOf(DependsOn(tasks[k]), prev.results), tasks[k].task, userMessage)).error)
      && Stream(s, userMessage).events
         == [PlanningEvent, TodoList(plan.userIntent.GetOr(""), TodoListOf(tasks))] + prev.events
            + [TodoUpdate(tasks[k].id, Running)]
  {
    var tasks := SubTasksOf(CallPlanner(s, userMessage));
    FailureAborts(s, userMessage, tasks, k);
  }

  /** When verification fails, the reply is the draft unchanged. */
  lemma VerifierFailureRepliesDraft(s: Services, userMessage: string)
    requires Stream(s, userMessage).outcome.Completed?
    requires s.verifier(VerifyPrompt(userMessage,
               Draft(SubTasksOf(CallPlanner(s, userMessage)), Stream(s, userMessage).results))).Err?
    ensures |Stream(s, userMessage).events| >= 2
    ensures Stream(s, userMessage).events[|Stream(s, userMessage).events| - 2]
         == Reply(Draft(SubTasksOf(CallPlanner(s, userMessage)), Stream(s, userMessage).results))
  {
    CompletedStreamShape(s, userMessage);
  }

  /** A plan without sub-tasks, whether `sub_tasks` is missing or empty, streams the
      planning status, an empty todo list, the verified sentinel draft and done. */
  lemma NoSubTasksStream(s: Services, userMessage: string)
    requires CallPlanner(s, userMessage).subTasks == None || CallPlanner(s, userMessage).subTasks == Some([])
    ensures Stream(s, userMessage)
         == Run([PlanningEvent, TodoList(CallPlanner(s, userMessage).userIntent.GetOr(""), []),
                 Reply(CallVerify(s, userMessage, NoTaskDraft)), StreamDone],
                map[], Completed)
  {
    assert SubTasksOf(CallPlanner(s, userMessage)) == [];
  }

  /** When planning fails the fallback plan runs its single direct-answer task: the task
      gets the tool's output when the executor asks for a tool and otherwise the reasoner's
      reply to the user's message itself; the stream then completes with six events, or
      stops after the task's `running` when that call raises. */
  lemma PlannerFailureStream(s: Services, userMessage: string)
    requires s.planner(userMessage).Err?
    ensures var d := CallExecutor(s, DirectAnswerTask);
      d.needTool ==> TaskResult(s, userMessage, FallbackTask, map[])
                     == Tools.ToolOutput(d.toolName, ToolParamsOf(d), s.search)
    ensures !CallExecutor(s, DirectAnswerTask).needTool ==>
              TaskResult(s, userMessage, FallbackTask, map[]) == s.reasoner(userMessage)
    ensures var r := TaskResult(s, userMessage, FallbackTask, map[]);
      r.Ok? ==>
        Stream(s, userMessage)
        == Run([PlanningEvent, TodoList(userMessage, [Todo(1, DirectAnswerTask, Pending)]),
                TodoUpdate(1, Running), TodoUpdate(1, Done),
                Reply(CallVerify(s, userMessage, r.value)), StreamDone],
               map[1 := r.value], Completed)
    ensures var r := TaskResult(s, userMessage, FallbackTask, map[]);
      r.Err? ==>
        Stream(s, userMessage)
        == Run([PlanningEvent, TodoList(userMessage, [Todo(1, DirectAnswerTask, Pending)]),
                TodoUpdate(1, Running)],
               map[], Aborted(r.error))
  {
    var t := FallbackTask;
    var tasks := [t];
    var plan := CallPlanner(s, userMessage);
    assert SubTasksOf(plan) == tasks;
    assert plan.userIntent.GetOr("") == userMessage;
    assert tasks[..0] == [];
    assert RunTasks(s, userMessage, tasks[..0]) == Run([], map[], Completed);
    assert ContextOf(DependsOn(t), map[]) == "";
    assert DirectAnswerMarker <= DirectAnswerTask;
    assert Contains(DirectAnswerTask, DirectAnswerMarker);
    var r := TaskResult(s, userMessage, t, map[]);
    var todos := TodoListOf(tasks);
    assert todos == [Todo(1, DirectAnswerTask, Pending)];
    var run := RunTasks(s, userMessage, tasks);
    if r.Ok? {
      assert run == Run([TodoUpdate(1, Running), TodoUpdate(1, Done)], map[1 := r.value], Completed);
      assert Draft(tasks, run.results) == r.value;
    } else {
      assert run == Run([TodoUpdate(1, Running)], map[], Aborted(r.error));
    }
  }

  // ---------------------------------------------------------------- the generator

  /** The events that precede the task loop. */
  function Head(plan: Plan): seq<Event>
  {
    [PlanningEvent, TodoList(plan.userIntent.GetOr(""), TodoListOf(SubTasksOf(plan)))]
  }

  /** The stream in terms of the task loop's run. */
  lemma StreamOfRun(s: Services, userMessage: string)
    ensures var plan := CallPlanner(s, userMessage);
            var run := RunTasks(s, userMessage, SubTasksOf(plan));
      run.outcome.Aborted? ==> Stream(s, userMessage) == Run(Head(plan) + run.events, run.results, run.outcome)
    ensures var plan := CallPlanner(s, userMessage);
            var run := RunTasks(s, userMessage, SubTasksOf(plan));
      run.outcome.Completed? ==>
        Stream(s, userMessage)
        == Run(Head(plan) + run.events
               + [Reply(CallVerify(s, userMessage, Draft(SubTasksOf(plan), run.results))), StreamDone],
               run.results, Completed)
  {
  }

  /** The body of the task loop between the two progress events: gather the context,
      ask the executor, then run the tool or the reasoner. */
  method ExecuteSubTask(s: Services, userMessage: string, task: SubTask, taskResults: map<int, string>)
    returns (result: Result<string>)
    ensures result == TaskResult(s, userMessage, task, taskResults)
  {
    var context := BuildContext(task.dependsOn.GetOr([]), taskResults);
    var executorResult := CallExecutor(s, task.task);
    if executorResult.needTool {
      result := Tools.ExecuteTool(executorResult.toolName, ToolParamsOf(executorResult), s.search);
    } else {
      var prompt := ChoosePrompt(context, task.task, userMessage);
      result := CallReasoner(s, prompt);
    }
  }

  /** The progress events of one task, appended after the events so far. */
  lemma EventsStep(head: seq<Event>, prev: seq<Event>, running: Event, done: Event)
    ensures head + prev + [running] == head + (prev + [running])
    ensures head + prev + [running] + [done] == head + (prev + [running, done])
  {
    assert head + prev + [running] + [done] == head + prev + [running, done];
  }

  /** `process_chat_stream`: yields the events one by one while recording results. */
  method ProcessChatStream(s: Services, userMessage: string)
    returns (events: seq<Event>, taskResults: map<int, string>, outcome: Outcome)
    ensures Run(events, taskResults, outcome) == Stream(s, userMessage)
  {
    events := [PlanningEvent];
    var plan := CallPlanner(s, userMessage);
    var subTasks := plan.subTasks.GetOr([]);
    assert subTasks == SubTasksOf(plan);
    events := events + [TodoList(plan.userIntent.GetOr(""), TodoListOf(subTasks))];
    ghost var head := events;
    assert head == Head(plan);
    taskResults := map[];
    for i := 0 to |subTasks|
      invariant RunTasks(s, userMessage, subTasks[..i]).outcome.Completed?
      invariant events == head + RunTasks(s, userMessage, subTasks[..i]).events
      invariant taskResults == RunTasks(s, userMessage, subTasks[..i]).results
    {
      var task := subTasks[i];
      ghost var prev := RunTasks(s, userMessage, subTasks[..i]);
      RunTasksStep(s, userMessage, subTasks, i);
      EventsStep(head, prev.events, TodoUpdate(task.id, Running), TodoUpdate(task.id, Done));
      events := events + [TodoUpdate(task.id, Running)];
      var result := ExecuteSubTask(s, userMessage, task, taskResults);
      if result.Err? {
        outcome := Aborted(result.error);
        assert RunTasks(s, userMessage, subTasks[..i + 1])
               == Run(prev.events + [TodoUpdate(task.id, Running)], prev.results, outcome);
        AbortPersists(s, userMessage, subTasks, i + 1);
        StreamOfRun(s, userMessage);
        return;
      }
      taskResults := taskResults[task.id := result.value];
      events := events + [TodoUpdate(task.id, Done)];
    }
    assert subTasks[..|subTasks|] == subTasks;
    var draftReply := if |subTasks| == 0 then NoTaskDraft
                      else if subTasks[|subTasks| - 1].id in taskResults then taskResults[subTasks[|subTasks| - 1].id]
                      else MissingResultDraft;
    assert draftReply == Draft(subTasks, taskResults);
    var finalReply := CallVerify(s, userMessage, draftReply);
    events := events + [Reply(finalReply)];
    events := events + [StreamDone];
    outcome := Completed;
    ghost var run := RunTasks(s, userMessage, subTasks);
    assert events == head + run.events + [Reply(CallVerify(s, userMessage, Draft(subTasks, run.results))), StreamDone];
    StreamOfRun(s, userMessage);
  }
}
