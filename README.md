# manus-clone backend core in Dafny

This project models the request pipeline of the manus-clone backend. A chat message is
planned into sub-tasks. The sub-tasks run in their listed order while progress events are
streamed to the client. Each sub-task is executed either by the web-search tool or by the
reasoning model. The result of the last sub-task becomes the draft answer. A verifier model
polishes the draft, and the polished text is streamed as the reply.

Files:

- `wrappers.dfy` — `Option` (Python's `None`, and a missing dictionary key) and `Result`
  (a value, or the message of a raised exception).
- `text.dfy` — the Python string behaviour the code relies on: `sep.join`, the substring
  test `in`, and `str` of an integer.
- `tools.dfy` (`backend/tools.py`) — the tool registry `TOOLS` and its lookups. It also
  holds `web_search` and `execute_tool`. The search provider is an oracle that returns
  records or raises.
- `stages.dfy` (`backend/main.py`, the `call_*` wrappers) — the four model stages. Each one
  is an oracle from the user-role content it is sent to the parsed reply or an error.
  Planner, executor and verifier apply their documented fallbacks. The reasoner passes its
  error on.
- `orchestrator.dfy` (`backend/main.py`, `process_chat_stream`) — the generator, written as
  a method with a loop. It yields `Event` values and records results in a `map<int, string>`.
  It is proved equal to the specification function `Stream`, which is built from the left
  fold `RunTasks`. The lemmas next to it state the event layout, how context is assembled,
  which prompt is chosen, how the results map is written, how the draft is selected, and
  how a stream ends after an exception.

The stage wrappers absorb their errors, but two errors of well-typed replies still end the
stream (the malformed replies and null values listed under "## Left out" can end it too):

- `call_reasoner` re-raises its exception (`backend/main.py:101-103`).
  `process_chat_stream` catches nothing, so a reasoner failure ends the stream. That
  happens after the failing task's `running` event, and no reply or done event follows.
- A successful executor reply holding `"need_tool": true`, `"tool_name": "web_search"` and
  `"tool_params": null` passes `None` to `execute_tool`. It then calls `.get` on `None`
  (`backend/tools.py:99-100`), which raises `AttributeError`, and the stream ends the same
  way. With any other tool name, `execute_tool` returns the unknown-tool text without
  reading the arguments (`backend/tools.py:122`). `call_executor`'s own fallback also sets
  `tool_params` to `None`, but it sets `need_tool` to false, so it never reaches the tool.

Both cases are modelled as `Outcome.Aborted` (`TaskResult` is `Err`).

## Model

| member | source | states |
|---|---|---|
| Text.JoinEmptyIff | backend/main.py:177 | joining non-empty parts gives "" exactly when there are no parts |
| Text.ContainsIff | backend/main.py:197 | `sub in s` holds exactly when `sub` occurs at some position of `s` |
| Text.NatToString | backend/tools.py:112 | `str(n)` is a non-empty string of decimal digits, "0" for zero and without a leading zero otherwise |
| Text.ParseNatToString | backend/tools.py:112 | the decimal text of `n` reads back as `n` |
| Text.IntToString | backend/main.py:176 | `str(dep_id)`: for a non-negative id, digits without a leading zero that read back as the id; for a negative id, a minus followed by such digits of its absolute value |
| Tools.GetToolByName | backend/tools.py:125-129 | `None` exactly when no tool has the name; otherwise the first tool in registry order with that name |
| Tools.GetAllToolNames | backend/tools.py:132-133 | one name per tool, in registry order |
| Tools.RegistryNames | backend/tools.py:31-54 | the registry lists exactly the name `web_search` |
| Tools.ParamDescriptions | backend/tools.py:141 | one `name: description` entry per parameter in declaration order; a missing description reads as "" |
| Tools.ToolDescriptions | backend/tools.py:137-142 | one description block per tool, in order |
| Tools.GetToolsDescription | backend/tools.py:136-143 | the loop's text equals the newline-join of the per-tool blocks |
| Tools.RegistryDescription | backend/tools.py:31-54 | the registry's description is the web-search block alone; its parameter line lists `query` then `max_results` with their descriptions |
| Tools.FormattedResults | backend/tools.py:80-86 | records map one for one and in order to `{title, url, content}`, from `title`, `href` and `body`, each missing key read as "" |
| Tools.SearchResponseOf | backend/tools.py:57-94 | success exactly when a library is installed and the provider does not raise; on failure the results are empty and the error is the not-installed text or the provider's message; on success the query is echoed and each record is formatted |
| Tools.WebSearch | backend/tools.py:57-94 | the loop builds exactly the response `SearchResponseOf` describes |
| Tools.Snippet | backend/tools.py:117 | content over 200 characters becomes its first 200 plus "..." (203 in all); shorter content is unchanged; never longer than 203 |
| Tools.HitLines | backend/tools.py:114-118 | three lines per result |
| Tools.HitLinesAt | backend/tools.py:114-118 | result `i` occupies lines `3i..3i+2`: its number `i+1` and title, its link, its truncated summary |
| Tools.RenderSearch | backend/tools.py:112-118 | the loop's lines are the header, the count line, then three lines per result in order |
| Tools.ExecuteTool | backend/tools.py:97-122 | the method returns exactly `ToolOutput`, including the exception for `tool_params = None` |
| Tools.UnknownToolOutput | backend/tools.py:122 | a name the registry does not list, or no name, gives `未知工具: <name>` and does not raise |
| Tools.RegisteredToolDispatched | backend/tools.py:99-120 | a registered name with arguments always gives search text, never the unknown-tool text |
| Tools.NullParamsRaise | backend/tools.py:100 | `tool_params = None` for the web search raises the AttributeError |
| Tools.DefaultParams | backend/tools.py:100-101 | missing arguments behave as `query = ""` and `max_results = 5` |
| Tools.FailedSearchOutput | backend/tools.py:105-106 | a failed search renders as `搜索失败: ` plus the library-missing text or the provider's message |
| Tools.EmptySearchOutput | backend/tools.py:108-109 | a successful search without records renders as the fixed "not found" text with the query |
| Tools.NonEmptySearchOutput | backend/tools.py:111-120 | the full layout over the provider's records: header, count (which reads back as the record count), then per record its number from 1, title, `href` and truncated `body` |
| Stages.CallPlanner | backend/main.py:39-59 | the model's plan, or on failure a plan with the message as intent and the single direct-answer task with id 1 and no dependencies |
| Stages.CallExecutor | backend/main.py:62-79 | the model's decision for `子任务：<task>`, or on failure no tool, null params and the error as reason |
| Stages.ToolParamsOf | backend/main.py:185 | `get("tool_params", {})`: a missing key reads as the empty arguments, null stays `None`, and a value is passed through |
| Stages.CallVerify | backend/main.py:106-138 | the verifier's text for the question-and-draft prompt, or the draft unchanged when the call fails |
| Orchestrator.TodoListOf | backend/main.py:153-156 | one pending entry per sub-task with its id and text, in order |
| Orchestrator.Ids | backend/main.py:163-164 | the task ids in order |
| Orchestrator.ContextParts | backend/main.py:173-176 | at most one part per dependency, none of them empty |
| Orchestrator.BuildContext | backend/main.py:173-177 | the loop's context equals `ContextOf`, the blank-line join of the labelled parts |
| Orchestrator.ContextEmptyIff | backend/main.py:173-177 | the context is empty exactly when no dependency has a recorded result |
| Orchestrator.ContextPartsEmptyIff | backend/main.py:173-176 | no parts exactly when no dependency is recorded |
| Orchestrator.ContextAllPresent | backend/main.py:173-176 | with every dependency recorded, one part per dependency, in `depends_on` order, labelling `【任务<id>结果】` and the result |
| Orchestrator.ContextPartsAppend | backend/main.py:174-176 | the parts of concatenated dependency lists are the concatenated parts |
| Orchestrator.ContextSkipsAbsent | backend/main.py:175 | removing an unrecorded dependency leaves the context unchanged |
| Orchestrator.ToolParamsAtDispatch | backend/main.py:183-188 | for a task that asks for a tool: `web_search` with null arguments raises, `web_search` without the key runs with `query = ""` and `max_results = 5`, and any other name gives the unknown-tool text |
| Orchestrator.ChoosePrompt | backend/main.py:195-200 | with context, the prompt starts with the collected-information header and contains the context and the task; without context, a direct-answer task sends the user's message unchanged, and any other task sends a prompt containing the task and the user's message |
| Orchestrator.ToolTaskSkipsReasoner | backend/main.py:183-188 | when a tool is needed, the task's result is exactly the tool's output, and any other reasoner gives the same result |
| Orchestrator.ReasonerPrompt | backend/main.py:190-202 | without a tool, the reasoner gets the context prompt when some dependency is recorded; otherwise the user's message for a direct-answer task, and otherwise the task-plus-question prompt |
| Orchestrator.RunTasksStep | backend/main.py:163-207 | one more task: a failure adds only `running` and aborts; a success adds `running`, `done` and records the result under the task's id |
| Orchestrator.AbortPersists | backend/main.py:163-207 | after an exception the remaining tasks are not run |
| Orchestrator.CompletedPrefix | backend/main.py:163-207 | every prefix of a completed loop completed |
| Orchestrator.CompletedRunShape | backend/main.py:163-208 | a completed loop yields exactly `running`, `done` per task in listed order, 2n events |
| Orchestrator.CompletedRunKeys | backend/main.py:204 | after a completed loop the recorded ids are exactly the tasks' ids |
| Orchestrator.LastWriteWins | backend/main.py:204 | the final result under an id is what the last task with that id produced |
| Orchestrator.UniqueIdsWrittenOnce | backend/main.py:204 | with unique ids, a task's id is unrecorded when it starts and holds its result at the end |
| Orchestrator.Draft | backend/main.py:211 | the sentinel `没有可执行的任务` without tasks; otherwise the result recorded under the last task's id, or `处理失败` when none is |
| Orchestrator.DraftIsLastTaskResult | backend/main.py:211 | the draft is the sentinel for no tasks and otherwise what the last listed task produced |
| Orchestrator.AbortedRunFailsAt | backend/main.py:163-207 | an aborted loop stopped at some task whose predecessors completed and which raised |
| Orchestrator.FailureAborts | backend/main.py:163-207 | a task that raises ends the loop: only its `running` follows the earlier events, nothing is recorded for it, and the outcome carries its error |
| Orchestrator.CompletedStreamShape | backend/main.py:141-220 | a completed stream has 2n+4 events: planning status, todo list, `running`/`done` per task in order, the reply with the verified draft, done |
| Orchestrator.AbortedStreamShape | backend/main.py:141-220 | a stream aborted at task k has 2k+3 events ending with that task's `running`, and has no reply and no done event |
| Orchestrator.ReasonerFailureEndsStream | backend/main.py:101-103 | a reasoner failure at task k ends the stream right after that task's `running`, with the reasoner's error |
| Orchestrator.VerifierFailureRepliesDraft | backend/main.py:135-138 | when verification fails, the reply event carries the draft unchanged |
| Orchestrator.NoSubTasksStream | backend/main.py:149-214 | a missing or empty `sub_tasks` streams the planning status, an empty todo list, the verified sentinel draft and done |
| Orchestrator.PlannerFailureStream | backend/main.py:54-59 | after a planner failure, the single direct-answer task gets the tool's output when the executor asks for a tool and otherwise the reasoner's reply to the message itself; the stream then has six events, or stops after task 1's `running` when that call raises |
| Orchestrator.ExecuteSubTask | backend/main.py:172-202 | the loop body's result equals `TaskResult`: context, executor decision, then tool or reasoner |
| Orchestrator.ProcessChatStream | backend/main.py:141-220 | the generator's events, results map and outcome equal `Stream`, the specification the lemmas above describe |

## Left out

- HTTP and FastAPI (`app`, `/chat/stream`, CORS, `StreamingResponse`), the
  `data: <json>\n\n` framing and `json.dumps` of events are outside the model. They are
  transport only; the model's events are the dictionaries before serialisation.
- `asyncio.sleep` between events: with time left out it has no effect.
- `print` logging and `call_reasoner`'s `log_input` flag, with `is_final_task`, which only
  controls logging.
- The system prompts (`get_planner_prompt` and the others) are not part of this model.
  They are constant, so each oracle takes only the user-role content.
- The model service and the search provider are oracles. They are functions, so the same
  input always gets the same reply, and the model does not capture two calls with one
  prompt returning different texts.
- JSON parsing of the model replies: the oracles return typed records. A few malformed
  replies raise in the source and are not modelled. A task without `id` or `task` raises
  `KeyError`. `depends_on: null` or `sub_tasks: null` raises `TypeError` when iterated. An
  unhashable `id` (a list or an object) raises `TypeError` when used as a dictionary key
  (`backend/main.py:204`), and so does an unhashable entry of `depends_on` in the test
  `dep_id in task_results` (`backend/main.py:175`). Each of these ends the stream.
  Missing `sub_tasks`, `depends_on`, `user_intent` and `tool_params` keys are modelled.
- Stages.SubTask: `id` is an integer. In the source, a string, float, boolean or null `id`
  runs without error. A string, a null or a non-integral float such as `1.5` never equals
  an integer entry of `depends_on` (`backend/main.py:175`), so the tasks that depend on it
  silently get no context from it. An integral float such as `1.0`, or `true`, equals and
  hashes like the integer (`1.0 == 1`, `True == 1`), so its dependents get the same context
  as in the model; only the `id` carried by its `todo_list` and `todo_update` events differs
  (`1.0`, `True`). The model cannot express such ids.
- Stages.Decision: `needTool` is the truthiness of the reply's `need_tool` value
  (`backend/main.py:183`), with a missing key reading as false. Any value is accepted; a
  truthy string such as `"false"` takes the tool path.
- The `DDGS` import fallback (`ddgs`, then `duckduckgo_search`), the proxy setting and
  the `DDGS(timeout=20)` construction are folded into `SearchLibrary`: either no library
  is installed, or a provider text search that returns records or raises.
- JSON null in fields read with `.get(key, default)` is not modelled as a distinct value.
  Four cases follow from this. A plan with `"user_intent": null` would put `None` in the
  todo-list event (`backend/main.py:157`), where the model puts "". A search record whose
  `body` is null would make `len` raise `TypeError` in `execute_tool`
  (`backend/tools.py:117`), outside `web_search`'s handler, and end the stream; the model
  reads such a record as an empty body. A null `title` or `href` would render as "None";
  the model renders "". A null `query` or `max_results` inside `tool_params`
  (`backend/tools.py:100-101`) would reach the provider as `None`, and a successful search
  would then echo "搜索关键词: None"; the model reads both as missing, giving "" and 5.
  Tools.RawRecord, Tools.Params and Orchestrator.Event.TodoList therefore cover only
  missing keys and non-null values.
- Tools.ParamSchema: the JSON-schema `type` tags of the tool and of `parameters` are not
  kept. The parameter's `type` is kept as `kind`.
- Tools.ToolOutput: the `'未知错误'` default of `result.get('error', ...)` is kept in the
  body, but no lemma states it, because a failed response always carries an error.
- Stages.CallReasoner has no contract of its own. It passes the oracle's reply or error
  through, and what that means for the stream is stated by
  `Orchestrator.ReasonerFailureEndsStream` and `Orchestrator.AbortedStreamShape`.
- String lengths are counted in Unicode scalar values (Dafny `char`), which agrees with
  Python's `len` on `str`.
