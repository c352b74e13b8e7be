# scouter agent runtime, modelled in Dafny

This project models the agent runtime of scouter. That is the part of the
repository that runs a language-model agent and keeps a record of the run:

- **Steps and flows.** The three kinds of step an agent run records (model
  input, model answer, tool batch) and the chat messages each contributes.
  A `Flow` groups steps and moves through pending, running, completed and
  failed. A dictionary-based twin of the flow helpers is modelled too.
- **Memory.** The full-history memory turns a run's flows into the next
  model context.
- **Run aggregates.** On an `AgentRun` and on the newer `Runtime`: total
  token usage, the last output and the list of tool executions. Also the
  default continuation condition.
- **The run loop.** `run_flow` and `run_agent`: ask the model, record its
  answer, run the tools it requests as one batch, and ask again while the
  condition holds. How each tool call is recorded is a mode of the loop:
  `AsWritten` follows the code, which records every executed call as
  failed (see Findings), and `Intended` records the tool's output. Every
  property proved about the loop holds in both modes.
- **Tools and instructions.** The typed tool registry and its execution
  contract, and instruction normalisation.
- **Retries.** Both versions of the bounded retry loop with exponential
  backoff.
- **The legacy agent.** The older functional agent and its dictionary tool
  registry.
- **Persistence.** How steps are stored and read back: a class-name tag plus
  a JSON payload per step, and the grouping of stored steps back into flows.
- **Permissions.** Role-based checks: `*`, exact names and shell-style
  patterns, with the any-of and all-of combinators.
- **Ingest requests.** The document-ingest request validator.

What lies outside the process is a parameter:

- The model provider is a sequence of completions, or a function from
  messages to a reply.
- Tool handlers are function values.
- Decoding of tool-argument JSON is a `parse` function.
- Clock readings and uuids are arguments.
- The retry jitter is a function of the attempt number.
- pydantic's dump and load and JSON's text layer are the hooks of a
  `JsonLib` value.

Objects the source updates in place are classes: `Flow`, `State`,
`AgentRun`, `Runtime`, the tool registries and the legacy agent's message
list. Their methods are proved against functions over value snapshots
(`FlowRecord`). Loops in the source are loops here, with their invariants.

Modules, one per source file:

- `Wrappers`: Option, Result and the error kinds.
- `Messages`: `messages.py`.
- `LlmState`: `state.py`.
- `FlowDicts`: `flow.py`.
- `Memory`: `memory.py`.
- `Agent`: the `AgentRun` part of `agent.py`.
- `AgentLoop`: `run_flow` and `run_agent`.
- `AgentRuntime`: `agent_runtime.py`.
- `Tools`: `llmcore/tools.py`.
- `Retry`: both `utils.py`.
- `LegacyTools`: `llm/tools.py`.
- `LegacyAgent`: `llm/agent.py`.
- `StepCodec`: `db/models.py`.
- `Rbac`: `auth/rbac.py`.
- `DomainModels`: `shared/domain_models.py`.

Three places where the code and the evident intent part are modelled both
ways; see "## Findings".

A few places where the source's own imports and definitions disagree:

- `agent.py` and `db/models.py` import the step classes from `flow.py`,
  which defines only dictionary helpers. The model uses the classes of
  `state.py`.
- `InvalidRunStateError` and `MaxRetriesExceededError` are raised but not
  defined in `exceptions.py`. They are error kinds of `Wrappers.Error`.

## Model

| member | source | states |
|---|---|---|
| LlmState.Step.Messages | src/scouter/llmcore/state.py:21-38 | An InputStep's messages are its input. An LLMStep gives exactly one assistant message: the first choice's message for a chat completion, the JSON dump as content for a structured output. A ToolStep gives one message per call, in call order. |
| LlmState.CallMessages | src/scouter/llmcore/state.py:51-55 | One tool message per call, in order. Each has the call's output as content and the call's id. |
| LlmState.NewFlow | src/scouter/llmcore/state.py:70-77 | A new flow is pending, with no steps and empty metadata, and keeps the given id, agent id and parent. |
| LlmState.Transitioned | src/scouter/llmcore/state.py:83-94 | Each mark sets its status and its stamp. `mark_failed` sets `error` and then `end_time`. Steps, id, agent id and parent are never touched. |
| LlmState.LastTransitionWins | src/scouter/llmcore/state.py:83-94 | Marks are unguarded: after any sequence of marks the status is the last mark's, and the steps and identity are unchanged. |
| LlmState.TransitionsKeepKeys | src/scouter/llmcore/state.py:83-94 | Metadata keys are only added: a later mark keeps `start_time`. |
| LlmState.Flow.constructor | src/scouter/llmcore/state.py:70-77 | The new object's record is `NewFlow` of its arguments. |
| LlmState.Flow.AddStep | src/scouter/llmcore/state.py:79-81 | Appends the step at the end. Earlier steps and every other field stay. |
| LlmState.Flow.MarkRunning | src/scouter/llmcore/state.py:83-85 | The record becomes the running transition of the old record. |
| LlmState.Flow.MarkCompleted | src/scouter/llmcore/state.py:87-89 | The record becomes the completed transition of the old record. |
| LlmState.Flow.MarkFailed | src/scouter/llmcore/state.py:91-94 | The record becomes the failed transition of the old record, with the error text. |
| LlmState.State.constructor | src/scouter/llmcore/state.py:97-100 | A state has the given id and no flows. |
| LlmState.AllStepsAppend | src/scouter/llmcore/agent.py:129 | The flattened step list of two flow lists is the two flattenings in a row. |
| FlowDicts.CreateFlow | src/scouter/llmcore/flow.py:9-20 | A fresh pending flow with no steps, no metadata and the given id, agent id and parent. |
| FlowDicts.AddStepToFlow | src/scouter/llmcore/flow.py:23-25 | Exactly one step is appended at the end. |
| FlowDicts.MarkFlowRunning | src/scouter/llmcore/flow.py:28-30 | Status running plus `start_time`; steps and identity unchanged. |
| FlowDicts.MarkFlowCompleted | src/scouter/llmcore/flow.py:33-35 | Status completed plus `end_time`; an earlier `start_time` is kept. |
| FlowDicts.MarkFlowFailed | src/scouter/llmcore/flow.py:38-41 | Status failed, the given error text recorded, plus `end_time`. |
| FlowDicts.RunningThenCompleted | src/scouter/llmcore/flow.py:28-35 | Create, mark running, mark completed: the flow is completed and holds both stamps. |
| Messages.Instruction | src/scouter/llmcore/messages.py:6-15 | A system message is present iff the system prompt is non-empty, and a user message iff the user prompt is. The system message comes first. The length is the number of non-empty prompts, at most 2. |
| Messages.CreateInstruction | src/scouter/llmcore/messages.py:10-15 | The two conditional appends build exactly `Instruction`. |
| Memory.StepsMessagesAppend | src/scouter/llmcore/memory.py:15-17 | The messages of two step lists in a row are their message lists in a row. |
| Memory.History | src/scouter/llmcore/memory.py:12-18 | The reference definition of the full-history context: each flow's step messages after the earlier flows'. Its properties are the lemmas below. |
| Memory.HistoryIsAllStepsMessages | src/scouter/llmcore/memory.py:12-18 | The context is every step's messages, flows in order and steps in order. |
| Memory.HistoryLength | src/scouter/llmcore/memory.py:15-17 | The context's length is the sum of the per-step message counts. |
| Memory.EmptyFlowsGiveEmptyHistory | src/scouter/llmcore/memory.py:12-18 | No flows, or only empty flows, give an empty context. |
| Memory.AddStepExtendsHistory | src/scouter/llmcore/memory.py:15-17 | A step added to the last flow extends the context by exactly its messages. The old context is a prefix. |
| Memory.AddFlowExtendsHistory | src/scouter/llmcore/memory.py:14-17 | A flow added to the run extends the context by its steps' messages. |
| Memory.FullHistoryMemory | src/scouter/llmcore/memory.py:12-18 | The nested loop computes `History` of the flows' records and changes nothing. Two calls on one state therefore agree. |
| Memory.ExtendWithSteps | src/scouter/llmcore/memory.py:16-17 | The inner loop appends the steps' messages to the accumulator. |
| Agent.UsageSumAppend | src/scouter/llmcore/agent.py:79-85 | Usage sums distribute over concatenation of step lists. |
| Agent.OtherStepsAddNothing | src/scouter/llmcore/agent.py:81 | Steps that are not chat completions with usage add nothing. |
| Agent.ChatUsageCounted | src/scouter/llmcore/agent.py:81-85 | A chat completion with usage adds each of its three counters, a missing counter as 0. |
| Agent.StructuredFlowSpoilsRun | src/scouter/llmcore/agent.py:79-82 | A structured-output step in any flow makes the whole run structured. |
| Agent.RunUsage | src/scouter/llmcore/agent.py:74-86 | The run's usage is an error (AttributeError) iff some step holds a structured output. Otherwise it is the sum of the counters of all chat completions. |
| Agent.AgentRun.TotalUsage | src/scouter/llmcore/agent.py:74-86 | The nested loop returns `RunUsage` of the run's flows. |
| Agent.AddFlowUsage | src/scouter/llmcore/agent.py:80-85 | The inner loop fails iff the flow has a structured step. Otherwise it adds the flow's counters to the running total. |
| Agent.ToolSteps | src/scouter/llmcore/agent.py:110 | The ToolSteps among the steps: exactly those, and no more of them than there are steps. |
| Agent.ToolStepsAppend | src/scouter/llmcore/agent.py:108-111 | Filtering distributes over concatenation, which keeps order. |
| Agent.ToolExecutionsAddFlow | src/scouter/llmcore/agent.py:105-112 | A flow added to the run adds exactly its own ToolSteps, after the earlier ones. |
| Agent.ToolExecutions | src/scouter/llmcore/agent.py:105-112 | The reference definition of `tool_executions`: the ToolSteps of all flows' steps, in order. |
| Agent.AgentRun.ToolExecutionsOf | src/scouter/llmcore/agent.py:105-112 | The loop returns every ToolStep of every flow, in flow and step order. |
| Agent.ToolStepRepr | src/scouter/llmcore/agent.py:101-102 | `str(messages)` is a bracketed list, and `[]` for no calls. |
| Agent.LastOutput | src/scouter/llmcore/agent.py:88-103 | No flows raises InvalidRunStateError("No flows in run"). An empty last flow gives "". Any other failure is the AttributeError of a structured-output last step. |
| Agent.LastOutputReadsLastFlow | src/scouter/llmcore/agent.py:94 | Only the last flow is inspected. |
| Agent.LastOutputAfterStep | src/scouter/llmcore/agent.py:95-103 | After a step is added to the last flow, the output is that step's own: content or "", `str(messages)`, or "" for an input. |
| Agent.LlmCountAppend | src/scouter/llmcore/agent.py:120-125 | LLM-step counts add up over concatenation. |
| Agent.DefaultContinue | src/scouter/llmcore/agent.py:115-135 | False once the LLM-step count reaches `max_steps`. Otherwise true when there are no steps, and, when there are steps, true iff the last step of all flows is a ToolStep. The runtime's own `default_continue_condition_factory` (agent_runtime.py, lines 101-121) is the same function over `run.state.flows`, so `AgentRuntime` uses this one. |
| Agent.SeedAwareContinue | src/scouter/llmcore/agent.py:129-133 | The corrected condition. It stops when the budget is spent and continues wherever the written one does. Within the budget it also continues after an InputStep, and that is the only place where the two differ. |
| Agent.ConditionsStopAfterAnswer | src/scouter/llmcore/agent.py:132-133 | Both conditions stop right after a plain model answer. |
| Agent.ProcessInstructions | src/scouter/llmcore/agent.py:217-236 | None gives [] and a string gives one system message. A 2-tuple gives `create_instruction` of its parts. A list is returned unchanged. Anything else, a tuple of another length included, raises ValueError. |
| Agent.SystemPromptVersusPair | src/scouter/llmcore/agent.py:223-230 | A bare system prompt and the pair (prompt, "") agree iff the prompt is non-empty. |
| Agent.AgentRun.constructor | src/scouter/llmcore/agent.py:58-64 | A run holds the given condition and memory function, and no flows. |
| Agent.AgentRun.AddFlow | src/scouter/llmcore/agent.py:66-68 | Appends the flow. The existing flows, the condition and the memory stay. |
| Agent.CreateAgent | src/scouter/llmcore/agent.py:239-248 | A fresh run with the configured memory, and the configured condition or else the default factory's condition without a budget (`DefaultContinue(None, ·)`, the as-written one). |
| AgentLoop.SingleToolAsWritten | src/scouter/llmcore/agent.py:167-194 | Undecodable arguments drop the call. Any other call is recorded with the request's id, name and decoded arguments, as failed with an empty output, because the synchronous `run_tool` is awaited. The error is the await's TypeError when the tool returned, and the tool's own error when it raised. |
| AgentLoop.SingleTool | src/scouter/llmcore/agent.py:167-194 | Undecodable arguments drop the call. A call that ran records its output and success. A call that raised records "" and the error text. The call's id and name are kept. |
| AgentLoop.AwaitLosesToolOutput | src/scouter/llmcore/agent.py:176-184 | As written, every executed call is recorded as a failure with empty output. Where the tool returned, the corrected version records that output. |
| AgentLoop.Executor.Record | src/scouter/llmcore/agent.py:167-194 | The record of one call in the executor's mode: none iff its arguments do not decode. |
| AgentLoop.RecordKeepsRequest | src/scouter/llmcore/agent.py:167-194 | In either mode, a call's record carries the request's id, its name and its decoded arguments. |
| AgentLoop.ToolBatch | src/scouter/llmcore/agent.py:197-212 | The batch has at most one record per request; each record comes from `Executor.Record`, so in `AsWritten` mode it is the program's record. |
| AgentLoop.ToolBatchAppend | src/scouter/llmcore/agent.py:197-212 | Calls do not influence one another: a batch is the batches of its parts, in order. |
| AgentLoop.ToolBatchKeepsOrder | src/scouter/llmcore/agent.py:201-212 | When every request's arguments decode, each request gets its own record, in request order. |
| AgentLoop.DroppedCallLeavesNoRecord | src/scouter/llmcore/agent.py:167-211 | A request whose arguments do not decode leaves no record in the ToolStep. |
| AgentLoop.AsWrittenBatchFails | src/scouter/llmcore/agent.py:176-212 | In the program's mode, every record of a batch has success False and an empty output. |
| AgentLoop.ExecuteToolBatch | src/scouter/llmcore/agent.py:197-211 | The gather, as a sequential pass over the slots, builds exactly `ToolBatch`. |
| AgentLoop.Turn | src/scouter/llmcore/agent.py:155-212 | One answer adds its LLMStep, then one ToolStep iff it requested tools, holding the batch in the loop's mode. |
| AgentLoop.MainStepsShape | src/scouter/llmcore/agent.py:152-212 | Each answer adds exactly one LLMStep. The main flow's last step is the last answer's last step. |
| AgentLoop.LoopTraceUnique | src/scouter/llmcore/agent.py:152-157 | The loop's outcome is determined: two traces for the same inputs agree on the calls and on how the loop ended. |
| AgentLoop.CallsWithinBudget | src/scouter/llmcore/agent.py:119-127 | With a budget of n, the LLM steps before the loop and its calls total at most n, or no call is made. |
| AgentLoop.DefaultCallsWithinBudget | src/scouter/llmcore/agent.py:119-127 | The same budget bound under the condition as written. |
| AgentLoop.SeededRunMakesNoCalls | src/scouter/llmcore/agent.py:129-133 | Under any condition equal to the written default (the one `create_agent` installs), a run whose last step is the seeded InputStep makes no model call and ends normally. |
| AgentLoop.SeedAwareStopsAtFirstAnswer | src/scouter/llmcore/agent.py:152-212 | Under the corrected condition, a seeded run whose first k answers request tools and whose next does not makes exactly k + 1 calls and ends normally. |
| AgentLoop.SeedAwareContinuesBeforeAnswer | src/scouter/llmcore/agent.py:152 | Before each of those calls the corrected condition holds. |
| AgentLoop.RunFlow | src/scouter/llmcore/agent.py:138-213 | Adds exactly one new flow "{agent_id}_main" and leaves the earlier flows unchanged. The loop follows `LoopTrace`. Each context the model is asked with is the memory of the run as it stood then. A normal end leaves the flow completed with one turn per answer. A provider error leaves it running. Tool records follow the executor's mode. |
| AgentLoop.Drive | src/scouter/llmcore/agent.py:152-212 | The while loop. At every step the run's flows are the earlier ones plus the main flow at the current stage. It ends when the condition fails or the answers run out. |
| AgentLoop.StartMainFlow | src/scouter/llmcore/agent.py:148-150 | The flow "{agent_id}_main" is created, marked running and appended to the run. |
| AgentLoop.Advance | src/scouter/llmcore/agent.py:154-212 | One loop pass moves the main flow to the next stage. |
| AgentLoop.TakeTurn | src/scouter/llmcore/agent.py:156-212 | Appends the answer's `Turn` to the main flow. |
| AgentLoop.Finish | src/scouter/llmcore/agent.py:213 | Marks the flow completed; its steps stay. |
| AgentLoop.NextState | src/scouter/llmcore/agent.py:156-212 | The state after one more answer is that answer's turn on the main flow. |
| AgentLoop.ToolSpecs | src/scouter/llmcore/agent.py:262-263 | The specs of the configured tools, in order. The first unregistered name raises the lookup error. |
| AgentLoop.ConfiguredTools | src/scouter/llmcore/agent.py:261-263 | No tools unless the configuration names some. |
| AgentLoop.SeedFlow | src/scouter/llmcore/agent.py:270-271 | The flow "initial" holds the input as one InputStep and stays pending. |
| AgentLoop.SeededRunEndsWithInput | src/scouter/llmcore/agent.py:270-272 | After seeding, the run's steps are the earlier ones then the InputStep, which is last. |
| AgentLoop.Seed | src/scouter/llmcore/agent.py:270-272 | Appends exactly `SeedFlow` to the run. |
| AgentLoop.RunAgent | src/scouter/llmcore/agent.py:251-286 | A tool-lookup or instruction error is raised before the run is touched. Otherwise the run gains the flow "initial", holding the instruction messages and then the input, and then the main flow exactly as `RunFlow` leaves it: completed after the traced answers, or running after a provider error. The contexts are the memory of each stage. Condition and memory stay. |
| AgentLoop.PlainAnswerIsLastOutput | src/scouter/llmcore/agent.py:251-286 | With the corrected condition, a model that answers at once without tools is asked once, and the run's last output is that answer's content. |
| AgentRuntime.Runtime.constructor | src/scouter/llmcore/agent_runtime.py:44-47 | A runtime holds its options and a fresh, empty state. |
| AgentRuntime.Runtime.AddFlow | src/scouter/llmcore/agent_runtime.py:49-51 | Appends to the state's flows; the existing flows and the state id stay. |
| AgentRuntime.Runtime.TotalUsage | src/scouter/llmcore/agent_runtime.py:53-69 | The loop sums the counters of every chat completion with usage. It never fails. |
| AgentRuntime.AddStepsUsage | src/scouter/llmcore/agent_runtime.py:59-68 | The inner loop adds one flow's counters to the total. |
| AgentRuntime.StructuredStepsAddNothing | src/scouter/llmcore/agent_runtime.py:60-64 | A structured-output step adds 0. |
| AgentRuntime.UsageTotalsAgree | src/scouter/llmcore/agent_runtime.py:53-69 | The agent run's total fails exactly when a structured step is present, and otherwise equals the runtime's total. |
| AgentRuntime.RuntimeLastOutput | src/scouter/llmcore/agent_runtime.py:71-89 | The corrected last output. It fails iff there are no flows (InvalidRunStateError). A structured last step gives its JSON. Everywhere the agent run's output exists, it is that output. |
| AgentRuntime.RuntimeLastOutputAsWritten | src/scouter/llmcore/agent_runtime.py:73-77 | As written, an empty run raises IndexError. Any other run agrees with the corrected version. |
| AgentRuntime.EmptyRunRaisesWrongError | src/scouter/llmcore/agent_runtime.py:73-77 | On the empty run the written code raises IndexError, not InvalidRunStateError. |
| AgentRuntime.LastOutputsDifferOnlyOnStructured | src/scouter/llmcore/agent_runtime.py:81-86 | The runtime's and the agent run's last outputs differ iff the last step is a structured output. |
| AgentRuntime.Runtime.ToolExecutionsOf | src/scouter/llmcore/agent_runtime.py:91-98 | Every ToolStep of the state's flows, in order. |
| Tools.BuildTool | src/scouter/llmcore/tools.py:30-76 | Building succeeds iff the handler has a first parameter annotated with a model and returns `str` or a model. Otherwise it raises TypeError with the source's message. A `str` return gives schema `{"type": "string"}` and the string note. A model return gives the model's schema and the JSON note. |
| Tools.OpenAiToolSpec | src/scouter/llmcore/tools.py:78-86 | The reference definition of the spec: a "function" object carrying the name, the enriched description and the parameter schema. |
| Tools.BuiltToolSpec | src/scouter/llmcore/tools.py:78-86 | A built tool's spec is a "function" with the tool's name, the input model's schema as parameters and the enriched description: the string note for a str-returning handler, or the JSON note with the dumped output schema for a model-returning one. |
| Tools.ExecuteTool | src/scouter/llmcore/tools.py:127-161 | A string result is returned unchanged and a model result as its JSON dump. Every failure is a ToolExecutionError whose message names the tool: bad arguments, a handler exception, or another kind of result. |
| Tools.LookupTool | src/scouter/llmcore/tools.py:178-185 | Returns the registered tool; an absent name raises ToolExecutionError. |
| Tools.RunTool | src/scouter/llmcore/tools.py:119-124 | An unknown name raises the lookup error before any handler runs. Otherwise it is `execute_tool`. |
| Tools.LookupAfterRegister | src/scouter/llmcore/tools.py:168-185 | After registration the name yields the new tool, and every other name what it did before. |
| Tools.TrimStart | src/scouter/llmcore/tools.py:106 | Removes exactly the leading whitespace, whitespace being Python's `str.isspace` set, Unicode separators included. |
| Tools.TrimEnd | src/scouter/llmcore/tools.py:106 | Removes exactly the trailing whitespace, in the same sense. |
| Tools.ToolRegistry.constructor | src/scouter/llmcore/tools.py:165 | The registry starts empty. |
| Tools.ToolRegistry.RegisterTool | src/scouter/llmcore/tools.py:168-175 | An empty name is refused with ToolExecutionError and the registry is unchanged. Otherwise the name is written, overwriting silently. |
| Tools.ToolRegistry.Lookup | src/scouter/llmcore/tools.py:178-185 | Lookup over the registry's contents. |
| Tools.ToolRegistry.Decorate | src/scouter/llmcore/tools.py:98-116 | Builds the tool under the given name (or the function's) and description (or the stripped docstring) and registers it. A build error leaves the registry unchanged. |
| Retry.Pow2 | src/scouter/llmcore/utils.py:31 | `2**k` is at least 1. |
| Retry.CallsFromShape | src/scouter/llmcore/utils.py:22-37 | From an attempt within the budget, the calls end at the first decisive outcome or at the budget. |
| Retry.RetryCalls | src/scouter/llmcore/utils.py:22-37 | No call without a budget. Otherwise between 1 and `max_retries` calls, every one but the last a retryable error, and stopping early only after a decisive outcome. |
| Retry.RetryResult | src/scouter/llmcore/utils.py:22-41 | No attempt allowed gives the loop's own error. Otherwise a result that is not retried is the outcome of some attempt n within the budget, all before it retryable. A retryable result is the last attempt's, every attempt having failed retryably. |
| Retry.RetryLoop | src/scouter/llmcore/utils.py:14-41 | The loop makes `RetryCalls` calls and returns `RetryResult`. It sleeps `base_delay * 2**k + jitter(k)` after each failed attempt but the last. |
| Retry.SuccessAfterFailures | src/scouter/llmcore/utils.py:22-37 | n retryable failures and then a value, within the budget, give n + 1 calls and that value. |
| Retry.OtherErrorPropagates | src/scouter/llmcore/utils.py:25 | An error that is not retried ends the loop at once and is raised as it is. |
| Retry.ExhaustionReraisesLast | src/scouter/llmcore/utils.py:28-41 | When every attempt fails retryably, all are made and the last error is raised again. |
| Retry.OwnErrorOnlyWithoutAttempts | src/scouter/llmcore/utils.py:41 | MaxRetriesExceededError comes out only when no attempt ran, or when the last call itself raised it. |
| Retry.CoreRetryLoop | src/scouter/llmcore/utils.py:14-41 | The loop that raises MaxRetriesExceededError("max retries exceeded") without attempts. |
| Retry.LegacyRetryLoop | src/scouter/llm/utils.py:9-24 | The older loop: the same calls, result and sleeps, raising RuntimeError("max retries exceeded") without attempts. |
| Retry.LoopsAgreeWithABudget | src/scouter/llm/utils.py:24 | With at least one attempt allowed, the two loops give the same result. |
| LegacyTools.ToolOutput | src/scouter/llm/tools.py:10-13 | A registered name gives `fn(args)`; an unknown name gives "Unknown tool: {name}". |
| LegacyTools.RunAfterRegister | src/scouter/llm/tools.py:6-13 | After registering a name, running it calls the new function, and every other name answers as before. |
| LegacyTools.LegacyToolRegistry.constructor | src/scouter/llm/tools.py:3 | The registry starts empty. |
| LegacyTools.LegacyToolRegistry.RegisterTool | src/scouter/llm/tools.py:6-7 | Stores {fn, description, schema} under the name, overwriting; every other entry stays. |
| LegacyTools.LegacyToolRegistry.RunTool | src/scouter/llm/tools.py:10-13 | Answers `ToolOutput` without raising or changing the registry. |
| LegacyAgent.ToolReplies | src/scouter/llm/agent.py:32-39 | One tool message per call, in call order, with that call's id. The batch fails iff some call's arguments do not decode, and the failure is at the first such call. |
| LegacyAgent.AgentResult | src/scouter/llm/agent.py:43 | The result is the list's last message, or the exception the loop ended with. |
| LegacyAgent.ConverseShape | src/scouter/llm/agent.py:25-43 | The caller's messages are a prefix of the final list. The model is called at most `max_steps` times, and at least once when the budget is positive. A normal end has a reply without tool calls last, or a tool message once the budget is spent. |
| LegacyAgent.Converse | src/scouter/llm/agent.py:22-43 | The reference definition of the legacy loop over values: at most `max_steps` model calls, each answer appended, tool replies appended while answers request tools. |
| LegacyAgent.PlainReplyEndsLoop | src/scouter/llm/agent.py:40-41 | A reply without tool calls ends the loop after one call; it is appended and returned. |
| LegacyAgent.NoBudgetReturnsLastInput | src/scouter/llm/agent.py:26-43 | With `max_steps <= 0` the model is not called, and the result is the caller's last message. |
| LegacyAgent.ToolStepThenRest | src/scouter/llm/agent.py:27-42 | A step that asks for tools appends the reply, then one tool message per call, and goes on with one step fewer. |
| LegacyAgent.ToolRepliesStopAtFailure | src/scouter/llm/agent.py:32-39 | Once a batch has failed, later calls add nothing. |
| LegacyAgent.MessageList.Append | src/scouter/llm/agent.py:28-39 | The caller's list is only appended to. |
| LegacyAgent.RunAgent | src/scouter/llm/agent.py:22-43 | The loop leaves the caller's list as `Converse` says and returns `AgentResult`. The tool registry is not changed. |
| LegacyAgent.TakeStep | src/scouter/llm/agent.py:27-42 | One pass calls the model, appends its reply and runs its tools, as the first step of `Converse`. |
| LegacyAgent.AppendToolReplies | src/scouter/llm/agent.py:32-39 | The loop over tool calls appends exactly `ToolReplies` and reports its failure. |
| StepCodec.DecodeAllEncoded | src/scouter/db/models.py:138 | Decoding item by item what was encoded item by item gives the items back. |
| StepCodec.RequestRoundTrip | src/scouter/db/models.py:116-134 | A requested tool call reads back from its dict. |
| StepCodec.MessageRoundTrip | src/scouter/db/models.py:124-141 | A chat message reads back from its dict. |
| StepCodec.ToolCallJsonKeys | src/scouter/db/models.py:120-138 | Every key of `call.__dict__` is a keyword `ToolCall` accepts. |
| StepCodec.ToolCallRoundTrip | src/scouter/db/models.py:120-138 | `ToolCall(**call.__dict__)` gives the call back. |
| StepCodec.SerializeStep | src/scouter/db/models.py:112-126 | A one-key object: "completion", "calls" (the calls' field dicts), "input", or "data" with `str` of any other object. |
| StepCodec.Field | src/scouter/db/models.py:134-141 | Indexing the payload fails with KeyError for a missing key and TypeError for a non-object. |
| StepCodec.DeserializeStep | src/scouter/db/models.py:128-143 | Rebuilds the step for the three tags. A "completion" that is not an object raises TypeError, as `ChatCompletion(**x)` does. Any other tag raises ValueError("Unknown step type: ..."). |
| StepCodec.StepRoundTrip | src/scouter/db/models.py:112-143 | Each ToolStep and InputStep, and each chat LLMStep the completion library reloads, reads back as itself from its class name and payload. |
| StepCodec.FallbackNeverReadBack | src/scouter/db/models.py:126-143 | Anything written by the fallback branch raises ValueError when read. |
| StepCodec.EmptyIterablesGiveNoCalls | src/scouter/db/models.py:135-139 | A "calls" value of `[]`, `{}` or `""` iterates to nothing and gives an empty ToolStep. |
| StepCodec.RunStepNodesShape | src/scouter/db/models.py:59-70 | One step node per step. Each carries its flow's id and an index equal to the step's position in that flow. |
| StepCodec.SaveRun | src/scouter/db/models.py:39-71 | One flow node per flow, and the run's step nodes flow by flow. |
| StepCodec.SaveSteps | src/scouter/db/models.py:59-71 | The `enumerate` loop: one node per step, tagged with its class name and position. |
| StepCodec.SavedStepReadsBack | src/scouter/db/models.py:59-141 | A saved step node reads back as the step it was made from. |
| StepCodec.DecodeSteps | src/scouter/db/models.py:105-107 | All step nodes decode, in order, or the grouping fails. |
| StepCodec.DecodeStepsFirstError | src/scouter/db/models.py:105-107 | The error raised is the first failing node's. |
| StepCodec.FindFlow | src/scouter/db/models.py:94 | The position of the flow with that id, or none iff no loaded flow has it. |
| StepCodec.GroupIds | src/scouter/db/models.py:88-109 | Grouping yields one flow per distinct flow id, in first-seen order. |
| StepCodec.GroupRecords | src/scouter/db/models.py:88-109 | The reference definition of the grouping loop over values: each record's decoded steps join its flow's group, and a failed decode fails the load. |
| StepCodec.FirstSeenDistinct | src/scouter/db/models.py:94-102 | The first-seen ids are distinct. |
| StepCodec.AddRecordEffect | src/scouter/db/models.py:93-107 | One record keeps the ids distinct. The flow with its id gains its steps, and every other flow is unchanged. |
| StepCodec.GroupSteps | src/scouter/db/models.py:88-109 | Each loaded flow's steps are those of its records, in record order. |
| StepCodec.GroupFields | src/scouter/db/models.py:94-102 | Each loaded flow's other fields come from the first record that names it. |
| StepCodec.GroupFailureSticks | src/scouter/db/models.py:105-107 | A failed grouping stays failed with the same error. |
| StepCodec.LoadRun | src/scouter/db/models.py:83-109 | No records gives None. Otherwise it returns the grouped flows, or raises the first step error. |
| StepCodec.DecodeStepNodes | src/scouter/db/models.py:105-107 | The inner loop decodes exactly `DecodeSteps`. |
| Rbac.StarMatchesAll | src/scouter/auth/rbac.py:28 | The pattern `*` matches every name. |
| Rbac.Match | src/scouter/auth/rbac.py:28 | The reference definition of `fnmatch` for `*`, `?` and literal characters. |
| Rbac.HasPermission | src/scouter/auth/rbac.py:6-28 | `has_permission`: `*` held, then exact membership, then a pattern match. |
| Rbac.HasAny | src/scouter/auth/rbac.py:31-41 | `has_any_permission`: some required permission is granted. |
| Rbac.HasAll | src/scouter/auth/rbac.py:44-54 | `has_all_permissions`: every required permission is granted. |
| Rbac.LiteralMatchesItself | src/scouter/auth/rbac.py:28 | A pattern without wildcards matches exactly itself. |
| Rbac.PrefixStarMatchesExtensions | src/scouter/auth/rbac.py:28 | `prefix*` matches exactly the names that start with the prefix. |
| Rbac.Grants | src/scouter/auth/rbac.py:6-28 | A permission is granted iff some held permission equals it or matches it as a pattern. |
| Rbac.LiteralPermissionsGrantMembers | src/scouter/auth/rbac.py:24-28 | Without patterns among the held permissions, granted means held. |
| Rbac.StarlessMatchLength | src/scouter/auth/rbac.py:28 | A pattern without `*` matches only names of its own length. |
| Rbac.DeniedByLength | src/scouter/auth/rbac.py:21-28 | Not held, no `*`, and only patterns of other lengths: denied. |
| Rbac.Monotonic | src/scouter/auth/rbac.py:21-28 | Holding more permissions never turns a grant into a denial. |
| Rbac.EmptyRequirement | src/scouter/auth/rbac.py:41-54 | Nothing required: any-of is false and all-of is true. |
| Rbac.RequirementUnion | src/scouter/auth/rbac.py:31-54 | Any-of over a union is an or; all-of over a union is an and. |
| Rbac.CombinatorsMonotonic | src/scouter/auth/rbac.py:31-54 | Both combinators are monotonic in what is held. All-of implies any-of when something is required. |
| Rbac.ExactMatchCases | tests/test_auth.py:13-17 | `user:read` is granted by {user:read, user:write} and `user:delete` is not. |
| Rbac.WildcardAllCases | tests/test_auth.py:19-23 | `*` grants a two-part and a three-part permission. |
| Rbac.ResourceWildcardGrants | tests/test_auth.py:25-30 | `user:*` grants `user:read` and `user:write`; `billing:read` grants itself. |
| Rbac.ResourceWildcardDenies | tests/test_auth.py:31 | {user:*, billing:read} does not grant `billing:write`. |
| Rbac.UserPrefixGrants | tests/test_auth.py:27-29 | `user:*` matches a name iff it starts with `user:`. |
| Rbac.AnyGranted | tests/test_auth.py:36 | Any-of holds when one required permission is held. |
| Rbac.AnyDenied | tests/test_auth.py:37 | Any-of fails when none is granted. |
| Rbac.AllGranted | tests/test_auth.py:42 | All-of holds when every required permission is held. |
| Rbac.AllDenied | tests/test_auth.py:43 | All-of fails when one is missing. |
| DomainModels.Lower | src/scouter_app/shared/domain_models.py:31 | Keeps the length, leaves no upper-case letter, and changes nothing but upper-case letters, each to its lower-case one. |
| DomainModels.ValidateInput | src/scouter_app/shared/domain_models.py:19-34 | Accepted iff exactly one of file and text is given and a given file has a non-empty name ending in ".pdf" in any case. An accepted request is returned unchanged. A rejection is one of the three ValueErrors. |
| DomainModels.NewRequest | src/scouter_app/shared/domain_models.py:14-34 | Metadata defaults to {}, and an accepted request keeps its file and text. |
| DomainModels.RejectionOrder | src/scouter_app/shared/domain_models.py:21-33 | Both-given and neither-given are reported before the name check. |
| DomainModels.TextOnlyAccepted | src/scouter_app/shared/domain_models.py:20-34 | A text-only request is accepted whatever the text, "" included. |
| DomainModels.ValidationIdempotent | src/scouter_app/shared/domain_models.py:34 | Validating an accepted request again accepts it again. |
| DomainModels.PdfTestIgnoresCase | src/scouter_app/shared/domain_models.py:31 | Upper- or lower-casing a name never changes the verdict. |
| DomainModels.PdfSuffix | src/scouter_app/shared/domain_models.py:31 | The name test looks only at the last four characters, up to case. |
| DomainModels.EmptyNameFailsSuffix | src/scouter_app/shared/domain_models.py:31 | The empty-name guard is implied by the suffix test. |
| DomainModels.PdfNamesPass | src/scouter_app/shared/domain_models.py:31 | `report.PDF` and `a.pdf` pass. |
| DomainModels.OtherNamesFail | src/scouter_app/shared/domain_models.py:31 | `report.pdf.txt`, `.pd` and a missing name fail. |

## Left out

- Clock readings (`time.time()` stamps, `execution_time`) and uuids are arguments. The elapsed time of a tool call is not recorded.
- `random.uniform` jitter is an arbitrary function of the attempt. `time.sleep` is recorded as the list of delays, not performed.
- The concurrency of `asyncio.gather` is a sequential pass over the calls. Only the per-slot results in request order are kept. The `return_exceptions` branch for unexpected errors is the dropped call, since a decoding error is the only exception that reaches it.
- The provider clients, network calls and response validation are not part of this model. The model is a list of completions, or a function from messages to a reply.
- Logging is not modelled.
- Tool arguments are a map from strings to strings, not arbitrary JSON values. `json.loads` of the arguments is a `parse` function that may fail.
- AgentLoop.SingleTool: `parse` gives None both for text that is not JSON and for JSON that is not an object (`"[1]"`, `"3"`), so such a call is dropped from the batch. In the source, valid non-object JSON reaches `run_tool`, where `input_model_cls(**raw_args)` raises and the call is recorded as failed. The same holds for `AgentLoop.SingleToolAsWritten` and `AgentLoop.Executor.Record`.
- LegacyAgent.ToolReplies: a call whose arguments are valid JSON but not an object ends the batch with the decoding failure here. In the source, `json.loads` succeeds and the value is passed to the tool function, which the model cannot represent because arguments are maps.
- StepCodec.DeserializeStep: an InputStep's "input" must be a list of chat messages, and a `ToolCall` field must have its declared JSON type. The source builds `InputStep(input=...)` and `ToolCall(**call)` without checking either, so a payload of another shape loads there and raises TypeError here. `InputStep` holds chat messages in this model.
- pydantic's `model_json_schema`, `model_dump`, `model_dump_json`, `inspect.signature` and `asyncio.run` are not modelled as code. Signatures are data, schemas are `Json` values, and dumps and loads are `JsonLib` hooks.
- Tools.ExecuteTool: a coroutine handler is run by `execute_tool` through `asyncio.run` (src/scouter/llmcore/tools.py:144-145), which raises RuntimeError when called inside `run_flow`'s running event loop, so in the source's agent loop such a handler never runs. The model treats every handler, coroutine or not, as an ordinary call that returns its result.
- The text layer of `json.dumps`/`json.loads` of a payload is taken to give back the value it was given. The texts of JSON decoding errors are not modelled.
- The Neo4j session, the Cypher queries, MERGE semantics and the query's `ORDER BY` are not modelled. `load_run` takes its records in the order given.
- StepCodec.SaveRun: the run node's `total_usage` and `memory_strategy` properties are not modelled, and `load_run` does not restore them either. `save_run` computes `json.dumps(run.total_usage)` (src/scouter/db/models.py:34) before it writes any flow, and `total_usage` raises AttributeError for a run holding a structured-output step (`Agent.RunUsage`), so for such a run the source writes nothing and raises, while `SaveRun` models lines 39-71 only and always writes every flow.
- The flow metadata's JSON encoding is a hook.
- `StateStore`, the trace function and `memory_trace` of the runtime options are not modelled, since they have no behaviour there.
- `str()` of a tool message dict quotes strings without Python's escaping of quotes and backslashes.
- `ToolCall(**call)` is checked for its keyword names only. Python values of the wrong type for a field are not modelled.
- LegacyAgent.ToolStepThenRest: the source builds each tool reply as a `ChatCompletionMessage`, whose `role` only admits "assistant", so `role="tool"` raises pydantic's ValidationError right after the first tool of a round has run (src/scouter/llm/agent.py:35-39). As written, the legacy agent never completes a tool round: the reply asking for tools is appended and the call raises. The model appends the intended tool message instead, and so do `LegacyAgent.ConverseShape` (its ending on a tool message at the budget), `LegacyAgent.Converse`, `LegacyAgent.ToolReplies`, `LegacyAgent.AppendToolReplies`, `LegacyAgent.TakeStep` and `LegacyAgent.RunAgent`.
- A legacy tool function that raises is not modelled. Functions are total.
- Rbac.Match: `fnmatch` bracket classes (`[...]`) are not modelled. `[` is matched as a literal character.
- DomainModels.Lower: `str.lower` is modelled for the ASCII letters only. No other character lower-cases to `.`, `p`, `d` or `f`, so the `.pdf` test is unaffected.
- `create_tool` is folded into `ToolRegistry.Decorate` and `BuildTool`. The `tool` decorator returns the function itself, which the model does not need.

## Findings

| source | as written | input that shows it | evidently intended | confidence | as-written member | corrected member |
|---|---|---|---|---|---|---|
| src/scouter/llmcore/agent.py:177 | `await run_tool(...)` awaits the synchronous `run_tool`, which returns a string. Awaiting a string raises TypeError inside the `try`, so every executed call is recorded with success False and an empty output. | A registered tool whose handler returns "ok": the ToolCall records success False, output "" and the await error. | The call records the tool's output with success True, and an empty output with the error text only when the tool raised. | not executed | AgentLoop.SingleToolAsWritten (with AgentLoop.AwaitLosesToolOutput) | AgentLoop.SingleTool |
| src/scouter/llmcore/agent.py:129-133 | The default condition continues only when there are no steps or the last step is a ToolStep. `run_agent` always seeds an InputStep first, so the loop never runs. | `run_agent` with any input and no custom condition: zero model calls, and the main flow is completed with no steps. | A trailing InputStep counts like "no steps yet", so the model is asked until it answers without tools. | not executed | AgentLoop.SeededRunMakesNoCalls | Agent.SeedAwareContinue (with AgentLoop.SeedAwareStopsAtFirstAnswer) |
| src/scouter/llmcore/agent_runtime.py:73 | The empty-run guard tests `self.state`, a dataclass instance, which is always true. An empty run then reaches `self.state.flows[-1]`. | A `Runtime` with no flows: `last_output` raises IndexError. | Raise InvalidRunStateError("No flows in run"), as `AgentRun.last_output` does. | not executed | AgentRuntime.RuntimeLastOutputAsWritten (with AgentRuntime.EmptyRunRaisesWrongError) | AgentRuntime.RuntimeLastOutput |
