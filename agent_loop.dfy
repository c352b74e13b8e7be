/**
 * The agent run loop: `run_flow` and `run_agent` (src/scouter/llmcore/agent.py).
 *
 * The model provider is an oracle: the completions it will return, in order.
 * When they run out, the call raises and the error leaves `run_flow` with its
 * flow still running. Tool arguments are decoded by `parse` (None when the
 * text is not JSON, or is JSON but not an object), and tools run against the
 * registry's contents. The loop is given the per-call behaviour as a
 * `ToolMode`: `AsWritten` records what the code does (every executed call
 * failed, see `SingleToolAsWritten`), `Intended` what it means to do.
 * The concurrent `asyncio.gather` over a batch is a sequential pass: only the
 * per-slot results, in request order, matter.
 */
module AgentLoop {
  import opened Wrappers
  import opened Messages
  import opened LlmState
  import opened Tools
  import opened Agent

  // ---------------------------------------------------------------- one tool call

  /** The TypeError Python raises when a plain string is awaited. */
  const AWAIT_STR_ERROR: string := "object str can't be used in 'await' expression"

  /**
   * `execute_single_tool` as written: undecodable arguments raise before the
   * `try` (the call is then dropped from the batch); inside it, the
   * synchronous `run_tool` is awaited, so a string it returns is itself
   * awaited and raises, and the call is recorded as failed either way.
   */
  function SingleToolAsWritten(tc: ToolCallRequest, tools: map<string, Tool>, parse: string -> Option<Args>): (r: Option<ToolCall>)
    ensures r.None? <==> parse(tc.arguments).None?
    ensures r.Some? ==>
      var c := r.value;
      var result := RunTool(tools, tc.name, parse(tc.arguments).value);
      && c.toolCallId == tc.id && c.toolName == tc.name && c.args == parse(tc.arguments).value
      && !c.success && c.output == ""
      && c.errorMessage == Some(if result.Ok? then AWAIT_STR_ERROR else result.error.Text())
  {
    match parse(tc.arguments)
    case None => None
    case Some(args) =>
      var error := match RunTool(tools, tc.name, args)
        case Ok(_) => AWAIT_STR_ERROR
        case Err(e) => e.Text();
      Some(ToolCall(tc.id, tc.name, args, "", 0.0, false, Some(error)))
  }

  /**
   * `execute_single_tool` as intended: the tool's output on success, or an
   * empty output and the error's text on failure.
   */
  function SingleTool(tc: ToolCallRequest, tools: map<string, Tool>, parse: string -> Option<Args>): (r: Option<ToolCall>)
    ensures r.None? <==> parse(tc.arguments).None?
    ensures r.Some? ==>
      var c := r.value;
      var result := RunTool(tools, tc.name, parse(tc.arguments).value);
      && c.toolCallId == tc.id && c.toolName == tc.name && c.args == parse(tc.arguments).value
      && (c.success <==> result.Ok?)
      && (c.success ==> c.output == result.value && c.errorMessage.None?)
      && (!c.success ==> c.output == "" && c.errorMessage == Some(result.error.Text()))
  {
    match parse(tc.arguments)
    case None => None
    case Some(args) =>
      match RunTool(tools, tc.name, args)
      case Ok(output) => Some(ToolCall(tc.id, tc.name, args, output, 0.0, true, None))
      case Err(e) => Some(ToolCall(tc.id, tc.name, args, "", 0.0, false, Some(e.Text())))
  }

  /**
   * The awaited synchronous call loses every result: where the tool ran and
   * returned its output, the code as written records a failure with an empty
   * output, while the intended version records the output.
   */
  lemma AwaitLosesToolOutput(tc: ToolCallRequest, tools: map<string, Tool>, parse: string -> Option<Args>)
    requires parse(tc.arguments).Some?
    ensures SingleToolAsWritten(tc, tools, parse).value.success == false
    ensures SingleToolAsWritten(tc, tools, parse).value.output == ""
    ensures RunTool(tools, tc.name, parse(tc.arguments).value).Ok? ==>
      SingleToolAsWritten(tc, tools, parse).value.errorMessage == Some(AWAIT_STR_ERROR) &&
      SingleTool(tc, tools, parse).value.success &&
      SingleTool(tc, tools, parse).value.output == RunTool(tools, tc.name, parse(tc.arguments).value).value
    ensures RunTool(tools, tc.name, parse(tc.arguments).value).Err? ==>
      SingleToolAsWritten(tc, tools, parse) == SingleTool(tc, tools, parse)
  {
  }

  /** Which of the two per-call behaviours a run records: the code as written, or as intended. */
  datatype ToolMode = AsWritten | Intended

  /**
   * What the loop needs to run a requested call: the registry's contents,
   * the argument decoder and the per-call behaviour. Every lemma about the
   * loop holds for both modes; `AsWritten` is the program.
   */
  datatype Executor = Executor(tools: map<string, Tool>, parse: string -> Option<Args>, mode: ToolMode)
  {
    /** `execute_single_tool` in this executor's mode. */
    function Record(tc: ToolCallRequest): (r: Option<ToolCall>)
      ensures r.None? <==> parse(tc.arguments).None?
    {
      if mode.AsWritten? then SingleToolAsWritten(tc, tools, parse) else SingleTool(tc, tools, parse)
    }
  }

  /** In either mode, a call's record answers its request: the request's id, name and decoded arguments. */
  lemma RecordKeepsRequest(exec: Executor, tc: ToolCallRequest)
    ensures exec.Record(tc).Some? ==>
      var c := exec.Record(tc).value;
      c.toolCallId == tc.id && c.toolName == tc.name && c.args == exec.parse(tc.arguments).value
  {
  }

  // ---------------------------------------------------------------- a batch

  /** The ToolStep's calls for a batch of requests: each request's record, dropped calls left out, in request order. */
  function ToolBatch(tcs: seq<ToolCallRequest>, exec: Executor): (r: seq<ToolCall>)
    ensures |r| <= |tcs|
  {
    if tcs == [] then []
    else
      var last := exec.Record(tcs[|tcs| - 1]);
      ToolBatch(tcs[..|tcs| - 1], exec) + (if last.Some? then [last.value] else [])
  }

  /** Calls do not influence each other: a batch is the batches of its parts, in order. */
  lemma {:induction false} ToolBatchAppend(a: seq<ToolCallRequest>, b: seq<ToolCallRequest>, exec: Executor)
    ensures ToolBatch(a + b, exec) == ToolBatch(a, exec) + ToolBatch(b, exec)
    decreases |b|
  {
    if b == [] {
      assert a + b == a;
    } else {
      assert (a + b)[..|a + b| - 1] == a + b[..|b| - 1];
      ToolBatchAppend(a, b[..|b| - 1], exec);
    }
  }

  /** When every request's arguments decode, each request gets its own record, in request order. */
  lemma {:induction false} ToolBatchKeepsOrder(tcs: seq<ToolCallRequest>, exec: Executor)
    requires forall i :: 0 <= i < |tcs| ==> exec.parse(tcs[i].arguments).Some?
    ensures |ToolBatch(tcs, exec)| == |tcs|
    ensures forall i :: 0 <= i < |tcs| ==> ToolBatch(tcs, exec)[i] == exec.Record(tcs[i]).value
  {
    if tcs != [] {
      var init := tcs[..|tcs| - 1];
      forall i | 0 <= i < |init|
        ensures exec.parse(init[i].arguments).Some?
      {
        assert init[i] == tcs[i];
      }
      ToolBatchKeepsOrder(init, exec);
      var last := exec.Record(tcs[|tcs| - 1]);
      assert last.Some?;
      var batch := ToolBatch(tcs, exec);
      assert batch == ToolBatch(init, exec) + [last.value];
      forall i | 0 <= i < |tcs|
        ensures batch[i] == exec.Record(tcs[i]).value
      {
        if i < |init| {
          assert init[i] == tcs[i];
          assert batch[i] == ToolBatch(init, exec)[i];
        }
      }
    }
  }

  /** A request whose arguments do not decode is left out of the batch. */
  lemma DroppedCallLeavesNoRecord(tcs: seq<ToolCallRequest>, tc: ToolCallRequest, exec: Executor)
    requires exec.parse(tc.arguments).None?
    ensures ToolBatch(tcs + [tc], exec) == ToolBatch(tcs, exec)
  {
    assert (tcs + [tc])[..|tcs|] == tcs;
  }

  /**
   * What the program records for a batch: every call that was executed is
   * marked failed with an empty output, whatever its tool did.
   */
  lemma {:induction false} AsWrittenBatchFails(tcs: seq<ToolCallRequest>, tools: map<string, Tool>, parse: string -> Option<Args>)
    ensures forall c :: c in ToolBatch(tcs, Executor(tools, parse, AsWritten)) ==> !c.success && c.output == ""
  {
    if tcs != [] {
      var exec := Executor(tools, parse, AsWritten);
      AsWrittenBatchFails(tcs[..|tcs| - 1], tools, parse);
      var last := exec.Record(tcs[|tcs| - 1]);
      if last.Some? {
        AwaitLosesToolOutput(tcs[|tcs| - 1], tools, parse);
      }
    }
  }

  /** The gathered batch, built one slot after the other. */
  method ExecuteToolBatch(tcs: seq<ToolCallRequest>, exec: Executor)
    returns (batch: seq<ToolCall>)
    ensures batch == ToolBatch(tcs, exec)
  {
    batch := [];
    var i := 0;
    while i < |tcs|
      invariant 0 <= i <= |tcs|
      invariant batch == ToolBatch(tcs[..i], exec)
    {
      assert tcs[..i + 1][..i] == tcs[..i];
      var record := exec.Record(tcs[i]);
      if record.Some? {
        batch := batch + [record.value];
      }
      i := i + 1;
    }
    assert tcs[..i] == tcs;
  }

  // ---------------------------------------------------------------- the loop, as values

  /** The steps one model answer adds: its LLMStep, then a ToolStep iff it requested tools. */
  function Turn(c: ChatCompletion, exec: Executor): (r: seq<Step>)
    ensures |r| == if c.toolCalls == [] then 1 else 2
    ensures r[0] == LLMStep(Chat(c))
    ensures |r| == 2 ==> r[1].ToolStep?
  {
    [LLMStep(Chat(c))] + (if c.toolCalls != [] then [ToolStep(ToolBatch(c.toolCalls, exec))] else [])
  }

  /** The main flow's steps after the given answers. */
  function MainSteps(cs: seq<ChatCompletion>, exec: Executor): seq<Step>
  {
    if cs == [] then [] else MainSteps(cs[..|cs| - 1], exec) + Turn(cs[|cs| - 1], exec)
  }

  /** Each answer adds exactly one LLMStep; the main flow's last step is the last answer's last step. */
  lemma {:induction false} MainStepsShape(cs: seq<ChatCompletion>, exec: Executor)
    ensures LlmCount(MainSteps(cs, exec)) == |cs|
    ensures MainSteps(cs, exec) == [] <==> cs == []
    ensures cs != [] ==>
      var steps := MainSteps(cs, exec);
      var turn := Turn(cs[|cs| - 1], exec);
      steps != [] && steps[|steps| - 1] == turn[|turn| - 1]
  {
    if cs != [] {
      var init := cs[..|cs| - 1];
      var turn := Turn(cs[|cs| - 1], exec);
      MainStepsShape(init, exec);
      LlmCountAppend(MainSteps(init, exec), turn);
      if |turn| == 1 {
        assert LlmCount(turn) == LlmCount(turn[..0]) + 1;
      } else {
        assert turn[..1] == [turn[0]] && turn[..1][..0] == [];
        assert LlmCount(turn) == LlmCount(turn[..1]);
      }
    }
  }

  /** The id `run_flow` gives its flow. */
  function MainFlowId(agentId: string): string
  {
    agentId + "_main"
  }

  /** The flow `run_flow` adds, marked running, holding `steps`. */
  function MainFlowAt(agentId: string, startTime: real, steps: seq<Step>): (r: FlowRecord)
    ensures r.id == MainFlowId(agentId) && r.agentId == agentId && r.parentFlowId.None?
    ensures r.status == Running && r.steps == steps
    ensures r.metadata == map[START_TIME := Timestamp(startTime)]
  {
    Transitioned(NewFlow(MainFlowId(agentId), agentId, None), ToRunning(startTime)).(steps := steps)
  }

  /** The run's flows after the given answers: the flows it had, then the main flow. */
  function StateAt(pre: seq<FlowRecord>, agentId: string, startTime: real, cs: seq<ChatCompletion>,
                   exec: Executor): seq<FlowRecord>
  {
    pre + [MainFlowAt(agentId, startTime, MainSteps(cs, exec))]
  }

  /** All steps of the run after the given answers: the earlier ones, then the main flow's. */
  lemma StateAtSteps(pre: seq<FlowRecord>, agentId: string, startTime: real, cs: seq<ChatCompletion>,
                     exec: Executor)
    ensures AllSteps(StateAt(pre, agentId, startTime, cs, exec)) == AllSteps(pre) + MainSteps(cs, exec)
  {
    var s := StateAt(pre, agentId, startTime, cs, exec);
    assert s[..|s| - 1] == pre;
  }

  /**
   * What the loop of `run_flow` guarantees, over the run's flows before it
   * started: the condition held before each of the `calls` model calls; when
   * the loop ended normally it no longer held; when it ended by an error,
   * the answers had run out while it still held.
   */
  predicate LoopTrace(cond: Condition, pre: seq<FlowRecord>, agentId: string, startTime: real,
                      completions: seq<ChatCompletion>, exec: Executor,
                      ok: bool, calls: nat)
  {
    && calls <= |completions|
    && (forall j :: 0 <= j < calls ==> cond(StateAt(pre, agentId, startTime, completions[..j], exec)))
    && (ok ==> !cond(StateAt(pre, agentId, startTime, completions[..calls], exec)))
    && (!ok ==> calls == |completions| && cond(StateAt(pre, agentId, startTime, completions, exec)))
  }

  /** The trace is determined by its inputs: the number of calls and how the loop ended. */
  lemma LoopTraceUnique(cond: Condition, pre: seq<FlowRecord>, agentId: string, startTime: real,
                        completions: seq<ChatCompletion>, exec: Executor,
                        ok1: bool, calls1: nat, ok2: bool, calls2: nat)
    requires LoopTrace(cond, pre, agentId, startTime, completions, exec, ok1, calls1)
    requires LoopTrace(cond, pre, agentId, startTime, completions, exec, ok2, calls2)
    ensures calls1 == calls2 && ok1 == ok2
  {
    assert completions[..|completions|] == completions;
  }

  /**
   * With a step budget of `n`, the loop makes at most as many calls as the
   * budget has left (none once it is spent), under either condition.
   */
  lemma CallsWithinBudget(n: int, pre: seq<FlowRecord>, agentId: string, startTime: real,
                          completions: seq<ChatCompletion>, exec: Executor,
                          ok: bool, calls: nat)
    requires LoopTrace(flows => SeedAwareContinue(Some(n), flows), pre, agentId, startTime, completions, exec, ok, calls)
    ensures calls + LlmCount(AllSteps(pre)) <= n || calls == 0
  {
    if calls > 0 {
      var j := calls - 1;
      var s := StateAt(pre, agentId, startTime, completions[..j], exec);
      StateAtSteps(pre, agentId, startTime, completions[..j], exec);
      LlmCountAppend(AllSteps(pre), MainSteps(completions[..j], exec));
      MainStepsShape(completions[..j], exec);
      assert (flows => SeedAwareContinue(Some(n), flows))(s);
      assert !BudgetSpent(Some(n), s);
    }
  }

  /** The budget bound holds for the as-written condition too, which continues less often. */
  lemma DefaultCallsWithinBudget(n: int, pre: seq<FlowRecord>, agentId: string, startTime: real,
                                 completions: seq<ChatCompletion>, exec: Executor,
                                 ok: bool, calls: nat)
    requires LoopTrace(flows => DefaultContinue(Some(n), flows), pre, agentId, startTime, completions, exec, ok, calls)
    ensures calls + LlmCount(AllSteps(pre)) <= n || calls == 0
  {
    if calls > 0 {
      var j := calls - 1;
      var s := StateAt(pre, agentId, startTime, completions[..j], exec);
      StateAtSteps(pre, agentId, startTime, completions[..j], exec);
      LlmCountAppend(AllSteps(pre), MainSteps(completions[..j], exec));
      MainStepsShape(completions[..j], exec);
      assert (flows => DefaultContinue(Some(n), flows))(s);
      assert !BudgetSpent(Some(n), s);
    }
  }

  /** True iff the last of the run's steps is the InputStep `run_agent` seeds. */
  predicate EndsWithInput(pre: seq<FlowRecord>)
  {
    AllSteps(pre) != [] && AllSteps(pre)[|AllSteps(pre)| - 1].InputStep?
  }

  /**
   * Under the as-written default condition (the one `create_agent` installs
   * when none is configured), a run whose last step is the seeded InputStep
   * makes no model call at all.
   */
  lemma SeededRunMakesNoCalls(cond: Condition, maxSteps: Option<int>, pre: seq<FlowRecord>, agentId: string, startTime: real,
                              completions: seq<ChatCompletion>, exec: Executor, ok: bool, calls: nat)
    requires forall flows :: cond(flows) == DefaultContinue(maxSteps, flows)
    requires EndsWithInput(pre)
    requires LoopTrace(cond, pre, agentId, startTime, completions, exec, ok, calls)
    ensures calls == 0 && ok
  {
    var s := StateAt(pre, agentId, startTime, completions[..0], exec);
    StateAtSteps(pre, agentId, startTime, completions[..0], exec);
    assert MainSteps(completions[..0], exec) == [];
    assert AllSteps(pre) + [] == AllSteps(pre);
    assert !cond(s);
    assert completions == [] ==> completions[..0] == completions;
  }

  /**
   * Under the corrected condition, a seeded run asks the model once per answer
   * that requests tools, and stops right after the first answer that does not:
   * after the k requesting answers and that one, k + 1 calls, ending normally.
   */
  lemma SeedAwareStopsAtFirstAnswer(pre: seq<FlowRecord>, agentId: string, startTime: real,
                                    completions: seq<ChatCompletion>, exec: Executor, k: nat, ok: bool, calls: nat)
    requires EndsWithInput(pre)
    requires k < |completions|
    requires forall j :: 0 <= j < k ==> completions[j].toolCalls != []
    requires completions[k].toolCalls == []
    requires LoopTrace(flows => SeedAwareContinue(None, flows), pre, agentId, startTime, completions, exec, ok, calls)
    ensures calls == k + 1 && ok
  {
    var cond: Condition := flows => SeedAwareContinue(None, flows);
    forall j | 0 <= j <= k
      ensures cond(StateAt(pre, agentId, startTime, completions[..j], exec))
    {
      SeedAwareContinuesBeforeAnswer(pre, agentId, startTime, completions, exec, j);
    }
    var stop := StateAt(pre, agentId, startTime, completions[..k + 1], exec);
    StateAtSteps(pre, agentId, startTime, completions[..k + 1], exec);
    MainStepsShape(completions[..k + 1], exec);
    assert completions[..k + 1][k] == completions[k];
    var all := AllSteps(stop);
    assert all[|all| - 1].LLMStep?;
    assert !cond(stop);
    assert |completions| == k + 1 ==> completions[..k + 1] == completions;
  }

  /** Before the j-th call (j <= k), the last step is the seed or a ToolStep, so the corrected condition holds. */
  lemma SeedAwareContinuesBeforeAnswer(pre: seq<FlowRecord>, agentId: string, startTime: real,
                                       completions: seq<ChatCompletion>, exec: Executor, j: nat)
    requires EndsWithInput(pre)
    requires j <= |completions|
    requires forall i :: 0 <= i < j ==> completions[i].toolCalls != []
    ensures SeedAwareContinue(None, StateAt(pre, agentId, startTime, completions[..j], exec))
  {
    var s := StateAt(pre, agentId, startTime, completions[..j], exec);
    StateAtSteps(pre, agentId, startTime, completions[..j], exec);
    MainStepsShape(completions[..j], exec);
    if j == 0 {
      assert AllSteps(pre) + MainSteps(completions[..j], exec) == AllSteps(pre);
    } else {
      assert completions[..j][j - 1] == completions[j - 1];
      var all := AllSteps(s);
      assert all[|all| - 1].ToolStep?;
    }
  }

  // ---------------------------------------------------------------- run_flow

  /** The error the provider oracle raises once its answers are used up. */
  const NO_ANSWER: Error := ProviderError("no completion available")

  /**
   * `run_flow`: adds one flow "{agent_id}_main", marked running, then while
   * the run's condition holds asks the model with the run's context, records
   * its answer as an LLMStep and, when it requests tools, the batch's records
   * as one ToolStep. When the loop ends the flow is marked completed; a
   * provider error leaves it running. The flows already in the run are not
   * changed, and `contexts` are what the model was asked with.
   */
  method RunFlow(run: AgentRun, exec: Executor,
                 completions: seq<ChatCompletion>, agentId: string, startTime: real, endTime: real)
    returns (outcome: Result<()>, calls: nat, contexts: seq<seq<Message>>)
    modifies run
    ensures run.continueCondition == old(run.continueCondition) && run.memoryFunction == old(run.memoryFunction)
    ensures |run.flows| == |old(run.flows)| + 1 && run.flows[..|old(run.flows)|] == old(run.flows)
    ensures fresh(run.flows[|old(run.flows)|])
    ensures Records(run.flows)[..|old(run.flows)|] == old(Records(run.flows))
    ensures LoopTrace(run.continueCondition, old(Records(run.flows)), agentId, startTime, completions, exec,
                      outcome.Ok?, calls)
    ensures |contexts| == calls
    ensures forall j :: 0 <= j < calls ==>
      contexts[j] == run.memoryFunction(StateAt(old(Records(run.flows)), agentId, startTime, completions[..j], exec))
    ensures outcome.Ok? ==>
      Records(run.flows) == old(Records(run.flows)) +
        [Transitioned(MainFlowAt(agentId, startTime, MainSteps(completions[..calls], exec)), ToCompleted(endTime))]
    ensures outcome.Err? ==>
      outcome.error == NO_ANSWER &&
      Records(run.flows) == StateAt(old(Records(run.flows)), agentId, startTime, completions, exec)
  {
    ghost var pre := Records(run.flows);
    var main := StartMainFlow(run, agentId, startTime);
    assert completions[..0] == [];
    var ok;
    ok, calls, contexts := Drive(run, main, old(run.flows), pre, exec, completions, agentId, startTime);
    assert run.flows == old(run.flows) + [main];
    if ok {
      Finish(main, old(run.flows), pre, agentId, startTime, MainSteps(completions[..calls], exec), endTime);
      outcome := Ok(());
    } else {
      assert completions[..calls] == completions;
      outcome := Err(NO_ANSWER);
    }
    assert Records(run.flows)[..|pre|] == pre;
  }

  /** Each context so far was taken in a state where the condition held, and is the memory of that state. */
  ghost predicate Traced(cond: Condition, memory: MemoryFunction, pre: seq<FlowRecord>, agentId: string, startTime: real,
                         completions: seq<ChatCompletion>, exec: Executor,
                         contexts: seq<seq<Message>>)
  {
    && |contexts| <= |completions|
    && forall j :: 0 <= j < |contexts| ==>
         var state := StateAt(pre, agentId, startTime, completions[..j], exec);
         cond(state) && contexts[j] == memory(state)
  }

  /** The trace after one more turn. */
  lemma ContextsExtend(cond: Condition, memory: MemoryFunction, pre: seq<FlowRecord>, agentId: string, startTime: real,
                       completions: seq<ChatCompletion>, exec: Executor,
                       seen: seq<seq<Message>>, context: seq<Message>)
    requires |seen| < |completions|
    requires Traced(cond, memory, pre, agentId, startTime, completions, exec, seen)
    requires cond(StateAt(pre, agentId, startTime, completions[..|seen|], exec))
    requires context == memory(StateAt(pre, agentId, startTime, completions[..|seen|], exec))
    ensures Traced(cond, memory, pre, agentId, startTime, completions, exec, seen + [context])
  {
  }

  /**
   * The loop of `run_flow`: while the run's condition holds, ask the model with
   * the run's context and record its turn. It ends normally when the condition
   * fails, and with `ok` false when the answers run out first.
   */
  method Drive(run: AgentRun, main: Flow, ghost earlier: seq<Flow>, ghost pre: seq<FlowRecord>,
               exec: Executor, completions: seq<ChatCompletion>,
               agentId: string, startTime: real)
    returns (ok: bool, calls: nat, contexts: seq<seq<Message>>)
    requires run.flows == earlier + [main]
    requires forall i :: 0 <= i < |earlier| ==> earlier[i] != main
    requires Records(run.flows) == StateAt(pre, agentId, startTime, completions[..0], exec)
    modifies main
    ensures LoopTrace(run.continueCondition, pre, agentId, startTime, completions, exec, ok, calls)
    ensures |contexts| == calls
    ensures forall j :: 0 <= j < calls ==>
      contexts[j] == run.memoryFunction(StateAt(pre, agentId, startTime, completions[..j], exec))
    ensures Records(run.flows) == StateAt(pre, agentId, startTime, completions[..calls], exec)
  {
    var cond, memory := run.continueCondition, run.memoryFunction;
    calls := 0;
    contexts := [];
    var continuing := cond(Records(run.flows));
    while continuing
      invariant run.flows == earlier + [main]
      invariant calls == |contexts| <= |completions|
      invariant Records(run.flows) == StateAt(pre, agentId, startTime, completions[..calls], exec)
      invariant continuing == cond(StateAt(pre, agentId, startTime, completions[..calls], exec))
      invariant Traced(cond, memory, pre, agentId, startTime, completions, exec, contexts)
      decreases |completions| - calls
    {
      var context := run.Context();
      if calls == |completions| {
        assert completions[..calls] == completions;
        return false, calls, contexts;
      }
      Advance(main, earlier, pre, agentId, startTime, completions, calls, exec);
      ContextsExtend(cond, memory, pre, agentId, startTime, completions, exec, contexts, context);
      contexts := contexts + [context];
      calls := calls + 1;
      continuing := cond(Records(run.flows));
    }
    ok := true;
  }

  /** The start of `run_flow`: the flow "{agent_id}_main", created, marked running and added to the run. */
  method StartMainFlow(run: AgentRun, agentId: string, startTime: real) returns (main: Flow)
    modifies run
    ensures fresh(main) && run.flows == old(run.flows) + [main]
    ensures run.continueCondition == old(run.continueCondition) && run.memoryFunction == old(run.memoryFunction)
    ensures Records(run.flows) == old(Records(run.flows)) + [MainFlowAt(agentId, startTime, [])]
  {
    main := new Flow(MainFlowId(agentId), agentId, None);
    assert main !in old(run.flows);
    main.MarkRunning(startTime);
    assert main.Record() == MainFlowAt(agentId, startTime, []);
    assert Records(old(run.flows)) == old(Records(run.flows));
    run.AddFlow(main);
    RecordsSnoc(old(run.flows), main);
  }

  /** One pass of the loop body, as seen on the run's flows: the next stage. */
  method Advance(main: Flow, ghost earlier: seq<Flow>, ghost pre: seq<FlowRecord>, agentId: string, startTime: real,
                 completions: seq<ChatCompletion>, calls: nat, exec: Executor)
    requires calls < |completions|
    requires forall i :: 0 <= i < |earlier| ==> earlier[i] != main
    requires Records(earlier + [main]) == StateAt(pre, agentId, startTime, completions[..calls], exec)
    modifies main
    ensures Records(earlier + [main]) == StateAt(pre, agentId, startTime, completions[..calls + 1], exec)
  {
    RecordsSnoc(earlier, main);
    ghost var flows := Records(earlier + [main]);
    assert flows[..|earlier|] == Records(earlier) && flows[..|earlier|] == pre;
    assert main.Record() == flows[|earlier|];
    TakeTurn(main, completions[calls], exec);
    assert Records(earlier) == pre;
    NextState(pre, agentId, startTime, completions, calls, exec, main.Record());
    RecordsSnoc(earlier, main);
  }

  /** The end of `run_flow`: the flow is marked completed, its steps unchanged. */
  method Finish(main: Flow, ghost earlier: seq<Flow>, ghost pre: seq<FlowRecord>, agentId: string, startTime: real,
                ghost steps: seq<Step>, endTime: real)
    requires forall i :: 0 <= i < |earlier| ==> earlier[i] != main
    requires Records(earlier + [main]) == pre + [MainFlowAt(agentId, startTime, steps)]
    modifies main
    ensures Records(earlier + [main]) == pre + [Transitioned(MainFlowAt(agentId, startTime, steps), ToCompleted(endTime))]
  {
    RecordsSnoc(earlier, main);
    ghost var flows := Records(earlier + [main]);
    assert flows[..|earlier|] == Records(earlier) && flows[..|earlier|] == pre;
    assert main.Record() == flows[|earlier|];
    main.MarkCompleted(endTime);
    assert Records(earlier) == pre;
    RecordsSnoc(earlier, main);
  }

  /** One pass of the loop body after the model answered: its LLMStep, then its tool batch when it asked for tools. */
  method TakeTurn(main: Flow, completion: ChatCompletion, exec: Executor)
    modifies main
    ensures main.Record() == old(main.Record()).(steps := old(main.steps) + Turn(completion, exec))
  {
    main.AddStep(LLMStep(Chat(completion)));
    if completion.toolCalls != [] {
      var batch := ExecuteToolBatch(completion.toolCalls, exec);
      main.AddStep(ToolStep(batch));
    }
  }

  /** The main flow after one more turn is the main flow of the next stage. */
  lemma NextState(pre: seq<FlowRecord>, agentId: string, startTime: real, cs: seq<ChatCompletion>, k: nat,
                  exec: Executor, rec: FlowRecord)
    requires k < |cs|
    requires var steps := MainSteps(cs[..k], exec);
      rec == MainFlowAt(agentId, startTime, steps).(steps := steps + Turn(cs[k], exec))
    ensures rec == MainFlowAt(agentId, startTime, MainSteps(cs[..k + 1], exec))
    ensures pre + [rec] == StateAt(pre, agentId, startTime, cs[..k + 1], exec)
  {
    MainStepsNext(cs, k, exec);
  }

  /** One more answer extends the main flow by that answer's turn. */
  lemma MainStepsNext(cs: seq<ChatCompletion>, k: nat, exec: Executor)
    requires k < |cs|
    ensures MainSteps(cs[..k + 1], exec) == MainSteps(cs[..k], exec) + Turn(cs[k], exec)
  {
    assert cs[..k + 1][..k] == cs[..k];
  }

  // ---------------------------------------------------------------- run_agent

  /** The tool specs for the configured names, in order; the first unregistered name raises. */
  function ToolSpecs(registry: map<string, Tool>, names: seq<string>): (r: Result<seq<Json>>)
    ensures r.Ok? <==> forall i :: 0 <= i < |names| ==> names[i] in registry
    ensures r.Ok? ==> |r.value| == |names|
    ensures r.Ok? ==> forall i :: 0 <= i < |names| ==> r.value[i] == OpenAiToolSpec(registry[names[i]])
    ensures r.Err? ==> exists i :: 0 <= i < |names| && names[i] !in registry && r.error == NotFound(names[i]) &&
                                   forall j :: 0 <= j < i ==> names[j] in registry
  {
    if names == [] then Ok([])
    else
      match LookupTool(registry, names[0])
      case Err(e) => Err(e)
      case Ok(t) =>
        match ToolSpecs(registry, names[1..])
        case Err(e) => assert names[1..][0] == names[1]; Err(e)
        case Ok(rest) => Ok([OpenAiToolSpec(t)] + rest)
  }

  /** The tools a run is given: none unless the configuration names some. */
  function ConfiguredTools(registry: map<string, Tool>, config: AgentConfig): (r: Result<Option<seq<Json>>>)
    ensures config.tools.None? || config.tools.value == [] ==> r == Ok(None)
  {
    if config.tools.Some? && config.tools.value != [] then
      match ToolSpecs(registry, config.tools.value)
      case Err(e) => Err(e)
      case Ok(specs) => Ok(Some(specs))
    else Ok(None)
  }

  /** The flow "initial" that `run_agent` seeds: the input as one InputStep; it is never marked running. */
  function SeedFlow(agentName: string, input: seq<Message>): (r: FlowRecord)
    ensures r.id == "initial" && r.agentId == agentName && r.status == Pending && r.steps == [InputStep(input)]
  {
    NewFlow("initial", agentName, None).(steps := [InputStep(input)])
  }

  /** After seeding, the run's last step is the seeded InputStep, whatever came before. */
  lemma SeededRunEndsWithInput(pre: seq<FlowRecord>, agentName: string, input: seq<Message>)
    ensures EndsWithInput(pre + [SeedFlow(agentName, input)])
    ensures AllSteps(pre + [SeedFlow(agentName, input)]) == AllSteps(pre) + [InputStep(input)]
  {
    var seeded := pre + [SeedFlow(agentName, input)];
    assert seeded[..|pre|] == pre;
  }

  /** The agent id `run_flow` is called with by `run_agent`. */
  const RUN_AGENT_ID: string := "default"

  /**
   * `run_agent`: resolves the configured tools and the instructions (either
   * may raise, before the run is touched), seeds the flow "initial" with the
   * instruction messages followed by the input, then runs the loop under the
   * agent id "default".
   */
  method RunAgent(agent: AgentRun, config: AgentConfig, messages: seq<Message>, exec: Executor,
                  completions: seq<ChatCompletion>, startTime: real, endTime: real)
    returns (outcome: Result<()>, calls: nat, contexts: seq<seq<Message>>)
    modifies agent
    ensures agent.continueCondition == old(agent.continueCondition) && agent.memoryFunction == old(agent.memoryFunction)
    ensures ConfiguredTools(exec.tools, config).Err? ==>
      outcome == Err(ConfiguredTools(exec.tools, config).error) && agent.flows == old(agent.flows) && calls == 0
    ensures ConfiguredTools(exec.tools, config).Ok? && ProcessInstructions(config.instructions).Err? ==>
      outcome == Err(ProcessInstructions(config.instructions).error) && agent.flows == old(agent.flows) && calls == 0
    ensures ConfiguredTools(exec.tools, config).Ok? && ProcessInstructions(config.instructions).Ok? ==>
      var seeded := old(Records(agent.flows)) + [SeedFlow(config.name, ProcessInstructions(config.instructions).value + messages)];
      && LoopTrace(agent.continueCondition, seeded, RUN_AGENT_ID, startTime, completions, exec, outcome.Ok?, calls)
      && |contexts| == calls
      && (forall j :: 0 <= j < calls ==>
            contexts[j] == agent.memoryFunction(StateAt(seeded, RUN_AGENT_ID, startTime, completions[..j], exec)))
      && (outcome.Ok? ==>
            Records(agent.flows) ==
              seeded + [Transitioned(MainFlowAt(RUN_AGENT_ID, startTime, MainSteps(completions[..calls], exec)), ToCompleted(endTime))])
      && (outcome.Err? ==>
            outcome.error == NO_ANSWER && Records(agent.flows) == StateAt(seeded, RUN_AGENT_ID, startTime, completions, exec))
  {
    contexts := [];
    var specs := ConfiguredTools(exec.tools, config);
    if specs.Err? {
      return Err(specs.error), 0, [];
    }
    var instructions := ProcessInstructions(config.instructions);
    if instructions.Err? {
      return Err(instructions.error), 0, [];
    }
    var initial := Seed(agent, config.name, instructions.value + messages);
    outcome, calls, contexts := RunFlow(agent, exec, completions, RUN_AGENT_ID, startTime, endTime);
  }

  /** The seeding step of `run_agent`: the flow "initial" with the input as one InputStep, added to the run. */
  method Seed(agent: AgentRun, agentName: string, input: seq<Message>) returns (initial: Flow)
    modifies agent
    ensures fresh(initial) && agent.flows == old(agent.flows) + [initial]
    ensures agent.continueCondition == old(agent.continueCondition) && agent.memoryFunction == old(agent.memoryFunction)
    ensures Records(agent.flows) == old(Records(agent.flows)) + [SeedFlow(agentName, input)]
  {
    initial := new Flow("initial", agentName, None);
    assert initial !in old(agent.flows);
    assert initial.steps == [];
    initial.AddStep(InputStep(input));
    assert initial.Record() == SeedFlow(agentName, input);
    assert Records(old(agent.flows)) == old(Records(agent.flows));
    agent.AddFlow(initial);
    RecordsSnoc(old(agent.flows), initial);
  }

  /**
   * End to end with the corrected default: an agent whose model answers at
   * once without tools is asked exactly once, and its last output is that
   * answer's content.
   */
  lemma PlainAnswerIsLastOutput(pre: seq<FlowRecord>, startTime: real, endTime: real, c: ChatCompletion,
                                exec: Executor, ok: bool, calls: nat)
    requires EndsWithInput(pre)
    requires c.toolCalls == []
    requires LoopTrace(flows => SeedAwareContinue(None, flows), pre, RUN_AGENT_ID, startTime, [c], exec, ok, calls)
    ensures calls == 1 && ok
    ensures LastOutput(pre + [Transitioned(MainFlowAt(RUN_AGENT_ID, startTime, MainSteps([c][..calls], exec)),
                                           ToCompleted(endTime))])
            == Ok(ContentOrEmpty(c.content))
  {
    SeedAwareStopsAtFirstAnswer(pre, RUN_AGENT_ID, startTime, [c], exec, 0, ok, calls);
    assert [c][..1] == [c];
    assert MainSteps([c], exec) == MainSteps([c][..0], exec) + Turn(c, exec);
  }
}
