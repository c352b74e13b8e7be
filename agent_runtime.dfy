/**
 * The runtime variant of a run: a `Runtime` holds its options and a `State`
 * object whose flow list it appends to. Its usage total skips
 * structured-output steps instead of failing on them, its last output shows
 * a structured result as its JSON text, and its default continuation
 * condition is the same one the agent module uses (`Agent.DefaultContinue`).
 */
module AgentRuntime {
  import opened Wrappers
  import opened LlmState
  import opened Agent

  /**
   * `Options`. The persistence store and the trace function are
   * behaviour-free defaults here and are not part of this model.
   */
  datatype Options = Options(tracingEnabled: bool, apiKey: Option<string>, trackUsage: bool,
                             outputModel: Option<string>)

  const DEFAULT_OPTIONS: Options := Options(false, None, true, None)

  /** The message an empty run reports. */
  const NO_FLOWS: Error := InvalidRunStateError("No flows in run")

  /** `Runtime`: options plus the state object the flows live in. */
  class Runtime {
    var options: Options
    var state: State

    /** A runtime over a fresh, empty state (its uuid is supplied). */
    constructor (options: Options, stateId: string)
      ensures this.options == options && fresh(state)
      ensures state.id == stateId && state.flows == []
    {
      this.options := options;
      state := new State(stateId);
    }

    /** `add_flow`: appends to the state's flow list; the state keeps its id. */
    method AddFlow(flow: Flow)
      modifies state
      ensures state.flows == old(state.flows) + [flow] && state.id == old(state.id)
    {
      state.flows := state.flows + [flow];
    }

    /**
     * `total_usage`, by its loop over flows: the counters of every chat
     * completion that reports usage, summed. Structured-output steps add
     * nothing, so unlike `AgentRun.total_usage` this never fails.
     */
    method TotalUsage() returns (total: Totals)
      ensures total == UsageSum(AllSteps(Records(state.flows)))
    {
      ghost var recs := Records(state.flows);
      total := ZERO;
      var i := 0;
      while i < |state.flows|
        invariant 0 <= i <= |state.flows|
        invariant total == UsageSum(AllSteps(recs[..i]))
      {
        total := AddStepsUsage(total, state.flows[i].steps);
        UsageThroughFlow(recs, i);
        i := i + 1;
      }
      assert recs[..i] == recs;
    }

    /** `tool_executions`: every ToolStep of every flow, in order. */
    method ToolExecutionsOf() returns (executions: seq<Step>)
      ensures executions == ToolExecutions(Records(state.flows))
    {
      ghost var recs := Records(state.flows);
      executions := [];
      var i := 0;
      while i < |state.flows|
        invariant 0 <= i <= |state.flows|
        invariant executions == ToolExecutions(recs[..i])
      {
        assert recs[..i + 1] == recs[..i] + [recs[i]];
        ToolExecutionsAddFlow(recs[..i], recs[i]);
        executions := executions + ToolSteps(state.flows[i].steps);
        i := i + 1;
      }
      assert recs[..i] == recs;
    }
  }

  /** The inner loop of `Runtime.total_usage`: adds each step's counters. */
  method AddStepsUsage(total: Totals, steps: seq<Step>) returns (r: Totals)
    ensures r == total.Plus(UsageSum(steps))
  {
    r := total;
    var j := 0;
    while j < |steps|
      invariant 0 <= j <= |steps|
      invariant r == total.Plus(UsageSum(steps[..j]))
    {
      assert steps[..j + 1][..j] == steps[..j];
      assert UsageSum(steps[..j + 1]) == UsageSum(steps[..j]).Plus(StepUsage(steps[j]));
      PlusAssociates(total, UsageSum(steps[..j]), StepUsage(steps[j]));
      r := r.Plus(StepUsage(steps[j]));
      j := j + 1;
    }
    assert steps[..j] == steps;
  }

  /**
   * Where both totals exist they agree: the agent's total fails exactly when
   * a structured-output step is present, and otherwise equals the runtime's.
   */
  lemma UsageTotalsAgree(flows: seq<FlowRecord>)
    ensures !HasStructured(AllSteps(flows)) <==> RunUsage(flows) == Ok(UsageSum(AllSteps(flows)))
  {
  }

  /** A structured-output step leaves the runtime's counters where they were. */
  lemma {:induction false} StructuredStepsAddNothing(steps: seq<Step>, json: string)
    ensures UsageSum(steps + [LLMStep(Structured(json))]) == UsageSum(steps)
  {
    assert (steps + [LLMStep(Structured(json))])[..|steps|] == steps;
    assert StepUsage(LLMStep(Structured(json))) == ZERO;
  }

  /**
   * `Runtime.last_output` with its empty-run guard testing the flow list:
   * no flows raises InvalidRunStateError; otherwise the last flow's last
   * step decides, as for an agent run, except that a structured-output step
   * gives its JSON text.
   */
  function RuntimeLastOutput(flows: seq<FlowRecord>): (r: Result<string>)
    ensures r.Err? <==> flows == []
    ensures r.Err? ==> r.error == NO_FLOWS
    ensures LastOutput(flows).Ok? ==> r == LastOutput(flows)
    ensures flows != [] && flows[|flows| - 1].steps != [] ==>
              var last := flows[|flows| - 1].steps[|flows[|flows| - 1].steps| - 1];
              last.LLMStep? && last.completion.Structured? ==> r == Ok(last.completion.json)
  {
    if flows == [] then Err(NO_FLOWS)
    else
      var steps := flows[|flows| - 1].steps;
      if steps == [] then Ok("")
      else
        match steps[|steps| - 1]
        case LLMStep(Chat(c)) => Ok(ContentOrEmpty(c.content))
        case LLMStep(Structured(json)) => Ok(json)
        case ToolStep(calls) => Ok(ToolStepRepr(calls))
        case InputStep(_) => Ok("")
  }

  /**
   * `Runtime.last_output` as written: its guard tests the `State` object,
   * which is always true, so an empty run goes on to take the last of no
   * flows and fails with IndexError; on any other run it is the corrected
   * function.
   */
  function RuntimeLastOutputAsWritten(flows: seq<FlowRecord>): (r: Result<string>)
    ensures flows == [] ==> r.Err? && r.error.IndexError?
    ensures flows != [] ==> r == RuntimeLastOutput(flows)
  {
    if flows == [] then Err(EMPTY_INDEX) else RuntimeLastOutput(flows)
  }

  /** The empty run is where the two differ: IndexError instead of the intended InvalidRunStateError. */
  lemma EmptyRunRaisesWrongError()
    ensures RuntimeLastOutputAsWritten([]) == Err(EMPTY_INDEX)
    ensures RuntimeLastOutput([]) == Err(NO_FLOWS) && LastOutput([]) == Err(NO_FLOWS)
    ensures RuntimeLastOutputAsWritten([]) != RuntimeLastOutput([])
  {
  }

  /** The two last outputs part only on a structured-output last step, where the agent run fails. */
  lemma LastOutputsDifferOnlyOnStructured(flows: seq<FlowRecord>)
    requires flows != []
    ensures RuntimeLastOutput(flows) != LastOutput(flows) <==>
              var steps := flows[|flows| - 1].steps;
              steps != [] && steps[|steps| - 1].LLMStep? && steps[|steps| - 1].completion.Structured?
  {
  }
}
