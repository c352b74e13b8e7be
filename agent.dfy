/**
 * The agent run and what can be read off it (src/scouter/llmcore/agent.py):
 * token usage, the last output, the tool executions, the default
 * continuation policy, instruction normalisation and agent creation.
 *
 * The run-level views are functions of the flows' records; `AgentRun`'s
 * members compute them from the live `Flow` objects.
 */
module Agent {
  import opened Wrappers
  import opened Messages
  import opened LlmState
  import opened Memory

  // ---------------------------------------------------------------- usage

  /** The three token counters `total_usage` returns. */
  datatype Totals = Totals(completionTokens: int, promptTokens: int, totalTokens: int)
  {
    function Plus(other: Totals): Totals
    {
      Totals(completionTokens + other.completionTokens, promptTokens + other.promptTokens,
             totalTokens + other.totalTokens)
    }
  }

  const ZERO: Totals := Totals(0, 0, 0)

  /** `counter or 0`. */
  function OrZero(counter: Option<int>): int
  {
    if counter.Some? then counter.value else 0
  }

  /** What one step adds to the totals: the counters of a chat completion that reports usage, else nothing. */
  function StepUsage(step: Step): Totals
  {
    if step.LLMStep? && step.completion.Chat? && step.completion.chat.usage.Some? then
      var u := step.completion.chat.usage.value;
      Totals(OrZero(u.completionTokens), OrZero(u.promptTokens), OrZero(u.totalTokens))
    else ZERO
  }

  /** The counters summed over a list of steps. */
  function UsageSum(steps: seq<Step>): Totals
  {
    if steps == [] then ZERO else UsageSum(steps[..|steps| - 1]).Plus(StepUsage(steps[|steps| - 1]))
  }

  /** Summing distributes over concatenation. */
  lemma {:induction false} UsageSumAppend(a: seq<Step>, b: seq<Step>)
    ensures UsageSum(a + b) == UsageSum(a).Plus(UsageSum(b))
    decreases |b|
  {
    if b == [] {
      assert a + b == a;
    } else {
      assert (a + b)[..|a + b| - 1] == a + b[..|b| - 1];
      UsageSumAppend(a, b[..|b| - 1]);
    }
  }

  /** Steps that are not chat completions with usage (inputs, tool batches, structured outputs) add nothing. */
  lemma {:induction false} OtherStepsAddNothing(steps: seq<Step>)
    requires forall i :: 0 <= i < |steps| ==> StepUsage(steps[i]) == ZERO
    ensures UsageSum(steps) == ZERO
  {
    if steps != [] {
      var init := steps[..|steps| - 1];
      forall i | 0 <= i < |init|
        ensures StepUsage(init[i]) == ZERO
      {
        assert init[i] == steps[i];
      }
      OtherStepsAddNothing(init);
      assert StepUsage(steps[|steps| - 1]) == ZERO;
    }
  }

  /** A chat completion that reports usage adds its counters, a missing counter as 0. */
  lemma ChatUsageCounted(steps: seq<Step>, c: ChatCompletion)
    requires c.usage.Some?
    ensures UsageSum(steps + [LLMStep(Chat(c))]).totalTokens == UsageSum(steps).totalTokens + OrZero(c.usage.value.totalTokens)
    ensures UsageSum(steps + [LLMStep(Chat(c))]).promptTokens == UsageSum(steps).promptTokens + OrZero(c.usage.value.promptTokens)
    ensures UsageSum(steps + [LLMStep(Chat(c))]).completionTokens ==
            UsageSum(steps).completionTokens + OrZero(c.usage.value.completionTokens)
  {
    assert (steps + [LLMStep(Chat(c))])[..|steps|] == steps;
  }

  /** True iff the step is an LLMStep holding a structured-output model. */
  predicate IsStructured(step: Step)
  {
    step.LLMStep? && step.completion.Structured?
  }

  /** True iff some step is structured. */
  predicate HasStructured(steps: seq<Step>)
  {
    steps != [] && (HasStructured(steps[..|steps| - 1]) || IsStructured(steps[|steps| - 1]))
  }

  lemma {:induction false} HasStructuredAppend(a: seq<Step>, b: seq<Step>)
    ensures HasStructured(a + b) <==> HasStructured(a) || HasStructured(b)
    decreases |b|
  {
    if b == [] {
      assert a + b == a;
    } else {
      assert (a + b)[..|a + b| - 1] == a + b[..|b| - 1];
      HasStructuredAppend(a, b[..|b| - 1]);
    }
  }

  /** `HasStructured` holds exactly when some position holds a structured step. */
  lemma {:induction false} HasStructuredWitness(steps: seq<Step>)
    ensures HasStructured(steps) <==> exists i :: 0 <= i < |steps| && IsStructured(steps[i])
  {
    if steps != [] {
      var init := steps[..|steps| - 1];
      HasStructuredWitness(init);
      if exists i :: 0 <= i < |steps| && IsStructured(steps[i]) {
        var i :| 0 <= i < |steps| && IsStructured(steps[i]);
        if i < |init| {
          assert init[i] == steps[i];
        }
      }
      if exists i :: 0 <= i < |init| && IsStructured(init[i]) {
        var i :| 0 <= i < |init| && IsStructured(init[i]);
        assert steps[i] == init[i];
      }
    }
  }

  /** The usage sum and the structured flag after one more flow. */
  lemma UsageThroughFlow(recs: seq<FlowRecord>, i: nat)
    requires i < |recs|
    ensures UsageSum(AllSteps(recs[..i + 1])) == UsageSum(AllSteps(recs[..i])).Plus(UsageSum(recs[i].steps))
    ensures HasStructured(AllSteps(recs[..i + 1])) <==> HasStructured(AllSteps(recs[..i])) || HasStructured(recs[i].steps)
  {
    assert recs[..i + 1][..i] == recs[..i];
    UsageSumAppend(AllSteps(recs[..i]), recs[i].steps);
    HasStructuredAppend(AllSteps(recs[..i]), recs[i].steps);
  }

  /** One structured step in any flow makes the whole run's usage an error. */
  lemma StructuredFlowSpoilsRun(recs: seq<FlowRecord>, i: nat)
    requires i < |recs| && HasStructured(recs[i].steps)
    ensures HasStructured(AllSteps(recs))
  {
    var upTo := recs[..i + 1];
    assert HasStructured(AllSteps(upTo)) by {
      assert upTo[..i] == recs[..i] && upTo[i] == recs[i];
      HasStructuredAppend(AllSteps(recs[..i]), recs[i].steps);
    }
    assert recs == upTo + recs[i + 1..];
    AllStepsAppend(upTo, recs[i + 1..]);
    HasStructuredAppend(AllSteps(upTo), AllSteps(recs[i + 1..]));
  }

  /**
   * `AgentRun.total_usage`: the counters summed over every step of every flow.
   * It reads `completion.usage` on every LLMStep, so a structured-output step
   * (which has no `usage`) raises AttributeError.
   */
  function RunUsage(flows: seq<FlowRecord>): (r: Result<Totals>)
    ensures r.Err? <==> HasStructured(AllSteps(flows))
    ensures r.Err? ==> r.error.AttributeError?
    ensures r.Ok? ==> r.value == UsageSum(AllSteps(flows))
  {
    if HasStructured(AllSteps(flows)) then Err(AttributeError("usage")) else Ok(UsageSum(AllSteps(flows)))
  }

  // ---------------------------------------------------------------- tool executions

  /** The ToolSteps among `steps`, in order. */
  function ToolSteps(steps: seq<Step>): (r: seq<Step>)
    ensures |r| <= |steps|
    ensures forall s :: s in r <==> s in steps && s.ToolStep?
  {
    if steps == [] then []
    else
      var last := steps[|steps| - 1];
      ToolSteps(steps[..|steps| - 1]) + (if last.ToolStep? then [last] else [])
  }

  lemma {:induction false} ToolStepsAppend(a: seq<Step>, b: seq<Step>)
    ensures ToolSteps(a + b) == ToolSteps(a) + ToolSteps(b)
    decreases |b|
  {
    if b == [] {
      assert a + b == a;
    } else {
      assert (a + b)[..|a + b| - 1] == a + b[..|b| - 1];
      ToolStepsAppend(a, b[..|b| - 1]);
    }
  }

  /** `tool_executions`: the ToolSteps of all flows, flows in order and steps in order. */
  function ToolExecutions(flows: seq<FlowRecord>): seq<Step>
  {
    ToolSteps(AllSteps(flows))
  }

  /** A flow added to the run adds exactly its own ToolSteps, after the earlier ones. */
  lemma ToolExecutionsAddFlow(flows: seq<FlowRecord>, flow: FlowRecord)
    ensures ToolExecutions(flows + [flow]) == ToolExecutions(flows) + ToolSteps(flow.steps)
  {
    assert (flows + [flow])[..|flows|] == flows;
    ToolStepsAppend(AllSteps(flows), flow.steps);
  }

  // ---------------------------------------------------------------- last output

  /** `str(d)` of a tool message dict, its strings shown between single quotes. */
  function ToolMessageRepr(call: ToolCall): string
  {
    "{'role': 'tool', 'content': '" + call.output + "', 'tool_call_id': '" + call.toolCallId + "'}"
  }

  /** The items' reprs joined by ", ". */
  function JoinReprs(calls: seq<ToolCall>): string
  {
    if calls == [] then ""
    else if |calls| == 1 then ToolMessageRepr(calls[0])
    else JoinReprs(calls[..|calls| - 1]) + ", " + ToolMessageRepr(calls[|calls| - 1])
  }

  /** `str(step.messages)` for a ToolStep: the list of its tool messages. */
  function ToolStepRepr(calls: seq<ToolCall>): (r: string)
    ensures calls == [] ==> r == "[]"
    ensures |r| >= 2 && r[0] == '[' && r[|r| - 1] == ']'
  {
    "[" + JoinReprs(calls) + "]"
  }

  /** `content if content else ""`. */
  function ContentOrEmpty(content: Option<string>): string
  {
    if content.Some? then content.value else ""
  }

  /**
   * `AgentRun.last_output`: only the last flow is inspected. No flows raises
   * InvalidRunStateError; an empty last flow gives ""; a chat LLMStep gives
   * its content ("" when there is none); a ToolStep gives the repr of its
   * messages; an InputStep gives "". A structured-output LLMStep has no
   * `choices`, so reading them raises AttributeError.
   */
  function LastOutput(flows: seq<FlowRecord>): (r: Result<string>)
    ensures flows == [] <==> r == Err(InvalidRunStateError("No flows in run"))
    ensures flows != [] && flows[|flows| - 1].steps == [] ==> r == Ok("")
    ensures r.Err? ==> flows == [] || r.error.AttributeError?
  {
    if flows == [] then Err(InvalidRunStateError("No flows in run"))
    else
      var steps := flows[|flows| - 1].steps;
      if steps == [] then Ok("")
      else
        match steps[|steps| - 1]
        case LLMStep(Chat(c)) => Ok(ContentOrEmpty(c.content))
        case LLMStep(Structured(_)) => Err(AttributeError("choices"))
        case ToolStep(calls) => Ok(ToolStepRepr(calls))
        case InputStep(_) => Ok("")
  }

  /** Earlier flows do not matter: the last output is that of the last flow alone. */
  lemma LastOutputReadsLastFlow(flows: seq<FlowRecord>)
    requires flows != []
    ensures LastOutput(flows) == LastOutput([flows[|flows| - 1]])
  {
  }

  /** After a step is added to the last flow, the last output is that step's own output. */
  lemma LastOutputAfterStep(flows: seq<FlowRecord>, step: Step)
    requires flows != []
    ensures var last := flows[|flows| - 1];
      var flows' := flows[..|flows| - 1] + [last.(steps := last.steps + [step])];
      && (step.LLMStep? && step.completion.Chat? ==> LastOutput(flows') == Ok(ContentOrEmpty(step.completion.chat.content)))
      && (step.ToolStep? ==> LastOutput(flows') == Ok(ToolStepRepr(step.calls)))
      && (step.InputStep? ==> LastOutput(flows') == Ok(""))
  {
    var last := flows[|flows| - 1];
    var flows' := flows[..|flows| - 1] + [last.(steps := last.steps + [step])];
    assert flows'[|flows'| - 1].steps == last.steps + [step];
  }

  // ---------------------------------------------------------------- continuation

  /** The number of LLMSteps. */
  function LlmCount(steps: seq<Step>): nat
  {
    if steps == [] then 0 else LlmCount(steps[..|steps| - 1]) + (if steps[|steps| - 1].LLMStep? then 1 else 0)
  }

  lemma {:induction false} LlmCountAppend(a: seq<Step>, b: seq<Step>)
    ensures LlmCount(a + b) == LlmCount(a) + LlmCount(b)
    decreases |b|
  {
    if b == [] {
      assert a + b == a;
    } else {
      assert (a + b)[..|a + b| - 1] == a + b[..|b| - 1];
      LlmCountAppend(a, b[..|b| - 1]);
    }
  }

  /** True iff the run's LLM-step budget is spent. */
  predicate BudgetSpent(maxSteps: Option<int>, flows: seq<FlowRecord>)
  {
    maxSteps.Some? && LlmCount(AllSteps(flows)) >= maxSteps.value
  }

  /**
   * The condition `default_continue_condition_factory(max_steps)` returns:
   * stop once the LLM-step budget is spent; otherwise continue when there
   * are no steps at all, or when the last step of all flows is a ToolStep.
   */
  function DefaultContinue(maxSteps: Option<int>, flows: seq<FlowRecord>): (r: bool)
    ensures BudgetSpent(maxSteps, flows) ==> !r
    ensures !BudgetSpent(maxSteps, flows) && AllSteps(flows) == [] ==> r
    ensures r && AllSteps(flows) != [] ==> AllSteps(flows)[|AllSteps(flows)| - 1].ToolStep?
    ensures !BudgetSpent(maxSteps, flows) && AllSteps(flows) != [] && AllSteps(flows)[|AllSteps(flows)| - 1].ToolStep? ==> r
  {
    if BudgetSpent(maxSteps, flows) then false
    else
      var all := AllSteps(flows);
      all == [] || all[|all| - 1].ToolStep?
  }

  /**
   * The continuation policy as evidently intended: as `DefaultContinue`, but a
   * run whose last step is the InputStep that `run_agent` seeds is also still
   * waiting for its first model call.
   */
  function SeedAwareContinue(maxSteps: Option<int>, flows: seq<FlowRecord>): (r: bool)
    ensures BudgetSpent(maxSteps, flows) ==> !r
    ensures DefaultContinue(maxSteps, flows) ==> r
    ensures r && !DefaultContinue(maxSteps, flows) ==> AllSteps(flows)[|AllSteps(flows)| - 1].InputStep?
    ensures !BudgetSpent(maxSteps, flows) && AllSteps(flows) != [] && AllSteps(flows)[|AllSteps(flows)| - 1].InputStep? ==> r
  {
    if BudgetSpent(maxSteps, flows) then false
    else
      var all := AllSteps(flows);
      all == [] || all[|all| - 1].ToolStep? || all[|all| - 1].InputStep?
  }

  /** Both conditions stop right after a plain answer (an LLMStep), budget or not. */
  lemma ConditionsStopAfterAnswer(maxSteps: Option<int>, flows: seq<FlowRecord>)
    requires AllSteps(flows) != [] && AllSteps(flows)[|AllSteps(flows)| - 1].LLMStep?
    ensures !DefaultContinue(maxSteps, flows) && !SeedAwareContinue(maxSteps, flows)
  {
  }

  // ---------------------------------------------------------------- instructions

  /** The forms an agent's instructions can take; `Unsupported` is any other Python value, by its type name. */
  datatype Instructions =
    | NoInstructions
    | SystemPrompt(prompt: string)
    | Tuple(items: seq<string>)
    | MessageList(messages: seq<Message>)
    | Unsupported(typeName: string)

  const TUPLE_INSTRUCTION_LENGTH: nat := 2

  /**
   * `_process_instructions`: None gives no messages, a string one system
   * message (even an empty one), a pair the instruction messages of its two
   * prompts, a list itself; anything else, including a tuple of another
   * length, is a ValueError.
   */
  function ProcessInstructions(instructions: Instructions): (r: Result<seq<Message>>)
    ensures r.Err? <==> instructions.Unsupported? || (instructions.Tuple? && |instructions.items| != TUPLE_INSTRUCTION_LENGTH)
    ensures r.Err? ==> r.error.ValueError?
    ensures instructions.NoInstructions? ==> r == Ok([])
    ensures instructions.SystemPrompt? ==> r == Ok([SystemMessage(instructions.prompt)])
    ensures instructions.Tuple? && |instructions.items| == TUPLE_INSTRUCTION_LENGTH ==>
      r == Ok(Instruction(instructions.items[0], instructions.items[1]))
    ensures instructions.MessageList? ==> r == Ok(instructions.messages)
  {
    match instructions
    case NoInstructions => Ok([])
    case SystemPrompt(prompt) => Ok([SystemMessage(prompt)])
    case Tuple(items) =>
      if |items| == TUPLE_INSTRUCTION_LENGTH then Ok(Instruction(items[0], items[1]))
      else Err(ValueError("Invalid instruction format: <class 'tuple'>"))
    case MessageList(messages) => Ok(messages)
    case Unsupported(typeName) => Err(ValueError("Invalid instruction format: <class '" + typeName + "'>"))
  }

  /**
   * A bare system prompt and the pair (prompt, "") agree exactly when the
   * prompt is non-empty: the pair drops an empty prompt, the string keeps it.
   */
  lemma SystemPromptVersusPair(prompt: string)
    ensures ProcessInstructions(SystemPrompt(prompt)) == ProcessInstructions(Tuple([prompt, ""])) <==> prompt != ""
  {
    if prompt == "" {
      assert ProcessInstructions(Tuple([prompt, ""])) == Ok([]);
      assert |ProcessInstructions(SystemPrompt(prompt)).value| == 1;
    } else {
      assert Instruction(prompt, "") == [SystemMessage(prompt)];
    }
  }

  // ---------------------------------------------------------------- the run

  /** A continuation policy and a memory function, both over the run's flow records. */
  type Condition = seq<FlowRecord> -> bool
  type MemoryFunction = seq<FlowRecord> -> seq<Message>

  /** The dataclass `AgentRun`: its policy, its flows and its memory function. */
  class AgentRun {
    var continueCondition: Condition
    var flows: seq<Flow>
    var memoryFunction: MemoryFunction

    constructor (continueCondition: Condition, memoryFunction: MemoryFunction)
      ensures this.continueCondition == continueCondition && this.memoryFunction == memoryFunction
      ensures flows == []
    {
      this.continueCondition := continueCondition;
      this.memoryFunction := memoryFunction;
      flows := [];
    }

    /** The flows' current contents. */
    function Snapshot(): seq<FlowRecord>
      reads this, flows
    {
      Records(flows)
    }

    /** `add_flow`: appends; the flows already there, and the policy and memory, stay. */
    method AddFlow(flow: Flow)
      modifies this
      ensures flows == old(flows) + [flow]
      ensures continueCondition == old(continueCondition) && memoryFunction == old(memoryFunction)
    {
      flows := flows + [flow];
    }

    /** `get_context`: the memory function applied to the run. */
    function Context(): seq<Message>
      reads this, flows
    {
      memoryFunction(Records(flows))
    }

    /** `total_usage`, by its nested loop over flows and steps. */
    method TotalUsage() returns (r: Result<Totals>)
      ensures r == RunUsage(Records(flows))
    {
      ghost var recs := Records(flows);
      var total := ZERO;
      var i := 0;
      while i < |flows|
        invariant 0 <= i <= |flows|
        invariant !HasStructured(AllSteps(recs[..i]))
        invariant total == UsageSum(AllSteps(recs[..i]))
      {
        var flowTotal := AddFlowUsage(total, flows[i].steps);
        if flowTotal.Err? {
          StructuredFlowSpoilsRun(recs, i);
          return flowTotal;
        }
        UsageThroughFlow(recs, i);
        total := flowTotal.value;
        i := i + 1;
      }
      assert recs[..i] == recs;
      r := Ok(total);
    }

    /** `tool_executions`: extends the list with each flow's ToolSteps. */
    method ToolExecutionsOf() returns (executions: seq<Step>)
      ensures executions == ToolExecutions(Records(flows))
    {
      ghost var recs := Records(flows);
      executions := [];
      var i := 0;
      while i < |flows|
        invariant 0 <= i <= |flows|
        invariant executions == ToolExecutions(recs[..i])
      {
        assert recs[..i + 1] == recs[..i] + [recs[i]];
        ToolExecutionsAddFlow(recs[..i], recs[i]);
        executions := executions + ToolSteps(flows[i].steps);
        i := i + 1;
      }
      assert recs[..i] == recs;
    }
  }

  /**
   * The inner loop of `AgentRun.total_usage`: adds each step's counters, and
   * raises at the first structured-output LLMStep.
   */
  method AddFlowUsage(total: Totals, steps: seq<Step>) returns (r: Result<Totals>)
    ensures r.Err? <==> HasStructured(steps)
    ensures r.Err? ==> r.error == AttributeError("usage")
    ensures r.Ok? ==> r.value == total.Plus(UsageSum(steps))
  {
    var acc := total;
    var j := 0;
    while j < |steps| && !IsStructured(steps[j])
      invariant 0 <= j <= |steps|
      invariant !HasStructured(steps[..j])
      invariant acc == total.Plus(UsageSum(steps[..j]))
    {
      PrefixStep(steps, j);
      PlusAssociates(total, UsageSum(steps[..j]), StepUsage(steps[j]));
      acc := acc.Plus(StepUsage(steps[j]));
      j := j + 1;
    }
    if j < |steps| {
      StructuredAt(steps, j);
      r := Err(AttributeError("usage"));
    } else {
      assert steps[..j] == steps;
      r := Ok(acc);
    }
  }

  /** Adding counters is associative. */
  lemma PlusAssociates(a: Totals, b: Totals, c: Totals)
    ensures a.Plus(b).Plus(c) == a.Plus(b.Plus(c))
  {
  }

  /** One more step of a prefix: its counters are added, and it may be the structured one. */
  lemma PrefixStep(steps: seq<Step>, j: nat)
    requires j < |steps|
    ensures UsageSum(steps[..j + 1]) == UsageSum(steps[..j]).Plus(StepUsage(steps[j]))
    ensures HasStructured(steps[..j + 1]) <==> HasStructured(steps[..j]) || IsStructured(steps[j])
  {
    assert steps[..j + 1][..j] == steps[..j];
  }

  /** A structured step anywhere makes the list structured. */
  lemma StructuredAt(steps: seq<Step>, j: nat)
    requires j < |steps| && IsStructured(steps[j])
    ensures HasStructured(steps)
  {
    PrefixStep(steps, j);
    assert steps == steps[..j + 1] + steps[j + 1..];
    HasStructuredAppend(steps[..j + 1], steps[j + 1..]);
  }

  /** `AgentConfig`: what an agent is created and run with. */
  datatype AgentConfig = AgentConfig(
    name: string,
    model: string,
    temperature: real,
    maxTokens: Option<int>,
    instructions: Instructions,
    tools: Option<seq<string>>,
    memoryFunction: MemoryFunction,
    continueCondition: Option<Condition>)

  /**
   * `create_agent`: a run with no flows, the configured memory function, and
   * the configured condition or else the default one (without a step budget).
   */
  method CreateAgent(config: AgentConfig) returns (run: AgentRun)
    ensures fresh(run) && run.flows == []
    ensures run.memoryFunction == config.memoryFunction
    ensures config.continueCondition.Some? ==> run.continueCondition == config.continueCondition.value
    ensures config.continueCondition.None? ==>
      forall flows :: run.continueCondition(flows) == DefaultContinue(None, flows)
  {
    var condition: Condition;
    if config.continueCondition.Some? {
      condition := config.continueCondition.value;
    } else {
      condition := flows => DefaultContinue(None, flows);
    }
    run := new AgentRun(condition, config.memoryFunction);
  }
}
