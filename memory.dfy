/**
 * The full-history memory function (src/scouter/llmcore/memory.py): the next
 * model context is every step's messages, flows in order and steps in order.
 */
module Memory {
  import opened Messages
  import opened LlmState

  /** The messages of a list of steps, concatenated in order. */
  function StepsMessages(steps: seq<Step>): seq<Message>
  {
    if steps == [] then [] else StepsMessages(steps[..|steps| - 1]) + steps[|steps| - 1].Messages()
  }

  /** The context the full-history memory produces for a run's flows. */
  function History(flows: seq<FlowRecord>): seq<Message>
  {
    if flows == [] then [] else History(flows[..|flows| - 1]) + StepsMessages(flows[|flows| - 1].steps)
  }

  /** The number of messages a list of steps contributes. */
  function MessageCount(steps: seq<Step>): nat
  {
    if steps == [] then 0 else MessageCount(steps[..|steps| - 1]) + |steps[|steps| - 1].Messages()|
  }

  /** The messages of two step lists in a row are the two message lists in a row. */
  lemma {:induction false} StepsMessagesAppend(a: seq<Step>, b: seq<Step>)
    ensures StepsMessages(a + b) == StepsMessages(a) + StepsMessages(b)
    decreases |b|
  {
    if b == [] {
      assert a + b == a;
    } else {
      var init, last := b[..|b| - 1], b[|b| - 1];
      assert (a + b)[..|a + b| - 1] == a + init;
      assert (a + b)[|a + b| - 1] == last;
      StepsMessagesAppend(a, init);
      AppendAssociates(StepsMessages(a), StepsMessages(init), last.Messages());
    }
  }

  /** Concatenation is associative (proved apart from the message functions, whose contracts would crowd the proof). */
  lemma AppendAssociates(a: seq<Message>, b: seq<Message>, c: seq<Message>)
    ensures (a + b) + c == a + (b + c)
  {
  }

  /** The history is the messages of all steps, flows in order and steps in order. */
  lemma {:induction false} HistoryIsAllStepsMessages(flows: seq<FlowRecord>)
    ensures History(flows) == StepsMessages(AllSteps(flows))
  {
    if flows != [] {
      var init := flows[..|flows| - 1];
      HistoryIsAllStepsMessages(init);
      StepsMessagesAppend(AllSteps(init), flows[|flows| - 1].steps);
    }
  }

  /** The length of the history is the sum of the per-step message counts. */
  lemma {:induction false} HistoryLength(flows: seq<FlowRecord>)
    ensures |History(flows)| == MessageCount(AllSteps(flows))
  {
    HistoryIsAllStepsMessages(flows);
    StepsLength(AllSteps(flows));
  }

  lemma {:induction false} StepsLength(steps: seq<Step>)
    ensures |StepsMessages(steps)| == MessageCount(steps)
  {
    if steps != [] {
      StepsLength(steps[..|steps| - 1]);
    }
  }

  /** No flows, or only flows without steps, give an empty context. */
  lemma {:induction false} EmptyFlowsGiveEmptyHistory(flows: seq<FlowRecord>)
    requires forall i :: 0 <= i < |flows| ==> flows[i].steps == []
    ensures History(flows) == []
  {
    if flows != [] {
      EmptyFlowsGiveEmptyHistory(flows[..|flows| - 1]);
    }
  }

  /**
   * Appending a step to the last flow extends the context by exactly that
   * step's messages: the old context is a prefix of the new one.
   */
  lemma AddStepExtendsHistory(flows: seq<FlowRecord>, step: Step)
    requires flows != []
    ensures var last := flows[|flows| - 1];
            History(flows[..|flows| - 1] + [last.(steps := last.steps + [step])])
              == History(flows) + step.Messages()
  {
    var init, last := flows[..|flows| - 1], flows[|flows| - 1];
    var flows' := init + [last.(steps := last.steps + [step])];
    assert flows'[..|flows'| - 1] == init;
    assert (last.steps + [step])[..|last.steps|] == last.steps;
    assert StepsMessages(last.steps + [step]) == StepsMessages(last.steps) + step.Messages();
    AppendAssociates(History(init), StepsMessages(last.steps), step.Messages());
  }

  /** A new flow appended to the run adds its steps' messages at the end. */
  lemma AddFlowExtendsHistory(flows: seq<FlowRecord>, flow: FlowRecord)
    ensures History(flows + [flow]) == History(flows) + StepsMessages(flow.steps)
  {
    assert (flows + [flow])[..|flows|] == flows;
  }

  /**
   * `full_history_memory`: for each flow, for each step, the accumulator is
   * extended with the step's messages. It only reads the flows, so its result
   * is a function of their contents: two calls on the same state agree.
   */
  method FullHistoryMemory(flows: seq<Flow>) returns (messages: seq<Message>)
    ensures messages == History(Records(flows))
  {
    ghost var recs := Records(flows);
    messages := [];
    var i := 0;
    while i < |flows|
      invariant 0 <= i <= |flows|
      invariant messages == History(recs[..i])
    {
      assert recs[i].steps == flows[i].steps;
      messages := ExtendWithSteps(messages, flows[i].steps);
      HistoryThroughFlow(recs, i);
      i := i + 1;
    }
    assert recs[..i] == recs;
  }

  /** The history of one more flow of a run. */
  lemma HistoryThroughFlow(flows: seq<FlowRecord>, i: nat)
    requires i < |flows|
    ensures History(flows[..i + 1]) == History(flows[..i]) + StepsMessages(flows[i].steps)
  {
    assert flows[..i + 1] == flows[..i] + [flows[i]];
    AddFlowExtendsHistory(flows[..i], flows[i]);
  }

  /** The inner loop of `full_history_memory`: `messages.extend(step.messages)` for each step. */
  method ExtendWithSteps(acc: seq<Message>, steps: seq<Step>) returns (messages: seq<Message>)
    ensures messages == acc + StepsMessages(steps)
  {
    messages := acc;
    var j := 0;
    while j < |steps|
      invariant 0 <= j <= |steps|
      invariant messages == acc + StepsMessages(steps[..j])
    {
      assert steps[..j + 1][..j] == steps[..j];
      assert StepsMessages(steps[..j + 1]) == StepsMessages(steps[..j]) + steps[j].Messages();
      AppendAssociates(acc, StepsMessages(steps[..j]), steps[j].Messages());
      messages := messages + steps[j].Messages();
      j := j + 1;
    }
    assert steps[..j] == steps;
  }
}
