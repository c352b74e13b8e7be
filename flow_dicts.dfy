/**
 * The dict-based twin of the flow lifecycle (src/scouter/llmcore/flow.py).
 *
 * A flow dict has exactly the keys of the `Flow` dataclass, so it is modelled
 * by the same `Flow` object; each helper mutates the flow it is given.
 */
module FlowDicts {
  import opened Wrappers
  import opened LlmState

  /** `create_flow`: a new pending flow with no steps and no metadata. */
  method CreateFlow(flowId: string, agentId: string, parentFlowId: Option<string>) returns (flow: Flow)
    ensures fresh(flow)
    ensures flow.Record() == NewFlow(flowId, agentId, parentFlowId)
  {
    flow := new Flow(flowId, agentId, parentFlowId);
  }

  /** `add_step_to_flow`: exactly one step, at the end. */
  method AddStepToFlow(flow: Flow, step: Step)
    modifies flow
    ensures flow.steps == old(flow.steps) + [step]
    ensures flow.Record() == old(flow.Record()).(steps := old(flow.steps) + [step])
  {
    flow.steps := flow.steps + [step];
  }

  /** `mark_flow_running`. */
  method MarkFlowRunning(flow: Flow, now: real)
    modifies flow
    ensures flow.Record() == Transitioned(old(flow.Record()), ToRunning(now))
  {
    flow.status := Running;
    flow.metadata := flow.metadata[START_TIME := Timestamp(now)];
  }

  /** `mark_flow_completed`: adds `end_time`, keeps `start_time`. */
  method MarkFlowCompleted(flow: Flow, now: real)
    modifies flow
    ensures flow.Record() == Transitioned(old(flow.Record()), ToCompleted(now))
    ensures START_TIME in old(flow.metadata) ==> flow.metadata[START_TIME] == old(flow.metadata[START_TIME])
  {
    flow.status := Completed;
    flow.metadata := flow.metadata[END_TIME := Timestamp(now)];
  }

  /** `mark_flow_failed`: records the error text. */
  method MarkFlowFailed(flow: Flow, error: string, now: real)
    modifies flow
    ensures flow.Record() == Transitioned(old(flow.Record()), ToFailed(error, now))
  {
    flow.status := Failed;
    flow.metadata := flow.metadata[ERROR := Text(error)];
    flow.metadata := flow.metadata[END_TIME := Timestamp(now)];
  }

  /** Create a flow, mark it running, then completed: the status follows, both stamps are kept. */
  method RunningThenCompleted(flowId: string, t0: real, t1: real) returns (flow: Flow)
    ensures flow.status == Completed && flow.steps == [] && flow.id == flowId
    ensures flow.metadata == map[START_TIME := Timestamp(t0), END_TIME := Timestamp(t1)]
  {
    flow := CreateFlow(flowId, "default", None);
    MarkFlowRunning(flow, t0);
    assert flow.status == Running;
    MarkFlowCompleted(flow, t1);
  }
}
