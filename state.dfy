/**
 * Steps, flows and the run state (src/scouter/llmcore/state.py).
 *
 * Steps are values: once built they are never changed. A `Flow` is an object
 * whose `steps`, `status` and `metadata` are updated in place; `FlowRecord` is
 * the value a flow holds at one moment, and the run-level functions elsewhere
 * are stated over sequences of such records.
 */
module LlmState {
  import opened Wrappers
  import opened Messages

  /** Token counters reported by the provider; each may be missing. */
  datatype Usage = Usage(completionTokens: Option<int>, promptTokens: Option<int>, totalTokens: Option<int>)

  /** A chat completion, reduced to its first choice's message and its usage counters. */
  datatype ChatCompletion = ChatCompletion(content: Option<string>, toolCalls: seq<ToolCallRequest>, usage: Option<Usage>)
  {
    /** The first choice's message, as it is put into the model's context. */
    function Reply(): Message
    {
      AssistantMessage(content, toolCalls)
    }
  }

  /** What an LLMStep holds: a chat completion, or a structured-output model given by its JSON dump. */
  datatype Completion = Chat(chat: ChatCompletion) | Structured(json: string)

  /** Parsed tool arguments (the decoded JSON object). */
  type Args = map<string, string>

  /** The record of one executed tool call. */
  datatype ToolCall = ToolCall(
    toolCallId: string,
    toolName: string,
    args: Args,
    output: string,
    executionTime: real,
    success: bool,
    errorMessage: Option<string>)
  {
    /** The tool-result message fed back to the model. */
    function Message(): Message
    {
      ToolMessage(output, toolCallId)
    }
  }

  /** The closed sum of steps. */
  datatype Step =
    | InputStep(input: seq<Message>)
    | LLMStep(completion: Completion)
    | ToolStep(calls: seq<ToolCall>)
  {
    /** The chat messages this step contributes to the model's context. */
    function Messages(): (r: seq<Message>)
      ensures InputStep? ==> r == input
      ensures LLMStep? ==> |r| == 1 && r[0].AssistantMessage?
      ensures LLMStep? && completion.Chat? ==> r[0] == completion.chat.Reply()
      ensures LLMStep? && completion.Structured? ==> r[0].text == Some(completion.json) && r[0].toolCalls == []
      ensures ToolStep? ==> |r| == |calls|
      ensures ToolStep? ==> forall i :: 0 <= i < |calls| ==>
                r[i] == ToolMessage(calls[i].output, calls[i].toolCallId)
    {
      match this
      case InputStep(input) => input
      case LLMStep(Chat(c)) => [c.Reply()]
      case LLMStep(Structured(json)) => [AssistantMessage(Some(json), [])]
      case ToolStep(calls) => CallMessages(calls)
    }
  }

  /** `[item.message for item in calls]`. */
  function CallMessages(calls: seq<ToolCall>): (r: seq<Message>)
    ensures |r| == |calls|
    ensures forall i :: 0 <= i < |calls| ==> r[i] == calls[i].Message()
  {
    if calls == [] then [] else CallMessages(calls[..|calls| - 1]) + [calls[|calls| - 1].Message()]
  }

  datatype Status = Pending | Running | Completed | Failed

  /** A metadata value: a wall-clock stamp or an error text. */
  datatype MetaValue = Timestamp(time: real) | Text(text: string)

  const START_TIME: string := "start_time"
  const END_TIME: string := "end_time"
  const ERROR: string := "error"

  /** The contents of a flow at one moment. */
  datatype FlowRecord = FlowRecord(
    id: string,
    agentId: string,
    steps: seq<Step>,
    status: Status,
    metadata: map<string, MetaValue>,
    parentFlowId: Option<string>)

  /** A freshly created flow: pending, no steps, no metadata. */
  function NewFlow(id: string, agentId: string, parentFlowId: Option<string>): (r: FlowRecord)
    ensures r.status == Pending && r.steps == [] && r.metadata == map[]
    ensures r.id == id && r.agentId == agentId && r.parentFlowId == parentFlowId
  {
    FlowRecord(id, agentId, [], Pending, map[], parentFlowId)
  }

  /** A status change together with the clock reading (and error text) it records. */
  datatype Transition = ToRunning(now: real) | ToCompleted(now: real) | ToFailed(error: string, now: real)
  {
    function Target(): Status
    {
      match this
      case ToRunning(_) => Running
      case ToCompleted(_) => Completed
      case ToFailed(_, _) => Failed
    }
  }

  /**
   * The effect of `mark_running`, `mark_completed` and `mark_failed`: the
   * target status and the metadata keys they stamp; steps, ids and parent
   * are untouched, and the prior status is not consulted.
   */
  function Transitioned(r: FlowRecord, t: Transition): (r': FlowRecord)
    ensures r'.status == t.Target()
    ensures r'.steps == r.steps && r'.id == r.id && r'.agentId == r.agentId && r'.parentFlowId == r.parentFlowId
    ensures t.ToRunning? ==> r'.metadata == r.metadata[START_TIME := Timestamp(t.now)]
    ensures t.ToCompleted? ==> r'.metadata == r.metadata[END_TIME := Timestamp(t.now)]
    ensures t.ToFailed? ==> r'.metadata == r.metadata[ERROR := Text(t.error)][END_TIME := Timestamp(t.now)]
  {
    match t
    case ToRunning(now) => r.(status := Running, metadata := r.metadata[START_TIME := Timestamp(now)])
    case ToCompleted(now) => r.(status := Completed, metadata := r.metadata[END_TIME := Timestamp(now)])
    case ToFailed(error, now) =>
      r.(status := Failed, metadata := r.metadata[ERROR := Text(error)][END_TIME := Timestamp(now)])
  }

  /** A sequence of transitions applied in order. */
  function TransitionedAll(r: FlowRecord, ts: seq<Transition>): FlowRecord
  {
    if ts == [] then r else Transitioned(TransitionedAll(r, ts[..|ts| - 1]), ts[|ts| - 1])
  }

  /**
   * Transitions are unguarded: after any non-empty sequence of them the status
   * is the last one's target, whatever came before, and the steps, ids and
   * parent are those the flow started with.
   */
  lemma {:induction false} LastTransitionWins(r: FlowRecord, ts: seq<Transition>)
    ensures TransitionedAll(r, ts).steps == r.steps
    ensures TransitionedAll(r, ts).id == r.id && TransitionedAll(r, ts).agentId == r.agentId
    ensures TransitionedAll(r, ts).parentFlowId == r.parentFlowId
    ensures ts != [] ==> TransitionedAll(r, ts).status == ts[|ts| - 1].Target()
  {
    if ts != [] {
      LastTransitionWins(r, ts[..|ts| - 1]);
    }
  }

  /** `metadata` keys are only ever added: a completed flow keeps its start time. */
  lemma {:induction false} TransitionsKeepKeys(r: FlowRecord, ts: seq<Transition>)
    ensures r.metadata.Keys <= TransitionedAll(r, ts).metadata.Keys
    ensures START_TIME in r.metadata && (forall i :: 0 <= i < |ts| ==> !ts[i].ToRunning?) ==>
              START_TIME in TransitionedAll(r, ts).metadata &&
              TransitionedAll(r, ts).metadata[START_TIME] == r.metadata[START_TIME]
  {
    if ts != [] {
      TransitionsKeepKeys(r, ts[..|ts| - 1]);
    }
  }

  /** A flow of the run: the dataclass `Flow`, updated in place. */
  class Flow {
    var id: string
    var agentId: string
    var steps: seq<Step>
    var status: Status
    var metadata: map<string, MetaValue>
    var parentFlowId: Option<string>

    /** The flow's current contents. */
    function Record(): FlowRecord
      reads this
    {
      FlowRecord(id, agentId, steps, status, metadata, parentFlowId)
    }

    constructor (id: string, agentId: string, parentFlowId: Option<string>)
      ensures Record() == NewFlow(id, agentId, parentFlowId)
    {
      this.id := id;
      this.agentId := agentId;
      this.steps := [];
      this.status := Pending;
      this.metadata := map[];
      this.parentFlowId := parentFlowId;
    }

    /** `add_step`: appends at the end; earlier steps and everything else stay. */
    method AddStep(step: Step)
      modifies this
      ensures steps == old(steps) + [step]
      ensures Record() == old(Record()).(steps := old(steps) + [step])
    {
      steps := steps + [step];
    }

    /** `mark_running`. */
    method MarkRunning(now: real)
      modifies this
      ensures Record() == Transitioned(old(Record()), ToRunning(now))
    {
      status := Running;
      metadata := metadata[START_TIME := Timestamp(now)];
    }

    /** `mark_completed`. */
    method MarkCompleted(now: real)
      modifies this
      ensures Record() == Transitioned(old(Record()), ToCompleted(now))
    {
      status := Completed;
      metadata := metadata[END_TIME := Timestamp(now)];
    }

    /** `mark_failed`. */
    method MarkFailed(error: string, now: real)
      modifies this
      ensures Record() == Transitioned(old(Record()), ToFailed(error, now))
    {
      status := Failed;
      metadata := metadata[ERROR := Text(error)];
      metadata := metadata[END_TIME := Timestamp(now)];
    }
  }

  /** The records of a list of flows, in order. */
  function Records(flows: seq<Flow>): (r: seq<FlowRecord>)
    reads flows
    ensures |r| == |flows|
    ensures forall i :: 0 <= i < |flows| ==> r[i] == flows[i].Record()
  {
    if flows == [] then [] else Records(flows[..|flows| - 1]) + [flows[|flows| - 1].Record()]
  }

  /** The records of a list with one more flow at the end. */
  lemma RecordsSnoc(flows: seq<Flow>, f: Flow)
    ensures Records(flows + [f]) == Records(flows) + [f.Record()]
  {
    assert (flows + [f])[..|flows|] == flows;
  }

  /** Every step of every flow: flows in order, and steps in order within each flow. */
  function AllSteps(flows: seq<FlowRecord>): seq<Step>
  {
    if flows == [] then [] else AllSteps(flows[..|flows| - 1]) + flows[|flows| - 1].steps
  }

  /** Gathering steps distributes over concatenation of flow lists. */
  lemma {:induction false} AllStepsAppend(a: seq<FlowRecord>, b: seq<FlowRecord>)
    ensures AllSteps(a + b) == AllSteps(a) + AllSteps(b)
    decreases |b|
  {
    if b == [] {
      assert a + b == a;
    } else {
      assert (a + b)[..|a + b| - 1] == a + b[..|b| - 1];
      AllStepsAppend(a, b[..|b| - 1]);
    }
  }

  /** The dataclass `State`: a run's id and its list of flows. */
  class State {
    var id: string
    var flows: seq<Flow>

    constructor (id: string)
      ensures this.id == id && flows == []
    {
      this.id := id;
      flows := [];
    }
  }
}
