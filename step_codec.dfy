/**
 * How steps are persisted (src/scouter/db/models.py): each step is stored
 * as a node carrying its position in its flow, its class name as a tag and
 * a JSON payload, and read back by dispatching on the tag.
 *
 * Payloads are `Json` values; the text layer (`json.dumps` / `json.loads`
 * of a payload) is taken to give back the value it was given. A chat
 * completion's dump and load and an arguments dictionary's dump and load
 * belong to the pydantic and JSON libraries and are supplied as a `JsonLib`.
 */
module StepCodec {
  import opened Wrappers
  import opened Messages
  import opened LlmState
  import opened Tools

  // ---------------------------------------------------------------- library hooks

  /**
   * `model_dump` / `ChatCompletion(**d)` for completions (a dict's fields
   * out, keyword arguments in), the JSON form of an arguments dictionary,
   * and that of a flow's metadata.
   */
  datatype JsonLib = JsonLib(
    dumpCompletion: Completion -> seq<(string, Json)>,
    loadChat: seq<(string, Json)> -> Option<ChatCompletion>,
    dumpArgs: Args -> Json,
    loadArgs: Json -> Option<Args>,
    dumpMetadata: map<string, MetaValue> -> Json)

  /** A key's first occurrence decides what `Get` finds. */
  lemma {:induction false} GetFirst(fields: seq<(string, Json)>, key: string, k: nat)
    requires k < |fields| && fields[k].0 == key
    requires forall i :: 0 <= i < k ==> fields[i].0 != key
    ensures Get(fields, key) == Some(fields[k].1)
    decreases k
  {
    if k > 0 {
      GetFirst(fields[1..], key, k - 1);
    }
  }

  /** The string under `key`, if there is one. */
  function StringField(fields: seq<(string, Json)>, key: string): (r: Option<string>)
    ensures r.Some? <==> Get(fields, key).Some? && Get(fields, key).value.JString?
    ensures r.Some? ==> Get(fields, key) == Some(JString(r.value))
  {
    match Get(fields, key)
    case Some(JString(s)) => Some(s)
    case _ => None
  }

  /** Decodes every item, or fails if any item fails. */
  function DecodeAll<T>(items: seq<Json>, decode: Json -> Option<T>): (r: Option<seq<T>>)
    ensures r.Some? <==> forall i :: 0 <= i < |items| ==> decode(items[i]).Some?
    ensures r.Some? ==> |r.value| == |items| && forall i :: 0 <= i < |items| ==> r.value[i] == decode(items[i]).value
  {
    if items == [] then Some([])
    else
      match decode(items[0])
      case None => None
      case Some(x) =>
        match DecodeAll(items[1..], decode)
        case None => None
        case Some(rest) => Some([x] + rest)
  }

  /** Decoding what was encoded item by item gives the items back. */
  lemma DecodeAllEncoded<T>(items: seq<Json>, xs: seq<T>, decode: Json -> Option<T>)
    requires |items| == |xs|
    requires forall i :: 0 <= i < |xs| ==> decode(items[i]) == Some(xs[i])
    ensures DecodeAll(items, decode) == Some(xs)
  {
    var r := DecodeAll(items, decode);
    assert r.Some?;
    assert r.value == xs;
  }

  // ---------------------------------------------------------------- messages

  /** A requested tool call as the provider's dict. */
  function RequestJson(tc: ToolCallRequest): Json
  {
    JObject([("id", JString(tc.id)), ("type", JString("function")),
             ("function", JObject([("name", JString(tc.name)), ("arguments", JString(tc.arguments))]))])
  }

  function RequestFromJson(j: Json): Option<ToolCallRequest>
  {
    if !j.JObject? then None
    else
      match Get(j.fields, "function")
      case Some(JObject(f)) =>
        var id := StringField(j.fields, "id");
        var name := StringField(f, "name");
        var arguments := StringField(f, "arguments");
        if id.Some? && name.Some? && arguments.Some? then Some(ToolCallRequest(id.value, name.value, arguments.value))
        else None
      case _ => None
  }

  lemma RequestRoundTrip(tc: ToolCallRequest)
    ensures RequestFromJson(RequestJson(tc)) == Some(tc)
  {
    var inner := [("name", JString(tc.name)), ("arguments", JString(tc.arguments))];
    GetFirst(inner, "name", 0);
    GetFirst(inner, "arguments", 1);
    var outer := RequestJson(tc).fields;
    GetFirst(outer, "id", 0);
    GetFirst(outer, "function", 2);
  }

  /** A chat message as the provider's dict. */
  function MessageJson(m: Message): Json
  {
    match m
    case SystemMessage(c) => JObject([("role", JString("system")), ("content", JString(c))])
    case UserMessage(c) => JObject([("role", JString("user")), ("content", JString(c))])
    case AssistantMessage(text, tcs) =>
      JObject([("role", JString("assistant")),
               ("content", if text.Some? then JString(text.value) else JNull),
               ("tool_calls", JArray(seq(|tcs|, i requires 0 <= i < |tcs| => RequestJson(tcs[i]))))])
    case ToolMessage(c, id) => JObject([("role", JString("tool")), ("content", JString(c)), ("tool_call_id", JString(id))])
  }

  /** The reply's text: a string, or null for none. */
  function TextFromJson(j: Option<Json>): Option<Option<string>>
  {
    match j
    case Some(JString(s)) => Some(Some(s))
    case Some(JNull) => Some(None)
    case _ => None
  }

  function MessageFromJson(j: Json): Option<Message>
  {
    if !j.JObject? then None
    else
      var role := StringField(j.fields, "role");
      var content := StringField(j.fields, "content");
      if role == Some("system") && content.Some? then Some(SystemMessage(content.value))
      else if role == Some("user") && content.Some? then Some(UserMessage(content.value))
      else if role == Some("tool") && content.Some? && StringField(j.fields, "tool_call_id").Some? then
        Some(ToolMessage(content.value, StringField(j.fields, "tool_call_id").value))
      else if role == Some("assistant") then
        var text := TextFromJson(Get(j.fields, "content"));
        match Get(j.fields, "tool_calls")
        case Some(JArray(items)) =>
          var calls := DecodeAll(items, RequestFromJson);
          if text.Some? && calls.Some? then Some(AssistantMessage(text.value, calls.value)) else None
        case _ => None
      else None
  }

  lemma MessageRoundTrip(m: Message)
    ensures MessageFromJson(MessageJson(m)) == Some(m)
  {
    var fields := MessageJson(m).fields;
    GetFirst(fields, "role", 0);
    GetFirst(fields, "content", 1);
    assert "tool" != "user" by { assert "tool"[0] != "user"[0]; }
    if m.AssistantMessage? {
      GetFirst(fields, "tool_calls", 2);
      var items := fields[2].1.items;
      forall i | 0 <= i < |m.toolCalls|
        ensures RequestFromJson(items[i]) == Some(m.toolCalls[i])
      {
        RequestRoundTrip(m.toolCalls[i]);
      }
      DecodeAllEncoded(items, m.toolCalls, RequestFromJson);
    } else if m.ToolMessage? {
      GetFirst(fields, "tool_call_id", 2);
    }
  }

  // ---------------------------------------------------------------- tool calls

  /** The keyword names `ToolCall` accepts, in field order. */
  const TOOL_CALL_FIELDS: seq<string> :=
    ["tool_call_id", "tool_name", "args", "output", "execution_time", "success", "error_message"]

  /** No keyword that `ToolCall` does not have. */
  predicate OnlyToolCallKeys(fields: seq<(string, Json)>)
  {
    forall i :: 0 <= i < |fields| ==> fields[i].0 in TOOL_CALL_FIELDS
  }

  /** `call.__dict__`: the record's fields under their names. */
  function ToolCallJson(lib: JsonLib, c: ToolCall): Json
  {
    JObject([("tool_call_id", JString(c.toolCallId)), ("tool_name", JString(c.toolName)),
             ("args", lib.dumpArgs(c.args)), ("output", JString(c.output)),
             ("execution_time", JFloat(c.executionTime)), ("success", JBool(c.success)),
             ("error_message", if c.errorMessage.Some? then JString(c.errorMessage.value) else JNull)])
  }

  /** `ToolCall(**call)`: every key must name a field and every field must be given. */
  function ToolCallFromJson(lib: JsonLib, j: Json): Option<ToolCall>
  {
    if !j.JObject? || !OnlyToolCallKeys(j.fields) then None
    else
      var f := j.fields;
      var id := StringField(f, "tool_call_id");
      var name := StringField(f, "tool_name");
      var args := if Get(f, "args").Some? then lib.loadArgs(Get(f, "args").value) else None;
      var output := StringField(f, "output");
      var time := Get(f, "execution_time");
      var success := Get(f, "success");
      var error := TextFromJson(Get(f, "error_message"));
      if id.Some? && name.Some? && args.Some? && output.Some? && time.Some? && time.value.JFloat?
         && success.Some? && success.value.JBool? && error.Some? then
        Some(ToolCall(id.value, name.value, args.value, output.value, time.value.f, success.value.b, error.value))
      else None
  }

  /** Every key of `call.__dict__` is a keyword `ToolCall` accepts. */
  lemma ToolCallJsonKeys(lib: JsonLib, c: ToolCall)
    ensures OnlyToolCallKeys(ToolCallJson(lib, c).fields)
  {
    var f := ToolCallJson(lib, c).fields;
    assert forall i :: 0 <= i < |f| ==> f[i].0 == TOOL_CALL_FIELDS[i];
  }

  /** Each field of `call.__dict__` is found under its name. */
  lemma ToolCallJsonValues(lib: JsonLib, c: ToolCall)
    ensures var f := ToolCallJson(lib, c).fields;
      && Get(f, "tool_call_id") == Some(JString(c.toolCallId))
      && Get(f, "tool_name") == Some(JString(c.toolName))
      && Get(f, "args") == Some(lib.dumpArgs(c.args))
      && Get(f, "output") == Some(JString(c.output))
      && Get(f, "execution_time") == Some(JFloat(c.executionTime))
      && Get(f, "success") == Some(JBool(c.success))
      && Get(f, "error_message") == Some(if c.errorMessage.Some? then JString(c.errorMessage.value) else JNull)
  {
    var f := ToolCallJson(lib, c).fields;
    GetFirst(f, "tool_call_id", 0);
    GetFirst(f, "tool_name", 1);
    GetFirst(f, "args", 2);
    GetFirst(f, "output", 3);
    GetFirst(f, "execution_time", 4);
    GetFirst(f, "success", 5);
    GetFirst(f, "error_message", 6);
  }

  lemma ToolCallRoundTrip(lib: JsonLib, c: ToolCall)
    requires lib.loadArgs(lib.dumpArgs(c.args)) == Some(c.args)
    ensures ToolCallFromJson(lib, ToolCallJson(lib, c)) == Some(c)
  {
    ToolCallJsonKeys(lib, c);
    ToolCallJsonValues(lib, c);
    var f := ToolCallJson(lib, c).fields;
    assert TextFromJson(Get(f, "error_message")) == Some(c.errorMessage);
  }

  // ---------------------------------------------------------------- steps

  /** What `_serialize_step` may be handed: one of the three step classes, or any other object. */
  datatype Persistable = Known(step: Step) | Other(className: string, text: string)

  const LLM_TAG: string := "LLMStep"
  const TOOL_TAG: string := "ToolStep"
  const INPUT_TAG: string := "InputStep"

  /** `type(step).__name__`. */
  function TypeName(p: Persistable): string
  {
    match p
    case Known(LLMStep(_)) => LLM_TAG
    case Known(ToolStep(_)) => TOOL_TAG
    case Known(InputStep(_)) => INPUT_TAG
    case Other(className, _) => className
  }

  /**
   * `_serialize_step`: a one-key object whose key names the step's content
   * ("completion", "calls" or "input"), or {"data": str(obj)} for anything
   * else.
   */
  function SerializeStep(lib: JsonLib, p: Persistable): (r: Json)
    ensures r.JObject? && |r.fields| == 1
    ensures p.Known? && p.step.LLMStep? ==> r.fields[0].0 == "completion"
    ensures p.Known? && p.step.ToolStep? ==> r.fields[0] == ("calls", JArray(seq(|p.step.calls|, i requires 0 <= i < |p.step.calls| => ToolCallJson(lib, p.step.calls[i]))))
    ensures p.Known? && p.step.InputStep? ==> r.fields[0] == ("input", JArray(seq(|p.step.input|, i requires 0 <= i < |p.step.input| => MessageJson(p.step.input[i]))))
    ensures p.Other? ==> r.fields[0] == ("data", JString(p.text))
  {
    match p
    case Known(LLMStep(c)) => JObject([("completion", JObject(lib.dumpCompletion(c)))])
    case Known(ToolStep(calls)) =>
      JObject([("calls", JArray(seq(|calls|, i requires 0 <= i < |calls| => ToolCallJson(lib, calls[i]))))])
    case Known(InputStep(input)) =>
      JObject([("input", JArray(seq(|input|, i requires 0 <= i < |input| => MessageJson(input[i]))))])
    case Other(_, text) => JObject([("data", JString(text))])
  }

  /** `data_dict[key]`: the payload must be an object holding the key. */
  function Field(data: Json, key: string): (r: Result<Json>)
    ensures r.Err? ==> (!data.JObject? && r.error.TypeError?) || (data.JObject? && r.error == KeyError(key))
    ensures r.Ok? <==> data.JObject? && Get(data.fields, key).Some?
  {
    if !data.JObject? then Err(TypeError("payload is not subscriptable by key"))
    else if Get(data.fields, key).None? then Err(KeyError(key))
    else Ok(Get(data.fields, key).value)
  }

  /** Python's message when `**` is applied to something that is not a mapping. */
  const NOT_A_MAPPING := "argument after ** must be a mapping"

  /** Python's message for a step tag nobody reads. */
  function UnknownStepType(tag: string): Error
  {
    ValueError("Unknown step type: " + tag)
  }

  /**
   * `_deserialize_step`: dispatch on the tag. A "completion" value that is
   * not an object cannot be unpacked as keyword arguments (TypeError); a
   * chat completion the library refuses raises its validation error (a
   * ValueError). The "calls" value is
   * iterated: a list gives its items, an empty object or an empty string
   * gives no calls, and anything else, or an item that is not a keyword set
   * of `ToolCall`, raises TypeError. An InputStep's "input" must be a list of
   * chat messages here (TypeError otherwise). Any other tag raises ValueError
   * naming it.
   */
  function DeserializeStep(lib: JsonLib, tag: string, data: Json): (r: Result<Step>)
    ensures tag != LLM_TAG && tag != TOOL_TAG && tag != INPUT_TAG ==> r == Err(UnknownStepType(tag))
    ensures r.Ok? && tag == LLM_TAG ==> r.value.LLMStep? && r.value.completion.Chat?
    ensures tag == LLM_TAG && Field(data, "completion").Ok? && !Field(data, "completion").value.JObject? ==>
      r == Err(TypeError(NOT_A_MAPPING))
    ensures r.Ok? && tag == TOOL_TAG ==> r.value.ToolStep?
    ensures r.Ok? && tag == INPUT_TAG ==> r.value.InputStep?
  {
    if tag == LLM_TAG then
      match Field(data, "completion")
      case Err(e) => Err(e)
      case Ok(j) =>
        if !j.JObject? then Err(TypeError(NOT_A_MAPPING))
        else if lib.loadChat(j.fields).None? then Err(ValueError("invalid chat completion"))
        else Ok(LLMStep(Chat(lib.loadChat(j.fields).value)))
    else if tag == TOOL_TAG then
      match Field(data, "calls")
      case Err(e) => Err(e)
      case Ok(JArray(items)) =>
        var calls := DecodeAll(items, j => ToolCallFromJson(lib, j));
        if calls.None? then Err(TypeError("invalid ToolCall fields")) else Ok(ToolStep(calls.value))
      case Ok(other) =>
        if other == JObject([]) || other == JString("") then Ok(ToolStep([]))
        else Err(TypeError("calls does not iterate to ToolCall fields"))
    else if tag == INPUT_TAG then
      match Field(data, "input")
      case Err(e) => Err(e)
      case Ok(JArray(items)) =>
        var input := DecodeAll(items, MessageFromJson);
        if input.None? then Err(TypeError("invalid chat message")) else Ok(InputStep(input.value))
      case Ok(_) => Err(TypeError("input is not a list"))
    else Err(UnknownStepType(tag))
  }

  /**
   * Round trip: a ToolStep or InputStep stored under its class name reads
   * back as itself, and so does a chat LLMStep the completion library
   * reloads.
   */
  lemma StepRoundTrip(lib: JsonLib, s: Step)
    requires s.ToolStep? ==> forall i :: 0 <= i < |s.calls| ==> lib.loadArgs(lib.dumpArgs(s.calls[i].args)) == Some(s.calls[i].args)
    requires s.LLMStep? ==> s.completion.Chat? && lib.loadChat(lib.dumpCompletion(s.completion)) == Some(s.completion.chat)
    ensures DeserializeStep(lib, TypeName(Known(s)), SerializeStep(lib, Known(s))) == Ok(s)
  {
    match s
    case LLMStep(_) =>
    case ToolStep(calls) =>
      forall i | 0 <= i < |calls|
        ensures ToolCallFromJson(lib, ToolCallJson(lib, calls[i])) == Some(calls[i])
      {
        ToolCallRoundTrip(lib, calls[i]);
      }
      var items := SerializeStep(lib, Known(s)).fields[0].1.items;
      DecodeAllEncoded(items, calls, j => ToolCallFromJson(lib, j));
    case InputStep(input) =>
      forall i | 0 <= i < |input|
        ensures MessageFromJson(MessageJson(input[i])) == Some(input[i])
      {
        MessageRoundTrip(input[i]);
      }
      var items := SerializeStep(lib, Known(s)).fields[0].1.items;
      DecodeAllEncoded(items, input, MessageFromJson);
  }

  /**
   * Anything written through the fallback branch carries its own class name
   * as its tag, so it can never be read back: reading it raises ValueError.
   */
  lemma FallbackNeverReadBack(lib: JsonLib, className: string, text: string)
    requires className != LLM_TAG && className != TOOL_TAG && className != INPUT_TAG
    ensures DeserializeStep(lib, TypeName(Other(className, text)), SerializeStep(lib, Other(className, text)))
            == Err(UnknownStepType(className))
  {
  }

  /** Iterating an empty object or an empty string gives no calls, as an empty list does. */
  lemma EmptyIterablesGiveNoCalls(lib: JsonLib, empty: Json)
    requires empty == JArray([]) || empty == JObject([]) || empty == JString("")
    ensures DeserializeStep(lib, TOOL_TAG, JObject([("calls", empty)])) == Ok(ToolStep([]))
  {
  }

  // ---------------------------------------------------------------- save_run

  /** A flow node's properties; the metadata is kept as its JSON form. */
  datatype FlowNode = FlowNode(id: string, agentId: string, status: Status, metadata: Json, parentFlowId: Option<string>)

  /** A step node: the flow it hangs from, its position there, its tag and its payload. */
  datatype StepNode = StepNode(flowId: string, index: nat, tag: string, data: Json)

  function FlowNodeOf(lib: JsonLib, f: FlowRecord): FlowNode
  {
    FlowNode(f.id, f.agentId, f.status, lib.dumpMetadata(f.metadata), f.parentFlowId)
  }

  /** The node `save_run` creates for the step at `index` of flow `f`. */
  function StepNodeAt(lib: JsonLib, f: FlowRecord, index: nat): StepNode
    requires index < |f.steps|
  {
    StepNode(f.id, index, TypeName(Known(f.steps[index])), SerializeStep(lib, Known(f.steps[index])))
  }

  /** The step nodes of a run, flow by flow and, within a flow, step by step. */
  function RunStepNodes(lib: JsonLib, flows: seq<FlowRecord>): seq<StepNode>
  {
    if flows == [] then []
    else
      var f := flows[|flows| - 1];
      RunStepNodes(lib, flows[..|flows| - 1]) + seq(|f.steps|, i requires 0 <= i < |f.steps| => StepNodeAt(lib, f, i))
  }

  /**
   * One step node per step of the run; each carries its flow's id, and its
   * index is the step's position in that flow.
   */
  lemma {:induction false} RunStepNodesShape(lib: JsonLib, flows: seq<FlowRecord>)
    ensures |RunStepNodes(lib, flows)| == |AllSteps(flows)|
    ensures forall n :: n in RunStepNodes(lib, flows) ==>
              exists f :: f in flows && n.flowId == f.id && n.index < |f.steps| && n == StepNodeAt(lib, f, n.index)
  {
    if flows != [] {
      var init := flows[..|flows| - 1];
      var f := flows[|flows| - 1];
      RunStepNodesShape(lib, init);
      var tail := seq(|f.steps|, i requires 0 <= i < |f.steps| => StepNodeAt(lib, f, i));
      forall n | n in RunStepNodes(lib, flows)
        ensures exists g :: g in flows && n.flowId == g.id && n.index < |g.steps| && n == StepNodeAt(lib, g, n.index)
      {
        if n in RunStepNodes(lib, init) {
          var g :| g in init && n.flowId == g.id && n.index < |g.steps| && n == StepNodeAt(lib, g, n.index);
          assert g in flows;
        } else {
          assert n in tail;
          var i :| 0 <= i < |tail| && tail[i] == n;
          assert n == StepNodeAt(lib, f, i);
        }
      }
    }
  }

  /**
   * What `save_run` writes for a run's flows: a node per flow and, after
   * it, a node per step of that flow.
   */
  method SaveRun(lib: JsonLib, flows: seq<FlowRecord>) returns (flowNodes: seq<FlowNode>, stepNodes: seq<StepNode>)
    ensures |flowNodes| == |flows|
    ensures forall i :: 0 <= i < |flows| ==> flowNodes[i] == FlowNodeOf(lib, flows[i])
    ensures stepNodes == RunStepNodes(lib, flows)
  {
    flowNodes := [];
    stepNodes := [];
    var k := 0;
    while k < |flows|
      invariant 0 <= k <= |flows|
      invariant |flowNodes| == k
      invariant forall i :: 0 <= i < k ==> flowNodes[i] == FlowNodeOf(lib, flows[i])
      invariant stepNodes == RunStepNodes(lib, flows[..k])
    {
      flowNodes := flowNodes + [FlowNodeOf(lib, flows[k])];
      var nodes := SaveSteps(lib, flows[k]);
      assert flows[..k + 1][..k] == flows[..k];
      stepNodes := stepNodes + nodes;
      k := k + 1;
    }
    assert flows[..k] == flows;
  }

  /** The `enumerate(flow.steps)` loop: one node per step, tagged with its class name and its position. */
  method SaveSteps(lib: JsonLib, f: FlowRecord) returns (nodes: seq<StepNode>)
    ensures nodes == seq(|f.steps|, i requires 0 <= i < |f.steps| => StepNodeAt(lib, f, i))
  {
    nodes := [];
    var i := 0;
    while i < |f.steps|
      invariant 0 <= i <= |f.steps|
      invariant nodes == seq(i, j requires 0 <= j < i => StepNodeAt(lib, f, j))
    {
      nodes := nodes + [StepNode(f.id, i, TypeName(Known(f.steps[i])), SerializeStep(lib, Known(f.steps[i])))];
      i := i + 1;
    }
  }

  /** A saved step node reads back as the step it was made from. */
  lemma SavedStepReadsBack(lib: JsonLib, f: FlowRecord, index: nat)
    requires index < |f.steps|
    requires var s := f.steps[index];
      && (s.ToolStep? ==> forall i :: 0 <= i < |s.calls| ==> lib.loadArgs(lib.dumpArgs(s.calls[i].args)) == Some(s.calls[i].args))
      && (s.LLMStep? ==> s.completion.Chat? && lib.loadChat(lib.dumpCompletion(s.completion)) == Some(s.completion.chat))
    ensures var n := StepNodeAt(lib, f, index);
      DeserializeStep(lib, n.tag, n.data) == Ok(f.steps[index]) && n.index == index && n.flowId == f.id
  {
    StepRoundTrip(lib, f.steps[index]);
  }

  // ---------------------------------------------------------------- load_run

  /** One row of the query: a flow node and the step nodes collected under it. */
  datatype RunRecord = RunRecord(flow: FlowNode, steps: seq<StepNode>)

  /** A loaded flow: the flow dict `load_run` rebuilds. */
  datatype LoadedFlow = LoadedFlow(id: string, agentId: string, status: Status, metadata: Json,
                                   parentFlowId: Option<string>, steps: seq<Step>)

  /** Deserializes step nodes in order; the first failure is raised. */
  function DecodeSteps(lib: JsonLib, nodes: seq<StepNode>): (r: Result<seq<Step>>)
    ensures r.Ok? <==> forall i :: 0 <= i < |nodes| ==> DeserializeStep(lib, nodes[i].tag, nodes[i].data).Ok?
    ensures r.Ok? ==> |r.value| == |nodes|
    ensures r.Ok? ==> forall i :: 0 <= i < |nodes| ==> r.value[i] == DeserializeStep(lib, nodes[i].tag, nodes[i].data).value
  {
    if nodes == [] then Ok([])
    else
      match DeserializeStep(lib, nodes[0].tag, nodes[0].data)
      case Err(e) => Err(e)
      case Ok(s) =>
        match DecodeSteps(lib, nodes[1..])
        case Err(e) => Err(e)
        case Ok(rest) => Ok([s] + rest)
  }

  /** The position of the flow with this id, if one is loaded already. */
  function FindFlow(flows: seq<LoadedFlow>, id: string): (r: Option<nat>)
    ensures r.None? <==> forall k :: 0 <= k < |flows| ==> flows[k].id != id
    ensures r.Some? ==> r.value < |flows| && flows[r.value].id == id
  {
    if flows == [] then None
    else if flows[|flows| - 1].id == id then Some(|flows| - 1)
    else FindFlow(flows[..|flows| - 1], id)
  }

  /** The flow dict built from a flow node, with the given steps. */
  function FlowFrom(node: FlowNode, steps: seq<Step>): LoadedFlow
  {
    LoadedFlow(node.id, node.agentId, node.status, node.metadata, node.parentFlowId, steps)
  }

  /** One record's effect: a flow seen for the first time is created from its node; its steps are appended. */
  function AddRecord(flows: seq<LoadedFlow>, node: FlowNode, steps: seq<Step>): seq<LoadedFlow>
  {
    match FindFlow(flows, node.id)
    case None => flows + [FlowFrom(node, steps)]
    case Some(k) => flows[k := flows[k].(steps := flows[k].steps + steps)]
  }

  /** The grouping loop of `load_run` over the records, in order. */
  function GroupRecords(lib: JsonLib, records: seq<RunRecord>): Result<seq<LoadedFlow>>
  {
    if records == [] then Ok([])
    else
      var last := records[|records| - 1];
      match GroupRecords(lib, records[..|records| - 1])
      case Err(e) => Err(e)
      case Ok(flows) =>
        match DecodeSteps(lib, last.steps)
        case Err(e) => Err(e)
        case Ok(steps) => Ok(AddRecord(flows, last.flow, steps))
  }

  /** The distinct flow ids of the records, each where it is first seen. */
  function FirstSeen(records: seq<RunRecord>): seq<string>
  {
    if records == [] then []
    else
      var ids := FirstSeen(records[..|records| - 1]);
      var id := records[|records| - 1].flow.id;
      if id in ids then ids else ids + [id]
  }

  /** The decoded steps of the records of one flow, in record order (a record that fails adds nothing). */
  function StepsOf(lib: JsonLib, records: seq<RunRecord>, id: string): seq<Step>
  {
    if records == [] then []
    else
      var last := records[|records| - 1];
      var decoded := DecodeSteps(lib, last.steps);
      StepsOf(lib, records[..|records| - 1], id) + (if last.flow.id == id && decoded.Ok? then decoded.value else [])
  }

  /** The ids of loaded flows, in order. */
  function Ids(flows: seq<LoadedFlow>): (r: seq<string>)
    ensures |r| == |flows| && forall k :: 0 <= k < |flows| ==> r[k] == flows[k].id
  {
    seq(|flows|, k requires 0 <= k < |flows| => flows[k].id)
  }

  /** Record `i` is the first to name flow `id`. */
  predicate FirstNamedAt(records: seq<RunRecord>, i: nat, id: string)
  {
    i < |records| && records[i].flow.id == id && forall j :: 0 <= j < i ==> records[j].flow.id != id
  }

  /** Grouping yields one flow per distinct flow id, in first-seen order. */
  lemma {:induction false} GroupIds(lib: JsonLib, records: seq<RunRecord>)
    requires GroupRecords(lib, records).Ok?
    ensures Ids(GroupRecords(lib, records).value) == FirstSeen(records)
  {
    if records != [] {
      var init := records[..|records| - 1];
      var last := records[|records| - 1];
      GroupIds(lib, init);
      var before := GroupRecords(lib, init).value;
      var flows := GroupRecords(lib, records).value;
      assert flows == AddRecord(before, last.flow, DecodeSteps(lib, last.steps).value);
      if FindFlow(before, last.flow.id).Some? {
        var m := FindFlow(before, last.flow.id).value;
        assert Ids(before)[m] == last.flow.id;
        assert Ids(flows) == Ids(before);
      } else {
        UnfoundIsUnseen(before, init, last.flow.id);
        assert Ids(flows) == Ids(before) + [last.flow.id];
      }
    }
  }

  /** An id no loaded flow has was not seen in the records. */
  lemma UnfoundIsUnseen(flows: seq<LoadedFlow>, records: seq<RunRecord>, id: string)
    requires Ids(flows) == FirstSeen(records)
    requires FindFlow(flows, id).None?
    ensures id !in FirstSeen(records)
  {
    assert forall m :: 0 <= m < |flows| ==> Ids(flows)[m] != id;
  }

  /** No two loaded flows share an id. */
  predicate DistinctIds(flows: seq<LoadedFlow>)
  {
    forall a, b :: 0 <= a < b < |flows| ==> flows[a].id != flows[b].id
  }

  /**
   * Adding a record to flows with distinct ids: the ids stay distinct, the
   * flow with the record's id (old or new) gains its steps, and every other
   * flow is unchanged.
   */
  lemma AddRecordEffect(flows: seq<LoadedFlow>, node: FlowNode, steps: seq<Step>)
    requires DistinctIds(flows)
    ensures var after := AddRecord(flows, node, steps);
      && DistinctIds(after)
      && |after| >= |flows|
      && (forall k :: 0 <= k < |flows| && flows[k].id != node.id ==> after[k] == flows[k])
      && (forall k :: 0 <= k < |flows| && flows[k].id == node.id ==> after[k].steps == flows[k].steps + steps)
      && (forall k :: 0 <= k < |flows| ==> after[k].id == flows[k].id)
      && (forall k :: |flows| <= k < |after| ==> after[k] == FlowFrom(node, steps) && k == |flows|)
  {
  }

  /** Each loaded flow's steps are those of its records, in record order. */
  lemma {:induction false} GroupSteps(lib: JsonLib, records: seq<RunRecord>)
    requires GroupRecords(lib, records).Ok?
    ensures DistinctIds(GroupRecords(lib, records).value)
    ensures var flows := GroupRecords(lib, records).value;
      forall k :: 0 <= k < |flows| ==> flows[k].steps == StepsOf(lib, records, flows[k].id)
  {
    if records != [] {
      var init := records[..|records| - 1];
      var last := records[|records| - 1];
      GroupSteps(lib, init);
      var before := GroupRecords(lib, init).value;
      if FindFlow(before, last.flow.id).None? {
        GroupIds(lib, init);
        UnfoundIsUnseen(before, init, last.flow.id);
        StepsOfUnseen(lib, init, last.flow.id);
      }
      assert records == init + [last];
      StepsAfterRecord(lib, init, last, before, DecodeSteps(lib, last.steps).value);
    }
  }

  /** The inductive step of `GroupSteps`: one more record. */
  lemma StepsAfterRecord(lib: JsonLib, init: seq<RunRecord>, last: RunRecord, before: seq<LoadedFlow>, steps: seq<Step>)
    requires DistinctIds(before)
    requires forall k :: 0 <= k < |before| ==> before[k].steps == StepsOf(lib, init, before[k].id)
    requires FindFlow(before, last.flow.id).None? ==> StepsOf(lib, init, last.flow.id) == []
    requires DecodeSteps(lib, last.steps) == Ok(steps)
    ensures var flows := AddRecord(before, last.flow, steps);
      && DistinctIds(flows)
      && forall k :: 0 <= k < |flows| ==> flows[k].steps == StepsOf(lib, init + [last], flows[k].id)
  {
    var flows := AddRecord(before, last.flow, steps);
    var records := init + [last];
    assert records[..|records| - 1] == init;
    AddRecordEffect(before, last.flow, steps);
    forall k | 0 <= k < |flows|
      ensures flows[k].steps == StepsOf(lib, records, flows[k].id)
    {
      var id := flows[k].id;
      assert StepsOf(lib, records, id) == StepsOf(lib, init, id) + (if last.flow.id == id then steps else []);
    }
  }

  /** Every flow's fields other than its steps come from the first record that names it. */
  ghost predicate FieldsFromFirst(records: seq<RunRecord>, flows: seq<LoadedFlow>)
  {
    forall k :: 0 <= k < |flows| ==>
      exists i: nat :: FirstNamedAt(records, i, flows[k].id) && flows[k] == FlowFrom(records[i].flow, flows[k].steps)
  }

  /** Each loaded flow's other fields come from the first record that names it. */
  lemma {:induction false} GroupFields(lib: JsonLib, records: seq<RunRecord>)
    requires GroupRecords(lib, records).Ok?
    ensures FieldsFromFirst(records, GroupRecords(lib, records).value)
  {
    if records != [] {
      var init := records[..|records| - 1];
      var last := records[|records| - 1];
      GroupFields(lib, init);
      var before := GroupRecords(lib, init).value;
      var steps := DecodeSteps(lib, last.steps).value;
      UnfoundNamedByNone(lib, init, last.flow.id);
      FieldsAfterRecord(init, last, before, steps, records, GroupRecords(lib, records).value);
    }
  }

  /** An id the grouped flows lack is named by no record. */
  lemma UnfoundNamedByNone(lib: JsonLib, records: seq<RunRecord>, id: string)
    requires GroupRecords(lib, records).Ok?
    ensures FindFlow(GroupRecords(lib, records).value, id).None? ==> forall j :: 0 <= j < |records| ==> records[j].flow.id != id
  {
    if FindFlow(GroupRecords(lib, records).value, id).None? {
      GroupIds(lib, records);
      UnfoundIsUnseen(GroupRecords(lib, records).value, records, id);
      SeenNamedBefore(records, id);
    }
  }

  /** The inductive step of `GroupFields`: one more record. */
  lemma FieldsAfterRecord(init: seq<RunRecord>, last: RunRecord, before: seq<LoadedFlow>, steps: seq<Step>,
                          records: seq<RunRecord>, flows: seq<LoadedFlow>)
    requires FieldsFromFirst(init, before)
    requires FindFlow(before, last.flow.id).None? ==> forall j :: 0 <= j < |init| ==> init[j].flow.id != last.flow.id
    requires records == init + [last] && flows == AddRecord(before, last.flow, steps)
    ensures FieldsFromFirst(records, flows)
  {
    assert forall k :: 0 <= k < |before| ==> flows[k] == before[k].(steps := flows[k].steps);
    forall k | 0 <= k < |flows|
      ensures exists i: nat :: FirstNamedAt(records, i, flows[k].id) && flows[k] == FlowFrom(records[i].flow, flows[k].steps)
    {
      if k < |before| {
        var i: nat :| FirstNamedAt(init, i, before[k].id) && before[k] == FlowFrom(init[i].flow, before[k].steps);
        assert records[i] == init[i];
        assert FirstNamedAt(records, i, flows[k].id);
      } else {
        assert flows == before + [FlowFrom(last.flow, steps)];
        assert FirstNamedAt(records, |init|, flows[k].id);
      }
    }
  }

  /** An id not among the first-seen ids is named by no record. */
  lemma {:induction false} SeenNamedBefore(records: seq<RunRecord>, id: string)
    requires id !in FirstSeen(records)
    ensures forall j :: 0 <= j < |records| ==> records[j].flow.id != id
  {
    if records != [] {
      var init := records[..|records| - 1];
      SeenNamedBefore(init, id);
      assert forall j :: 0 <= j < |init| ==> records[j] == init[j];
    }
  }

  /** A flow id no record names has no steps. */
  lemma {:induction false} StepsOfUnseen(lib: JsonLib, records: seq<RunRecord>, id: string)
    requires id !in FirstSeen(records)
    ensures StepsOf(lib, records, id) == []
  {
    if records != [] {
      var init := records[..|records| - 1];
      assert id !in FirstSeen(init);
      StepsOfUnseen(lib, init, id);
    }
  }

  /** First-seen ids are distinct, so each loaded flow stands for exactly one id. */
  lemma {:induction false} FirstSeenDistinct(records: seq<RunRecord>)
    ensures forall a, b :: 0 <= a < b < |FirstSeen(records)| ==> FirstSeen(records)[a] != FirstSeen(records)[b]
  {
    if records != [] {
      FirstSeenDistinct(records[..|records| - 1]);
    }
  }

  /**
   * `load_run` over the query's records: nothing when there are none;
   * otherwise the flows the grouping loop builds, or the first exception a
   * step's deserialization raised.
   */
  method LoadRun(lib: JsonLib, records: seq<RunRecord>) returns (r: Result<Option<seq<LoadedFlow>>>)
    ensures records == [] ==> r == Ok(None)
    ensures records != [] && GroupRecords(lib, records).Ok? ==> r == Ok(Some(GroupRecords(lib, records).value))
    ensures records != [] && GroupRecords(lib, records).Err? ==> r == Err(GroupRecords(lib, records).error)
  {
    if records == [] {
      return Ok(None);
    }
    ghost var goal := GroupRecords(lib, records);
    var flows: seq<LoadedFlow> := [];
    var i := 0;
    while i < |records|
      invariant 0 <= i <= |records|
      invariant GroupRecords(lib, records[..i]) == Ok(flows)
    {
      var steps := DecodeStepNodes(lib, records[i].steps);
      if steps.Err? {
        GroupFailsAt(lib, records, i);
        return Err(steps.error);
      }
      GroupStep(lib, records, i);
      flows := AddRecord(flows, records[i].flow, steps.value);
      i := i + 1;
    }
    assert records[..i] == records;
    r := Ok(Some(flows));
  }

  /** One more record whose steps decode: its steps join the grouping. */
  lemma GroupStep(lib: JsonLib, records: seq<RunRecord>, i: nat)
    requires i < |records| && GroupRecords(lib, records[..i]).Ok? && DecodeSteps(lib, records[i].steps).Ok?
    ensures GroupRecords(lib, records[..i + 1])
              == Ok(AddRecord(GroupRecords(lib, records[..i]).value, records[i].flow, DecodeSteps(lib, records[i].steps).value))
  {
    assert records[..i + 1][..i] == records[..i];
  }

  /** A record whose steps fail to decode makes the whole grouping fail with that error. */
  lemma GroupFailsAt(lib: JsonLib, records: seq<RunRecord>, i: nat)
    requires i < |records| && GroupRecords(lib, records[..i]).Ok? && DecodeSteps(lib, records[i].steps).Err?
    ensures GroupRecords(lib, records) == Err(DecodeSteps(lib, records[i].steps).error)
  {
    var upTo := records[..i + 1];
    var failed := DecodeSteps(lib, records[i].steps);
    assert upTo[..|upTo| - 1] == records[..i] && upTo[|upTo| - 1] == records[i];
    assert GroupRecords(lib, upTo) == Err(failed.error);
    GroupFailureSticks(lib, upTo, records[i + 1..]);
    assert upTo + records[i + 1..] == records;
  }

  /** The inner loop over a record's step nodes. */
  method DecodeStepNodes(lib: JsonLib, nodes: seq<StepNode>) returns (r: Result<seq<Step>>)
    ensures r == DecodeSteps(lib, nodes)
  {
    var steps: seq<Step> := [];
    var i := 0;
    while i < |nodes|
      invariant 0 <= i <= |nodes|
      invariant |steps| == i
      invariant forall j :: 0 <= j < i ==> DeserializeStep(lib, nodes[j].tag, nodes[j].data) == Ok(steps[j])
    {
      var step := DeserializeStep(lib, nodes[i].tag, nodes[i].data);
      if step.Err? {
        DecodeStepsFirstError(lib, nodes, i);
        return Err(step.error);
      }
      steps := steps + [step.value];
      i := i + 1;
    }
    assert DecodeSteps(lib, nodes).Ok?;
    assert DecodeSteps(lib, nodes).value == steps;
    r := Ok(steps);
  }

  /** The error `DecodeSteps` raises is that of the first node that fails. */
  lemma {:induction false} DecodeStepsFirstError(lib: JsonLib, nodes: seq<StepNode>, i: nat)
    requires i < |nodes| && DeserializeStep(lib, nodes[i].tag, nodes[i].data).Err?
    requires forall j :: 0 <= j < i ==> DeserializeStep(lib, nodes[j].tag, nodes[j].data).Ok?
    ensures DecodeSteps(lib, nodes) == Err(DeserializeStep(lib, nodes[i].tag, nodes[i].data).error)
    decreases i
  {
    if i > 0 {
      DecodeStepsFirstError(lib, nodes[1..], i - 1);
    }
  }

  /** Once grouping has failed, later records do not change the error. */
  lemma {:induction false} GroupFailureSticks(lib: JsonLib, a: seq<RunRecord>, b: seq<RunRecord>)
    requires GroupRecords(lib, a).Err?
    ensures GroupRecords(lib, a + b) == GroupRecords(lib, a)
    decreases |b|
  {
    if b == [] {
      assert a + b == a;
    } else {
      assert (a + b)[..|a + b| - 1] == a + b[..|b| - 1];
      GroupFailureSticks(lib, a, b[..|b| - 1]);
    }
  }
}
