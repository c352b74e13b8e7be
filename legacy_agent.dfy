/**
 * The older functional agent: it calls the model with the caller's message
 * list, appends the reply, runs every tool call the reply requests and
 * appends one tool message per call, and stops at the first reply without
 * tool calls or after `max_steps` replies with them. It returns the last
 * message of the list. The list is the caller's own and is only appended to.
 *
 * The model is an oracle from the messages so far to its reply, or to the
 * exception its client raised. Tool arguments are decoded by `parse` (None
 * when the text is not valid JSON); a decoding failure propagates.
 */
module LegacyAgent {
  import opened Wrappers
  import opened Messages
  import opened LlmState
  import opened LegacyTools

  /** The model's reply: its text and the tool calls it requests. */
  datatype Reply = Reply(content: Option<string>, toolCalls: seq<ToolCallRequest>)

  type Model = seq<Message> -> Result<Reply>

  /** What `json.loads` raises on tool arguments that are not JSON. */
  const BAD_JSON: Error := JsonDecodeError("invalid JSON in tool arguments")

  /** The messages a batch of tool calls appends, and the exception that cut it short, if any. */
  datatype Appended = Appended(messages: seq<Message>, failure: Option<Error>)

  /** The tool message answering one call whose arguments decoded to `args`. */
  function ToolReply(entries: map<string, Entry>, tc: ToolCallRequest, args: Args): Message
  {
    ToolMessage(ToolOutput(entries, tc.name, args), tc.id)
  }

  /**
   * The inner loop over a reply's tool calls: one tool message per call, in
   * call order, with that call's id; the first call whose arguments do not
   * decode raises, and the messages appended before it stay.
   */
  function ToolReplies(entries: map<string, Entry>, parse: string -> Option<Args>, tcs: seq<ToolCallRequest>): (r: Appended)
    ensures |r.messages| <= |tcs|
    ensures forall i :: 0 <= i < |r.messages| ==>
              parse(tcs[i].arguments).Some? && r.messages[i] == ToolReply(entries, tcs[i], parse(tcs[i].arguments).value)
    ensures r.failure.None? <==> forall i :: 0 <= i < |tcs| ==> parse(tcs[i].arguments).Some?
    ensures r.failure.None? ==> |r.messages| == |tcs|
    ensures r.failure.Some? ==> r.failure == Some(BAD_JSON) && parse(tcs[|r.messages|].arguments).None?
  {
    if tcs == [] then Appended([], None)
    else
      var init := ToolReplies(entries, parse, tcs[..|tcs| - 1]);
      var last := tcs[|tcs| - 1];
      if init.failure.Some? then init
      else if parse(last.arguments).None? then Appended(init.messages, Some(BAD_JSON))
      else Appended(init.messages + [ToolReply(entries, last, parse(last.arguments).value)], None)
  }

  /** The list after the agent, how many times it called the model, and the exception it ended with. */
  datatype Conversation = Conversation(messages: seq<Message>, calls: nat, failure: Option<Error>)

  /**
   * The agent's loop from `messages` with `budget` steps left: each step
   * calls the model, appends its reply, and either stops (no tool calls) or
   * appends the tool messages and goes on.
   */
  function Converse(model: Model, entries: map<string, Entry>, parse: string -> Option<Args>,
                    messages: seq<Message>, budget: int): Conversation
    decreases if budget > 0 then budget else 0
  {
    if budget <= 0 then Conversation(messages, 0, None)
    else
      match model(messages)
      case Err(e) => Conversation(messages, 1, Some(e))
      case Ok(reply) =>
        var answered := messages + [AssistantMessage(reply.content, reply.toolCalls)];
        if reply.toolCalls == [] then Conversation(answered, 1, None)
        else
          var tools := ToolReplies(entries, parse, reply.toolCalls);
          if tools.failure.Some? then Conversation(answered + tools.messages, 1, tools.failure)
          else
            var rest := Converse(model, entries, parse, answered + tools.messages, budget - 1);
            rest.(calls := rest.calls + 1)
  }

  /** `messages[-1]`, or the exception the loop ended with. */
  function AgentResult(c: Conversation): (r: Result<Message>)
    ensures r.Ok? <==> c.failure.None? && c.messages != []
    ensures r.Ok? ==> r.value == c.messages[|c.messages| - 1]
    ensures c.failure.None? && c.messages == [] ==> r == Err(EMPTY_INDEX)
  {
    if c.failure.Some? then Err(c.failure.value)
    else if c.messages == [] then Err(EMPTY_INDEX)
    else Ok(c.messages[|c.messages| - 1])
  }

  /**
   * What a finished loop looks like: it only appended, called the model at
   * most `budget` times (at least once when there was a budget), and when it
   * ended without an exception the last message is either the model's reply
   * without tool calls or, with the budget spent, a tool message.
   */
  predicate Shaped(messages: seq<Message>, c: Conversation, budget: int)
  {
    && messages <= c.messages
    && (budget <= 0 ==> c.calls == 0 && c.messages == messages && c.failure.None?)
    && (budget > 0 ==> 1 <= c.calls <= budget)
    && (budget > 0 && c.failure.None? ==> |c.messages| > |messages|)
    && (budget > 0 && c.failure.None? && |c.messages| > 0 ==>
          (c.messages[|c.messages| - 1].AssistantMessage? && c.messages[|c.messages| - 1].toolCalls == [])
          || (c.calls == budget && c.messages[|c.messages| - 1].ToolMessage?))
  }

  /** Every run of the loop has that shape. */
  lemma {:induction false} ConverseShape(model: Model, entries: map<string, Entry>, parse: string -> Option<Args>,
                                         messages: seq<Message>, budget: int)
    ensures Shaped(messages, Converse(model, entries, parse, messages, budget), budget)
    decreases if budget > 0 then budget else 0
  {
    if budget > 0 && model(messages).Ok? {
      var reply := model(messages).value;
      var answered := messages + [AssistantMessage(reply.content, reply.toolCalls)];
      if reply.toolCalls == [] {
        assert Converse(model, entries, parse, messages, budget) == Conversation(answered, 1, None);
      } else {
        var tools := ToolReplies(entries, parse, reply.toolCalls);
        if tools.failure.None? {
          var rest := Converse(model, entries, parse, answered + tools.messages, budget - 1);
          assert Converse(model, entries, parse, messages, budget) == rest.(calls := rest.calls + 1);
          ConverseShape(model, entries, parse, answered + tools.messages, budget - 1);
          ShapeAfterTools(messages, answered, tools.messages, rest, budget);
        } else {
          assert Converse(model, entries, parse, messages, budget) == Conversation(answered + tools.messages, 1, tools.failure);
          assert messages <= answered + tools.messages;
        }
      }
    }
  }

  /** The inductive step of `ConverseShape`: a step that ran tools, then the rest of the loop. */
  lemma ShapeAfterTools(messages: seq<Message>, answered: seq<Message>, replies: seq<Message>, rest: Conversation, budget: int)
    requires budget > 0 && messages <= answered && |answered| > |messages|
    requires replies != [] && replies[|replies| - 1].ToolMessage?
    requires Shaped(answered + replies, rest, budget - 1)
    ensures Shaped(messages, rest.(calls := rest.calls + 1), budget)
  {
    if budget - 1 <= 0 {
      var all := answered + replies;
      assert all[|all| - 1] == replies[|replies| - 1];
    }
  }

  /** A reply without tool calls ends the loop after one call: the reply is appended and returned. */
  lemma PlainReplyEndsLoop(model: Model, entries: map<string, Entry>, parse: string -> Option<Args>,
                           messages: seq<Message>, budget: int)
    requires budget > 0 && model(messages).Ok? && model(messages).value.toolCalls == []
    ensures var reply := model(messages).value;
      var c := Converse(model, entries, parse, messages, budget);
      && c.calls == 1
      && c.messages == messages + [AssistantMessage(reply.content, [])]
      && AgentResult(c) == Ok(AssistantMessage(reply.content, []))
  {
  }

  /** Without a budget the model is never called and the result is the caller's own last message. */
  lemma NoBudgetReturnsLastInput(model: Model, entries: map<string, Entry>, parse: string -> Option<Args>,
                                 messages: seq<Message>, budget: int)
    requires budget <= 0 && messages != []
    ensures AgentResult(Converse(model, entries, parse, messages, budget)) == Ok(messages[|messages| - 1])
  {
  }

  /**
   * One step that asked for tools: the reply comes first, then one tool
   * message per call carrying its id, and the loop goes on from there with
   * one step fewer.
   */
  lemma ToolStepThenRest(model: Model, entries: map<string, Entry>, parse: string -> Option<Args>,
                         messages: seq<Message>, budget: int)
    requires budget > 0 && model(messages).Ok? && model(messages).value.toolCalls != []
    requires forall i :: 0 <= i < |model(messages).value.toolCalls| ==>
               parse(model(messages).value.toolCalls[i].arguments).Some?
    ensures var reply := model(messages).value;
      var c := Converse(model, entries, parse, messages, budget);
      var k := |messages|;
      && |c.messages| >= k + 1 + |reply.toolCalls|
      && c.messages[k] == AssistantMessage(reply.content, reply.toolCalls)
      && forall i :: 0 <= i < |reply.toolCalls| ==>
           c.messages[k + 1 + i] == ToolMessage(ToolOutput(entries, reply.toolCalls[i].name,
                                                           parse(reply.toolCalls[i].arguments).value),
                                                reply.toolCalls[i].id)
  {
    var reply := model(messages).value;
    var answered := messages + [AssistantMessage(reply.content, reply.toolCalls)];
    var tools := ToolReplies(entries, parse, reply.toolCalls);
    ConverseShape(model, entries, parse, answered + tools.messages, budget - 1);
    var c := Converse(model, entries, parse, messages, budget);
    assert c.messages[..|answered + tools.messages|] == answered + tools.messages;
    forall i | 0 <= i < |reply.toolCalls|
      ensures c.messages[|messages| + 1 + i] == tools.messages[i]
    {
      assert c.messages[|messages| + 1 + i] == (answered + tools.messages)[|messages| + 1 + i];
    }
  }

  /** The caller's message list, which the agent appends to in place. */
  class MessageList {
    var items: seq<Message>

    constructor (items: seq<Message>)
      ensures this.items == items
    {
      this.items := items;
    }

    method Append(m: Message)
      modifies this
      ensures items == old(items) + [m]
    {
      items := items + [m];
    }
  }

  /** A conversation seen from `n` model calls earlier. */
  function Later(c: Conversation, n: nat): Conversation
  {
    c.(calls := c.calls + n)
  }

  /** How one pass of the loop body ends. */
  datatype StepEnd = Continue | Stop | Raise(error: Error)

  /**
   * The inner `agent(messages, max_steps)`: runs the loop on the caller's
   * list and returns its last message. The list ends as `Converse` says and
   * the registry is not changed.
   */
  method RunAgent(messages: MessageList, maxSteps: int, model: Model, registry: LegacyToolRegistry,
                  parse: string -> Option<Args>) returns (r: Result<Message>, calls: nat)
    modifies messages
    ensures var c := Converse(model, registry.entries, parse, old(messages.items), maxSteps);
      && messages.items == c.messages
      && calls == c.calls
      && r == AgentResult(c)
  {
    ghost var goal := Converse(model, registry.entries, parse, messages.items, maxSteps);
    var steps := 0;
    calls := 0;
    while steps < maxSteps
      invariant 0 <= steps && calls == steps
      invariant goal == Later(Converse(model, registry.entries, parse, messages.items, maxSteps - steps), steps)
      decreases maxSteps - steps
    {
      var end := TakeStep(messages, maxSteps - steps, model, registry, parse);
      calls := calls + 1;
      if end.Raise? {
        return Err(end.error), calls;
      } else if end.Stop? {
        break;
      }
      steps := steps + 1;
    }
    if messages.items == [] {
      return Err(EMPTY_INDEX), calls;
    }
    r := Ok(messages.items[|messages.items| - 1]);
  }

  /**
   * One pass of the loop body: call the model, append its reply, and run
   * the tools it asks for. Going on leaves the rest of the conversation to
   * the remaining budget; stopping or raising ends it here.
   */
  method TakeStep(messages: MessageList, budget: int, model: Model, registry: LegacyToolRegistry,
                  parse: string -> Option<Args>) returns (end: StepEnd)
    requires budget > 0
    modifies messages
    ensures var c := Converse(model, registry.entries, parse, old(messages.items), budget);
      && (end.Continue? ==> c == Later(Converse(model, registry.entries, parse, messages.items, budget - 1), 1))
      && (end.Stop? ==> c == Conversation(messages.items, 1, None))
      && (end.Raise? ==> c == Conversation(messages.items, 1, Some(end.error)))
  {
    var reply := model(messages.items);
    if reply.Err? {
      return Raise(reply.error);
    }
    messages.Append(AssistantMessage(reply.value.content, reply.value.toolCalls));
    if reply.value.toolCalls == [] {
      return Stop;
    }
    var failure := AppendToolReplies(messages, registry, parse, reply.value.toolCalls);
    if failure.Some? {
      return Raise(failure.value);
    }
    end := Continue;
  }

  /** The `for tc in msg.tool_calls` loop: appends the tool messages until a call's arguments fail to decode. */
  method AppendToolReplies(messages: MessageList, registry: LegacyToolRegistry, parse: string -> Option<Args>,
                           tcs: seq<ToolCallRequest>) returns (failure: Option<Error>)
    modifies messages
    ensures messages.items == old(messages.items) + ToolReplies(registry.entries, parse, tcs).messages
    ensures failure == ToolReplies(registry.entries, parse, tcs).failure
  {
    ghost var entries := registry.entries;
    var i := 0;
    while i < |tcs|
      invariant 0 <= i <= |tcs|
      invariant ToolReplies(entries, parse, tcs[..i]).failure.None?
      invariant messages.items == old(messages.items) + ToolReplies(entries, parse, tcs[..i]).messages
    {
      var args := parse(tcs[i].arguments);
      if args.None? {
        ToolRepliesFailAt(entries, parse, tcs, i);
        return Some(BAD_JSON);
      }
      var output := registry.RunTool(tcs[i].name, args.value);
      ToolRepliesStep(entries, parse, tcs, i);
      messages.Append(ToolMessage(output, tcs[i].id));
      i := i + 1;
    }
    assert tcs[..i] == tcs;
    failure := None;
  }

  /** One more decodable call of a batch that has not failed: its reply is appended. */
  lemma ToolRepliesStep(entries: map<string, Entry>, parse: string -> Option<Args>, tcs: seq<ToolCallRequest>, i: nat)
    requires i < |tcs| && ToolReplies(entries, parse, tcs[..i]).failure.None?
    requires parse(tcs[i].arguments).Some?
    ensures ToolReplies(entries, parse, tcs[..i + 1]) ==
              Appended(ToolReplies(entries, parse, tcs[..i]).messages + [ToolReply(entries, tcs[i], parse(tcs[i].arguments).value)], None)
  {
    assert tcs[..i + 1][..i] == tcs[..i];
  }

  /** A call whose arguments do not decode ends the batch with the replies so far. */
  lemma ToolRepliesFailAt(entries: map<string, Entry>, parse: string -> Option<Args>, tcs: seq<ToolCallRequest>, i: nat)
    requires i < |tcs| && ToolReplies(entries, parse, tcs[..i]).failure.None?
    requires parse(tcs[i].arguments).None?
    ensures ToolReplies(entries, parse, tcs) == Appended(ToolReplies(entries, parse, tcs[..i]).messages, Some(BAD_JSON))
  {
    assert tcs[..i + 1][..i] == tcs[..i];
    ToolRepliesStopAtFailure(entries, parse, tcs[..i + 1], tcs[i + 1..]);
    assert tcs[..i + 1] + tcs[i + 1..] == tcs;
  }

  /** Once a batch has failed, later calls add nothing: the failure and the messages stay as they were. */
  lemma {:induction false} ToolRepliesStopAtFailure(entries: map<string, Entry>, parse: string -> Option<Args>,
                                                    a: seq<ToolCallRequest>, b: seq<ToolCallRequest>)
    requires ToolReplies(entries, parse, a).failure.Some?
    ensures ToolReplies(entries, parse, a + b) == ToolReplies(entries, parse, a)
    decreases |b|
  {
    if b == [] {
      assert a + b == a;
    } else {
      assert (a + b)[..|a + b| - 1] == a + b[..|b| - 1];
      ToolRepliesStopAtFailure(entries, parse, a, b[..|b| - 1]);
    }
  }
}
