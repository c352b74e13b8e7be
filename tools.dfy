/**
 * Typed tools, the process-wide tool registry and the execution contract
 * (src/scouter/llmcore/tools.py).
 *
 * A handler is described by its signature (the annotations the source reads
 * with `inspect.signature`), the validation its input model applies to raw
 * arguments, and the call itself. JSON schemas are `Json` values; how a
 * schema is pretty-printed is a parameter.
 */
module Tools {
  import opened Wrappers
  import opened LlmState

  /** A JSON value: schemas and tool specs are built from these. */
  datatype Json =
    | JNull
    | JBool(b: bool)
    | JInt(i: int)
    | JFloat(f: real)
    | JString(s: string)
    | JArray(items: seq<Json>)
    | JObject(fields: seq<(string, Json)>)

  /** The value stored under `key` in a JSON object's fields (the first one, if repeated). */
  function Get(fields: seq<(string, Json)>, key: string): Option<Json>
  {
    if fields == [] then None
    else if fields[0].0 == key then Some(fields[0].1)
    else Get(fields[1..], key)
  }

  /** A type annotation on a handler: `str`, a pydantic model class with its JSON schema, or anything else. */
  datatype Annotation = StrType | ModelType(className: string, schema: Json) | OtherType(repr: string)
  {
    /** How the annotation prints inside an error message. */
    function Repr(): string
    {
      match this
      case StrType => "<class 'str'>"
      case ModelType(className, _) => "<class '" + className + "'>"
      case OtherType(repr) => repr
    }
  }

  /** The handler's parameter annotations, in order, and its return annotation. */
  datatype Signature = Signature(params: seq<Annotation>, output: Annotation)

  /** What a handler returned: a string, a pydantic model (by its JSON dump), or some other object. */
  datatype ToolValue = StrValue(text: string) | ModelValue(json: string) | OtherValue(repr: string)

  /** A handler call either returns a value or raises an exception with a message. */
  datatype HandlerResult = Returned(value: ToolValue) | Raised(message: string)

  /**
   * A tool handler: its signature, the validation the input model applies to
   * raw arguments (the validation error's text, or None), and the call.
   */
  datatype Handler = Handler(signature: Signature, validate: Args -> Option<string>, call: Args -> HandlerResult)

  /** A `Tool` after `model_post_init` has filled in its derived fields. */
  datatype Tool = Tool(
    name: string,
    description: string,
    handler: Handler,
    parametersSchema: Json,
    outputSchema: Json,
    descriptionWithOutput: string,
    inputType: string)

  const STRING_SCHEMA: Json := JObject([("type", JString("string"))])
  const STRING_NOTE: string := "\n\nThe tool will **always return a string**."
  const JSON_NOTE: string := "\n\nThe tool will **always return JSON matching this exact schema**:\n```json\n"
  const JSON_NOTE_END: string := "\n```"

  /**
   * Building a `Tool` (`model_post_init`): the handler must take at least one
   * parameter, the first annotated with a pydantic model, and must be
   * annotated to return `str` or a pydantic model; otherwise a TypeError.
   * The schemas and the enriched description follow from the annotations.
   */
  function BuildTool(name: string, description: string, handler: Handler, dumps: Json -> string): (r: Result<Tool>)
    ensures r.Ok? <==>
      handler.signature.params != [] && handler.signature.params[0].ModelType? &&
      !handler.signature.output.OtherType?
    ensures r.Err? ==> r.error.TypeError?
    ensures handler.signature.params == [] ==>
      r == Err(TypeError("Handler for tool '" + name + "' must have at least one argument (the input Pydantic model)."))
    ensures r.Ok? ==>
      var t := r.value;
      t.name == name && t.description == description &&
      t.parametersSchema == handler.signature.params[0].schema &&
      t.inputType == handler.signature.params[0].className
    ensures r.Ok? && handler.signature.output.StrType? ==>
      r.value.outputSchema == STRING_SCHEMA && r.value.descriptionWithOutput == description + STRING_NOTE
    ensures r.Ok? && handler.signature.output.ModelType? ==>
      r.value.outputSchema == handler.signature.output.schema &&
      r.value.descriptionWithOutput == description + JSON_NOTE + dumps(handler.signature.output.schema) + JSON_NOTE_END
  {
    var sig := handler.signature;
    if sig.params == [] then
      Err(TypeError("Handler for tool '" + name + "' must have at least one argument (the input Pydantic model)."))
    else if !sig.params[0].ModelType? then
      Err(TypeError("Handler first param for '" + name + "' must be a Pydantic BaseModel, got " + sig.params[0].Repr()))
    else if sig.output.OtherType? then
      Err(TypeError("Handler for '" + name + "' must return a Pydantic BaseModel or str"))
    else
      var input := sig.params[0];
      var output := if sig.output.StrType? then STRING_SCHEMA else sig.output.schema;
      var note := if sig.output.StrType? then STRING_NOTE else JSON_NOTE + dumps(output) + JSON_NOTE_END;
      Ok(Tool(name, description, handler, input.schema, output, description + note, input.className))
  }

  /** `openai_tool_spec`: the function-tool description sent to the provider. */
  function OpenAiToolSpec(t: Tool): Json
  {
    JObject([
      ("type", JString("function")),
      ("function", JObject([
        ("name", JString(t.name)),
        ("description", JString(t.descriptionWithOutput)),
        ("parameters", t.parametersSchema)]))])
  }

  /**
   * The spec of a built tool advertises a function with the tool's name, the
   * input model's schema as parameters, and a description that ends with the
   * note on what the tool returns.
   */
  lemma BuiltToolSpec(name: string, description: string, handler: Handler, dumps: Json -> string)
    requires BuildTool(name, description, handler, dumps).Ok?
    ensures var spec := OpenAiToolSpec(BuildTool(name, description, handler, dumps).value);
      spec.JObject? && Get(spec.fields, "type") == Some(JString("function")) &&
      Get(spec.fields, "function").Some? && Get(spec.fields, "function").value.JObject? &&
      var fn := Get(spec.fields, "function").value.fields;
      Get(fn, "name") == Some(JString(name)) &&
      Get(fn, "parameters") == Some(handler.signature.params[0].schema) &&
      (handler.signature.output.StrType? ==> Get(fn, "description") == Some(JString(description + STRING_NOTE))) &&
      (handler.signature.output.ModelType? ==>
        Get(fn, "description") == Some(JString(description + JSON_NOTE + dumps(handler.signature.output.schema) + JSON_NOTE_END)))
  {
    var t := BuildTool(name, description, handler, dumps).value;
    var fn := [("name", JString(t.name)), ("description", JString(t.descriptionWithOutput)), ("parameters", t.parametersSchema)];
    assert Get(fn, "description") == Get(fn[1..], "description");
    assert Get(fn, "parameters") == Get(fn[1..][1..], "parameters");
  }

  /** The message prefix of every failure inside `execute_tool`: it names the tool. */
  function ExecutionErrorPrefix(name: string): string
  {
    "Error executing tool '" + name + "': "
  }

  /**
   * `execute_tool`: validate the raw arguments, call the handler, and return a
   * string result unchanged or a model result as its JSON dump. Every failure
   * leaves as a ToolExecutionError whose message names the tool.
   */
  function ExecuteTool(t: Tool, args: Args): (r: Result<string>)
    ensures r.Err? ==> r.error.ToolExecutionError? && StartsWith(r.error.message, ExecutionErrorPrefix(t.name))
    ensures r.Ok? <==>
      t.handler.validate(args).None? &&
      t.handler.call(args).Returned? && !t.handler.call(args).value.OtherValue?
    ensures t.handler.validate(args).None? && t.handler.call(args).Returned? && t.handler.call(args).value.StrValue? ==>
      r == Ok(t.handler.call(args).value.text)
    ensures t.handler.validate(args).None? && t.handler.call(args).Returned? && t.handler.call(args).value.ModelValue? ==>
      r == Ok(t.handler.call(args).value.json)
    ensures t.handler.validate(args).Some? ==>
      r == Err(ToolExecutionError(ExecutionErrorPrefix(t.name) + t.handler.validate(args).value))
    ensures t.handler.validate(args).None? && t.handler.call(args).Raised? ==>
      r == Err(ToolExecutionError(ExecutionErrorPrefix(t.name) + t.handler.call(args).message))
  {
    var prefix := ExecutionErrorPrefix(t.name);
    match t.handler.validate(args)
    case Some(problem) => Err(ToolExecutionError(prefix + problem))
    case None =>
      match t.handler.call(args)
      case Raised(message) => Err(ToolExecutionError(prefix + message))
      case Returned(StrValue(text)) => Ok(text)
      case Returned(ModelValue(json)) => Ok(json)
      case Returned(OtherValue(_)) =>
        Err(ToolExecutionError(prefix + "Tool '" + t.name + "' handler did not return a Pydantic model or str."))
  }

  /** The error `lookup_tool` raises for an unregistered name. */
  function NotFound(name: string): Error
  {
    ToolExecutionError("Tool '" + name + "' not found in registry.")
  }

  /** `lookup_tool` over the registry's contents. */
  function LookupTool(tools: map<string, Tool>, name: string): (r: Result<Tool>)
    ensures r.Ok? <==> name in tools
    ensures name in tools ==> r == Ok(tools[name])
    ensures name !in tools ==> r == Err(NotFound(name))
  {
    if name in tools then Ok(tools[name]) else Err(NotFound(name))
  }

  /**
   * `run_tool`: look the tool up, then execute it. An unknown name fails with
   * the lookup error, whatever the arguments, before any handler is consulted.
   */
  function RunTool(tools: map<string, Tool>, name: string, args: Args): (r: Result<string>)
    ensures name !in tools ==> r == Err(NotFound(name))
    ensures name in tools ==> r == ExecuteTool(tools[name], args)
    ensures r.Err? ==> r.error.ToolExecutionError?
  {
    match LookupTool(tools, name)
    case Err(e) => Err(e)
    case Ok(t) => ExecuteTool(t, args)
  }

  /** The error `register_tool` raises for a nameless tool. */
  const NAMELESS: Error := ToolExecutionError("Cannot register tool without a name.")

  /** Registration followed by lookup: the registered name yields the new tool, every other name what it did before. */
  lemma LookupAfterRegister(tools: map<string, Tool>, t: Tool, name: string)
    requires t.name != ""
    ensures LookupTool(tools[t.name := t], name) == if name == t.name then Ok(t) else LookupTool(tools, name)
  {
  }

  /**
   * Python's `str.isspace()`, which decides what `str.strip()` removes: the
   * controls \t to \r and \x1c to \x1f, the space, \x85, and the Unicode
   * space separators and line and paragraph separators.
   */
  predicate IsSpace(c: char)
  {
    ('\t' <= c <= '\r') || ('\U{1C}' <= c <= ' ') || c == '\U{85}' || c == '\U{A0}' || c == '\U{1680}' ||
    ('\U{2000}' <= c <= '\U{200A}') || c == '\U{2028}' || c == '\U{2029}' || c == '\U{202F}' ||
    c == '\U{205F}' || c == '\U{3000}'
  }

  /** `s.lstrip()`: the longest suffix that does not start with whitespace. */
  function TrimStart(s: string): (r: string)
    ensures |r| <= |s| && r == s[|s| - |r|..]
    ensures r != [] ==> !IsSpace(r[0])
    ensures forall k :: 0 <= k < |s| - |r| ==> IsSpace(s[k])
  {
    if s != [] && IsSpace(s[0]) then TrimStart(s[1..]) else s
  }

  /** `s.rstrip()`: the longest prefix that does not end with whitespace. */
  function TrimEnd(s: string): (r: string)
    ensures |r| <= |s| && r == s[..|r|]
    ensures r != [] ==> !IsSpace(r[|r| - 1])
    ensures forall k :: |r| <= k < |s| ==> IsSpace(s[k])
  {
    if s != [] && IsSpace(s[|s| - 1]) then TrimEnd(s[..|s| - 1]) else s
  }

  /** `s.strip()`. */
  function Strip(s: string): string
  {
    TrimEnd(TrimStart(s))
  }

  /** The name the `tool` decorator registers: the given one unless absent or empty, else the function's own. */
  function DecoratedName(name: Option<string>, funcName: string): string
  {
    if name.Some? && name.value != "" then name.value else funcName
  }

  /** The description the `tool` decorator uses: the given one, else the stripped docstring, else "No description.". */
  function DecoratedDescription(description: Option<string>, doc: Option<string>): string
  {
    if description.Some? && description.value != "" then description.value
    else Strip(if doc.Some? && doc.value != "" then doc.value else "No description.")
  }

  /** The process-wide `TOOL_REGISTRY`, as an object handed to whoever needs it. */
  class ToolRegistry {
    var tools: map<string, Tool>

    constructor ()
      ensures tools == map[]
    {
      tools := map[];
    }

    /** `register_tool`: a nameless tool is refused; otherwise the name is (over)written. */
    method RegisterTool(t: Tool) returns (r: Result<()>)
      modifies this
      ensures t.name == "" ==> r == Err(NAMELESS) && tools == old(tools)
      ensures t.name != "" ==> r == Ok(()) && tools == old(tools)[t.name := t]
    {
      if t.name == "" {
        return Err(NAMELESS);
      }
      tools := tools[t.name := t];
      r := Ok(());
    }

    /** `lookup_tool`. */
    function Lookup(name: string): (r: Result<Tool>)
      reads this
      ensures r == LookupTool(tools, name)
    {
      LookupTool(tools, name)
    }

    /**
     * The `tool` decorator: build the tool from the function and register it.
     * A signature error leaves the registry as it was.
     */
    method Decorate(name: Option<string>, description: Option<string>, funcName: string, doc: Option<string>,
                    handler: Handler, dumps: Json -> string) returns (r: Result<()>)
      modifies this
      ensures var built := BuildTool(DecoratedName(name, funcName), DecoratedDescription(description, doc), handler, dumps);
        && (r.Ok? <==> built.Ok? && DecoratedName(name, funcName) != "")
        && (r.Ok? ==> tools == old(tools)[DecoratedName(name, funcName) := built.value])
        && (r.Err? ==> tools == old(tools))
        && (built.Err? ==> r == Err(built.error))
    {
      var toolName := DecoratedName(name, funcName);
      var toolDescription := DecoratedDescription(description, doc);
      var built := BuildTool(toolName, toolDescription, handler, dumps);
      if built.Err? {
        return Err(built.error);
      }
      r := RegisterTool(built.value);
    }
  }
}
