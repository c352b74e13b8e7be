/**
 * The older tool registry: a module-level dictionary from tool names to
 * entries holding the function, its description and its JSON schema.
 * Running a tool looks the name up; an unknown name is answered with a
 * string, never an exception.
 */
module LegacyTools {
  import opened Wrappers
  import opened LlmState
  import opened Tools

  /** A registry entry: `{"fn": ..., "description": ..., "schema": ...}`. */
  datatype Entry = Entry(fn: Args -> string, description: string, schema: Json)

  const UNKNOWN_TOOL: string := "Unknown tool: "

  /** What `run_tool` answers for `name` over the given entries. */
  function ToolOutput(entries: map<string, Entry>, name: string, args: Args): (r: string)
    ensures name !in entries ==> r == UNKNOWN_TOOL + name
    ensures name in entries ==> r == entries[name].fn(args)
  {
    if name !in entries then UNKNOWN_TOOL + name else entries[name].fn(args)
  }

  /**
   * After registering `name`, running it calls the new function, and every
   * other name answers exactly as before.
   */
  lemma RunAfterRegister(entries: map<string, Entry>, name: string, e: Entry, other: string, args: Args)
    ensures ToolOutput(entries[name := e], name, args) == e.fn(args)
    ensures other != name ==> ToolOutput(entries[name := e], other, args) == ToolOutput(entries, other, args)
  {
  }

  /** `tool_registry`, with `register_tool` and `run_tool`. */
  class LegacyToolRegistry {
    var entries: map<string, Entry>

    constructor ()
      ensures entries == map[]
    {
      entries := map[];
    }

    /** `register_tool`: stores the entry under its name, replacing any earlier one; other names keep theirs. */
    method RegisterTool(name: string, fn: Args -> string, description: string, schema: Json)
      modifies this
      ensures entries == old(entries)[name := Entry(fn, description, schema)]
      ensures forall n :: n in old(entries) && n != name ==> n in entries && entries[n] == old(entries)[n]
    {
      entries := entries[name := Entry(fn, description, schema)];
    }

    /** `run_tool`: the registered function's answer, or the unknown-tool text; the registry is not changed. */
    method RunTool(name: string, args: Args) returns (output: string)
      ensures output == ToolOutput(entries, name, args)
      ensures name !in entries ==> StartsWith(output, UNKNOWN_TOOL)
    {
      if name !in entries {
        return UNKNOWN_TOOL + name;
      }
      output := entries[name].fn(args);
    }
  }
}
