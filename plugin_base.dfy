/**
 * The contract every plugin tool follows (02_function_calling_tools,
 * plugin lab, base.py): a name that is the registry key, an LLM-facing
 * description, a JSON-Schema of its arguments, the permissions it needs
 * (none by default), and an `execute` that answers with a
 * success/result/error record.
 */
module PluginBase {
  import opened Wrappers
  import opened Dict
  import opened Json

  /** `{"success": ..., "result": ..., "error": ...}`; `result` is `Null` and `error` is `None` where Python has None. */
  datatype ToolResult = ToolResult(success: bool, result: Json, error: Option<string>)

  /** What one call of a tool's `execute(**kwargs)` did: answered, or raised an exception (its text). */
  datatype ToolOutcome = Returned(value: ToolResult) | Raised(exception: string)

  /**
   * A tool instance. `execute` is the tool's behaviour on the keyword
   * arguments it receives, given as a JSON object.
   */
  datatype BaseTool = BaseTool(
    name: string,
    description: string,
    parameters: Json,
    permissions: seq<string>,
    execute: Json -> ToolOutcome)

  /** A tool that does not override the `permissions` property. */
  function NewTool(name: string, description: string, parameters: Json, execute: Json -> ToolOutcome): (t: BaseTool)
    ensures t.permissions == []
    ensures t.name == name && t.description == description && t.parameters == parameters
  {
    BaseTool(name, description, parameters, [], execute)
  }

  /** The Python dict a `ToolResult` stands for. */
  function ResultDict(r: ToolResult): (j: Json)
    ensures j.Obj? && Keys(j.fields) == ["success", "result", "error"]
    ensures Index(j, "success") == Some(Bool(r.success)) && Index(j, "result") == Some(r.result)
  {
    var err := if r.error.Some? then Str(r.error.value) else Null;
    var f := [("success", Bool(r.success)), ("result", r.result), ("error", err)];
    assert f[1..] == [("result", r.result), ("error", err)];
    assert Get(f, "result") == Get(f[1..], "result") == Some(r.result);
    Obj(f)
  }

  /** `get_schema()`: the OpenAI tool descriptor, with the three properties copied verbatim. */
  function GetSchema(t: BaseTool): (j: Json)
    ensures Index(j, "type") == Some(Str("function"))
    ensures SchemaName(j) == Some(t.name)
    ensures Index(j, "function").Some?
    ensures Index(Index(j, "function").value, "description") == Some(Str(t.description))
    ensures Index(Index(j, "function").value, "parameters") == Some(t.parameters)
  {
    var inner := [("name", Str(t.name)), ("description", Str(t.description)), ("parameters", t.parameters)];
    assert inner[1..] == [("description", Str(t.description)), ("parameters", t.parameters)];
    assert inner[2..] == [("parameters", t.parameters)];
    var outer := [("type", Str("function")), ("function", Obj(inner))];
    assert outer[1..] == [("function", Obj(inner))];
    assert Get(outer, "function") == Get(outer[1..], "function") == Some(Obj(inner));
    assert Get(inner, "description") == Get(inner[1..], "description");
    assert Get(inner, "parameters") == Get(inner[1..], "parameters") == Get(inner[2..], "parameters");
    Obj(outer)
  }

  /** `schema["function"]["name"]` when it is a string. */
  function SchemaName(j: Json): Option<string> {
    match Index(j, "function")
    case Some(f) =>
      (match Index(f, "name")
       case Some(Str(n)) => Some(n)
       case _ => None)
    case None => None
  }
}
