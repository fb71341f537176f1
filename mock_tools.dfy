/**
 * The routing lab's two mock tools (tools/mock_tools.py): a canned search
 * that answers from the first matching key, and a calculator that refuses
 * any character outside a small whitelist before evaluating. Python's
 * `eval` is an oracle parameter.
 */
module MockTools {
  import opened Wrappers
  import opened Dict
  import opened Strings
  import opened Json
  import PluginBase

  /** The canned answers, in their dict order. */
  const MockResults: Dict<string, string> := [
    ("capital of france", "Paris is the capital of France."),
    ("population of paris", "The population of Paris is approximately 2.1 million."),
    ("python programming", "Python is a high-level programming language.")]

  /** The value of the first key, in dict order, that occurs in `q`. */
  function FirstHit(entries: Dict<string, string>, q: string): (r: Option<string>)
    ensures r.None? <==> forall i :: 0 <= i < |entries| ==> !IsSubstring(entries[i].0, q)
    ensures r.Some? ==> exists i :: 0 <= i < |entries| && IsSubstring(entries[i].0, q) && r.value == entries[i].1
                                    && forall j :: 0 <= j < i ==> !IsSubstring(entries[j].0, q)
  {
    if entries == [] then None
    else if IsSubstring(entries[0].0, q) then Some(entries[0].1)
    else
      var r := FirstHit(entries[1..], q);
      assert forall i :: 1 <= i < |entries| ==> entries[i] == entries[1..][i - 1];
      if r.Some? then
        var k :| 0 <= k < |entries[1..]| && IsSubstring(entries[1..][k].0, q) && r.value == entries[1..][k].1
                 && forall j :: 0 <= j < k ==> !IsSubstring(entries[1..][j].0, q);
        assert forall j :: 0 <= j < k + 1 ==> !IsSubstring(entries[j].0, q) by {
          forall j | 0 <= j < k + 1 ensures !IsSubstring(entries[j].0, q) {
            if j > 0 { assert entries[j] == entries[1..][j - 1]; }
          }
        }
        r
      else r
  }

  function NoResults(query: string): string {
    "Error: No results found for '" + query + "'. Try searching with different keywords."
  }

  /** `search(query)`: matching is on the lower-cased query. */
  function Search(query: string): (r: string)
    ensures FirstHit(MockResults, Lower(query)).None? ==> r == NoResults(query)
    ensures FirstHit(MockResults, Lower(query)).Some? ==> r in Values(MockResults)
  {
    match FirstHit(MockResults, Lower(query))
    case Some(v) => v
    case None => NoResults(query)
  }

  /** A query mentioning the capital of France, in any case, gets the first canned answer. */
  lemma SearchCapital(query: string)
    requires IsSubstring("capital of france", Lower(query))
    ensures Search(query) == "Paris is the capital of France."
  {
    var r := FirstHit(MockResults, Lower(query));
    assert MockResults[0].0 == "capital of france";
  }

  /** Two queries that differ only in the case of their letters get the same answer when either hits. */
  lemma SearchIgnoresCase(q1: string, q2: string)
    requires Lower(q1) == Lower(q2)
    requires FirstHit(MockResults, Lower(q1)).Some?
    ensures Search(q1) == Search(q2)
  {
  }

  /** A query that mentions no key gets the error text naming the query as given. */
  lemma SearchMiss(query: string)
    requires forall i :: 0 <= i < |MockResults| ==> !IsSubstring(MockResults[i].0, Lower(query))
    ensures Search(query) == NoResults(query)
  {
  }

  /** The characters `calculate` lets through to `eval`. */
  const Allowed: set<char> := {'0', '1', '2', '3', '4', '5', '6', '7', '8', '9', '+', '-', '*', '/', '.', '(', ')', ' '}

  const InvalidExpression := "Error: Invalid expression"

  /** `all(c in allowed for c in s)`. */
  function AllAllowed(s: string): (b: bool)
    ensures b <==> forall i :: 0 <= i < |s| ==> s[i] in Allowed
  {
    if s == [] then true
    else
      assert forall i :: 1 <= i < |s| ==> s[i] == s[1..][i - 1];
      s[0] in Allowed && AllAllowed(s[1..])
  }

  /** `str(eval(expression))`, or the message of what it raised. */
  type Eval = string -> Result<string, string>

  /** `calculate(expression)`. */
  function Calculate(expression: string, eval: Eval): (r: string)
    ensures (exists i :: 0 <= i < |expression| && expression[i] !in Allowed) ==> r == InvalidExpression
    ensures AllAllowed(expression) && eval(expression).Success? ==> r == eval(expression).value
    ensures AllAllowed(expression) && eval(expression).Failure? ==> r == "Error: " + eval(expression).error
  {
    if AllAllowed(expression) then
      match eval(expression)
      case Success(v) => v
      case Failure(e) => "Error: " + e
    else InvalidExpression
  }

  /** A letter anywhere in the expression is refused before `eval` sees it. */
  lemma CalculateRefusesLetters(expression: string, eval: Eval, i: nat)
    requires i < |expression| && ('a' <= expression[i] <= 'z' || 'A' <= expression[i] <= 'Z')
    ensures Calculate(expression, eval) == InvalidExpression
  {
    assert expression[i] !in Allowed;
  }

  /** Which mock function a name is bound to. */
  datatype MockTool = SearchTool | CalculateTool

  const ToolsDict: Dict<string, MockTool> := [("search", SearchTool), ("calculate", CalculateTool)]

  /** One tool schema with a single required string parameter. */
  function OneParamSchema(name: string, description: string, param: string, paramDescription: string): Json {
    Obj([("type", Str("function")),
         ("function", Obj([
            ("name", Str(name)),
            ("description", Str(description)),
            ("parameters", Obj([
               ("type", Str("object")),
               ("properties", Obj([(param, Obj([("type", Str("string")), ("description", Str(paramDescription))]))])),
               ("required", Arr([Str(param)]))]))]))])
  }

  const ToolsSchema: seq<Json> := [
    OneParamSchema("search", "Search for information. Returns text results.", "query", "Search query"),
    OneParamSchema("calculate", "Evaluate a math expression.", "expression", "Math expression")]

  lemma OneParamSchemaName(name: string, description: string, param: string, paramDescription: string)
    ensures PluginBase.SchemaName(OneParamSchema(name, description, param, paramDescription)) == Some(name)
  {
    var outer := OneParamSchema(name, description, param, paramDescription).fields;
    assert Get(outer, "function") == Get(outer[1..], "function");
  }

  /** The dict of callables and the schema list name the same tools, in the same order. */
  lemma ToolsDictMatchesSchema()
    ensures |ToolsSchema| == |ToolsDict|
    ensures forall i :: 0 <= i < |ToolsSchema| ==> PluginBase.SchemaName(ToolsSchema[i]) == Some(Keys(ToolsDict)[i])
  {
    OneParamSchemaName("search", "Search for information. Returns text results.", "query", "Search query");
    OneParamSchemaName("calculate", "Evaluate a math expression.", "expression", "Math expression");
  }

  /** The single keyword argument `param`, when the arguments bind exactly it to a string. */
  function SingleStringArg(args: Json, param: string): Option<string> {
    if args.Obj? && |args.fields| == 1 && args.fields[0].0 == param && args.fields[0].1.Str? then
      Some(args.fields[0].1.s)
    else None
  }

  /**
   * `TOOLS_DICT.get(fn_name, lambda **_: "Unknown tool")(**fn_args)`: the
   * observation, or `Failure` for the exception that escapes the call
   * (arguments that are not a dict, or that do not bind the one string
   * parameter).
   */
  function Invoke(name: string, args: Json, eval: Eval): (r: Result<string, string>)
    ensures args.Obj? && !HasKey(ToolsDict, name) ==> r == Success("Unknown tool")
    ensures !args.Obj? ==> r.Failure?
    ensures name == "search" && SingleStringArg(args, "query").Some? ==> r == Success(Search(SingleStringArg(args, "query").value))
    ensures name == "calculate" && SingleStringArg(args, "expression").Some? ==>
              r == Success(Calculate(SingleStringArg(args, "expression").value, eval))
  {
    if !args.Obj? then Failure("TypeError: argument after ** must be a mapping")
    else
      match Get(ToolsDict, name)
      case None => Success("Unknown tool")
      case Some(tool) =>
        if tool.SearchTool? then
          match SingleStringArg(args, "query")
          case Some(q) => Success(Search(q))
          case None => Failure("TypeError: search() got unexpected arguments")
        else
          match SingleStringArg(args, "expression")
          case Some(e) => Success(Calculate(e, eval))
          case None => Failure("TypeError: calculate() got unexpected arguments")
  }
}
