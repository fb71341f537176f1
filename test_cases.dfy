/**
 * The broken-agent lab's evaluation test cases (evaluation/test_cases.py):
 * the test-case record, its conversion to an evaluation case with one tool
 * call per expected tool, loading records from a JSON file with defaults
 * for the optional keys, saving dicts to a file, and the sample cases. The
 * file system is a map from path to the JSON value the file holds.
 */
module TestCases {
  import opened Wrappers
  import opened Dict
  import opened Json

  /** `AgentTestCase`. */
  datatype AgentTestCase = AgentTestCase(input: string, expectedOutput: string, expectedTools: seq<string>,
                                         category: string, difficulty: string)

  /** `AgentTestCase(input, expected_output, expected_tools)` with the dataclass defaults. */
  function NewTestCase(input: string, expectedOutput: string, expectedTools: seq<string>): (c: AgentTestCase)
    ensures c.input == input && c.expectedOutput == expectedOutput && c.expectedTools == expectedTools
    ensures c.category == "general" && c.difficulty == "medium"
  {
    AgentTestCase(input, expectedOutput, expectedTools, "general", "medium")
  }

  /** An evaluation-library `ToolCall`. */
  datatype ToolCall = ToolCall(name: string, inputParameters: Dict<string, Json>)

  /** An evaluation-library `LLMTestCase`; `actualOutput` is unset until the agent has run. */
  datatype LlmTestCase = LlmTestCase(input: string, expectedOutput: string, toolsCalled: seq<ToolCall>,
                                     actualOutput: Option<string>)

  /** `[ToolCall(name=tool, input_parameters={}) for tool in tools]`. */
  function ToolCalls(tools: seq<string>): (calls: seq<ToolCall>)
    ensures |calls| == |tools|
    ensures forall i :: 0 <= i < |tools| ==> calls[i].name == tools[i] && calls[i].inputParameters == []
  {
    if tools == [] then [] else [ToolCall(tools[0], [])] + ToolCalls(tools[1..])
  }

  /** `to_llm_test_case()`. */
  function ToLlmTestCase(c: AgentTestCase): (t: LlmTestCase)
    ensures t.input == c.input && t.expectedOutput == c.expectedOutput && t.actualOutput.None?
    ensures |t.toolsCalled| == |c.expectedTools|
    ensures forall i :: 0 <= i < |c.expectedTools| ==> t.toolsCalled[i].name == c.expectedTools[i] && t.toolsCalled[i].inputParameters == []
  {
    LlmTestCase(c.input, c.expectedOutput, ToolCalls(c.expectedTools), None)
  }

  function ToolNames(calls: seq<ToolCall>): (names: seq<string>)
    ensures |names| == |calls| && forall i :: 0 <= i < |calls| ==> names[i] == calls[i].name
  {
    if calls == [] then [] else [calls[0].name] + ToolNames(calls[1..])
  }

  /** The converted case calls exactly the expected tools, in order, each without parameters, and has no output yet. */
  lemma ToLlmTestCaseKeepsTools(c: AgentTestCase)
    ensures ToolNames(ToLlmTestCase(c).toolsCalled) == c.expectedTools
    ensures forall t :: t in ToLlmTestCase(c).toolsCalled ==> t.inputParameters == []
    ensures ToLlmTestCase(c).input == c.input && ToLlmTestCase(c).expectedOutput == c.expectedOutput
    ensures ToLlmTestCase(c).actualOutput.None?
  {
  }

  /** What loading raises: a missing `input` key, or a value of a type the record cannot take. */
  datatype LoadError = KeyError(key: string) | TypeError(what: string)

  /** `item.get(key, default)` for a text field. */
  function TextField(item: Dict<string, Json>, key: string, default: string): Result<string, LoadError> {
    var v: Option<Json> := Get(item, key);
    match v
    case None => Success(default)
    case Some(Str(s)) => Success(s)
    case Some(_) => Failure(TypeError(key))
  }

  /** The texts of a list whose every element is a text. */
  function Texts(items: seq<Json>): (r: Option<seq<string>>)
    ensures r.Some? <==> forall i :: 0 <= i < |items| ==> items[i].Str?
    ensures r.Some? ==> |r.value| == |items| && forall i :: 0 <= i < |items| ==> items[i] == Str(r.value[i])
  {
    if items == [] then Some([])
    else if !items[0].Str? then None
    else
      match Texts(items[1..])
      case None => None
      case Some(rest) => Some([items[0].s] + rest)
  }

  /** `item.get('expected_tools', [])`. */
  function ToolsField(item: Dict<string, Json>): Result<seq<string>, LoadError> {
    var v: Option<Json> := Get(item, "expected_tools");
    match v
    case None => Success([])
    case Some(Arr(xs)) =>
      (match Texts(xs)
       case Some(ts) => Success(ts)
       case None => Failure(TypeError("expected_tools")))
    case Some(_) => Failure(TypeError("expected_tools"))
  }

  /** The record built from one item of the file; `item['input']` is required. */
  function FromItem(item: Json): (r: Result<AgentTestCase, LoadError>)
    ensures !item.Obj? ==> r.Failure?
    ensures item.Obj? && !HasKey(item.fields, "input") ==> r == Failure(KeyError("input"))
    ensures r.Success? ==> Index(item, "input") == Some(Str(r.value.input))
  {
    if !item.Obj? then Failure(TypeError("item"))
    else
      var f := item.fields;
      var v: Option<Json> := Get(f, "input");
      match v
      case None => Failure(KeyError("input"))
      case Some(Str(input)) =>
        (match (TextField(f, "expected_output", ""), ToolsField(f), TextField(f, "category", "general"),
                TextField(f, "difficulty", "medium"))
         case (Success(out), Success(tools), Success(cat), Success(diff)) =>
           Success(AgentTestCase(input, out, tools, cat, diff))
         case (Failure(e), _, _, _) => Failure(e)
         case (_, Failure(e), _, _) => Failure(e)
         case (_, _, Failure(e), _) => Failure(e)
         case (_, _, _, Failure(e)) => Failure(e))
      case Some(_) => Failure(TypeError("input"))
  }

  /** An item with only `input` takes every default. */
  lemma {:induction false} OnlyInputTakesDefaults(input: string)
    ensures FromItem(Obj([("input", Str(input))])) == Success(NewTestCase(input, "", []))
  {
    var f := [("input", Str(input))];
    assert Get(f, "input") == Some(Str(input));
    assert Get(f, "expected_output") == None by { assert f[0].0 != "expected_output"; assert f[1..] == []; }
    assert Get(f, "expected_tools") == None by { assert f[0].0 != "expected_tools"; assert f[1..] == []; }
    assert Get(f, "category") == None by { assert f[0].0 != "category"; assert f[1..] == []; }
    assert Get(f, "difficulty") == None by { assert f[0].0 != "difficulty"; assert f[1..] == []; }
  }

  /** The list comprehension over the file's items. */
  function FromItems(items: seq<Json>): (r: Result<seq<AgentTestCase>, LoadError>)
    ensures r.Success? <==> forall i :: 0 <= i < |items| ==> FromItem(items[i]).Success?
    ensures r.Success? ==> |r.value| == |items| && forall i :: 0 <= i < |items| ==> FromItem(items[i]) == Success(r.value[i])
  {
    if items == [] then Success([])
    else
      match FromItem(items[0])
      case Failure(e) => Failure(e)
      case Success(c) =>
        match FromItems(items[1..])
        case Failure(e) => Failure(e)
        case Success(cs) => Success([c] + cs)
  }

  /** `for item in data`: a list yields its elements, a dict its keys, a text its characters; anything else is not iterable. */
  function Iterate(data: Json): Option<seq<Json>> {
    match data
    case Arr(xs) => Some(xs)
    case Obj(f) => Some(seq(|f|, i requires 0 <= i < |f| => Str(f[i].0)))
    case Str(s) => Some(seq(|s|, i requires 0 <= i < |s| => Str([s[i]])))
    case _ => None
  }

  /** `load_test_cases(filepath)`. */
  function LoadTestCases(files: map<string, Json>, path: string): (r: Result<seq<AgentTestCase>, LoadError>)
    ensures path !in files ==> r == Success([])
    ensures path in files && Iterate(files[path]).None? ==> r == Failure(TypeError("data"))
    ensures path in files && r.Success? ==>
              && Iterate(files[path]).Some?
              && |r.value| == |Iterate(files[path]).value|
              && forall i :: 0 <= i < |r.value| ==> FromItem(Iterate(files[path]).value[i]) == Success(r.value[i])
    ensures path in files && Iterate(files[path]).Some? ==>
              (r.Success? <==> forall i :: 0 <= i < |Iterate(files[path]).value| ==> FromItem(Iterate(files[path]).value[i]).Success?)
  {
    if path !in files then Success([])
    else
      match Iterate(files[path])
      case None => Failure(TypeError("data"))
      case Some(items) => FromItems(items)
  }

  /** A missing file loads as no cases. */
  lemma MissingFileLoadsNothing(files: map<string, Json>, path: string)
    requires path !in files
    ensures LoadTestCases(files, path) == Success([])
  {
  }

  /** A list file loads one record per item, in order, or fails when some item does. */
  lemma LoadKeepsOrder(files: map<string, Json>, path: string, items: seq<Json>)
    requires path in files && files[path] == Arr(items)
    ensures var r := LoadTestCases(files, path);
            && (r.Success? <==> forall i :: 0 <= i < |items| ==> FromItem(items[i]).Success?)
            && (r.Success? ==> |r.value| == |items| && forall i :: 0 <= i < |items| ==> FromItem(items[i]) == Success(r.value[i]))
  {
  }

  /** `save_test_cases(test_cases, filepath)`: the file then holds the list. */
  function SaveTestCases(files: map<string, Json>, path: string, cases: seq<Json>): (after: map<string, Json>)
    ensures path in after && after[path] == Arr(cases)
    ensures forall p :: p in files && p != path ==> p in after && after[p] == files[p]
  {
    files[path := Arr(cases)]
  }

  /** A list of texts as JSON. */
  function JsonTexts(ts: seq<string>): (items: seq<Json>)
    ensures |items| == |ts| && forall i :: 0 <= i < |ts| ==> items[i] == Str(ts[i])
  {
    seq(|ts|, i requires 0 <= i < |ts| => Str(ts[i]))
  }

  /** A list of texts reads back as those texts. */
  lemma TextsOfJsonTexts(ts: seq<string>)
    ensures Texts(JsonTexts(ts)) == Some(ts)
  {
    var r := Texts(JsonTexts(ts));
    assert r.Some?;
    assert r.value == ts;
  }

  /** The dict form of a record, with the five keys in the order the samples use. */
  function ToDict(c: AgentTestCase): Json {
    Obj([("input", Str(c.input)), ("expected_output", Str(c.expectedOutput)),
         ("expected_tools", Arr(JsonTexts(c.expectedTools))),
         ("category", Str(c.category)), ("difficulty", Str(c.difficulty))])
  }

  /** Looking up each of the five keys of a record's dict. */
  lemma ToDictFields(c: AgentTestCase)
    ensures var f := ToDict(c).fields;
            && Get(f, "input") == Some(Str(c.input))
            && Get(f, "expected_output") == Some(Str(c.expectedOutput))
            && Get(f, "expected_tools") == Some(Arr(JsonTexts(c.expectedTools)))
            && Get(f, "category") == Some(Str(c.category))
            && Get(f, "difficulty") == Some(Str(c.difficulty))
  {
    var f := ToDict(c).fields;
    var k0, k1, k2, k3, k4 := "input", "expected_output", "expected_tools", "category", "difficulty";
    assert |k0| == 5 && |k1| == 15 && |k2| == 14 && |k3| == 8 && |k4| == 10;
    var f1, f2, f3, f4 := f[1..], f[1..][1..], f[1..][1..][1..], f[1..][1..][1..][1..];
    assert f[0].0 == k0 && f1[0].0 == k1 && f2[0].0 == k2 && f3[0].0 == k3 && f4[0].0 == k4;
    assert Get(f, k0) == Some(Str(c.input));
    assert Get(f, k1) == Get(f1, k1) == Some(Str(c.expectedOutput));
    assert Get(f, k2) == Get(f1, k2) == Get(f2, k2);
    assert Get(f, k3) == Get(f1, k3) == Get(f2, k3) == Get(f3, k3);
    assert Get(f, k4) == Get(f1, k4) == Get(f2, k4) == Get(f3, k4) == Get(f4, k4);
  }

  /** A record's dict reads back as the record. */
  lemma {:induction false} FromItemOfDict(c: AgentTestCase)
    ensures FromItem(ToDict(c)) == Success(c)
  {
    ToDictFields(c);
    TextsOfJsonTexts(c.expectedTools);
  }

  /** Saving the dicts of records and loading the file gives the records back. */
  lemma {:induction false} SaveLoadRoundTrip(files: map<string, Json>, path: string, cases: seq<AgentTestCase>)
    ensures var dicts := seq(|cases|, i requires 0 <= i < |cases| => ToDict(cases[i]));
            LoadTestCases(SaveTestCases(files, path, dicts), path) == Success(cases)
  {
    var dicts := seq(|cases|, i requires 0 <= i < |cases| => ToDict(cases[i]));
    forall i | 0 <= i < |cases| ensures FromItem(dicts[i]) == Success(cases[i]) {
      FromItemOfDict(cases[i]);
    }
    var r := FromItems(dicts);
    assert r.Success?;
    assert r.value == cases;
  }
}
