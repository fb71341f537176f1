/**
 * The routing lab's tool registry (tools/registry.py): tools by name, and
 * tool names by category, filled in by a registering decorator. What
 * pydantic derives from a function's signature (its JSON schema and its
 * argument validation) is given with the function as a `Signature`.
 */
module RoutingRegistry {
  import opened Wrappers
  import opened Dict
  import opened Json
  import PluginBase

  /** What a tool function does with validated arguments: `str(result)`, or the exception's type name and message. */
  type Func = Json -> Result<string, (string, string)>

  /** `create_model(...)` from the signature: its `model_json_schema()` and its validation of keyword arguments. */
  datatype Signature = Signature(schema: Json, validate: Json -> Result<Json, string>)

  datatype Tool = Tool(name: string, func: Func, description: string, model: Signature)

  /** How `Tool.execute(**kwargs)` ends. */
  datatype ExecOutcome =
    | Value(text: string)
    | ValidationError(message: string)
    | Raised(typeName: string, message: string)

  /** `Tool.execute(**kwargs)`: validate, then call the function with the validated arguments. */
  function Execute(t: Tool, kwargs: Json): (o: ExecOutcome)
    ensures t.model.validate(kwargs).Failure? ==> o == ValidationError(t.model.validate(kwargs).error)
    ensures o.Value? ==> t.model.validate(kwargs).Success? && t.func(t.model.validate(kwargs).value) == Success(o.text)
  {
    match t.model.validate(kwargs)
    case Failure(e) => ValidationError(e)
    case Success(args) =>
      match t.func(args)
      case Success(text) => Value(text)
      case Failure((ty, msg)) => Raised(ty, msg)
  }

  /** `Tool.to_openai_schema()`. */
  function ToOpenAiSchema(t: Tool): (j: Json)
    ensures Index(j, "type") == Some(Str("function"))
    ensures PluginBase.SchemaName(j) == Some(t.name)
    ensures Index(j, "function").Some?
    ensures Index(Index(j, "function").value, "strict") == Some(Bool(true))
    ensures Index(Index(j, "function").value, "description") == Some(Str(t.description))
    ensures Index(Index(j, "function").value, "parameters").Some?
    ensures var p := Index(Index(j, "function").value, "parameters").value;
      && Index(p, "type") == Some(Str("object"))
      && Index(p, "additionalProperties") == Some(Bool(false))
      && Index(p, "properties") == Some(SchemaField(t.model.schema, "properties", Obj([])))
      && Index(p, "required") == Some(SchemaField(t.model.schema, "required", Arr([])))
  {
    var params := [("type", Str("object")),
                   ("properties", SchemaField(t.model.schema, "properties", Obj([]))),
                   ("required", SchemaField(t.model.schema, "required", Arr([]))),
                   ("additionalProperties", Bool(false))];
    var fn := [("name", Str(t.name)), ("description", Str(t.description)), ("parameters", Obj(params)), ("strict", Bool(true))];
    var outer := [("type", Str("function")), ("function", Obj(fn))];
    assert Get(outer, "function") == Get(outer[1..], "function");
    assert Get(fn, "description") == Get(fn[1..], "description");
    assert Get(fn, "parameters") == Get(fn[1..], "parameters") == Get(fn[2..], "parameters");
    assert Get(fn, "strict") == Get(fn[1..], "strict") == Get(fn[2..], "strict") == Get(fn[3..], "strict");
    assert Get(params, "properties") == Get(params[1..], "properties");
    assert Get(params, "required") == Get(params[1..], "required") == Get(params[2..], "required");
    assert Get(params, "additionalProperties") == Get(params[1..], "additionalProperties")
        == Get(params[2..], "additionalProperties") == Get(params[3..], "additionalProperties");
    Obj(outer)
  }

  /** `schema.get(key, default)` on the generated schema (a dict by construction). */
  function SchemaField(schema: Json, key: string, default: Json): Json {
    if schema.Obj? then GetOr(schema, key, default) else default
  }

  /** A schema without "properties" or "required" gets `{}` and `[]`. */
  lemma SchemaDefaults(t: Tool)
    requires t.model.schema == Obj([("title", Str(t.name + "Schema")), ("type", Str("object"))])
    ensures var p := Index(Index(ToOpenAiSchema(t), "function").value, "parameters").value;
      Index(p, "properties") == Some(Obj([])) && Index(p, "required") == Some(Arr([]))
  {
    var f := t.model.schema.fields;
    assert Get(f, "properties") == Get(f[1..], "properties") == Get(f[2..], "properties");
    assert Get(f, "required") == Get(f[1..], "required") == Get(f[2..], "required");
  }

  // ---------------------------------------------------------------------------
  // The registry as a value

  /** `_tools` and `_categories`. */
  datatype Registry = Registry(tools: Dict<string, Tool>, categories: map<string, seq<string>>)

  /** Every name filed under a category names a stored tool, and names are stored once. */
  ghost predicate RegistryValid(r: Registry) {
    && UniqueKeys(r.tools)
    && forall c, i :: c in r.categories && 0 <= i < |r.categories[c]| ==> HasKey(r.tools, r.categories[c][i])
  }

  function EmptyRegistry(): (r: Registry)
    ensures RegistryValid(r)
  {
    Registry([], map[])
  }

  /** `_categories.get(category, [])`. */
  function CategoryNames(r: Registry, category: string): seq<string> {
    if category in r.categories then r.categories[category] else []
  }

  /** The category `register` files a tool under when none is given. */
  const DefaultCategory := "general"

  /** What `register(name, description, category)(func)` does to the registry. */
  function Registered(r: Registry, name: string, description: string, category: string, func: Func, model: Signature): (r': Registry)
    requires RegistryValid(r)
    ensures RegistryValid(r')
    ensures Get(r'.tools, name) == Some(Tool(name, func, description, model))
    ensures forall other :: other != name ==> Get(r'.tools, other) == Get(r.tools, other)
    ensures CategoryNames(r', category) == CategoryNames(r, category) + [name]
    ensures forall c :: c != category ==> CategoryNames(r', c) == CategoryNames(r, c)
  {
    PutUnique(r.tools, name, Tool(name, func, description, model));
    PutGetSame(r.tools, name, Tool(name, func, description, model));
    forall other | other != name
      ensures Get(Put(r.tools, name, Tool(name, func, description, model)), other) == Get(r.tools, other)
    {
      PutGetOther(r.tools, name, Tool(name, func, description, model), other);
    }
    var tools' := Put(r.tools, name, Tool(name, func, description, model));
    var r' := Registry(tools', r.categories[category := CategoryNames(r, category) + [name]]);
    forall c, i | c in r'.categories && 0 <= i < |r'.categories[c]|
      ensures HasKey(tools', r'.categories[c][i])
    {
      var n := r'.categories[c][i];
      GetSomeIffKey(tools', n);
      if n != name {
        GetSomeIffKey(r.tools, n);
      }
    }
    r'
  }

  /** `get_tool(name)`. */
  function ToolNamed(r: Registry, name: string): (t: Option<Tool>)
    ensures t.Some? <==> name in Keys(r.tools)
  {
    GetSomeIffKey(r.tools, name);
    Get(r.tools, name)
  }

  /** `get_all_tools()`: the stored tools in insertion order, one per name. */
  function AllTools(r: Registry): (ts: seq<Tool>)
    ensures ts == Values(r.tools)
    ensures |ts| == |Keys(r.tools)|
  {
    Values(r.tools)
  }

  /** `get_tools_by_category(category)`: the category's names, looked up in order. */
  function ToolsByCategory(r: Registry, category: string): (ts: seq<Tool>)
    requires RegistryValid(r)
    ensures |ts| == |CategoryNames(r, category)|
    ensures forall i :: 0 <= i < |ts| ==> Some(ts[i]) == Get(r.tools, CategoryNames(r, category)[i])
    ensures category !in r.categories ==> ts == []
  {
    var names := CategoryNames(r, category);
    seq(|names|, i requires 0 <= i < |names| =>
      GetSomeIffKey(r.tools, names[i]);
      Get(r.tools, names[i]).value)
  }

  /** Registering the same name twice in one category lists it twice, and both entries give the newer tool. */
  lemma ReRegisterDuplicates(r: Registry, name: string, d1: string, d2: string, category: string,
                             f1: Func, f2: Func, m1: Signature, m2: Signature)
    requires RegistryValid(r)
    ensures var r' := Registered(Registered(r, name, d1, category, f1, m1), name, d2, category, f2, m2);
      && CategoryNames(r', category) == CategoryNames(r, category) + [name, name]
      && var ts := ToolsByCategory(r', category);
         ts[|ts| - 2] == ts[|ts| - 1] == Tool(name, f2, d2, m2)
  {
    var r1 := Registered(r, name, d1, category, f1, m1);
    var r2 := Registered(r1, name, d2, category, f2, m2);
    assert CategoryNames(r2, category) == CategoryNames(r, category) + [name] + [name];
    assert CategoryNames(r, category) + [name] + [name] == CategoryNames(r, category) + [name, name];
  }

  /** A name registered again under a new category stays listed under the old one, where it now gives the new tool. */
  lemma MovedNameStays(r: Registry, name: string, d1: string, d2: string, from: string, to: string,
                       f1: Func, f2: Func, m1: Signature, m2: Signature)
    requires RegistryValid(r) && from != to
    ensures var r' := Registered(Registered(r, name, d1, from, f1, m1), name, d2, to, f2, m2);
      && CategoryNames(r', from) == CategoryNames(r, from) + [name]
      && CategoryNames(r', to) == CategoryNames(r, to) + [name]
      && ToolsByCategory(r', from)[|CategoryNames(r, from)|] == Tool(name, f2, d2, m2)
  {
  }

  // ---------------------------------------------------------------------------
  // The registry object

  class ToolRegistry {
    var tools: Dict<string, Tool>
    var categories: map<string, seq<string>>

    function State(): Registry
      reads this
    {
      Registry(tools, categories)
    }

    ghost predicate Valid()
      reads this
    {
      RegistryValid(State())
    }

    constructor()
      ensures Valid() && tools == [] && categories == map[]
    {
      tools := [];
      categories := map[];
    }

    /** `register(name, description, category)(func)`: files the tool and hands back `func` itself; pass `DefaultCategory` for the default. */
    method Register(name: string, description: string, category: string, func: Func, model: Signature) returns (f: Func)
      requires Valid()
      modifies this
      ensures Valid()
      ensures State() == Registered(old(State()), name, description, category, func, model)
      ensures f == func
    {
      ghost var after := Registered(State(), name, description, category, func, model);
      var tool := Tool(name, func, description, model);
      tools := Put(tools, name, tool);
      if category !in categories {
        categories := categories[category := []];
      }
      categories := categories[category := categories[category] + [name]];
      assert State() == after;
      f := func;
    }

    function GetTool(name: string): Option<Tool>
      reads this
    {
      ToolNamed(State(), name)
    }

    function GetAllTools(): seq<Tool>
      reads this
    {
      AllTools(State())
    }

    function GetToolsByCategory(category: string): seq<Tool>
      requires Valid()
      reads this
    {
      ToolsByCategory(State(), category)
    }
  }
}
