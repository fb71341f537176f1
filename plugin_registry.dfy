/**
 * The plugin lab's tool registry (registry.py): tools stored by name in
 * registration order, one rate limiter per tool, schema export, and
 * execution behind an error boundary, optionally gated on the caller's
 * permissions.
 *
 * The limiter class lives in manager.py, which is not part of this model;
 * it is modelled as a fixed 60-second window that opens at the first call.
 * The clock is the `now` parameter of every call.
 */
module PluginRegistry {
  import opened Wrappers
  import opened Dict
  import opened Json
  import opened Strings
  import opened PluginBase

  const Window: real := 60.0

  /** A tool's limiter: `count` calls allowed so far in the window that opened at `windowStart`. */
  datatype RateLimiter = RateLimiter(limit: int, windowStart: Option<real>, count: nat)

  function NewLimiter(callsPerMinute: int): (l: RateLimiter)
    ensures l.limit == callsPerMinute && l.count == 0 && l.windowStart.None?
  {
    RateLimiter(callsPerMinute, None, 0)
  }

  predicate InWindow(l: RateLimiter, now: real) {
    l.windowStart.Some? && l.windowStart.value <= now < l.windowStart.value + Window
  }

  /**
   * Asking the limiter for one call at time `now`: outside the current
   * window a new window opens with no calls counted; the call is allowed
   * while fewer than `limit` calls were counted in the window.
   */
  function Acquire(l: RateLimiter, now: real): (r: (bool, RateLimiter))
    ensures r.1.limit == l.limit
    ensures r.0 <==> (if InWindow(l, now) then l.count else 0) < l.limit
    ensures r.1.count == (if InWindow(l, now) then l.count else 0) + (if r.0 then 1 else 0)
    ensures InWindow(r.1, now)
  {
    var cur := if InWindow(l, now) then l else RateLimiter(l.limit, Some(now), 0);
    if cur.count < cur.limit then (true, cur.(count := cur.count + 1)) else (false, cur)
  }

  /** The limiter never counts more calls than its limit allows. */
  ghost predicate WithinLimit(l: RateLimiter) {
    l.count <= if l.limit < 0 then 0 else l.limit
  }

  lemma AcquireKeepsLimit(l: RateLimiter, now: real)
    requires WithinLimit(l)
    ensures WithinLimit(Acquire(l, now).1)
  {
  }

  /** How many of the calls made at `times`, one after another, the limiter allows. */
  function AllowedCalls(l: RateLimiter, times: seq<real>): nat
    decreases |times|
  {
    if times == [] then 0
    else
      var r := Acquire(l, times[0]);
      (if r.0 then 1 else 0) + AllowedCalls(r.1, times[1..])
  }

  /** All calls inside one open window: at most the calls the window has left are allowed. */
  lemma {:induction false} OneWindowCap(l: RateLimiter, times: seq<real>)
    requires forall i :: 0 <= i < |times| ==> InWindow(l, times[i])
    ensures AllowedCalls(l, times) <= if l.limit <= l.count then 0 else l.limit - l.count
    decreases |times|
  {
    if times != [] {
      var r := Acquire(l, times[0]);
      assert r.1.windowStart == l.windowStart;
      forall i | 0 <= i < |times[1..]| ensures InWindow(r.1, times[1..][i]) {
        assert InWindow(l, times[i + 1]);
      }
      OneWindowCap(r.1, times[1..]);
    }
  }

  // ---------------------------------------------------------------------------
  // Error records

  function Failed(message: string): (r: ToolResult)
    ensures !r.success && r.error == Some(message)
  {
    ToolResult(false, Null, Some(message))
  }

  function NotFound(name: string): ToolResult {
    Failed("Tool '" + name + "' not found")
  }

  function RateLimited(name: string): ToolResult {
    Failed("Rate limit exceeded for tool '" + name + "'")
  }

  function AccessDenied(missing: seq<string>): ToolResult {
    Failed("Access Denied. Missing: " + Join(missing, ", "))
  }

  /** The try/except around a tool's `execute`: an exception becomes an error record. */
  function Boundary(o: ToolOutcome): (r: ToolResult)
    ensures o.Returned? ==> r == o.value
    ensures o.Raised? ==> !r.success && r.error == Some("Execution error: " + o.exception)
  {
    match o
    case Returned(v) => v
    case Raised(e) => Failed("Execution error: " + e)
  }

  /** `[p for p in required if p not in held]`. */
  function Missing(required: seq<string>, held: seq<string>): (m: seq<string>)
    ensures forall p :: p in m <==> p in required && p !in held
    ensures |m| <= |required|
  {
    if required == [] then []
    else (if required[0] in held then [] else [required[0]]) + Missing(required[1..], held)
  }

  /** The missing permissions keep the order they have in the tool's list: missing splits over concatenation. */
  lemma {:induction false} MissingAppend(a: seq<string>, b: seq<string>, held: seq<string>)
    ensures Missing(a + b, held) == Missing(a, held) + Missing(b, held)
    decreases |a|
  {
    if a == [] {
      assert a + b == b;
    } else {
      assert (a + b)[0] == a[0] && (a + b)[1..] == a[1..] + b;
      MissingAppend(a[1..], b, held);
    }
  }

  // ---------------------------------------------------------------------------
  // One call of `execute` / `execute_secure` on given registry state

  /** What one call did: its answer, whether the tool's own `execute` ran, and the limiters afterwards. */
  datatype Call = Call(result: ToolResult, invoked: bool, limiters: map<string, RateLimiter>)

  /**
   * `execute(tool_name, arguments)`: look the tool up, ask its limiter, run
   * it inside the error boundary.
   */
  function ExecuteCall(tools: Dict<string, BaseTool>, limiters: map<string, RateLimiter>,
                       name: string, args: Json, now: real): (c: Call)
    ensures Get(tools, name).None? ==> c == Call(NotFound(name), false, limiters)
    ensures c.invoked <==> Get(tools, name).Some? && (name in limiters ==> Acquire(limiters[name], now).0)
    ensures c.invoked ==> c.result == Boundary(Get(tools, name).value.execute(args))
    ensures !c.invoked ==> !c.result.success
    ensures forall k :: k != name ==> (k in c.limiters <==> k in limiters) && (k in limiters ==> c.limiters[k] == limiters[k])
    ensures name in c.limiters <==> name in limiters
  {
    match Get(tools, name)
    case None => Call(NotFound(name), false, limiters)
    case Some(tool) =>
      if name !in limiters then Call(Boundary(tool.execute(args)), true, limiters)
      else
        var r := Acquire(limiters[name], now);
        if !r.0 then Call(RateLimited(name), false, limiters[name := r.1])
        else Call(Boundary(tool.execute(args)), true, limiters[name := r.1])
  }

  /**
   * `execute_secure(tool_name, arguments, user_permissions)`: a tool the
   * caller lacks permissions for is refused before `execute` runs; anything
   * else, an unknown name included, is `execute`'s answer.
   */
  function SecureCall(tools: Dict<string, BaseTool>, limiters: map<string, RateLimiter>,
                      name: string, args: Json, held: seq<string>, now: real): (c: Call)
    ensures Get(tools, name).Some? && Missing(Get(tools, name).value.permissions, held) != []
            ==> c == Call(AccessDenied(Missing(Get(tools, name).value.permissions, held)), false, limiters)
    ensures Get(tools, name).None? || Missing(Get(tools, name).value.permissions, held) == []
            ==> c == ExecuteCall(tools, limiters, name, args, now)
  {
    match Get(tools, name)
    case Some(tool) =>
      var missing := Missing(tool.permissions, held);
      if missing != [] then Call(AccessDenied(missing), false, limiters)
      else ExecuteCall(tools, limiters, name, args, now)
    case None => ExecuteCall(tools, limiters, name, args, now)
  }

  /** A tool is invoked only when the caller holds every permission it requires. */
  lemma SecureInvokesOnlyPermitted(tools: Dict<string, BaseTool>, limiters: map<string, RateLimiter>,
                                   name: string, args: Json, held: seq<string>, now: real)
    ensures SecureCall(tools, limiters, name, args, held, now).invoked ==>
              forall p :: p in Get(tools, name).value.permissions ==> p in held
  {
    var c := SecureCall(tools, limiters, name, args, held, now);
    if c.invoked {
      var perms := Get(tools, name).value.permissions;
      assert Missing(perms, held) == [];
    }
  }

  /** The filesystem lab's `list_files`: it needs `filesystem:read`; its directory listing is a parameter. */
  function ListFilesTool(listing: Json -> ToolOutcome): (t: BaseTool)
    ensures t.name == "list_files" && t.permissions == ["filesystem:read"]
  {
    BaseTool("list_files", "Lists the files in a directory.", Obj([]), ["filesystem:read"], listing)
  }

  /** With no permissions `list_files` is denied naming `filesystem:read`; with it, the call is `execute`'s. */
  lemma ListFilesNeedsRead(tools: Dict<string, BaseTool>, limiters: map<string, RateLimiter>,
                           listing: Json -> ToolOutcome, args: Json, now: real)
    requires Get(tools, "list_files") == Some(ListFilesTool(listing))
    ensures SecureCall(tools, limiters, "list_files", args, [], now)
         == Call(Failed("Access Denied. Missing: filesystem:read"), false, limiters)
    ensures SecureCall(tools, limiters, "list_files", args, ["filesystem:read"], now)
         == ExecuteCall(tools, limiters, "list_files", args, now)
  {
    assert Missing(["filesystem:read"], []) == ["filesystem:read"];
    assert Missing(["filesystem:read"], ["filesystem:read"]) == [];
    assert Join(["filesystem:read"], ", ") == "filesystem:read";
    assert "Access Denied. Missing: " + "filesystem:read" == "Access Denied. Missing: filesystem:read";
  }

  // ---------------------------------------------------------------------------
  // The registry object

  class ToolRegistry {
    var tools: Dict<string, BaseTool>
    var limiters: map<string, RateLimiter>

    /** Each tool is stored once, under its own name, and has a limiter. */
    ghost predicate Valid()
      reads this
    {
      && UniqueKeys(tools)
      && (forall i :: 0 <= i < |tools| ==> tools[i].1.name == tools[i].0)
      && (forall k :: k in limiters <==> k in Keys(tools))
    }

    constructor()
      ensures Valid()
      ensures tools == [] && limiters == map[]
    {
      tools := [];
      limiters := map[];
    }

    /** `register(tool, calls_per_minute)`: store the tool under its name (replacing one of that name in place) with a fresh limiter. */
    method Register(tool: BaseTool, callsPerMinute: int)
      requires Valid()
      modifies this
      ensures Valid()
      ensures tools == Put(old(tools), tool.name, tool)
      ensures limiters == old(limiters)[tool.name := NewLimiter(callsPerMinute)]
    {
      PutUnique(tools, tool.name, tool);
      PutKeys(tools, tool.name, tool);
      forall i | 0 <= i < |Put(tools, tool.name, tool)|
        ensures Put(tools, tool.name, tool)[i].1.name == Put(tools, tool.name, tool)[i].0
      {
        PutValues(tools, tool.name, tool, i);
      }
      tools := Put(tools, tool.name, tool);
      limiters := limiters[tool.name := NewLimiter(callsPerMinute)];
    }

    /** `get_tool(name)`. */
    function GetTool(name: string): (t: Option<BaseTool>)
      reads this
      ensures t == Get(tools, name)
      ensures t.Some? <==> name in Keys(tools)
      ensures Valid() && t.Some? ==> t.value.name == name
    {
      GetSomeIffKey(tools, name);
      StoredUnderOwnName(tools, name);
      Get(tools, name)
    }

    /** `get_schemas()`: one schema per registered tool, in registration order, each naming its key. */
    function GetSchemas(): (s: seq<Json>)
      reads this
      ensures |s| == |tools|
      ensures forall i :: 0 <= i < |s| ==> s[i] == GetSchema(tools[i].1)
      ensures Valid() ==> forall i :: 0 <= i < |s| ==> SchemaName(s[i]) == Some(Keys(tools)[i])
    {
      seq(|tools|, i requires 0 <= i < |tools| reads this => GetSchema(tools[i].1))
    }

    /** `execute(tool_name, arguments)`; `invoked` tells whether the tool's own code ran. */
    method Execute(name: string, args: Json, now: real) returns (result: ToolResult, invoked: bool)
      requires Valid()
      modifies this
      ensures Valid()
      ensures tools == old(tools)
      ensures Call(result, invoked, limiters) == ExecuteCall(old(tools), old(limiters), name, args, now)
    {
      var c := ExecuteCall(tools, limiters, name, args, now);
      result, invoked := c.result, c.invoked;
      limiters := c.limiters;
    }

    /** `execute_secure(tool_name, arguments, user_permissions)`. */
    method ExecuteSecure(name: string, args: Json, held: seq<string>, now: real) returns (result: ToolResult, invoked: bool)
      requires Valid()
      modifies this
      ensures Valid()
      ensures tools == old(tools)
      ensures Call(result, invoked, limiters) == SecureCall(old(tools), old(limiters), name, args, held, now)
    {
      var tool := GetTool(name);
      if tool.Some? {
        var missing := Missing(tool.value.permissions, held);
        if missing != [] {
          return AccessDenied(missing), false;
        }
      }
      result, invoked := Execute(name, args, now);
    }
  }

  /** A lookup in a valid registry finds the tool stored under the name, which is its own name. */
  lemma {:induction false} StoredUnderOwnName(tools: Dict<string, BaseTool>, name: string)
    ensures (forall i :: 0 <= i < |tools| ==> tools[i].1.name == tools[i].0) && Get(tools, name).Some?
            ==> Get(tools, name).value.name == name
    decreases |tools|
  {
    if tools != [] && tools[0].0 != name {
      assert forall i :: 0 <= i < |tools[1..]| ==> tools[1..][i] == tools[i + 1];
      StoredUnderOwnName(tools[1..], name);
    }
  }

  /** Registering a name again replaces its tool in place: the schema list keeps its length and order of names. */
  lemma ReRegisterKeepsNames(tools: Dict<string, BaseTool>, tool: BaseTool)
    requires tool.name in Keys(tools)
    ensures Keys(Put(tools, tool.name, tool)) == Keys(tools)
    ensures |Put(tools, tool.name, tool)| == |tools|
  {
    PutKeys(tools, tool.name, tool);
  }
}
