/**
 * The project starter's instrumented agent (src/agent/base.py): the tool
 * schemas it offers the model, its guarded tool execution (loop check,
 * then lookup, then the call behind an error boundary) and the two hooks
 * that report a step and the end of a run to the tracer.
 *
 * The project's own registry, loop detector and tracer modules are not part
 * of this model: the registry is the routing lab's `Registry`, the detector
 * is the routing lab's `AdvancedLoopDetector`, and the tracer is represented
 * by the calls the agent makes to it, recorded in order.
 */
module BaseAgent {
  import opened Wrappers
  import opened Dict
  import opened Json
  import opened Chat
  import PluginBase
  import RoutingRegistry
  import LoopDetector
  import Tracer

  // ---------------------------------------------------------------------------
  // The tool schemas

  /** `[tool.to_openai_schema() for tool in tools]`: one schema per tool, naming it, in tool order. */
  function Schemas(tools: seq<RoutingRegistry.Tool>): (s: seq<Json>)
    ensures |s| == |tools|
    ensures forall i :: 0 <= i < |s| ==> PluginBase.SchemaName(s[i]) == Some(tools[i].name)
    ensures forall i :: 0 <= i < |s| ==> s[i] == RoutingRegistry.ToOpenAiSchema(tools[i])
  {
    seq(|tools|, i requires 0 <= i < |tools| => RoutingRegistry.ToOpenAiSchema(tools[i]))
  }

  /** The tools an agent gets: the ones given, or else every tool in the registry. */
  function ToolsOf(given: Option<seq<RoutingRegistry.Tool>>, registry: RoutingRegistry.Registry): (ts: seq<RoutingRegistry.Tool>)
    ensures given.None? ==> ts == RoutingRegistry.AllTools(registry) && |ts| == |Keys(registry.tools)|
    ensures given.Some? ==> ts == given.value
  {
    match given
    case None => RoutingRegistry.AllTools(registry)
    case Some(ts) => ts
  }

  /** Python's `x or default` on an optional string. */
  function OrDefault(x: Option<string>, default: string): (r: string)
    ensures Truthy(x) ==> r == x.value
    ensures !Truthy(x) ==> r == default
  {
    if Truthy(x) then x.value else default
  }

  // ---------------------------------------------------------------------------
  // Tool execution

  /** The text a flagged call gets instead of a tool result. */
  function LoopText(v: LoopDetector.LoopDetectionResult): string {
    "SYSTEM: " + v.message + " (Detection: " + v.strategy + ")"
  }

  function NotFound(name: string): string {
    "Error: Tool '" + name + "' not found."
  }

  const ValidationPrefix := "Error: Tool arguments validation failed. "

  /** Unpacking arguments that are not a dict raises a TypeError inside the error boundary. */
  const NotAMapping := "Error: TypeError: argument after ** must be a mapping"

  /** How a finished call is reported: `str(result)`, or the exception as text. */
  function OutcomeText(o: RoutingRegistry.ExecOutcome): string {
    match o
    case Value(text) => text
    case ValidationError(m) => ValidationPrefix + m
    case Raised(ty, m) => "Error: " + ty + ": " + m
  }

  /**
   * What `_execute_tool(tool_name, arguments)` returns once the detector has
   * judged the call: the loop warning, else the not-found error, else the
   * outcome of executing the registered tool. It is a string in every case:
   * nothing escapes.
   */
  function ToolResult(verdict: LoopDetector.LoopDetectionResult, registry: RoutingRegistry.Registry,
                      name: string, arguments: Json): (r: string)
    ensures verdict.isLooping ==> r == LoopText(verdict)
    ensures !verdict.isLooping && RoutingRegistry.ToolNamed(registry, name).None? ==> r == NotFound(name)
    ensures !verdict.isLooping && RoutingRegistry.ToolNamed(registry, name).Some? ==>
              r == (if arguments.Obj? then OutcomeText(RoutingRegistry.Execute(RoutingRegistry.ToolNamed(registry, name).value, arguments))
                    else NotAMapping)
  {
    if verdict.isLooping then LoopText(verdict)
    else match RoutingRegistry.ToolNamed(registry, name)
      case None => NotFound(name)
      case Some(tool) =>
        if arguments.Obj? then OutcomeText(RoutingRegistry.Execute(tool, arguments)) else NotAMapping
  }

  /** A flagged call is answered without looking at the registry or the arguments. */
  lemma LoopSkipsTool(verdict: LoopDetector.LoopDetectionResult, r1: RoutingRegistry.Registry, r2: RoutingRegistry.Registry,
                      name: string, a1: Json, a2: Json)
    requires verdict.isLooping
    ensures ToolResult(verdict, r1, name, a1) == ToolResult(verdict, r2, name, a2)
    ensures ToolResult(verdict, r1, name, a1)[..8] == "SYSTEM: "
  {
  }

  /** Arguments the tool's model rejects never reach its function. */
  lemma ValidationFailureSkipsFunction(verdict: LoopDetector.LoopDetectionResult, registry: RoutingRegistry.Registry,
                                       name: string, arguments: Json, f: RoutingRegistry.Func)
    requires !verdict.isLooping && arguments.Obj?
    requires RoutingRegistry.ToolNamed(registry, name).Some?
    requires RoutingRegistry.ToolNamed(registry, name).value.model.validate(arguments).Failure?
    ensures var t := RoutingRegistry.ToolNamed(registry, name).value;
            var r := ToolResult(verdict, registry, name, arguments);
            && r == ValidationPrefix + t.model.validate(arguments).error
            && OutcomeText(RoutingRegistry.Execute(t.(func := f), arguments)) == r
  {
  }

  /** Repeating an earlier call, under the default threshold of 2, is answered with the exact-loop warning. */
  lemma RepeatedCallIsRefused(history: seq<(string, string)>, registry: RoutingRegistry.Registry, name: string, arguments: Json,
                              fuzzyThreshold: real, fuzzyCmp: LoopDetector.Cmp, bothEmpty: real)
    requires 0.0 <= bothEmpty <= 1.0
    requires (name, Dumps(arguments)) in history
    ensures var v := LoopDetector.ToolCallVerdict(history, name, Dumps(arguments), 2, fuzzyThreshold, fuzzyCmp, bothEmpty);
            && v.isLooping && v.strategy == "exact"
            && ToolResult(v, registry, name, arguments) == LoopText(v)
            && LoopText(v) == "SYSTEM: " + v.message + " (Detection: exact)"
  {
    LoopDetector.RepeatIsExact(history, name, Dumps(arguments), fuzzyThreshold, fuzzyCmp, bothEmpty);
  }

  // ---------------------------------------------------------------------------
  // What the hooks hand to the tracer

  /** `(name, args, result, duration_ms)` as accumulated during a step. */
  type ToolCallTuple = (string, Json, string, real)

  /** The step record of the project's tracer: the lab tracer's fields plus tokens and cost. */
  datatype ObservedStep = ObservedStep(stepNumber: int, reasoning: Option<string>, toolCalls: seq<Tracer.ToolCallRecord>,
                                       inputTokens: nat, outputTokens: nat, costUsd: real, durationMs: real)

  /** `[ToolCallRecord(...) for name, args, result, dur_ms in tool_calls]`. */
  function ToolRecords(calls: seq<ToolCallTuple>): (rs: seq<Tracer.ToolCallRecord>)
    ensures |rs| == |calls|
    ensures forall i :: 0 <= i < |rs| ==>
              rs[i].toolName == calls[i].0 && rs[i].toolInput == calls[i].1
              && rs[i].toolOutput == calls[i].2 && rs[i].durationMs == calls[i].3
    decreases |calls|
  {
    if calls == [] then []
    else
      var rest := ToolRecords(calls[1..]);
      assert forall i :: 1 <= i < |calls| ==> calls[i] == calls[1..][i - 1];
      [Tracer.ToolCallRecord(calls[0].0, calls[0].1, calls[0].2, calls[0].3)] + rest
  }

  /** The records of two batches of calls are the records of each, one after the other. */
  lemma {:induction false} ToolRecordsAppend(a: seq<ToolCallTuple>, b: seq<ToolCallTuple>)
    ensures ToolRecords(a + b) == ToolRecords(a) + ToolRecords(b)
    decreases |a|
  {
    if a != [] {
      assert (a + b)[1..] == a[1..] + b;
      ToolRecordsAppend(a[1..], b);
    }
  }

  /**
   * The step `_on_step_end` logs: no usage counts as zero tokens, a failing
   * `completion_cost` (`None`) as zero cost.
   */
  function StepRecord(step: int, response: Completion, cost: Option<real>, calls: seq<ToolCallTuple>, durationMs: real): (s: ObservedStep)
    ensures s.stepNumber == step && s.reasoning == response.reply.content && s.durationMs == durationMs
    ensures s.inputTokens == (if response.usage.Some? then response.usage.value.promptTokens else 0)
    ensures s.outputTokens == (if response.usage.Some? then response.usage.value.completionTokens else 0)
    ensures s.costUsd == cost.GetOr(0.0)
    ensures s.toolCalls == ToolRecords(calls)
  {
    var inputTokens := if response.usage.Some? then response.usage.value.promptTokens else 0;
    var outputTokens := if response.usage.Some? then response.usage.value.completionTokens else 0;
    ObservedStep(step, response.reply.content, ToolRecords(calls), inputTokens, outputTokens, cost.GetOr(0.0), durationMs)
  }

  /** A response without usage and an unpriceable response give a free step with no tokens. */
  lemma UnmeteredStepIsFree(step: int, reply: Reply, calls: seq<ToolCallTuple>, durationMs: real)
    ensures var s := StepRecord(step, Completion(reply, None), None, calls, durationMs);
            s.inputTokens == 0 && s.outputTokens == 0 && s.costUsd == 0.0 && |s.toolCalls| == |calls|
  {
  }

  /** `end_kwargs`: `status` only when it is not "success", `error` only when it is truthy. */
  function EndKwargs(status: string, error: Option<string>): (k: Dict<string, string>)
    ensures HasKey(k, "status") <==> status != "success"
    ensures HasKey(k, "error") <==> Truthy(error)
    ensures status != "success" ==> Get(k, "status") == Some(status)
    ensures Truthy(error) ==> Get(k, "error") == Some(error.value)
    ensures forall key :: HasKey(k, key) ==> key == "status" || key == "error"
    ensures UniqueKeys(k)
  {
    var k: Dict<string, string> :=
      (if status != "success" then [("status", status)] else []) + (if Truthy(error) then [("error", error.value)] else []);
    forall key ensures Get(k, key) == if key == "status" && status != "success" then Some(status)
                                      else if key == "error" && Truthy(error) then Some(error.value)
                                      else None {
      assert |"status"| != |"error"|;
      var e: Dict<string, string> := if Truthy(error) then [("error", error.value)] else [];
      if e != [] { assert e[1..] == []; }
      assert Get(e, key) == if key == "error" && Truthy(error) then Some(error.value) else None;
      if status != "success" {
        assert k == [("status", status)] + e;
        assert k[1..] == e;
      } else {
        assert k == e;
      }
    }
    k
  }

  /** A run that ends with the default status and no error passes no keyword arguments. */
  lemma SuccessfulEndPassesNothing(error: Option<string>)
    requires !Truthy(error)
    ensures EndKwargs("success", error) == []
  {
    if HasKey(EndKwargs("success", error), "status") {
      assert false;
    }
  }

  /** One call of `end_trace(trace_id, answer, **end_kwargs)`. */
  datatype EndCall = EndCall(traceId: Option<nat>, answer: string, kwargs: Dict<string, string>)

  // ---------------------------------------------------------------------------
  // The agent object

  class Agent {
    const model: string
    const maxSteps: int
    const agentName: string
    const systemPrompt: string
    const registry: RoutingRegistry.Registry
    const tools: seq<RoutingRegistry.Tool>
    const toolsSchema: seq<Json>
    const detector: LoopDetector.AdvancedLoopDetector
    var currentTraceId: Option<nat>
    /** The `log_step` calls made so far, in order. */
    var loggedSteps: seq<(Option<nat>, ObservedStep)>
    /** The `end_trace` calls made so far, in order. */
    var endCalls: seq<EndCall>

    ghost predicate Valid()
      reads this, detector
    {
      detector.Valid() && toolsSchema == Schemas(tools)
    }

    /**
     * `BaseAgent(model, max_steps, agent_name, verbose, system_prompt, tools)`;
     * `defaultModel` and `defaultPrompt` are the configured model name and
     * the default system prompt, `registry` the registry the agent consults.
     */
    constructor(model: Option<string>, defaultModel: string, maxSteps: int, agentName: string,
                systemPrompt: Option<string>, defaultPrompt: string,
                tools: Option<seq<RoutingRegistry.Tool>>, registry: RoutingRegistry.Registry)
      ensures Valid() && fresh(detector)
      ensures this.model == OrDefault(model, defaultModel) && this.maxSteps == maxSteps && this.agentName == agentName
      ensures this.systemPrompt == OrDefault(systemPrompt, defaultPrompt)
      ensures this.registry == registry && this.tools == ToolsOf(tools, registry)
      ensures toolsSchema == Schemas(this.tools)
      ensures detector.toolHistory == [] && detector.outputHistory == []
      ensures detector.exactThreshold == 2 && detector.fuzzyThreshold == 0.8 && detector.stagnationWindow == 3
      ensures currentTraceId.None? && loggedSteps == [] && endCalls == []
    {
      this.model := OrDefault(model, defaultModel);
      this.maxSteps := maxSteps;
      this.agentName := agentName;
      this.systemPrompt := OrDefault(systemPrompt, defaultPrompt);
      this.registry := registry;
      this.tools := ToolsOf(tools, registry);
      this.toolsSchema := Schemas(ToolsOf(tools, registry));
      this.detector := new LoopDetector.AdvancedLoopDetector.Default();
      currentTraceId := None;
      loggedSteps := [];
      endCalls := [];
    }

    /**
     * `_execute_tool(tool_name, arguments)`: the detector judges and records
     * the call (as `json.dumps(arguments)`) whatever happens next.
     */
    method ExecuteTool(name: string, arguments: Json) returns (r: string)
      requires Valid()
      modifies detector
      ensures Valid()
      ensures r == ToolResult(LoopDetector.ToolCallVerdict(old(detector.toolHistory), name, Dumps(arguments),
                                detector.exactThreshold, detector.fuzzyThreshold, detector.fuzzyCmp, detector.bothEmpty),
                              registry, name, arguments)
      ensures detector.toolHistory == old(detector.toolHistory) + [(name, Dumps(arguments))]
      ensures detector.outputHistory == old(detector.outputHistory)
    {
      var check := detector.CheckToolCall(name, Dumps(arguments));
      if check.isLooping {
        return LoopText(check);
      }
      var tool := RoutingRegistry.ToolNamed(registry, name);
      if tool.None? {
        return NotFound(name);
      }
      if !arguments.Obj? {
        return NotAMapping;
      }
      var outcome := RoutingRegistry.Execute(tool.value, arguments);
      r := OutcomeText(outcome);
    }

    /** `_on_step_end(step, response, tool_calls, step_duration_ms)`: exactly one `log_step`. */
    method OnStepEnd(step: int, response: Completion, cost: Option<real>, calls: seq<ToolCallTuple>, durationMs: real)
      modifies this
      ensures loggedSteps == old(loggedSteps) + [(currentTraceId, StepRecord(step, response, cost, calls, durationMs))]
      ensures currentTraceId == old(currentTraceId) && endCalls == old(endCalls)
    {
      loggedSteps := loggedSteps + [(currentTraceId, StepRecord(step, response, cost, calls, durationMs))];
    }

    /** `_on_loop_end(answer, total_steps, status, error)`: exactly one `end_trace`; pass "success" and `None` for the defaults. */
    method OnLoopEnd(answer: string, totalSteps: int, status: string, error: Option<string>)
      modifies this
      ensures endCalls == old(endCalls) + [EndCall(currentTraceId, answer, EndKwargs(status, error))]
      ensures currentTraceId == old(currentTraceId) && loggedSteps == old(loggedSteps)
    {
      endCalls := endCalls + [EndCall(currentTraceId, answer, EndKwargs(status, error))];
    }
  }
}
