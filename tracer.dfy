/**
 * The agent tracer (agent/tracer.py): a store of traces, each an
 * append-only list of steps with a status, open while "running" and
 * immutable once an end finalises it. Trace ids come from a counter,
 * which gives the freshness the source gets from uuid; the clock that
 * stamps a step is a parameter.
 */
module Tracer {
  import opened Wrappers
  import opened Json

  /** One tool call made during a step. */
  datatype ToolCallRecord = ToolCallRecord(toolName: string, toolInput: Json, toolOutput: string, durationMs: real)

  /** One reasoning step of an agent run. */
  datatype AgentStep = AgentStep(stepNumber: int, reasoning: Option<string>, toolCalls: seq<ToolCallRecord>,
                                 durationMs: real, timestamp: real)

  /** `AgentStep(step_number, reasoning)` with the other fields defaulted; `now` is `time.time()`. */
  function NewStep(stepNumber: int, reasoning: Option<string>, now: real): (s: AgentStep)
    ensures s.stepNumber == stepNumber && s.reasoning == reasoning
    ensures s.toolCalls == [] && s.durationMs == 0.0 && s.timestamp == now
  {
    AgentStep(stepNumber, reasoning, [], 0.0, now)
  }

  /** One run of one agent. */
  datatype Trace = Trace(traceId: nat, agentName: string, inputQuery: string, steps: seq<AgentStep>, status: string)

  const Running := "running"
  const Completed := "completed"

  /** `Trace(trace_id, agent_name, input_query)` with the other fields defaulted. */
  function NewTrace(id: nat, agentName: string, query: string): (t: Trace)
    ensures t.traceId == id && t.agentName == agentName && t.inputQuery == query
    ensures t.steps == [] && t.status == Running
  {
    Trace(id, agentName, query, [], Running)
  }

  // ---------------------------------------------------------------------------
  // The store as a value, and the three operations on it

  /** The tracer's state: the traces by id and the next id to hand out. */
  datatype Store = Store(traces: map<nat, Trace>, next: nat)

  /** Every stored trace is filed under its own id, and every id handed out lies below the counter. */
  predicate StoreValid(s: Store) {
    forall id :: id in s.traces ==> id < s.next && s.traces[id].traceId == id
  }

  /** What a caller can do to the tracer. */
  datatype Event = Start(agentName: string, query: string) | Log(id: nat, step: AgentStep) | End(id: nat, status: string)

  /** `start_trace`: a new running trace under the next id. */
  function Started(s: Store, agentName: string, query: string): (r: (Store, nat))
    requires StoreValid(s)
    ensures StoreValid(r.0)
    ensures r.1 !in s.traces && r.1 in r.0.traces
    ensures r.0.traces[r.1] == NewTrace(r.1, agentName, query)
    ensures forall id :: id in s.traces ==> id in r.0.traces && r.0.traces[id] == s.traces[id]
    ensures r.0.traces.Keys == s.traces.Keys + {r.1}
  {
    (Store(s.traces[s.next := NewTrace(s.next, agentName, query)], s.next + 1), s.next)
  }

  /**
   * A trace takes steps and a status only while it is running: the first
   * end that sets another status finalises it, and later calls leave it as
   * it is. Ending with the status "running" itself leaves the trace open.
   */
  predicate IsOpen(t: Trace) {
    t.status == Running
  }

  /** `log_step`: an open trace gets the step on the end of its steps; an unknown id or a finalised trace changes nothing. */
  function Logged(s: Store, id: nat, step: AgentStep): (r: Store)
    requires StoreValid(s)
    ensures StoreValid(r)
    ensures r.traces.Keys == s.traces.Keys && r.next == s.next
    ensures id in s.traces && IsOpen(s.traces[id]) ==> r.traces[id] == s.traces[id].(steps := s.traces[id].steps + [step])
    ensures forall other :: other in s.traces && other != id ==> r.traces[other] == s.traces[other]
    ensures id !in s.traces || !IsOpen(s.traces[id]) ==> r == s
  {
    if id in s.traces && IsOpen(s.traces[id]) then Store(s.traces[id := s.traces[id].(steps := s.traces[id].steps + [step])], s.next)
    else s
  }

  /** `end_trace`: an open trace takes the status and keeps its steps; an unknown id or a finalised trace changes nothing. */
  function Ended(s: Store, id: nat, status: string): (r: Store)
    requires StoreValid(s)
    ensures StoreValid(r)
    ensures r.traces.Keys == s.traces.Keys && r.next == s.next
    ensures id in s.traces && IsOpen(s.traces[id]) ==> r.traces[id] == s.traces[id].(status := status)
    ensures forall other :: other in s.traces && other != id ==> r.traces[other] == s.traces[other]
    ensures id !in s.traces || !IsOpen(s.traces[id]) ==> r == s
  {
    if id in s.traces && IsOpen(s.traces[id]) then Store(s.traces[id := s.traces[id].(status := status)], s.next)
    else s
  }

  function Apply(s: Store, e: Event): (r: Store)
    requires StoreValid(s)
    ensures StoreValid(r)
  {
    match e
    case Start(a, q) => Started(s, a, q).0
    case Log(id, step) => Logged(s, id, step)
    case End(id, status) => Ended(s, id, status)
  }

  /** The store after a sequence of calls, in order. */
  function Replay(s: Store, es: seq<Event>): (r: Store)
    requires StoreValid(s)
    ensures StoreValid(r)
    decreases |es|
  {
    if es == [] then s else Replay(Apply(s, es[0]), es[1..])
  }

  /** `e` finalises trace `id`: an end naming it with a status other than "running". */
  predicate Closes(e: Event, id: nat) {
    e.End? && e.id == id && e.status != Running
  }

  /** The steps logged for `id` before the first call that finalises it, in call order. */
  function StepsWhileOpen(es: seq<Event>, id: nat): seq<AgentStep> {
    if es == [] || Closes(es[0], id) then []
    else (if es[0].Log? && es[0].id == id then [es[0].step] else []) + StepsWhileOpen(es[1..], id)
  }

  /** The status set by the first call that finalises `id`, if any. */
  function FirstEnd(es: seq<Event>, id: nat): Option<string> {
    if es == [] then None
    else if Closes(es[0], id) then Some(es[0].status)
    else FirstEnd(es[1..], id)
  }

  /** One call changes a trace only when it names it and the trace is open: a log appends, a finalising end sets the status. */
  lemma ApplyToTrace(s: Store, e: Event, id: nat)
    requires StoreValid(s) && id in s.traces
    ensures id in Apply(s, e).traces
    ensures Apply(s, e).traces[id].steps
            == s.traces[id].steps + (if e.Log? && e.id == id && IsOpen(s.traces[id]) then [e.step] else [])
    ensures Apply(s, e).traces[id].status
            == (if Closes(e, id) && IsOpen(s.traces[id]) then e.status else s.traces[id].status)
    ensures Apply(s, e).traces[id].agentName == s.traces[id].agentName
    ensures Apply(s, e).traces[id].inputQuery == s.traces[id].inputQuery
  {
  }

  /** A finalised trace is immutable: no sequence of later calls changes it. */
  lemma {:induction false} FinalisedTraceIsFrozen(s: Store, es: seq<Event>, id: nat)
    requires StoreValid(s) && id in s.traces && !IsOpen(s.traces[id])
    ensures id in Replay(s, es).traces && Replay(s, es).traces[id] == s.traces[id]
    decreases |es|
  {
    if es != [] {
      var s1 := Apply(s, es[0]);
      assert id in s1.traces && s1.traces[id] == s.traces[id] by {
        match es[0]
        case Start(a, q) =>
        case Log(i, step) =>
        case End(i, status) =>
      }
      FinalisedTraceIsFrozen(s1, es[1..], id);
    }
  }

  /**
   * Once a trace exists and is open, whatever calls follow, its steps are
   * the steps it had followed by exactly the steps logged for its id up to
   * the first end that finalises it, and its status is that end's status
   * (or "running" when none comes).
   */
  lemma TraceCollectsItsSteps(s: Store, es: seq<Event>, id: nat)
    requires StoreValid(s) && id in s.traces && IsOpen(s.traces[id])
    ensures id in Replay(s, es).traces
    ensures Replay(s, es).traces[id].steps == s.traces[id].steps + StepsWhileOpen(es, id)
    ensures Replay(s, es).traces[id].status == FirstEnd(es, id).GetOr(Running)
    ensures Replay(s, es).traces[id].agentName == s.traces[id].agentName
    ensures Replay(s, es).traces[id].inputQuery == s.traces[id].inputQuery
  {
    ReplayCollects(s, es, id);
  }

  /** `after` is `before` with the steps and the finalising status that `es` give `id`. */
  ghost predicate Collects(before: Trace, es: seq<Event>, id: nat, after: Trace) {
    && after.steps == before.steps + StepsWhileOpen(es, id)
    && after.status == FirstEnd(es, id).GetOr(before.status)
    && after.agentName == before.agentName
    && after.inputQuery == before.inputQuery
  }

  lemma {:induction false} ReplayCollects(s: Store, es: seq<Event>, id: nat)
    requires StoreValid(s) && id in s.traces && IsOpen(s.traces[id])
    ensures id in Replay(s, es).traces
    ensures Collects(s.traces[id], es, id, Replay(s, es).traces[id])
    decreases |es|
  {
    if es == [] {
      assert s.traces[id].steps + [] == s.traces[id].steps;
    } else {
      var s1 := Apply(s, es[0]);
      ApplyToTrace(s, es[0], id);
      if Closes(es[0], id) {
        FinalisedTraceIsFrozen(s1, es[1..], id);
        assert s.traces[id].steps + [] == s.traces[id].steps;
      } else {
        ReplayCollects(s1, es[1..], id);
        CollectsStep(s.traces[id], s1.traces[id], es, id, Replay(s1, es[1..]).traces[id]);
      }
    }
  }

  /** A call that does not finalise `id`, in front of the rest: its own change, then the rest's. */
  lemma CollectsStep(before: Trace, mid: Trace, es: seq<Event>, id: nat, after: Trace)
    requires es != [] && !Closes(es[0], id)
    requires mid.steps == before.steps + (if es[0].Log? && es[0].id == id then [es[0].step] else [])
    requires mid.status == before.status
    requires mid.agentName == before.agentName && mid.inputQuery == before.inputQuery
    requires Collects(mid, es[1..], id, after)
    ensures Collects(before, es, id, after)
  {
    var head := if es[0].Log? && es[0].id == id then [es[0].step] else [];
    assert before.steps + head + StepsWhileOpen(es[1..], id) == before.steps + (head + StepsWhileOpen(es[1..], id));
  }

  /** A trace started on a store is fresh: it sees only the steps logged for it afterwards, until it is finalised. */
  lemma NewTraceSeesOnlyLaterSteps(s: Store, agentName: string, query: string, es: seq<Event>)
    requires StoreValid(s)
    ensures var (s1, id) := Started(s, agentName, query);
            && id in Replay(s1, es).traces
            && Replay(s1, es).traces[id].steps == StepsWhileOpen(es, id)
            && Replay(s1, es).traces[id].status == FirstEnd(es, id).GetOr(Running)
  {
    var (s1, id) := Started(s, agentName, query);
    TraceCollectsItsSteps(s1, es, id);
  }

  /** Two traces started one after the other get different ids. */
  lemma StartedIdsDiffer(s: Store, a1: string, q1: string, a2: string, q2: string)
    requires StoreValid(s)
    ensures Started(s, a1, q1).1 != Started(Started(s, a1, q1).0, a2, q2).1
  {
  }

  // ---------------------------------------------------------------------------
  // The tracer object

  class AgentTracer {
    var traces: map<nat, Trace>
    var next: nat
    const verbose: bool

    /** The state as a value. */
    function State(): Store
      reads this
    {
      Store(traces, next)
    }

    ghost predicate Valid()
      reads this
    {
      StoreValid(State())
    }

    /** `AgentTracer(verbose)`: no traces yet. */
    constructor(verbose: bool)
      ensures Valid() && traces == map[] && this.verbose == verbose
    {
      traces := map[];
      next := 0;
      this.verbose := verbose;
    }

    /** `start_trace(agent_name, query)`: stores a new running trace and returns its fresh id. */
    method StartTrace(agentName: string, query: string) returns (id: nat)
      requires Valid()
      modifies this
      ensures Valid()
      ensures (State(), id) == Started(old(State()), agentName, query)
      ensures id !in old(traces) && traces[id] == NewTrace(id, agentName, query)
    {
      id := next;
      traces := traces[id := NewTrace(id, agentName, query)];
      next := next + 1;
    }

    /** `log_step(trace_id, step)`: only an open trace takes the step. */
    method LogStep(id: nat, step: AgentStep)
      requires Valid()
      modifies this
      ensures Valid()
      ensures State() == Logged(old(State()), id, step)
    {
      if id in traces && IsOpen(traces[id]) {
        traces := traces[id := traces[id].(steps := traces[id].steps + [step])];
      }
    }

    /** `end_trace(trace_id, status="completed")`, finalising an open trace; pass `Completed` for the default. */
    method EndTrace(id: nat, status: string)
      requires Valid()
      modifies this
      ensures Valid()
      ensures State() == Ended(old(State()), id, status)
    {
      if id in traces && IsOpen(traces[id]) {
        traces := traces[id := traces[id].(status := status)];
      }
    }
  }
}
