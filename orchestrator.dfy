/**
 * The newsroom lab's plan-and-execute agent (starter/orchestrator.py): a
 * plan of specialist steps is executed in list order, each step seeing the
 * results of the steps it depends on, and the results are combined into
 * one answer. The planner, the specialists and the synthesis call are
 * model calls and are parameters here.
 *
 * Two choices the lab leaves open are explicit: what a dependency with no
 * stored result contributes to the context (`MissingDep`), and how a task
 * and its context are put together for the specialist (`SubTask`).
 */
module Orchestrator {
  import opened Wrappers
  import opened Dict
  import opened Strings

  /** `PlanStep(step, task, specialist, depends_on)`. */
  datatype PlanStep = PlanStep(step: int, task: string, specialist: string, dependsOn: seq<int>)

  type Plan = seq<PlanStep>

  /** A step declared without `depends_on` gets the empty list. */
  function NewPlanStep(step: int, task: string, specialist: string): (s: PlanStep)
    ensures s.step == step && s.task == task && s.specialist == specialist
    ensures s.dependsOn == []
  {
    PlanStep(step, task, specialist, [])
  }

  /** What a dependency without a stored result contributes: nothing, or a marker line. */
  datatype MissingDep = Skip | Marker(text: string)

  /** `call_specialist(specialist, task)`. */
  type Specialist = (string, string) -> string

  /** The synthesis call: the query and the formatted step results give the final answer. */
  type Synthesizer = (string, string) -> string

  // ---------------------------------------------------------------------------
  // Dependency context

  /** The context line for dependency `n`, if it contributes one. */
  function DepLine(n: int, results: Dict<int, string>, policy: MissingDep): Option<string> {
    match Get(results, n)
    case Some(r) => Some("Step " + IntText(n) + ": " + r)
    case None => if policy.Marker? then Some("Step " + IntText(n) + ": " + policy.text) else None
  }

  /** The lines for `depends_on`, in listed order. */
  function DepLines(deps: seq<int>, results: Dict<int, string>, policy: MissingDep): (ls: seq<string>)
    ensures |ls| <= |deps|
    ensures (forall i :: 0 <= i < |deps| ==> HasKey(results, deps[i])) ==>
              |ls| == |deps| && forall i :: 0 <= i < |deps| ==> ls[i] == DepLine(deps[i], results, policy).value
    ensures policy.Marker? ==> |ls| == |deps|
    ensures policy.Skip? && (forall i :: 0 <= i < |deps| ==> !HasKey(results, deps[i])) ==> ls == []
    decreases |deps|
  {
    if deps == [] then []
    else
      var rest := DepLines(deps[1..], results, policy);
      assert forall i :: 1 <= i < |deps| ==> deps[i] == deps[1..][i - 1];
      match DepLine(deps[0], results, policy)
      case Some(l) => [l] + rest
      case None => rest
  }

  /** The line of a dependency that contributes one is among the dependency lines. */
  lemma {:induction false} DepLineListed(deps: seq<int>, results: Dict<int, string>, policy: MissingDep, i: nat)
    requires i < |deps| && DepLine(deps[i], results, policy).Some?
    ensures DepLine(deps[i], results, policy).value in DepLines(deps, results, policy)
    decreases |deps|
  {
    if i > 0 {
      assert deps[1..][i - 1] == deps[i];
      DepLineListed(deps[1..], results, policy, i - 1);
    }
  }

  /**
   * `_get_context(step, results)`: the dependency lines, one per line. Every
   * dependency with a stored result contributes its "Step N: result" line,
   * and a step without dependencies has no context.
   */
  function Context(step: PlanStep, results: Dict<int, string>, policy: MissingDep): (c: string)
    ensures step.dependsOn == [] ==> c == ""
    ensures forall i :: 0 <= i < |step.dependsOn| && HasKey(results, step.dependsOn[i]) ==>
              Contains(c, "Step " + IntText(step.dependsOn[i]) + ": " + Get(results, step.dependsOn[i]).value)
  {
    var deps := step.dependsOn;
    var ls := DepLines(deps, results, policy);
    forall i | 0 <= i < |deps| && HasKey(results, deps[i])
      ensures Contains(Join(ls, "\n"), "Step " + IntText(deps[i]) + ": " + Get(results, deps[i]).value)
    {
      DepLineListed(deps, results, policy, i);
      var k :| 0 <= k < |ls| && ls[k] == DepLine(deps[i], results, policy).value;
      JoinContains(ls, "\n", k);
    }
    Join(ls, "\n")
  }

  /** The task handed to the specialist: the task, followed by the context when there is one. */
  function SubTask(task: string, context: string): (s: string)
    ensures context == "" ==> s == task
    ensures context != "" ==> |s| > |task| && s[..|task|] == task
  {
    if context == "" then task else task + "\n\nContext from previous steps:\n" + context
  }

  /** What one step produces, given the results stored before it. */
  function StepOutput(step: PlanStep, results: Dict<int, string>, specialist: Specialist, policy: MissingDep): string {
    specialist(step.specialist, SubTask(step.task, Context(step, results, policy)))
  }

  // ---------------------------------------------------------------------------
  // Execution

  /** `results` after executing the plan in list order. */
  function Executed(plan: Plan, specialist: Specialist, policy: MissingDep): (r: Dict<int, string>)
    ensures UniqueKeys(r) && |r| <= |plan|
    ensures plan != [] ==> HasKey(r, plan[|plan| - 1].step)
    decreases |plan|
  {
    if plan == [] then []
    else
      var before := Executed(plan[..|plan| - 1], specialist, policy);
      var step := plan[|plan| - 1];
      var out := StepOutput(step, before, specialist, policy);
      PutUnique(before, step.step, out);
      PutKeys(before, step.step, out);
      PutGetSame(before, step.step, out);
      assert |Keys(Put(before, step.step, out))| <= |Keys(before)| + 1;
      Put(before, step.step, out)
  }

  /** The step numbers of a plan, in plan order. */
  function StepNumbers(plan: Plan): (ns: seq<int>)
    ensures |ns| == |plan| && forall i :: 0 <= i < |plan| ==> ns[i] == plan[i].step
  {
    seq(|plan|, i requires 0 <= i < |plan| => plan[i].step)
  }

  /** Every step number of the plan has a result, and nothing else has. */
  lemma {:induction false} ExecutedKeys(plan: Plan, specialist: Specialist, policy: MissingDep, n: int)
    ensures HasKey(Executed(plan, specialist, policy), n) <==> n in StepNumbers(plan)
    decreases |plan|
  {
    if plan != [] {
      var init := plan[..|plan| - 1];
      var before := Executed(init, specialist, policy);
      var step := plan[|plan| - 1];
      assert StepNumbers(plan) == StepNumbers(init) + [step.step];
      ExecutedKeys(init, specialist, policy, n);
      if n == step.step {
        PutGetSame(before, n, StepOutput(step, before, specialist, policy));
      } else {
        PutGetOther(before, step.step, StepOutput(step, before, specialist, policy), n);
      }
    }
  }

  /** With distinct step numbers, each step's result is what its specialist returned given the results before it. */
  lemma {:induction false} ExecutedValue(plan: Plan, specialist: Specialist, policy: MissingDep, i: nat)
    requires i < |plan|
    requires forall j, k :: 0 <= j < k < |plan| ==> plan[j].step != plan[k].step
    ensures Get(Executed(plan, specialist, policy), plan[i].step)
         == Some(StepOutput(plan[i], Executed(plan[..i], specialist, policy), specialist, policy))
    decreases |plan|
  {
    var init := plan[..|plan| - 1];
    var before := Executed(init, specialist, policy);
    var step := plan[|plan| - 1];
    if i == |plan| - 1 {
      PutGetSame(before, step.step, StepOutput(step, before, specialist, policy));
    } else {
      PutGetOther(before, step.step, StepOutput(step, before, specialist, policy), plan[i].step);
      assert init[i] == plan[i];
      assert init[..i] == plan[..i];
      ExecutedValue(init, specialist, policy, i);
    }
  }

  /** Executing one more step stores its output under its number. */
  lemma ExecutedSnoc(plan: Plan, specialist: Specialist, policy: MissingDep, i: nat)
    requires i < |plan|
    ensures var before := Executed(plan[..i], specialist, policy);
            Executed(plan[..i + 1], specialist, policy) == Put(before, plan[i].step, StepOutput(plan[i], before, specialist, policy))
  {
    assert plan[..i + 1][..i] == plan[..i];
  }

  /** `for step in plan: ... results[step_num] = ...`. */
  method ExecutePlan(plan: Plan, specialist: Specialist, policy: MissingDep) returns (results: Dict<int, string>)
    ensures results == Executed(plan, specialist, policy)
  {
    results := [];
    var i := 0;
    while i < |plan|
      invariant 0 <= i <= |plan|
      invariant results == Executed(plan[..i], specialist, policy)
    {
      var step := plan[i];
      var context := Context(step, results, policy);
      var output := specialist(step.specialist, SubTask(step.task, context));
      ExecutedSnoc(plan, specialist, policy, i);
      results := Put(results, step.step, output);
      i := i + 1;
    }
    assert plan[..i] == plan;
  }

  // ---------------------------------------------------------------------------
  // Plans whose dependencies point backwards

  /** Every dependency names a step listed earlier. */
  ghost predicate BackwardDeps(plan: Plan) {
    forall i, d :: 0 <= i < |plan| && d in plan[i].dependsOn ==> exists j :: 0 <= j < i && plan[j].step == d
  }

  /** Lines for dependencies that all have results do not depend on the missing-result policy. */
  lemma DepLinesPolicyFree(deps: seq<int>, results: Dict<int, string>, p1: MissingDep, p2: MissingDep)
    requires forall i :: 0 <= i < |deps| ==> HasKey(results, deps[i])
    ensures DepLines(deps, results, p1) == DepLines(deps, results, p2)
  {
  }

  /** When every dependency points back, each step sees a result for every dependency. */
  lemma DepsAvailable(plan: Plan, specialist: Specialist, policy: MissingDep, i: nat)
    requires BackwardDeps(plan) && i < |plan|
    ensures forall k :: 0 <= k < |plan[i].dependsOn| ==> HasKey(Executed(plan[..i], specialist, policy), plan[i].dependsOn[k])
  {
    forall k | 0 <= k < |plan[i].dependsOn|
      ensures HasKey(Executed(plan[..i], specialist, policy), plan[i].dependsOn[k])
    {
      var d := plan[i].dependsOn[k];
      assert d in plan[i].dependsOn;
      var j :| 0 <= j < i && plan[j].step == d;
      assert StepNumbers(plan[..i])[j] == d;
      ExecutedKeys(plan[..i], specialist, policy, d);
    }
  }

  /** So for such a plan the missing-result policy never matters: both policies give the same results. */
  lemma {:induction false} PolicyIrrelevantWhenDepsPointBack(plan: Plan, specialist: Specialist, p1: MissingDep, p2: MissingDep)
    requires BackwardDeps(plan)
    ensures Executed(plan, specialist, p1) == Executed(plan, specialist, p2)
    decreases |plan|
  {
    if plan != [] {
      var n := |plan| - 1;
      var init := plan[..n];
      assert BackwardDeps(init) by {
        forall i, d | 0 <= i < |init| && d in init[i].dependsOn
          ensures exists j :: 0 <= j < i && init[j].step == d
        {
          assert init[i] == plan[i];
          var j :| 0 <= j < i && plan[j].step == d;
          assert init[j] == plan[j];
        }
      }
      PolicyIrrelevantWhenDepsPointBack(init, specialist, p1, p2);
      DepsAvailable(plan, specialist, p1, n);
      DepLinesPolicyFree(plan[n].dependsOn, Executed(init, specialist, p1), p1, p2);
    }
  }

  /** A step that depends on two earlier ones sees both their results, verbatim and in listed order. */
  lemma ContextOfTwoDeps(s1: PlanStep, s2: PlanStep, s3: PlanStep, specialist: Specialist, policy: MissingDep)
    requires s1.step == 1 && s2.step == 2 && s3.step == 3
    requires s1.dependsOn == [] && s2.dependsOn == [1] && s3.dependsOn == [1, 2]
    ensures var results := Executed([s1, s2, s3][..2], specialist, policy);
            && HasKey(results, 1) && HasKey(results, 2)
            && Context(s3, results, policy) == "Step 1: " + Get(results, 1).value + "\n" + "Step 2: " + Get(results, 2).value
  {
    var plan := [s1, s2, s3];
    var results := Executed(plan[..2], specialist, policy);
    FirstTwoExecuted(plan, specialist, policy);
    TwoDepLines(s3.dependsOn, results, policy);
    JoinTwo(DepLines(s3.dependsOn, results, policy), "\n");
  }

  /** The lines of dependencies 1 and 2 when both have results. */
  lemma TwoDepLines(deps: seq<int>, results: Dict<int, string>, policy: MissingDep)
    requires deps == [1, 2] && HasKey(results, 1) && HasKey(results, 2)
    ensures DepLines(deps, results, policy) == ["Step 1: " + Get(results, 1).value, "Step 2: " + Get(results, 2).value]
  {
    assert IntText(1) == "1" && IntText(2) == "2";
    assert forall i :: 0 <= i < |deps| ==> HasKey(results, deps[i]);
    var ls := DepLines(deps, results, policy);
    assert ls[0] == DepLine(1, results, policy).value == "Step 1: " + Get(results, 1).value;
    assert ls[1] == DepLine(2, results, policy).value == "Step 2: " + Get(results, 2).value;
  }

  lemma FirstTwoExecuted(plan: Plan, specialist: Specialist, policy: MissingDep)
    requires |plan| == 3 && plan[0].step == 1 && plan[1].step == 2
    requires plan[0].dependsOn == [] && plan[1].dependsOn == [1]
    ensures HasKey(Executed(plan[..2], specialist, policy), 1) && HasKey(Executed(plan[..2], specialist, policy), 2)
  {
    ExecutedKeys(plan[..2], specialist, policy, 1);
    ExecutedKeys(plan[..2], specialist, policy, 2);
    assert StepNumbers(plan[..2]) == [1, 2];
  }

  lemma JoinTwo(ls: seq<string>, sep: string)
    requires |ls| == 2
    ensures Join(ls, sep) == ls[0] + sep + ls[1]
  {
    assert ls[1..] == [ls[1]];
  }

  // ---------------------------------------------------------------------------
  // Synthesis and the whole run

  /** `"Step N (task): answer"` for each step of the plan, in plan order. */
  function ResultLines(plan: Plan, results: Dict<int, string>): (ls: seq<string>)
    ensures |ls| == |plan|
    ensures forall i :: 0 <= i < |plan| ==>
              ls[i] == "Step " + IntText(plan[i].step) + " (" + plan[i].task + "): " + Get(results, plan[i].step).GetOr("")
  {
    seq(|plan|, i requires 0 <= i < |plan| =>
      "Step " + IntText(plan[i].step) + " (" + plan[i].task + "): " + Get(results, plan[i].step).GetOr(""))
  }

  /** `{"answer": ..., "metadata": {"plan": ..., "step_results": ...}}`. */
  datatype RunOutput = RunOutput(answer: string, plan: Plan, stepResults: Dict<int, string>)

  /**
   * `run(query)`: plan, then execute every step, then synthesise from all the
   * results; the metadata carries the same plan and results.
   */
  method Run(query: string, planner: string -> Plan, specialist: Specialist, synthesize: Synthesizer, policy: MissingDep)
    returns (out: RunOutput)
    ensures out.plan == planner(query)
    ensures out.stepResults == Executed(out.plan, specialist, policy)
    ensures forall n :: HasKey(out.stepResults, n) <==> n in StepNumbers(out.plan)
    ensures out.answer == synthesize(query, Join(ResultLines(out.plan, out.stepResults), "\n"))
  {
    var plan := planner(query);
    var results := ExecutePlan(plan, specialist, policy);
    forall n ensures HasKey(results, n) <==> n in StepNumbers(plan) {
      ExecutedKeys(plan, specialist, policy, n);
    }
    var answer := synthesize(query, Join(ResultLines(plan, results), "\n"));
    out := RunOutput(answer, plan, results);
  }
}
