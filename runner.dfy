/**
 * The broken-agent lab's evaluation runner (evaluation/runner.py): running
 * the agent on every test case, handing the cases to the evaluation library,
 * shaping the results dict, and rendering that dict as a Markdown report.
 * The agent, the evaluation library, the clock and the two float formats
 * are parameters.
 */
module Runner {
  import opened Wrappers
  import opened Dict
  import opened Strings
  import opened TestCases

  /** What `agent.run(input)` returns: a text, or a dict of texts. */
  datatype AgentReply = Text(text: string) | Reply(fields: Dict<string, string>)

  /** `result if isinstance(result, str) else result.get("answer", "")`. */
  function ActualOutput(r: AgentReply): (out: string)
    ensures r.Text? ==> out == r.text
    ensures r.Reply? && !HasKey(r.fields, "answer") ==> out == ""
    ensures r.Reply? && HasKey(r.fields, "answer") ==> out == Get(r.fields, "answer").value
  {
    match r
    case Text(s) => s
    case Reply(f) => Get(f, "answer").GetOr("")
  }

  /** One metric's outcome in a test result's `metrics_data`. */
  datatype MetricData = MetricData(name: string, success: bool, score: real, threshold: real, reason: string)

  /** One entry of the evaluation result's `test_results`. */
  datatype TestResult = TestResult(metricsData: seq<MetricData>)

  /** One entry of the results dict's `test_cases`; a missing key is `None`. */
  datatype CaseRecord = CaseRecord(input: Option<string>, actualOutput: Option<string>)

  /**
   * The results dict: `{"error": ...}`, or the dict `evaluate_agent` returns,
   * each key optional. `results` is `None` when the evaluation result is
   * missing, falsy or has no `test_results`.
   */
  datatype EvalDict =
    | ErrorDict(error: string)
    | ResultsDict(numTestCases: Option<int>, threshold: Option<real>, results: Option<seq<TestResult>>,
                  testCases: seq<CaseRecord>)

  /** The evaluation library's `evaluate(test_cases=..., metrics=...)`, the metrics built from the threshold. */
  type Evaluator = (seq<LlmTestCase>, real) -> Option<seq<TestResult>>

  /** The evaluation cases after the agent has answered each one. */
  function Answered(agent: string -> AgentReply, cases: seq<AgentTestCase>): (ls: seq<LlmTestCase>)
    ensures |ls| == |cases|
    ensures forall i :: 0 <= i < |cases| ==>
              ls[i] == ToLlmTestCase(cases[i]).(actualOutput := Some(ActualOutput(agent(cases[i].input))))
  {
    if cases == [] then []
    else
      var n := |cases| - 1;
      Answered(agent, cases[..n]) + [ToLlmTestCase(cases[n]).(actualOutput := Some(ActualOutput(agent(cases[n].input))))]
  }

  /** `[{"input": tc.input, "actual_output": tc.actual_output} for tc in deepeval_cases]`. */
  function Records(ls: seq<LlmTestCase>): (rs: seq<CaseRecord>)
    ensures |rs| == |ls| && forall i :: 0 <= i < |ls| ==> rs[i] == CaseRecord(Some(ls[i].input), ls[i].actualOutput)
  {
    seq(|ls|, i requires 0 <= i < |ls| => CaseRecord(Some(ls[i].input), ls[i].actualOutput))
  }

  /** `evaluate_agent(agent, test_cases, threshold)`. */
  function Evaluated(agent: string -> AgentReply, cases: seq<AgentTestCase>, threshold: real, evaluate: Evaluator): (d: EvalDict)
    ensures d.ErrorDict? <==> cases == []
    ensures d.ErrorDict? ==> d.error == "No test cases provided"
    ensures d.ResultsDict? ==>
              && d.numTestCases == Some(|cases|) && d.threshold == Some(threshold)
              && d.results == evaluate(Answered(agent, cases), threshold)
              && |d.testCases| == |cases|
  {
    if cases == [] then ErrorDict("No test cases provided")
    else
      var ls := Answered(agent, cases);
      ResultsDict(Some(|cases|), Some(threshold), evaluate(ls, threshold), Records(ls))
  }

  /** No cases: the error dict, whatever the agent and the evaluator would do. */
  lemma NoCasesNoRun(a1: string -> AgentReply, a2: string -> AgentReply, threshold: real, e1: Evaluator, e2: Evaluator)
    ensures Evaluated(a1, [], threshold, e1) == Evaluated(a2, [], threshold, e2) == ErrorDict("No test cases provided")
  {
  }

  /** With cases, the dict counts them and holds each case's input and the agent's answer, in order. */
  lemma EvaluatedRecordsCases(agent: string -> AgentReply, cases: seq<AgentTestCase>, threshold: real, evaluate: Evaluator)
    requires cases != []
    ensures var d := Evaluated(agent, cases, threshold, evaluate);
            && d.ResultsDict?
            && d.numTestCases == Some(|cases|) && d.threshold == Some(threshold)
            && |d.testCases| == |cases|
            && forall i :: 0 <= i < |cases| ==>
                 d.testCases[i] == CaseRecord(Some(cases[i].input), Some(ActualOutput(agent(cases[i].input))))
  {
    var ls := Answered(agent, cases);
    assert forall i :: 0 <= i < |cases| ==> ls[i].input == cases[i].input;
  }

  /** The evaluator sees every case with the expected tools it was given. */
  lemma EvaluatorSeesExpectedTools(agent: string -> AgentReply, cases: seq<AgentTestCase>, i: nat)
    requires i < |cases|
    ensures ToolNames(Answered(agent, cases)[i].toolsCalled) == cases[i].expectedTools
  {
    ToLlmTestCaseKeepsTools(cases[i]);
  }

  /** `evaluate_agent`, the loop over the cases. */
  method EvaluateAgent(agent: string -> AgentReply, cases: seq<AgentTestCase>, threshold: real, evaluate: Evaluator)
    returns (d: EvalDict)
    ensures d == Evaluated(agent, cases, threshold, evaluate)
  {
    if cases == [] {
      return ErrorDict("No test cases provided");
    }
    var deepevalCases: seq<LlmTestCase> := [];
    var i := 0;
    while i < |cases|
      invariant 0 <= i <= |cases|
      invariant deepevalCases == Answered(agent, cases[..i])
    {
      var result := agent(cases[i].input);
      var tc := ToLlmTestCase(cases[i]);
      tc := tc.(actualOutput := Some(ActualOutput(result)));
      assert cases[..i + 1][..i] == cases[..i];
      deepevalCases := deepevalCases + [tc];
      i := i + 1;
    }
    assert cases[..i] == cases;
    var results := evaluate(deepevalCases, threshold);
    d := ResultsDict(Some(|cases|), Some(threshold), results, Records(deepevalCases));
  }

  /** `run_evaluation_from_file(agent, test_cases_file, threshold)`; a failing load raises its error. */
  function EvaluatedFromFile(agent: string -> AgentReply, files: map<string, Json.Json>, path: string, threshold: real,
                             evaluate: Evaluator): (r: Result<EvalDict, LoadError>)
    ensures path !in files ==> r == Success(ErrorDict("No test cases loaded from " + path))
    ensures r.Failure? <==> LoadTestCases(files, path).Failure?
    ensures r.Success? && r.value.ResultsDict? ==>
              && LoadTestCases(files, path).Success? && LoadTestCases(files, path).value != []
              && r.value == Evaluated(agent, LoadTestCases(files, path).value, threshold, evaluate)
  {
    match LoadTestCases(files, path)
    case Failure(e) => Failure(e)
    case Success(cases) =>
      if cases == [] then Success(ErrorDict("No test cases loaded from " + path))
      else Success(Evaluated(agent, cases, threshold, evaluate))
  }

  /** A missing file gives the error dict naming it. */
  lemma MissingFileIsReported(agent: string -> AgentReply, files: map<string, Json.Json>, path: string, threshold: real,
                              evaluate: Evaluator)
    requires path !in files
    ensures EvaluatedFromFile(agent, files, path, threshold, evaluate) == Success(ErrorDict("No test cases loaded from " + path))
  {
    MissingFileLoadsNothing(files, path);
  }

  /** A file that loads cases is evaluated as those cases. */
  lemma LoadedFileIsEvaluated(agent: string -> AgentReply, files: map<string, Json.Json>, path: string, threshold: real,
                              evaluate: Evaluator)
    requires LoadTestCases(files, path).Success? && LoadTestCases(files, path).value != []
    ensures EvaluatedFromFile(agent, files, path, threshold, evaluate)
            == Success(Evaluated(agent, LoadTestCases(files, path).value, threshold, evaluate))
  {
  }

  /** The lines before the case sections; `date` is the formatted clock, `repr` Python's float text. */
  function Header(numTestCases: Option<int>, threshold: Option<real>, date: string, repr: real -> string): seq<string> {
    ["# Agent Evaluation Report", "", "**Date**: " + date,
     "**Test Cases**: " + IntText(numTestCases.GetOr(0)),
     "**Threshold**: " + repr(threshold.GetOr(0.7)),
     "", "## Results", ""]
  }

  function Footer(): seq<string> {
    ["", "## Recommendations",
     "- Review test cases with scores below threshold",
     "- Check tool correctness for failed cases",
     "- Consider adjusting agent prompts for edge cases"]
  }

  /** The line (and reason line) of one metric; `fixed3` is the `:.3f` format. */
  function MetricLines(m: MetricData, repr: real -> string, fixed3: real -> string): seq<string> {
    ["- **" + m.name + "**: " + (if m.success then "PASS" else "FAIL")
     + " (score=" + fixed3(m.score) + ", threshold=" + repr(m.threshold) + ")"]
    + (if m.reason != "" then ["  - Reason: " + m.reason] else [])
  }

  function MetricsLines(ms: seq<MetricData>, repr: real -> string, fixed3: real -> string): seq<string> {
    if ms == [] then []
    else MetricsLines(ms[..|ms| - 1], repr, fixed3) + MetricLines(ms[|ms| - 1], repr, fixed3)
  }

  /** The heading of case `k`: its input cut to 60 characters, `Unknown` when missing. */
  function CaseHeading(k: int, c: CaseRecord): string {
    "### Case " + IntText(k) + ": " + Take(c.input.GetOr("Unknown"), 60)
  }

  /** The answer line: the actual output cut to 200 characters. */
  function AnswerLine(c: CaseRecord): string {
    "**Answer**: " + Take(c.actualOutput.GetOr(""), 200)
  }

  function CaseLines(k: int, c: CaseRecord, r: TestResult, repr: real -> string, fixed3: real -> string): seq<string> {
    [CaseHeading(k, c), AnswerLine(c)] + MetricsLines(r.metricsData, repr, fixed3) + [""]
  }

  /** `zip(test_cases, test_results)`. */
  function Zip(cs: seq<CaseRecord>, rs: seq<TestResult>): (z: seq<(CaseRecord, TestResult)>)
    ensures |z| == if |cs| < |rs| then |cs| else |rs|
    ensures forall i :: 0 <= i < |z| ==> z[i] == (cs[i], rs[i])
  {
    if cs == [] || rs == [] then [] else [(cs[0], rs[0])] + Zip(cs[1..], rs[1..])
  }

  /** The sections of the first `|pairs|` cases, numbered from 1. */
  function Sections(pairs: seq<(CaseRecord, TestResult)>, repr: real -> string, fixed3: real -> string): seq<string> {
    if pairs == [] then []
    else
      var n := |pairs| - 1;
      Sections(pairs[..n], repr, fixed3) + CaseLines(n + 1, pairs[n].0, pairs[n].1, repr, fixed3)
  }

  function Body(d: EvalDict, repr: real -> string, fixed3: real -> string): seq<string>
    requires d.ResultsDict?
  {
    match d.results
    case Some(trs) => Sections(Zip(d.testCases, trs), repr, fixed3)
    case None => ["No detailed results available."]
  }

  /** The report's lines for a dict without an error. */
  function ReportLines(d: EvalDict, date: string, repr: real -> string, fixed3: real -> string): seq<string>
    requires d.ResultsDict?
  {
    Header(d.numTestCases, d.threshold, date, repr) + Body(d, repr, fixed3) + Footer()
  }

  /** `create_evaluation_report(results)`. */
  function Report(d: EvalDict, date: string, repr: real -> string, fixed3: real -> string): (r: string)
    ensures d.ErrorDict? ==> r == "Evaluation Error: " + d.error
    ensures d.ResultsDict? ==> "# Agent Evaluation Report\n" <= r
  {
    match d
    case ErrorDict(e) => "Evaluation Error: " + e
    case ResultsDict(_, _, _, _) =>
      var ls := ReportLines(d, date, repr, fixed3);
      assert ls[0] == "# Agent Evaluation Report" && |ls| > 1;
      Join(ls, "\n")
  }

  /** An error dict renders as that error alone. */
  lemma ErrorReport(e: string, date: string, repr: real -> string, fixed3: real -> string)
    ensures Report(ErrorDict(e), date, repr, fixed3) == "Evaluation Error: " + e
  {
  }

  /** Every other report carries the title and the case count, 0 when missing. */
  lemma ReportHasTitleAndCount(d: EvalDict, date: string, repr: real -> string, fixed3: real -> string)
    requires d.ResultsDict?
    ensures Contains(Report(d, date, repr, fixed3), "# Agent Evaluation Report")
    ensures Contains(Report(d, date, repr, fixed3), "**Test Cases**: " + IntText(d.numTestCases.GetOr(0)))
  {
    var ls := ReportLines(d, date, repr, fixed3);
    assert ls[0] == "# Agent Evaluation Report";
    assert ls[3] == "**Test Cases**: " + IntText(d.numTestCases.GetOr(0));
    JoinContains(ls, "\n", 0);
    JoinContains(ls, "\n", 3);
  }

  /** Without detailed results the report says so. */
  lemma NoResultsIsSaid(d: EvalDict, date: string, repr: real -> string, fixed3: real -> string)
    requires d.ResultsDict? && d.results.None?
    ensures Contains(Report(d, date, repr, fixed3), "No detailed results available.")
  {
    var ls := ReportLines(d, date, repr, fixed3);
    assert ls[8] == "No detailed results available.";
    JoinContains(ls, "\n", 8);
  }

  /** Case `k + 1`'s section, for each `k` the zip reaches, is a run of consecutive lines. */
  lemma {:induction false} SectionsHoldEachCase(pairs: seq<(CaseRecord, TestResult)>, repr: real -> string,
                                                fixed3: real -> string, k: nat)
    returns (j: nat)
    requires k < |pairs|
    ensures j + 1 < |Sections(pairs, repr, fixed3)|
    ensures Sections(pairs, repr, fixed3)[j] == CaseHeading(k + 1, pairs[k].0)
    ensures Sections(pairs, repr, fixed3)[j + 1] == AnswerLine(pairs[k].0)
  {
    var n := |pairs| - 1;
    var prev := Sections(pairs[..n], repr, fixed3);
    var last := CaseLines(n + 1, pairs[n].0, pairs[n].1, repr, fixed3);
    SectionsUnfold(pairs, repr, fixed3);
    CaseLinesStart(n + 1, pairs[n].0, pairs[n].1, repr, fixed3);
    if k == n {
      j := |prev|;
    } else {
      j := SectionsHoldEachCase(pairs[..n], repr, fixed3, k);
      assert pairs[..n][k] == pairs[k];
    }
  }

  lemma SectionsUnfold(pairs: seq<(CaseRecord, TestResult)>, repr: real -> string, fixed3: real -> string)
    requires pairs != []
    ensures Sections(pairs, repr, fixed3)
            == Sections(pairs[..|pairs| - 1], repr, fixed3)
               + CaseLines(|pairs|, pairs[|pairs| - 1].0, pairs[|pairs| - 1].1, repr, fixed3)
  {
  }

  /** A case's section opens with its heading and its answer line. */
  lemma CaseLinesStart(k: int, c: CaseRecord, r: TestResult, repr: real -> string, fixed3: real -> string)
    ensures |CaseLines(k, c, r, repr, fixed3)| >= 3
    ensures CaseLines(k, c, r, repr, fixed3)[0] == CaseHeading(k, c)
    ensures CaseLines(k, c, r, repr, fixed3)[1] == AnswerLine(c)
  {
  }

  /** With detailed results, the report holds the heading of each case the zip pairs with a result. */
  lemma ReportHoldsEachPairedHeading(d: EvalDict, date: string, repr: real -> string, fixed3: real -> string, k: nat)
    requires d.ResultsDict? && d.results.Some?
    requires k < |d.testCases| && k < |d.results.value|
    ensures Contains(Report(d, date, repr, fixed3), CaseHeading(k + 1, d.testCases[k]))
  {
    var j := SectionsHoldEachCase(Zip(d.testCases, d.results.value), repr, fixed3, k);
    SectionLineInReport(d, date, repr, fixed3, j, CaseHeading(k + 1, d.testCases[k]));
  }

  /** And the answer line of each such case. */
  lemma ReportHoldsEachPairedAnswer(d: EvalDict, date: string, repr: real -> string, fixed3: real -> string, k: nat)
    requires d.ResultsDict? && d.results.Some?
    requires k < |d.testCases| && k < |d.results.value|
    ensures Contains(Report(d, date, repr, fixed3), AnswerLine(d.testCases[k]))
  {
    var j := AnswerInSections(Zip(d.testCases, d.results.value), repr, fixed3, k);
    SectionLineInReport(d, date, repr, fixed3, j, AnswerLine(d.testCases[k]));
  }

  lemma AnswerInSections(pairs: seq<(CaseRecord, TestResult)>, repr: real -> string, fixed3: real -> string, k: nat)
    returns (j: nat)
    requires k < |pairs|
    ensures j < |Sections(pairs, repr, fixed3)|
    ensures Sections(pairs, repr, fixed3)[j] == AnswerLine(pairs[k].0)
  {
    j := SectionsHoldEachCase(pairs, repr, fixed3, k);
    j := j + 1;
  }

  /** Each line of the case sections is in the report. */
  lemma SectionLineInReport(d: EvalDict, date: string, repr: real -> string, fixed3: real -> string, j: nat, line: string)
    requires d.ResultsDict? && d.results.Some?
    requires j < |Sections(Zip(d.testCases, d.results.value), repr, fixed3)|
    requires line == Sections(Zip(d.testCases, d.results.value), repr, fixed3)[j]
    ensures Contains(Report(d, date, repr, fixed3), line)
  {
    var s := Sections(Zip(d.testCases, d.results.value), repr, fixed3);
    var ls := ReportLines(d, date, repr, fixed3);
    var h := Header(d.numTestCases, d.threshold, date, repr);
    assert ls == h + s + Footer();
    assert ls[|h| + j] == s[j];
    JoinContains(ls, "\n", |h| + j);
  }

  /** A case heading shows at most 60 characters of the input and an answer line at most 200 of the output. */
  lemma CaseLinesAreTruncated(k: int, c: CaseRecord)
    ensures |CaseHeading(k, c)| <= |"### Case " + IntText(k) + ": "| + 60
    ensures |AnswerLine(c)| <= |"**Answer**: "| + 200
    ensures c.input.Some? && |c.input.value| <= 60 ==> CaseHeading(k, c) == "### Case " + IntText(k) + ": " + c.input.value
  {
  }

  /** Each section has the two case lines, the metric lines and a blank line, so the zip's length bounds the sections. */
  lemma {:induction false} SectionsLength(pairs: seq<(CaseRecord, TestResult)>, repr: real -> string, fixed3: real -> string)
    ensures |Sections(pairs, repr, fixed3)| >= 3 * |pairs|
  {
    if pairs != [] {
      SectionsLength(pairs[..|pairs| - 1], repr, fixed3);
    }
  }

  lemma SectionsStep(pairs: seq<(CaseRecord, TestResult)>, repr: real -> string, fixed3: real -> string, i: nat)
    requires i < |pairs|
    ensures Sections(pairs[..i + 1], repr, fixed3)
            == Sections(pairs[..i], repr, fixed3) + CaseLines(i + 1, pairs[i].0, pairs[i].1, repr, fixed3)
  {
    var p := pairs[..i + 1];
    assert p[..i] == pairs[..i] && p[i] == pairs[i];
  }

  /** The inner loop of `create_evaluation_report`, over one result's metrics. */
  method AppendMetrics(metrics: seq<MetricData>, repr: real -> string, fixed3: real -> string, lines0: seq<string>)
    returns (lines: seq<string>)
    ensures lines == lines0 + MetricsLines(metrics, repr, fixed3)
  {
    lines := lines0;
    var m := 0;
    while m < |metrics|
      invariant 0 <= m <= |metrics|
      invariant lines == lines0 + MetricsLines(metrics[..m], repr, fixed3)
    {
      assert metrics[..m + 1][..m] == metrics[..m];
      lines := lines + MetricLines(metrics[m], repr, fixed3);
      m := m + 1;
    }
    assert metrics[..m] == metrics;
  }

  /** One pass of that loop: the case's heading, answer, metric lines and a blank line. */
  method AppendCase(k: int, c: CaseRecord, r: TestResult, repr: real -> string, fixed3: real -> string, lines0: seq<string>)
    returns (lines: seq<string>)
    ensures lines == lines0 + CaseLines(k, c, r, repr, fixed3)
  {
    lines := lines0 + [CaseHeading(k, c), AnswerLine(c)];
    lines := AppendMetrics(r.metricsData, repr, fixed3, lines);
    lines := lines + [""];
  }

  /** The loop of `create_evaluation_report` over the zipped cases and results. */
  method CaseSections(pairs: seq<(CaseRecord, TestResult)>, repr: real -> string, fixed3: real -> string)
    returns (lines: seq<string>)
    ensures lines == Sections(pairs, repr, fixed3)
  {
    lines := [];
    var i := 0;
    while i < |pairs|
      invariant 0 <= i <= |pairs|
      invariant lines == Sections(pairs[..i], repr, fixed3)
    {
      lines := AppendCase(i + 1, pairs[i].0, pairs[i].1, repr, fixed3, lines);
      SectionsStep(pairs, repr, fixed3, i);
      i := i + 1;
    }
    assert pairs[..i] == pairs;
  }

  /** `create_evaluation_report(results, output_file)`: the report, and the file written when a path is given and there is no error. */
  method CreateEvaluationReport(d: EvalDict, outputFile: string, date: string, repr: real -> string, fixed3: real -> string)
    returns (report: string, written: Option<(string, string)>)
    ensures report == Report(d, date, repr, fixed3)
    ensures written == if d.ResultsDict? && outputFile != "" then Some((outputFile, report)) else None
  {
    if d.ErrorDict? {
      return "Evaluation Error: " + d.error, None;
    }
    var lines := Header(d.numTestCases, d.threshold, date, repr);
    if d.results.Some? {
      var sections := CaseSections(Zip(d.testCases, d.results.value), repr, fixed3);
      lines := lines + sections;
    } else {
      lines := lines + ["No detailed results available."];
    }
    lines := lines + Footer();
    report := Join(lines, "\n");
    written := if outputFile != "" then Some((outputFile, report)) else None;
  }
}
