/**
 * The sample cases of the broken-agent lab's evaluation
 * (evaluation/test_cases.py, `create_sample_test_cases`), kept apart from
 * the loading and saving they exercise.
 */
module SampleCases {
  import opened Wrappers
  import opened Dict
  import opened Json
  import opened TestCases

  /** The six sample cases as records. */
  function Samples(): seq<AgentTestCase> {
    [ AgentTestCase("What is the capital of France?", "Paris", ["search"], "factual", "easy"),
      AgentTestCase("What is the population of the capital of France?", "Paris has approximately 2.1 million people",
                    ["search", "search"], "multi_step", "medium"),
      AgentTestCase("What is the height of the Eiffel Tower?", "330 metres or 1083 feet", ["search"], "factual", "easy"),
      AgentTestCase("What is 15 percent of 500?", "75", ["calculate"], "tool_correctness", "easy"),
      AgentTestCase("Compare the population of Tokyo and Paris",
                    "Tokyo has approximately 14 million people while Paris has 2.1 million",
                    ["search", "search"], "multi_step", "medium"),
      AgentTestCase("Search for python tutorial and summarize", "Information about Python tutorials", ["search"],
                    "loop_recovery", "medium") ]
  }

  /** `create_sample_test_cases()`: one dict per sample, each reading back as its record. */
  function CreateSampleTestCases(): (r: seq<Json>)
    ensures |r| == |Samples()|
    ensures forall i :: 0 <= i < |r| ==> FromItem(r[i]) == Success(Samples()[i])
  {
    var s := Samples();
    assert forall i :: 0 <= i < |s| ==> FromItem(ToDict(s[i])) == Success(s[i]) by {
      forall i | 0 <= i < |s| ensures FromItem(ToDict(s[i])) == Success(s[i]) {
        FromItemOfDict(s[i]);
      }
    }
    seq(|s|, i requires 0 <= i < |s| => ToDict(s[i]))
  }

  /** Six samples, each a dict with all five keys, which save and load back as the sample records. */
  lemma SampleTestCasesShape(files: map<string, Json>, path: string)
    ensures |CreateSampleTestCases()| == 6
    ensures forall i :: 0 <= i < 6 ==>
              var f := CreateSampleTestCases()[i].fields;
              HasKey(f, "input") && HasKey(f, "expected_output") && HasKey(f, "expected_tools")
              && HasKey(f, "category") && HasKey(f, "difficulty")
    ensures LoadTestCases(SaveTestCases(files, path, CreateSampleTestCases()), path) == Success(Samples())
  {
    var s := Samples();
    forall i | 0 <= i < 6
      ensures var f := CreateSampleTestCases()[i].fields;
              HasKey(f, "input") && HasKey(f, "expected_output") && HasKey(f, "expected_tools")
              && HasKey(f, "category") && HasKey(f, "difficulty")
    {
      ToDictFields(s[i]);
    }
    SaveLoadRoundTrip(files, path, s);
  }
}
