/**
 * The routing lab's loop detector (agent/loop_detector.py): it remembers
 * every tool call and every reasoning output of a run and flags a call that
 * repeats an earlier one exactly or nearly (word-level Jaccard similarity),
 * and an output that nearly repeats one of the last few outputs.
 *
 * Two comparisons the lab's stubs leave open are fields of the detector:
 * `fuzzyCmp` selects `>=` (`AtLeast`) or `>` (`Above`) between a tool call's
 * similarity and the threshold, and `stagnationCmp` does the same for
 * outputs. The stubs of `check_tool_call` and `check_output_stagnation`
 * return no verdict and fix neither; `Default` takes `AtLeast` for tool
 * calls and `Above` for outputs. The similarity of two texts without any
 * word is the field `bothEmpty`.
 */
module LoopDetector {
  import opened Strings

  datatype LoopDetectionResult = LoopDetectionResult(isLooping: bool, strategy: string, message: string)

  const NoLoop := LoopDetectionResult(false, "none", "")

  /** Whether a similarity counts as a match: `>=` or `>` the threshold. */
  datatype Cmp = AtLeast | Above

  predicate Meets(similarity: real, threshold: real, cmp: Cmp) {
    match cmp
    case AtLeast => similarity >= threshold
    case Above => similarity > threshold
  }

  /** A result says it loops exactly when it names a strategy, and every strategy is one of the four. */
  ghost predicate WellFormed(r: LoopDetectionResult) {
    && r.strategy in {"exact", "fuzzy", "stagnation", "none"}
    && (r.isLooping <==> r.strategy != "none")
    && (!r.isLooping ==> r == NoLoop)
  }

  function WordSet(s: string): set<string> {
    set w | w in Words(s)
  }

  /** `_jaccard_similarity(s1, s2)`: shared words over all words. */
  function Jaccard(s1: string, s2: string, bothEmpty: real): (j: real)
    requires 0.0 <= bothEmpty <= 1.0
    ensures 0.0 <= j <= 1.0
  {
    var a := WordSet(s1);
    var b := WordSet(s2);
    if |a + b| == 0 then bothEmpty
    else
      SubsetCard(a * b, a + b);
      FractionInUnit(|a * b|, |a + b|);
      (|a * b| as real) / (|a + b| as real)
  }

  /** A part over a non-empty whole lies in [0, 1]. */
  lemma FractionInUnit(part: nat, whole: nat)
    requires 0 < whole && part <= whole
    ensures 0.0 <= (part as real) / (whole as real) <= 1.0
  {
  }

  lemma SubsetCard<T>(x: set<T>, y: set<T>)
    requires x <= y
    ensures |x| <= |y|
    ensures |x| == |y| ==> x == y
  {
    assert y == x + (y - x);
    assert |y| == |x| + |y - x|;
    if |x| == |y| {
      assert |y - x| == 0;
      assert y - x == {};
    }
  }

  lemma JaccardSymmetric(s1: string, s2: string, bothEmpty: real)
    requires 0.0 <= bothEmpty <= 1.0
    ensures Jaccard(s1, s2, bothEmpty) == Jaccard(s2, s1, bothEmpty)
  {
    var a := WordSet(s1);
    var b := WordSet(s2);
    assert a + b == b + a && a * b == b * a;
  }

  /** Two texts with some word between them are fully similar exactly when they use the same words. */
  lemma JaccardOneIffSameWords(s1: string, s2: string, bothEmpty: real)
    requires 0.0 <= bothEmpty <= 1.0
    requires |WordSet(s1) + WordSet(s2)| > 0
    ensures Jaccard(s1, s2, bothEmpty) == 1.0 <==> WordSet(s1) == WordSet(s2)
  {
    var a := WordSet(s1);
    var b := WordSet(s2);
    SubsetCard(a * b, a + b);
    if Jaccard(s1, s2, bothEmpty) == 1.0 {
      assert |a * b| == |a + b|;
      assert a * b == a + b;
      assert a <= a + b && b <= a + b;
    }
    if a == b {
      assert a * b == a + b;
    }
  }

  // ---------------------------------------------------------------------------
  // The verdicts, on a given history

  /** A prior call to the same tool whose input is similar enough to the new one. */
  predicate SimilarCall(prior: (string, string), toolName: string, toolInput: string,
                        threshold: real, cmp: Cmp, bothEmpty: real)
    requires 0.0 <= bothEmpty <= 1.0
  {
    prior.0 == toolName && Meets(Jaccard(prior.1, toolInput, bothEmpty), threshold, cmp)
  }

  function ExactMessage(toolName: string, count: nat): string {
    "Tool '" + toolName + "' called " + NatText(count) + " times with identical input"
  }

  function FuzzyMessage(toolName: string): string {
    "Tool '" + toolName + "' called again with near-identical input"
  }

  const StagnationMessage := "Reasoning output repeats a recent output"

  /**
   * `check_tool_call(tool_name, tool_input)` against the calls made before:
   * "exact" once the pair has occurred `exactThreshold` times counting this
   * call, else "fuzzy" if an earlier call to the same tool had a similar
   * input, else no loop.
   */
  function ToolCallVerdict(history: seq<(string, string)>, toolName: string, toolInput: string,
                           exactThreshold: int, fuzzyThreshold: real, fuzzyCmp: Cmp, bothEmpty: real): (r: LoopDetectionResult)
    requires 0.0 <= bothEmpty <= 1.0
    ensures WellFormed(r)
    ensures r.strategy == "exact" <==> multiset(history)[(toolName, toolInput)] + 1 >= exactThreshold
    ensures r.strategy == "fuzzy" <==>
              multiset(history)[(toolName, toolInput)] + 1 < exactThreshold
              && exists i :: 0 <= i < |history| && SimilarCall(history[i], toolName, toolInput, fuzzyThreshold, fuzzyCmp, bothEmpty)
  {
    var count := multiset(history)[(toolName, toolInput)] + 1;
    if count >= exactThreshold then LoopDetectionResult(true, "exact", ExactMessage(toolName, count))
    else if exists i :: 0 <= i < |history| && SimilarCall(history[i], toolName, toolInput, fuzzyThreshold, fuzzyCmp, bothEmpty)
    then LoopDetectionResult(true, "fuzzy", FuzzyMessage(toolName))
    else NoLoop
  }

  /** The outputs a new output is compared with: the last `window` of them (none for a window of 0 or less). */
  function Recent(outputs: seq<string>, window: int): (w: seq<string>)
    ensures |w| == if window <= 0 then 0 else if window < |outputs| then window else |outputs|
    ensures w == outputs[|outputs| - |w|..]
  {
    if window <= 0 then [] else if window < |outputs| then outputs[|outputs| - window..] else outputs
  }

  /** `check_output_stagnation(output)` against the outputs recorded before. */
  function StagnationVerdict(outputs: seq<string>, output: string, window: int,
                             threshold: real, cmp: Cmp, bothEmpty: real): (r: LoopDetectionResult)
    requires 0.0 <= bothEmpty <= 1.0
    ensures WellFormed(r)
    ensures r.isLooping <==> exists o :: o in Recent(outputs, window) && Meets(Jaccard(o, output, bothEmpty), threshold, cmp)
    ensures r.isLooping ==> r.strategy == "stagnation"
  {
    if exists o :: o in Recent(outputs, window) && Meets(Jaccard(o, output, bothEmpty), threshold, cmp)
    then LoopDetectionResult(true, "stagnation", StagnationMessage)
    else NoLoop
  }

  /** Outputs older than the window never matter. */
  lemma StagnationSeesOnlyWindow(older: seq<string>, recent: seq<string>, output: string, window: int,
                                 threshold: real, cmp: Cmp, bothEmpty: real)
    requires 0.0 <= bothEmpty <= 1.0
    requires |recent| >= window
    ensures StagnationVerdict(older + recent, output, window, threshold, cmp, bothEmpty)
         == StagnationVerdict(recent, output, window, threshold, cmp, bothEmpty)
  {
    var all := older + recent;
    if window > 0 {
      assert Recent(all, window) == Recent(recent, window) by {
        assert all[|all| - window..] == recent[|recent| - window..];
      }
    }
  }

  /** With the default threshold of 2, repeating any earlier call is an exact loop. */
  lemma RepeatIsExact(history: seq<(string, string)>, toolName: string, toolInput: string,
                      fuzzyThreshold: real, fuzzyCmp: Cmp, bothEmpty: real)
    requires 0.0 <= bothEmpty <= 1.0
    requires (toolName, toolInput) in history
    ensures ToolCallVerdict(history, toolName, toolInput, 2, fuzzyThreshold, fuzzyCmp, bothEmpty).strategy == "exact"
  {
  }

  /** A first call to a tool is never flagged while the exact threshold is above 1. */
  lemma FirstCallIsClean(history: seq<(string, string)>, toolName: string, toolInput: string,
                         exactThreshold: int, fuzzyThreshold: real, fuzzyCmp: Cmp, bothEmpty: real)
    requires 0.0 <= bothEmpty <= 1.0
    requires exactThreshold > 1
    requires forall i :: 0 <= i < |history| ==> history[i].0 != toolName
    ensures ToolCallVerdict(history, toolName, toolInput, exactThreshold, fuzzyThreshold, fuzzyCmp, bothEmpty) == NoLoop
  {
    assert (toolName, toolInput) !in history;
  }

  lemma WordsOfJoined(ws: seq<string>, text: string)
    requires forall i :: 0 <= i < |ws| ==> IsWord(ws[i])
    requires Join(ws, " ") == text
    ensures WordSet(text) == set w | w in ws
  {
    WordsOfJoin(ws);
  }

  lemma JoinFour(a: string, b: string, c: string, d: string, sep: string)
    ensures Join([a, b, c, d], sep) == (a + sep) + ((b + sep) + ((c + sep) + d))
  {
    assert [c, d][1..] == [d];
    assert Join([c, d], sep) == (c + sep) + d;
    assert [b, c, d][1..] == [c, d];
    assert Join([b, c, d], sep) == (b + sep) + ((c + sep) + d);
    assert [a, b, c, d][1..] == [b, c, d];
  }

  /** The two texts of the worked example, joined from their words. */
  lemma CatsText(w: string, text: string)
    requires (w == "information" && text == "find information about cats") || (w == "info" && text == "find info about cats")
    ensures Join(["find", w, "about", "cats"], " ") == text
  {
    JoinFour("find", w, "about", "cats", " ");
  }

  lemma CatsAreWords()
    ensures IsWord("find") && IsWord("information") && IsWord("info") && IsWord("about") && IsWord("cats")
  {
  }

  /** The words of either query text are its four joined words. */
  lemma CatsWords(w: string, t: string)
    requires (w == "information" && t == "find information about cats") || (w == "info" && t == "find info about cats")
    ensures WordSet(t) == {"find", w, "about", "cats"}
  {
    var ws := ["find", w, "about", "cats"];
    CatsText(w, t);
    CatsAreWords();
    WordsOfJoined(ws, t);
    assert (set x | x in ws) == {"find", w, "about", "cats"};
  }

  lemma CatsSets(a: set<string>, b: set<string>)
    requires a == {"find", "information", "about", "cats"}
    requires b == {"find", "info", "about", "cats"}
    ensures |a * b| == 3 && |a + b| == 5
  {
    assert a * b == {"find", "about", "cats"};
    assert a + b == {"find", "information", "info", "about", "cats"};
  }

  /** "find information about cats" and "find info about cats" share 3 of 5 words. */
  lemma CatsExample(t1: string, t2: string, bothEmpty: real)
    requires t1 == "find information about cats" && t2 == "find info about cats"
    requires 0.0 <= bothEmpty <= 1.0
    ensures Jaccard(t1, t2, bothEmpty) == 0.6
  {
    CatsWords("information", t1);
    CatsWords("info", t2);
    CatsSets(WordSet(t1), WordSet(t2));
  }

  /** Counting one more element of the history. */
  lemma CountStep<T>(h: seq<T>, i: nat, x: T)
    requires i < |h|
    ensures multiset(h[..i + 1])[x] == multiset(h[..i])[x] + (if h[i] == x then 1 else 0)
  {
    assert h[..i + 1] == h[..i] + [h[i]];
  }

  /** The loop of `check_tool_call`: one more than the identical calls, and whether any call is similar. */
  method ScanCalls(history: seq<(string, string)>, toolName: string, toolInput: string,
                   fuzzyThreshold: real, fuzzyCmp: Cmp, bothEmpty: real)
    returns (count: int, similar: bool)
    requires 0.0 <= bothEmpty <= 1.0
    ensures count == multiset(history)[(toolName, toolInput)] + 1
    ensures similar <==> exists j :: 0 <= j < |history| && SimilarCall(history[j], toolName, toolInput, fuzzyThreshold, fuzzyCmp, bothEmpty)
  {
    count := 1;
    similar := false;
    var i := 0;
    while i < |history|
      invariant 0 <= i <= |history|
      invariant Scanned(history, i, (toolName, toolInput), fuzzyThreshold, fuzzyCmp, bothEmpty, count, similar)
    {
      ScanStep(history, i, (toolName, toolInput), fuzzyThreshold, fuzzyCmp, bothEmpty, count, similar);
      if history[i] == (toolName, toolInput) {
        count := count + 1;
      }
      if SimilarCall(history[i], toolName, toolInput, fuzzyThreshold, fuzzyCmp, bothEmpty) {
        similar := true;
      }
      i := i + 1;
    }
    assert history[..i] == history;
  }

  /** After the first `i` calls of the history: the count so far and whether a similar one was seen. */
  ghost predicate Scanned(history: seq<(string, string)>, i: nat, call: (string, string),
                          fuzzyThreshold: real, fuzzyCmp: Cmp, bothEmpty: real, count: int, similar: bool)
    requires i <= |history| && 0.0 <= bothEmpty <= 1.0
  {
    && count == multiset(history[..i])[call] + 1
    && (similar <==> exists j :: 0 <= j < i && SimilarCall(history[j], call.0, call.1, fuzzyThreshold, fuzzyCmp, bothEmpty))
  }

  lemma ScanStep(history: seq<(string, string)>, i: nat, call: (string, string),
                 fuzzyThreshold: real, fuzzyCmp: Cmp, bothEmpty: real, count: int, similar: bool)
    requires i < |history| && 0.0 <= bothEmpty <= 1.0
    requires Scanned(history, i, call, fuzzyThreshold, fuzzyCmp, bothEmpty, count, similar)
    ensures Scanned(history, i + 1, call, fuzzyThreshold, fuzzyCmp, bothEmpty,
                    count + (if history[i] == call then 1 else 0),
                    similar || SimilarCall(history[i], call.0, call.1, fuzzyThreshold, fuzzyCmp, bothEmpty))
  {
    CountStep(history, i, call);
  }

  /** The loop of `check_output_stagnation`: whether any recent output meets the threshold against `output`. */
  method ScanOutputs(recent: seq<string>, output: string, threshold: real, cmp: Cmp, bothEmpty: real)
    returns (stagnant: bool)
    requires 0.0 <= bothEmpty <= 1.0
    ensures stagnant <==> exists o :: o in recent && Meets(Jaccard(o, output, bothEmpty), threshold, cmp)
  {
    stagnant := false;
    var i := 0;
    while i < |recent|
      invariant 0 <= i <= |recent|
      invariant stagnant <==> exists j :: 0 <= j < i && Meets(Jaccard(recent[j], output, bothEmpty), threshold, cmp)
    {
      if Meets(Jaccard(recent[i], output, bothEmpty), threshold, cmp) {
        stagnant := true;
      }
      i := i + 1;
    }
  }

  // ---------------------------------------------------------------------------
  // The detector object

  class AdvancedLoopDetector {
    const exactThreshold: int
    const fuzzyThreshold: real
    const stagnationWindow: int
    const fuzzyCmp: Cmp
    const stagnationCmp: Cmp
    const bothEmpty: real
    var toolHistory: seq<(string, string)>
    var outputHistory: seq<string>

    ghost predicate Valid()
      reads this
    {
      0.0 <= bothEmpty <= 1.0
    }

    /** `AdvancedLoopDetector(exact_threshold, fuzzy_threshold, stagnation_window)`, with the open choices given. */
    constructor(exactThreshold: int, fuzzyThreshold: real, stagnationWindow: int,
                fuzzyCmp: Cmp, stagnationCmp: Cmp, bothEmpty: real)
      requires 0.0 <= bothEmpty <= 1.0
      ensures Valid()
      ensures this.exactThreshold == exactThreshold && this.fuzzyThreshold == fuzzyThreshold
      ensures this.stagnationWindow == stagnationWindow
      ensures this.fuzzyCmp == fuzzyCmp && this.stagnationCmp == stagnationCmp && this.bothEmpty == bothEmpty
      ensures toolHistory == [] && outputHistory == []
    {
      this.exactThreshold := exactThreshold;
      this.fuzzyThreshold := fuzzyThreshold;
      this.stagnationWindow := stagnationWindow;
      this.fuzzyCmp := fuzzyCmp;
      this.stagnationCmp := stagnationCmp;
      this.bothEmpty := bothEmpty;
      toolHistory := [];
      outputHistory := [];
    }

    /** The detector with the lab's defaults: 2 identical calls, similarity 0.8, a window of 3. */
    constructor Default()
      ensures Valid()
      ensures exactThreshold == 2 && fuzzyThreshold == 0.8 && stagnationWindow == 3
      ensures fuzzyCmp == AtLeast && stagnationCmp == Above && bothEmpty == 1.0
      ensures toolHistory == [] && outputHistory == []
    {
      exactThreshold := 2;
      fuzzyThreshold := 0.8;
      stagnationWindow := 3;
      fuzzyCmp := AtLeast;
      stagnationCmp := Above;
      bothEmpty := 1.0;
      toolHistory := [];
      outputHistory := [];
    }

    /** `check_tool_call(tool_name, tool_input)`: judge the call against the history, then record it. */
    method CheckToolCall(toolName: string, toolInput: string) returns (r: LoopDetectionResult)
      requires Valid()
      modifies this
      ensures Valid()
      ensures r == ToolCallVerdict(old(toolHistory), toolName, toolInput, exactThreshold, fuzzyThreshold, fuzzyCmp, bothEmpty)
      ensures toolHistory == old(toolHistory) + [(toolName, toolInput)]
      ensures outputHistory == old(outputHistory)
    {
      var count, similar := ScanCalls(toolHistory, toolName, toolInput, fuzzyThreshold, fuzzyCmp, bothEmpty);
      if count >= exactThreshold {
        r := LoopDetectionResult(true, "exact", ExactMessage(toolName, count));
      } else if similar {
        r := LoopDetectionResult(true, "fuzzy", FuzzyMessage(toolName));
      } else {
        r := NoLoop;
      }
      toolHistory := toolHistory + [(toolName, toolInput)];
    }

    /** `check_output_stagnation(output)`: judge the output against the recent ones, then record it. */
    method CheckOutputStagnation(output: string) returns (r: LoopDetectionResult)
      requires Valid()
      modifies this
      ensures Valid()
      ensures r == StagnationVerdict(old(outputHistory), output, stagnationWindow, fuzzyThreshold, stagnationCmp, bothEmpty)
      ensures outputHistory == old(outputHistory) + [output]
      ensures toolHistory == old(toolHistory)
    {
      var stagnant := ScanOutputs(Recent(outputHistory, stagnationWindow), output, fuzzyThreshold, stagnationCmp, bothEmpty);
      r := if stagnant then LoopDetectionResult(true, "stagnation", StagnationMessage) else NoLoop;
      outputHistory := outputHistory + [output];
    }
  }
}
