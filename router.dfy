/**
 * The routing lab's query router (routing/router.py): the model's one-word
 * answer is normalised and checked against the known domains, with
 * "general" as the fallback; routing then hands out that category's tools.
 * The model's reply text is a parameter (`None` when it has no content).
 */
module Router {
  import opened Wrappers
  import opened Strings
  import RoutingRegistry

  const ValidDomains: seq<string> := ["financial", "academic", "general"]
  const Fallback := "general"

  /** `content.strip().lower().strip('"').strip("'")`. */
  function Normalize(content: string): (r: string)
    ensures |r| <= |content|
    ensures NoCapitals(r)
    ensures r != [] ==> r[0] != '\'' && r[|r| - 1] != '\''
  {
    var lower := Lower(Strip(content));
    LowerHasNoCapitals(Strip(content));
    StripKeepsNoCapitals(lower, '"');
    StripKeepsNoCapitals(StripChar(lower, '"'), '\'');
    StripChar(StripChar(lower, '"'), '\'')
  }

  /** No ASCII capital letter occurs in `s`. */
  predicate NoCapitals(s: string) {
    forall x :: x in s ==> !('A' <= x <= 'Z')
  }

  /** Lower-casing leaves no ASCII capital. */
  lemma LowerHasNoCapitals(s: string)
    ensures NoCapitals(Lower(s))
  {
    forall x | x in Lower(s) ensures !('A' <= x <= 'Z') {
      var i :| 0 <= i < |Lower(s)| && Lower(s)[i] == x;
      assert x == LowerChar(s[i]);
    }
  }

  /** Stripping a character only drops characters. */
  lemma StripKeepsNoCapitals(s: string, c: char)
    requires NoCapitals(s)
    ensures NoCapitals(StripChar(s, c))
  {
  }

  /** `classify(query)` given the model's reply content; `None` content makes `.strip()` raise. */
  function Classify(content: Option<string>): (r: Result<string, string>)
    ensures r.Failure? <==> content.None?
    ensures r.Success? ==> r.value in ValidDomains
    ensures content.Some? && Normalize(content.value) in ValidDomains ==> r == Success(Normalize(content.value))
    ensures content.Some? && Normalize(content.value) !in ValidDomains ==> r == Success(Fallback)
  {
    match content
    case None => Failure("AttributeError: 'NoneType' object has no attribute 'strip'")
    case Some(c) =>
      var domain := Normalize(c);
      Success(if domain in ValidDomains then domain else Fallback)
  }

  /** `route(query)`: the classified domain and the registry's tools for it. */
  function Route(content: Option<string>, registry: RoutingRegistry.Registry): (r: Result<(string, seq<RoutingRegistry.Tool>), string>)
    requires RoutingRegistry.RegistryValid(registry)
    ensures r.Success? <==> Classify(content).Success?
    ensures r.Success? ==> r.value.0 in ValidDomains
    ensures r.Success? ==> r.value.1 == RoutingRegistry.ToolsByCategory(registry, r.value.0)
  {
    match Classify(content)
    case Failure(e) => Failure(e)
    case Success(domain) => Success((domain, RoutingRegistry.ToolsByCategory(registry, domain)))
  }

  // ---------------------------------------------------------------------------
  // What the normalisation does to a few shapes of answer

  /** Characters of a bare answer word: no whitespace, no quote of either kind, no upper case. */
  predicate PlainChar(c: char) {
    !IsSpace(c) && c != '"' && c != '\'' && !('A' <= c <= 'Z')
  }

  predicate Plain(w: string) {
    forall i :: 0 <= i < |w| ==> PlainChar(w[i])
  }

  /** Lower-casing leaves text without capitals as it is. */
  lemma LowerKeeps(s: string)
    requires forall i :: 0 <= i < |s| ==> !('A' <= s[i] <= 'Z')
    ensures Lower(s) == s
  {
  }

  /** Stripping a character that neither end holds changes nothing. */
  lemma StripCharKeeps(s: string, c: char)
    requires s != [] && s[0] != c && s[|s| - 1] != c
    ensures StripChar(s, c) == s
  {
  }

  /** Stripping a character peels one copy off each end of a word whose own ends differ from it. */
  lemma StripCharPeels(w: string, c: char)
    requires w != [] && w[0] != c && w[|w| - 1] != c
    ensures StripChar([c] + w + [c], c) == w
  {
    var s := [c] + w + [c];
    var t := w + [c];
    assert s[0] == c && s[1] == w[0];
    assert Lead(s, Only(c), 0) == 1;
    assert s[1..] == t;
    assert t[|t| - 1] == c && t[|w| - 1] == w[|w| - 1];
    assert Trail(t, Only(c), |t|) == |w|;
    assert t[..|w|] == w;
  }

  /** Stripping whitespace from a text with non-space ends changes nothing. */
  lemma StripKeeps(s: string)
    requires s != [] && !IsSpace(s[0]) && !IsSpace(s[|s| - 1])
    ensures Strip(s) == s
  {
  }

  /** The normalisation of a text with non-space ends and no capitals is just its two quote strips. */
  lemma NormalizeQuoted(s: string)
    requires s != [] && !IsSpace(s[0]) && !IsSpace(s[|s| - 1])
    requires forall i :: 0 <= i < |s| ==> !('A' <= s[i] <= 'Z')
    ensures Normalize(s) == StripChar(StripChar(s, '"'), '\'')
  {
    StripKeeps(s);
    LowerKeeps(s);
  }

  /** A plain word, in double or single quotes, is read as itself. */
  lemma QuotedWordIsRead(w: string, q: char)
    requires w != [] && Plain(w) && (q == '"' || q == '\'')
    ensures Normalize([q] + w + [q]) == w
  {
    var s := [q] + w + [q];
    assert forall i :: 0 <= i < |s| ==> !('A' <= s[i] <= 'Z') by {
      forall i | 0 <= i < |s| ensures !('A' <= s[i] <= 'Z') {
        if 0 < i < |s| - 1 { assert s[i] == w[i - 1]; }
      }
    }
    NormalizeQuoted(s);
    if q == '"' {
      StripCharPeels(w, '"');
      StripCharKeeps(w, '\'');
    } else {
      StripCharKeeps(s, '"');
      StripCharPeels(w, '\'');
    }
  }

  /** Double quotes inside single quotes survive the normalisation. */
  lemma SingleThenDoubleQuoted(w: string, s: string)
    requires w != [] && Plain(w)
    requires s == ['\''] + (['"'] + w + ['"']) + ['\'']
    ensures Normalize(s) == ['"'] + w + ['"']
  {
    var inner := ['"'] + w + ['"'];
    assert forall i :: 0 <= i < |s| ==> !('A' <= s[i] <= 'Z') by {
      forall i | 0 <= i < |s| ensures !('A' <= s[i] <= 'Z') {
        if 1 < i < |s| - 2 { assert s[i] == w[i - 2]; }
      }
    }
    NormalizeQuoted(s);
    StripCharKeeps(s, '"');
    StripCharPeels(inner, '\'');
  }

  /** So a domain the model wraps as `'"academic"'` falls back to "general". */
  lemma SingleThenDoubleQuotedFallsBack(w: string, s: string)
    requires w != [] && Plain(w)
    requires s == ['\''] + (['"'] + w + ['"']) + ['\'']
    ensures Classify(Some(s)) == Success(Fallback)
  {
    SingleThenDoubleQuoted(w, s);
    LeadingQuoteIsNoDomain(['"'] + w + ['"']);
  }

  lemma LeadingQuoteIsNoDomain(d: string)
    requires d != [] && d[0] == '"'
    ensures d !in ValidDomains
  {
  }

  /** Whitespace inside the quotes is not stripped again. */
  lemma SpaceInsideQuotes(w: string, s: string)
    requires w != [] && Plain(w)
    requires s == ['"'] + ([' '] + w) + ['"']
    ensures Normalize(s) == [' '] + w
  {
    var inner := [' '] + w;
    assert forall i :: 0 <= i < |s| ==> !('A' <= s[i] <= 'Z') by {
      forall i | 0 <= i < |s| ensures !('A' <= s[i] <= 'Z') {
        if 1 < i < |s| - 1 { assert s[i] == w[i - 2]; }
      }
    }
    NormalizeQuoted(s);
    StripCharPeels(inner, '"');
    StripCharKeeps(inner, '\'');
  }

  lemma LeadingSpaceIsNoDomain(d: string)
    requires d != [] && d[0] == ' '
    ensures d !in ValidDomains
  {
  }

  /** So a domain the model wraps as `" academic"` falls back to "general". */
  lemma SpaceInsideQuotesFallsBack(w: string, s: string)
    requires w != [] && Plain(w)
    requires s == ['"'] + ([' '] + w) + ['"']
    ensures Classify(Some(s)) == Success(Fallback)
  {
    SpaceInsideQuotes(w, s);
    LeadingSpaceIsNoDomain(Normalize(s));
  }
}
