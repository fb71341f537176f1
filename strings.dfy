/**
 * The handful of Python string operations the core relies on:
 * `lower`, `strip`, `in` (substring), `startswith`, `split`, `join`,
 * slicing `[:n]` and the decimal rendering of numbers.
 */
module Strings {

  /**
   * The characters `str.split()` and `str.strip()` treat as whitespace
   * (`str.isspace()`): tab to carriage return, the four ASCII separators
   * 0x1C-0x1F, the space, and the Unicode line breaks and spaces.
   */
  predicate IsSpace(c: char) {
    || '\t' <= c <= '\r'
    || '\U{1C}' <= c <= ' '
    || c == '\U{85}' || c == '\U{A0}' || c == '\U{1680}'
    || '\U{2000}' <= c <= '\U{200A}'
    || c == '\U{2028}' || c == '\U{2029}' || c == '\U{202F}' || c == '\U{205F}' || c == '\U{3000}'
  }

  function LowerChar(c: char): char {
    if 'A' <= c <= 'Z' then (c as int + 32) as char else c
  }

  /** `s.lower()` on ASCII letters. */
  function Lower(s: string): (r: string)
    ensures |r| == |s|
    ensures forall i :: 0 <= i < |s| ==> r[i] == LowerChar(s[i])
  {
    if s == [] then [] else [LowerChar(s[0])] + Lower(s[1..])
  }

  /** The characters a strip removes: whitespace, or one given character. */
  datatype Strippable = Whitespace | Only(c: char)

  predicate Strips(k: Strippable, x: char) {
    match k
    case Whitespace => IsSpace(x)
    case Only(c) => x == c
  }

  /** The position of the first character at or after `i` that `k` does not strip. */
  function Lead(s: string, k: Strippable, i: nat): (r: nat)
    requires i <= |s|
    ensures i <= r <= |s|
    ensures forall j :: i <= j < r ==> Strips(k, s[j])
    ensures r < |s| ==> !Strips(k, s[r])
    decreases |s| - i
  {
    if i < |s| && Strips(k, s[i]) then Lead(s, k, i + 1) else i
  }

  /** The end of the prefix of `s[..n]` left once the characters `k` strips are dropped from its end. */
  function Trail(s: string, k: Strippable, n: nat): (r: nat)
    requires n <= |s|
    ensures r <= n
    ensures forall j :: r <= j < n ==> Strips(k, s[j])
    ensures r > 0 ==> !Strips(k, s[r - 1])
  {
    if n > 0 && Strips(k, s[n - 1]) then Trail(s, k, n - 1) else n
  }

  /** `s.lstrip(chars)`. */
  function TrimLeft(s: string, k: Strippable): (r: string)
    ensures |r| <= |s| && r == s[|s| - |r|..]
    ensures r != [] ==> !Strips(k, r[0])
    ensures forall i :: 0 <= i < |s| - |r| ==> Strips(k, s[i])
  {
    s[Lead(s, k, 0)..]
  }

  /** `s.rstrip(chars)`. */
  function TrimRight(s: string, k: Strippable): (r: string)
    ensures |r| <= |s| && r == s[..|r|]
    ensures r != [] ==> !Strips(k, r[|r| - 1])
    ensures forall i :: |r| <= i < |s| ==> Strips(k, s[i])
  {
    s[..Trail(s, k, |s|)]
  }

  /** `s.strip()`: drop leading and trailing whitespace. */
  function Strip(s: string): string {
    TrimRight(TrimLeft(s, Whitespace), Whitespace)
  }

  /** `s.strip(c)` for a single character `c`. */
  function StripChar(s: string, c: char): (r: string)
    ensures |r| <= |s|
    ensures forall x :: x in r ==> x in s
    ensures r != [] ==> r[0] != c && r[|r| - 1] != c
  {
    var left := TrimLeft(s, Only(c));
    var r := TrimRight(left, Only(c));
    assert r == s[|s| - |left|..][..|r|];
    r
  }

  /** Length of the run of non-space characters `s` starts with. */
  function WordLen(s: string): (n: nat)
    requires s != [] && !IsSpace(s[0])
    ensures 1 <= n <= |s|
    ensures forall i :: 0 <= i < n ==> !IsSpace(s[i])
    ensures n < |s| ==> IsSpace(s[n])
  {
    if |s| == 1 || IsSpace(s[1]) then 1 else 1 + WordLen(s[1..])
  }

  /** `s.split()`: the maximal runs of non-space characters, in order. */
  function Words(s: string): (ws: seq<string>)
    ensures forall i :: 0 <= i < |ws| ==> IsWord(ws[i])
    decreases |s|
  {
    if s == [] then []
    else if IsSpace(s[0]) then Words(s[1..])
    else
      var n := WordLen(s);
      [s[..n]] + Words(s[n..])
  }

  /** A token `split()` can produce: non-empty, without whitespace. */
  predicate IsWord(w: string) {
    w != [] && forall i :: 0 <= i < |w| ==> !IsSpace(w[i])
  }

  lemma WordsOfWord(w: string, rest: string)
    requires IsWord(w)
    ensures Words(w + " " + rest) == [w] + Words(rest)
  {
    var s := w + " " + rest;
    assert s[0] == w[0];
    assert s[|w|] == ' ';
    assert forall i :: 0 <= i < |w| ==> s[i] == w[i];
    assert WordLen(s) == |w|;
    assert s[..|w|] == w;
    assert s[|w|..] == " " + rest;
    assert (" " + rest)[1..] == rest;
  }

  lemma WordsOfSingle(w: string)
    requires IsWord(w)
    ensures Words(w) == [w]
  {
    assert WordLen(w) == |w|;
    assert w[..|w|] == w;
  }

  /** `" ".join(ws).split() == ws` for tokens without whitespace. */
  lemma {:induction false} WordsOfJoin(ws: seq<string>)
    requires forall i :: 0 <= i < |ws| ==> IsWord(ws[i])
    ensures Words(Join(ws, " ")) == ws
  {
    if |ws| == 1 {
      WordsOfSingle(ws[0]);
    } else if |ws| > 1 {
      WordsOfJoin(ws[1..]);
      WordsOfWord(ws[0], Join(ws[1..], " "));
      assert ws == [ws[0]] + ws[1..];
    }
  }

  /** `needle` occurs in `haystack` starting at position `i`. */
  predicate OccursAt(haystack: string, needle: string, i: int) {
    0 <= i <= |haystack| - |needle| && haystack[i..i + |needle|] == needle
  }

  /** `needle in haystack` for strings. */
  predicate Contains(haystack: string, needle: string) {
    exists i | 0 <= i <= |haystack| :: OccursAt(haystack, needle, i)
  }

  /** Decidable form of `Contains`, scanning left to right. */
  function ContainsFrom(haystack: string, needle: string, i: nat): (b: bool)
    requires i <= |haystack|
    ensures b <==> exists j :: i <= j && OccursAt(haystack, needle, j)
    decreases |haystack| - i
  {
    if i + |needle| > |haystack| then false
    else if haystack[i..i + |needle|] == needle then
      assert OccursAt(haystack, needle, i);
      true
    else
      var b := ContainsFrom(haystack, needle, i + 1);
      assert !OccursAt(haystack, needle, i);
      assert (exists j :: i <= j && OccursAt(haystack, needle, j)) ==> exists j :: i + 1 <= j && OccursAt(haystack, needle, j);
      b
  }

  function IsSubstring(needle: string, haystack: string): (b: bool)
    ensures b <==> Contains(haystack, needle)
  {
    ContainsFrom(haystack, needle, 0)
  }

  /** `s[:n]`. */
  function Take(s: string, n: nat): (r: string)
    ensures |r| <= n && r <= s
    ensures |s| <= n ==> r == s
  {
    if |s| <= n then s else s[..n]
  }

  /** `sep.join(parts)`. */
  function Join(parts: seq<string>, sep: string): string {
    if parts == [] then ""
    else if |parts| == 1 then parts[0]
    else parts[0] + sep + Join(parts[1..], sep)
  }

  /** Every joined part occurs in the joined text. */
  lemma {:induction false} JoinContains(parts: seq<string>, sep: string, i: nat)
    requires i < |parts|
    ensures Contains(Join(parts, sep), parts[i])
  {
    var j := Join(parts, sep);
    if |parts| == 1 {
      assert OccursAt(j, parts[0], 0);
    } else if i == 0 {
      assert j == parts[0] + sep + Join(parts[1..], sep);
      assert OccursAt(j, parts[0], 0);
    } else {
      JoinContains(parts[1..], sep, i - 1);
      assert parts[1..][i - 1] == parts[i];
      var rest := Join(parts[1..], sep);
      var k :| 0 <= k <= |rest| && OccursAt(rest, parts[i], k);
      var off := |parts[0] + sep|;
      assert j == parts[0] + sep + rest;
      assert j[off + k..off + k + |parts[i]|] == rest[k..k + |parts[i]|];
      assert OccursAt(j, parts[i], off + k);
    }
  }

  /** Every part of a joined text stays in it once the text is wrapped in a prefix and a suffix. */
  lemma WrappedJoinContains(pre: string, parts: seq<string>, sep: string, post: string)
    ensures forall i :: 0 <= i < |parts| ==> Contains(pre + Join(parts, sep) + post, parts[i])
  {
    var j := Join(parts, sep);
    forall i | 0 <= i < |parts| ensures Contains(pre + j + post, parts[i]) {
      JoinContains(parts, sep, i);
      var k :| 0 <= k <= |j| && OccursAt(j, parts[i], k);
      assert (pre + j + post)[|pre| + k..|pre| + k + |parts[i]|] == j[k..k + |parts[i]|];
      assert OccursAt(pre + j + post, parts[i], |pre| + k);
    }
  }

  function DigitChar(d: nat): char
    requires d < 10
  {
    "0123456789"[d]
  }

  function NatText(n: nat): (r: string)
    ensures |r| >= 1
  {
    if n < 10 then [DigitChar(n)] else NatText(n / 10) + [DigitChar(n % 10)]
  }

  /** `str(n)` for an integer. */
  function IntText(n: int): string {
    if n < 0 then "-" + NatText(-n) else NatText(n)
  }

  /** Up to `k` decimal digits of the fraction `f` in [0, 1), trailing zeros dropped. */
  function FractionDigits(f: real, k: nat): string
    requires 0.0 <= f < 1.0
    decreases k
  {
    if k == 0 || f == 0.0 then ""
    else
      var t := f * 10.0;
      var d := t.Floor;
      assert 0 <= d < 10;
      [DigitChar(d)] + FractionDigits(t - d as real, k - 1)
  }

  /**
   * The decimal text of a number: integers as `str` renders a Python int,
   * other values with at most 17 fractional digits.
   */
  function NumberText(r: real): string {
    if r == r.Floor as real then IntText(r.Floor)
    else if r < 0.0 then "-" + PositiveText(-r)
    else PositiveText(r)
  }

  function PositiveText(r: real): string
    requires r >= 0.0
  {
    IntText(r.Floor) + "." + FractionDigits(r - r.Floor as real, 17)
  }

  /** Python's ordering of strings: lexicographic by code point. */
  predicate StrLt(a: string, b: string) {
    if a == [] then b != []
    else if b == [] then false
    else if a[0] != b[0] then a[0] < b[0]
    else StrLt(a[1..], b[1..])
  }

  lemma {:induction false} StrLtIrreflexive(a: string)
    ensures !StrLt(a, a)
  {
    if a != [] {
      StrLtIrreflexive(a[1..]);
    }
  }

  lemma {:induction false} StrLtTransitive(a: string, b: string, c: string)
    requires StrLt(a, b) && StrLt(b, c)
    ensures StrLt(a, c)
  {
    if a != [] && b != [] && c != [] && a[0] == b[0] && b[0] == c[0] {
      StrLtTransitive(a[1..], b[1..], c[1..]);
    }
  }

  lemma {:induction false} StrLtTotal(a: string, b: string)
    requires a != b
    ensures StrLt(a, b) || StrLt(b, a)
  {
    if a != [] && b != [] && a[0] == b[0] {
      assert a == [a[0]] + a[1..] && b == [b[0]] + b[1..];
      StrLtTotal(a[1..], b[1..]);
    }
  }

  lemma StrLtAsymmetric(a: string, b: string)
    requires StrLt(a, b)
    ensures !StrLt(b, a)
  {
    if StrLt(b, a) {
      StrLtTransitive(a, b, a);
      StrLtIrreflexive(a);
    }
  }
}
