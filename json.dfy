/**
 * JSON-like values as Python holds them after `json.loads` (dicts keep
 * insertion order), their `json.dumps` text, and the canonical form that
 * `json.dumps(..., sort_keys=True)` serialises.
 */
module Json {
  import opened Wrappers
  import opened Dict
  import opened Strings

  datatype Json =
    | Null
    | Bool(b: bool)
    | Num(n: real)
    | Str(s: string)
    | Arr(items: seq<Json>)
    | Obj(fields: Dict<string, Json>)

  /** `j[key]` on a dict; `None` stands for the KeyError or TypeError Python raises otherwise. */
  function Index(j: Json, key: string): Option<Json> {
    if j.Obj? then Get(j.fields, key) else None
  }

  /** `j.get(key, default)` on a dict. */
  function GetOr(j: Json, key: string, default: Json): Json
    requires j.Obj?
  {
    Get(j.fields, key).GetOr(default)
  }

  /** `key in j`: key membership for a dict, element membership for a list, substring for a string; `None` when Python raises. */
  function In(key: string, j: Json): Option<bool> {
    match j
    case Obj(fields) => Some(HasKey(fields, key))
    case Arr(items) => Some(Str(key) in items)
    case Str(s) => Some(IsSubstring(key, s))
    case _ => None
  }

  /** Python `==` between two decoded values; `True == 1` and `False == 0` hold as in Python. */
  predicate PyEquals(a: Json, b: Json) {
    match (a, b)
    case (Bool(x), Num(n)) => n == (if x then 1.0 else 0.0)
    case (Num(n), Bool(x)) => n == (if x then 1.0 else 0.0)
    case _ => a == b
  }

  /** The lower-case hexadecimal digit for `d`. */
  function HexDigit(d: nat): (c: char)
    requires d < 16
    ensures '0' <= c <= '9' || 'a' <= c <= 'f'
  {
    if d < 10 then ('0' as int + d) as char else ('a' as int + d - 10) as char
  }

  /** `\uXXXX` for one UTF-16 code unit, four lower-case hexadecimal digits. */
  function UnicodeEscape(u: nat): string
    requires u < 0x1_0000
  {
    "\\u" + [HexDigit(u / 0x1000), HexDigit(u / 0x100 % 16), HexDigit(u / 16 % 16), HexDigit(u % 16)]
  }

  /** A character `json.dumps` writes as itself: printable ASCII other than the quote and the backslash. */
  predicate Verbatim(c: char) {
    ' ' <= c <= '~' && c != '"' && c != '\\'
  }

  /**
   * One character as `json.dumps` writes it with its default `ensure_ascii=True`:
   * the two-character escapes for the quote, the backslash and the five named
   * control characters, printable ASCII as itself, and every other character
   * as `\uXXXX`, as a surrogate pair beyond the Basic Multilingual Plane.
   */
  function EscapeChar(c: char): string {
    if c == '"' then "\\\""
    else if c == '\\' then "\\\\"
    else if c == '\n' then "\\n"
    else if c == '\r' then "\\r"
    else if c == '\t' then "\\t"
    else if c == '\U{08}' then "\\b"
    else if c == '\U{0C}' then "\\f"
    else if Verbatim(c) then [c]
    else if c as int < 0x1_0000 then UnicodeEscape(c as int)
    else
      var n := c as int - 0x1_0000;
      UnicodeEscape(0xD800 + n / 0x400) + UnicodeEscape(0xDC00 + n % 0x400)
  }

  /** What `json.dumps` writes for a string is printable ASCII: no tab, newline or other whitespace but the space survives. */
  lemma {:induction false} EscapeIsPrintable(s: string)
    ensures forall i :: 0 <= i < |Escape(s)| ==> ' ' <= Escape(s)[i] <= '~'
  {
    if s != [] {
      EscapeIsPrintable(s[1..]);
      var e := EscapeChar(s[0]);
      assert forall i :: 0 <= i < |e| ==> ' ' <= e[i] <= '~';
      var r := Escape(s);
      assert r == e + Escape(s[1..]);
      forall i | 0 <= i < |r| ensures ' ' <= r[i] <= '~' {
        if i >= |e| {
          assert r[i] == Escape(s[1..])[i - |e|];
        }
      }
    }
  }

  /** A text of verbatim characters is written as itself. */
  lemma {:induction false} VerbatimTextUnchanged(s: string)
    requires forall i :: 0 <= i < |s| ==> Verbatim(s[i])
    ensures Escape(s) == s
  {
    if s != [] {
      VerbatimTextUnchanged(s[1..]);
      assert s == [s[0]] + s[1..];
    }
  }

  /** A tab, a newline or another control character is written as an escape, never raw. */
  lemma EscapeExamples()
    ensures Escape("a\tb") == "a\\tb"
    ensures Escape("a\nb") == "a\\nb"
    ensures Escape("\U{01}") == "\\u0001"
  {
  }

  function Quote(s: string): string {
    "\"" + Escape(s) + "\""
  }

  function Escape(s: string): string {
    if s == [] then "" else EscapeChar(s[0]) + Escape(s[1..])
  }

  /** `json.dumps(j)` with its default separators `", "` and `": "`. */
  function Dumps(j: Json): (r: string)
    ensures |r| > 0
    ensures j.Str? ==> r[0] == '"' && r[|r| - 1] == '"'
    ensures j.Arr? ==> r[0] == '[' && r[|r| - 1] == ']'
    ensures j.Arr? ==> forall i :: 0 <= i < |j.items| ==> Contains(r, Dumps(j.items[i]))
    ensures j.Obj? ==> r[0] == '{' && r[|r| - 1] == '}'
    ensures j.Obj? ==> forall i :: 0 <= i < |j.fields| ==> Contains(r, Quote(j.fields[i].0) + ": " + Dumps(j.fields[i].1))
  {
    match j
    case Null => "null"
    case Bool(b) => if b then "true" else "false"
    case Num(n) => NumberText(n)
    case Str(s) => Quote(s)
    case Arr(items) =>
      var parts := seq(|items|, i requires 0 <= i < |items| => Dumps(items[i]));
      assert forall i :: 0 <= i < |items| ==> parts[i] == Dumps(items[i]);
      WrappedJoinContains("[", parts, ", ", "]");
      "[" + Join(parts, ", ") + "]"
    case Obj(fields) =>
      var parts := seq(|fields|, i requires 0 <= i < |fields| => Quote(fields[i].0) + ": " + Dumps(fields[i].1));
      assert forall i :: 0 <= i < |fields| ==> parts[i] == Quote(fields[i].0) + ": " + Dumps(fields[i].1);
      WrappedJoinContains("{", parts, ", ", "}");
      "{" + Join(parts, ", ") + "}"
  }

  // ---------------------------------------------------------------------------
  // Sorting dict entries by key, as `sort_keys=True` does

  ghost predicate SortedByKey<V>(s: seq<(string, V)>) {
    forall i, j :: 0 <= i < j < |s| ==> StrLt(s[i].0, s[j].0)
  }

  function InsertByKey<V>(x: (string, V), s: seq<(string, V)>): (r: seq<(string, V)>)
    ensures multiset(r) == multiset(s) + multiset{x}
  {
    if s == [] then [x]
    else if StrLt(s[0].0, x.0) then
      assert s == [s[0]] + s[1..];
      [s[0]] + InsertByKey(x, s[1..])
    else [x] + s
  }

  function SortByKey<V>(s: seq<(string, V)>): (r: seq<(string, V)>)
    ensures multiset(r) == multiset(s)
  {
    if s == [] then []
    else
      assert s == [s[0]] + s[1..];
      InsertByKey(s[0], SortByKey(s[1..]))
  }

  lemma {:induction false} InsertSorted<V>(x: (string, V), s: seq<(string, V)>)
    requires SortedByKey(s)
    requires forall y :: y in s ==> y.0 != x.0
    ensures SortedByKey(InsertByKey(x, s))
  {
    if s != [] && StrLt(s[0].0, x.0) {
      assert SortedByKey(s[1..]) by {
        forall i, j | 0 <= i < j < |s[1..]| ensures StrLt(s[1..][i].0, s[1..][j].0) {
          assert s[1..][i] == s[i + 1] && s[1..][j] == s[j + 1];
        }
      }
      InsertSorted(x, s[1..]);
      var rest := InsertByKey(x, s[1..]);
      var r := [s[0]] + rest;
      forall i, j | 0 <= i < j < |r| ensures StrLt(r[i].0, r[j].0) {
        if i == 0 {
          assert r[j] in multiset(rest);
          assert r[j] in multiset(s[1..]) + multiset{x};
          if r[j] != x {
            assert r[j] in s[1..];
            var k :| 0 <= k < |s[1..]| && s[1..][k] == r[j];
            assert s[k + 1] == r[j];
          }
        }
      }
    } else if s != [] {
      var r := [x] + s;
      forall i, j | 0 <= i < j < |r| ensures StrLt(r[i].0, r[j].0) {
        if i == 0 {
          assert s[0] in s;
          StrLtTotal(s[0].0, x.0);
          if j > 1 {
            StrLtTransitive(x.0, s[0].0, s[j - 1].0);
          }
        }
      }
    }
  }

  /** Sorting a dict's entries yields strictly increasing keys. */
  lemma {:induction false} SortSorted<V>(s: seq<(string, V)>)
    requires UniqueKeys(s)
    ensures SortedByKey(SortByKey(s))
  {
    if s != [] {
      assert UniqueKeys(s[1..]) by {
        forall i, j | 0 <= i < j < |s[1..]| ensures s[1..][i].0 != s[1..][j].0 {
          assert s[1..][i] == s[i + 1] && s[1..][j] == s[j + 1];
        }
      }
      SortSorted(s[1..]);
      var t := SortByKey(s[1..]);
      forall y | y in t ensures y.0 != s[0].0 {
        assert y in multiset(s[1..]);
        var k :| 0 <= k < |s[1..]| && s[1..][k] == y;
        assert s[k + 1] == y;
      }
      InsertSorted(s[0], t);
    }
  }

  lemma SortedTail<V>(a: seq<(string, V)>)
    requires SortedByKey(a) && a != []
    ensures SortedByKey(a[1..])
  {
    forall x, y | 0 <= x < y < |a[1..]| ensures StrLt(a[1..][x].0, a[1..][y].0) {
      assert a[1..][x] == a[x + 1] && a[1..][y] == a[y + 1];
    }
  }

  lemma SortedHeadsEqual<V>(a: seq<(string, V)>, b: seq<(string, V)>)
    requires SortedByKey(a) && SortedByKey(b) && a != []
    requires multiset(a) == multiset(b)
    ensures b != [] && a[0] == b[0]
  {
    assert a[0] in multiset(b);
    assert b[0] in multiset(a);
    var i :| 0 <= i < |a| && a[i] == b[0];
    var j :| 0 <= j < |b| && b[j] == a[0];
    if j != 0 {
      if i == 0 {
        assert StrLt(b[0].0, b[j].0);
        StrLtIrreflexive(b[0].0);
      } else {
        assert StrLt(a[0].0, a[i].0) && StrLt(b[0].0, b[j].0);
        StrLtAsymmetric(a[0].0, a[i].0);
      }
    }
  }

  lemma TailsSameEntries<V>(a: seq<(string, V)>, b: seq<(string, V)>)
    requires a != [] && b != [] && a[0] == b[0]
    requires multiset(a) == multiset(b)
    ensures multiset(a[1..]) == multiset(b[1..])
  {
    assert a == [a[0]] + a[1..] && b == [b[0]] + b[1..];
    assert multiset(a[1..]) == multiset(a) - multiset{a[0]};
    assert multiset(b[1..]) == multiset(b) - multiset{b[0]};
  }

  /** Two key-sorted sequences with the same entries are equal: the sorted form is canonical. */
  lemma {:induction false} SortedUnique<V>(a: seq<(string, V)>, b: seq<(string, V)>)
    requires SortedByKey(a) && SortedByKey(b)
    requires multiset(a) == multiset(b)
    ensures a == b
  {
    if a == [] {
      assert |b| == |multiset(b)| == 0;
    } else {
      SortedHeadsEqual(a, b);
      TailsSameEntries(a, b);
      SortedTail(a);
      SortedTail(b);
      SortedUnique(a[1..], b[1..]);
      assert a == [a[0]] + a[1..] && b == [b[0]] + b[1..];
    }
  }

  /** Entries laid out on the keys of the sorted entries carry the same keys, in increasing order when they are unique. */
  lemma SortedEntriesKeys<V, W>(fields: Dict<string, V>, out: Dict<string, W>)
    requires |out| == |SortByKey(fields)|
    requires forall i :: 0 <= i < |out| ==> out[i].0 == SortByKey(fields)[i].0
    ensures |out| == |fields|
    ensures forall i :: 0 <= i < |fields| ==> fields[i].0 in Keys(out)
    ensures forall i :: 0 <= i < |out| ==> out[i].0 in Keys(fields)
    ensures UniqueKeys(fields) ==> SortedByKey(out)
  {
    var s := SortByKey(fields);
    assert |s| == |multiset(s)| == |multiset(fields)| == |fields|;
    forall i | 0 <= i < |fields| ensures fields[i].0 in Keys(out) {
      SortedKeyFound(fields, out, i);
    }
    forall i | 0 <= i < |out| ensures out[i].0 in Keys(fields) {
      SourceKeyFound(fields, out, i);
    }
    if UniqueKeys(fields) {
      SortSorted(fields);
    }
  }

  /** A key of the entries is a key of the laid-out sorted entries. */
  lemma SortedKeyFound<V, W>(fields: Dict<string, V>, out: Dict<string, W>, i: nat)
    requires |out| == |SortByKey(fields)|
    requires forall i :: 0 <= i < |out| ==> out[i].0 == SortByKey(fields)[i].0
    requires i < |fields|
    ensures fields[i].0 in Keys(out)
  {
    var s := SortByKey(fields);
    assert fields[i] in multiset(s);
    var k :| 0 <= k < |s| && s[k] == fields[i];
    assert Keys(out)[k] == fields[i].0;
  }

  /** A key of the laid-out sorted entries is a key of the entries. */
  lemma SourceKeyFound<V, W>(fields: Dict<string, V>, out: Dict<string, W>, i: nat)
    requires |out| == |SortByKey(fields)|
    requires forall i :: 0 <= i < |out| ==> out[i].0 == SortByKey(fields)[i].0
    requires i < |out|
    ensures out[i].0 in Keys(fields)
  {
    var s := SortByKey(fields);
    assert s[i] in multiset(fields);
    var k :| 0 <= k < |fields| && fields[k] == s[i];
    assert Keys(fields)[k] == out[i].0;
  }

  /** The value `json.dumps(j, sort_keys=True)` serialises: every dict's entries sorted by key. */
  function Canon(j: Json): (c: Json)
    ensures j.Obj? ==> c.Obj? && |c.fields| == |j.fields|
    ensures j.Obj? ==> forall i :: 0 <= i < |j.fields| ==> j.fields[i].0 in Keys(c.fields)
    ensures j.Obj? ==> forall i :: 0 <= i < |c.fields| ==> c.fields[i].0 in Keys(j.fields)
    ensures j.Obj? && UniqueKeys(j.fields) ==> SortedByKey(c.fields)
    ensures j.Arr? ==> c.Arr? && |c.items| == |j.items|
    ensures !j.Obj? && !j.Arr? ==> c == j
  {
    match j
    case Obj(fields) =>
      var s := SortByKey(fields);
      assert forall i :: 0 <= i < |s| ==> s[i] in multiset(fields);
      var c := Obj(seq(|s|, i requires 0 <= i < |s| => (s[i].0, Canon(s[i].1))));
      SortedEntriesKeys(fields, c.fields);
      c
    case Arr(items) => Arr(seq(|items|, i requires 0 <= i < |items| => Canon(items[i])))
    case _ => j
  }

  /** Writing a dict's keys in another order does not change its canonical form. */
  lemma CanonIgnoresKeyOrder(f: Dict<string, Json>, g: Dict<string, Json>)
    requires UniqueKeys(f) && UniqueKeys(g) && multiset(f) == multiset(g)
    ensures Canon(Obj(f)) == Canon(Obj(g))
  {
    SortSorted(f);
    SortSorted(g);
    SortedUnique(SortByKey(f), SortByKey(g));
  }
}
