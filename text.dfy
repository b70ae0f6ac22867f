/** The operations on Python `str` that the core relies on: case mapping,
    `strip()`, `startswith`/`endswith`, the `in` substring test, `split(sep)`
    and `sep.join(parts)`. Case mapping is ASCII-only (see README). */
module Text {

  /** Regrouping a concatenation of three sequences. */
  lemma ConcatAssoc<T>(a: seq<T>, b: seq<T>, c: seq<T>)
    ensures (a + b) + c == a + (b + c)
  {
  }

  /** Python's `str.isspace()`: the characters `strip()` removes. */
  predicate IsSpace(c: char) {
    || c == ' '
    || ('\t' <= c <= '\r')
    || ('\U{1C}' <= c <= '\U{1F}')
    || c == '\U{85}' || c == '\U{A0}' || c == '\U{1680}'
    || ('\U{2000}' <= c <= '\U{200A}')
    || c == '\U{2028}' || c == '\U{2029}' || c == '\U{202F}' || c == '\U{205F}' || c == '\U{3000}'
  }

  function UpperChar(c: char): char {
    if 'a' <= c <= 'z' then (c as int - 32) as char else c
  }

  function LowerChar(c: char): char {
    if 'A' <= c <= 'Z' then (c as int + 32) as char else c
  }

  /** `s.upper()` */
  function Upper(s: string): string {
    seq(|s|, i requires 0 <= i < |s| => UpperChar(s[i]))
  }

  /** `s.lower()` */
  function Lower(s: string): string {
    seq(|s|, i requires 0 <= i < |s| => LowerChar(s[i]))
  }

  /** `s.startswith(p)` */
  predicate StartsWith(s: string, p: string) {
    |p| <= |s| && s[..|p|] == p
  }

  /** `s.endswith(p)` */
  predicate EndsWith(s: string, p: string) {
    |p| <= |s| && s[|s| - |p|..] == p
  }

  /** `sub` occurs in `s` starting at index `i`. */
  predicate OccursAt(s: string, sub: string, i: int) {
    0 <= i <= |s| - |sub| && s[i..i + |sub|] == sub
  }

  /** `sub in s` */
  predicate Contains(s: string, sub: string) {
    exists i | 0 <= i <= |s| - |sub| :: OccursAt(s, sub, i)
  }

  /** The number of whitespace characters `lstrip()` removes. */
  function LeadingSpaces(s: string): (n: nat)
    ensures n <= |s|
    ensures forall i :: 0 <= i < n ==> IsSpace(s[i])
    ensures n < |s| ==> !IsSpace(s[n])
    decreases |s|
  {
    if |s| > 0 && IsSpace(s[0]) then 1 + LeadingSpaces(s[1..]) else 0
  }

  /** The number of whitespace characters `rstrip()` removes. */
  function TrailingSpaces(s: string): (n: nat)
    ensures n <= |s|
    ensures forall i :: |s| - n <= i < |s| ==> IsSpace(s[i])
    ensures n < |s| ==> !IsSpace(s[|s| - 1 - n])
    decreases |s|
  {
    if |s| > 0 && IsSpace(s[|s| - 1]) then 1 + TrailingSpaces(s[..|s| - 1]) else 0
  }

  /** `s.strip()`: the result neither starts nor ends with whitespace. */
  function Strip(s: string): (r: string)
    ensures r == [] || (!IsSpace(r[0]) && !IsSpace(r[|r| - 1]))
  {
    var t := s[LeadingSpaces(s)..];
    t[..|t| - TrailingSpaces(t)]
  }

  /** `s.split(sep)` for a one-character separator: never empty, and `""` splits to `[""]`. */
  function Split(s: string, sep: char): (parts: seq<string>)
    ensures 1 <= |parts| <= |s| + 1
    decreases |s|
  {
    if |s| == 0 then [""]
    else
      var rest := Split(s[1..], sep);
      if s[0] == sep then [""] + rest
      else [[s[0]] + rest[0]] + rest[1..]
  }

  /** `sep.join(parts)` */
  function Join(sep: string, parts: seq<string>): string
    decreases |parts|
  {
    if |parts| == 0 then ""
    else if |parts| == 1 then parts[0]
    else parts[0] + sep + Join(sep, parts[1..])
  }

  // ---------------------------------------------------------------------------
  // Facts about case mapping

  lemma UpperIdempotent(s: string)
    ensures Upper(Upper(s)) == Upper(s)
  {
  }

  lemma UpperOfLower(s: string)
    ensures Upper(Lower(s)) == Upper(s)
  {
  }

  lemma LowerOfUpper(s: string)
    ensures Lower(Upper(s)) == Lower(s)
  {
  }

  lemma UpperConcat(a: string, b: string)
    ensures Upper(a + b) == Upper(a) + Upper(b)
  {
  }

  lemma UpperSlice(s: string, a: nat, b: nat)
    requires a <= b <= |s|
    ensures Upper(s[a..b]) == Upper(s)[a..b]
  {
  }

  // ---------------------------------------------------------------------------
  // Facts about strip()

  /** `strip()` keeps one slice of `s` and removes only whitespace around it. */
  lemma StripIsSlice(s: string) returns (a: nat, b: nat)
    ensures a <= b <= |s| && Strip(s) == s[a..b]
    ensures forall i :: 0 <= i < a ==> IsSpace(s[i])
    ensures forall i :: b <= i < |s| ==> IsSpace(s[i])
  {
    a := LeadingSpaces(s);
    var t := s[a..];
    b := a + |t| - TrailingSpaces(t);
    forall i | b <= i < |s|
      ensures IsSpace(s[i])
    {
      assert s[i] == t[i - a];
    }
  }

  /** A string that neither starts nor ends with whitespace is its own `strip()`. */
  lemma StripUnchanged(s: string)
    requires s == [] || (!IsSpace(s[0]) && !IsSpace(s[|s| - 1]))
    ensures Strip(s) == s
  {
  }

  /** An occurrence of a whitespace-free `sub` never overlaps whitespace that
      surrounds `t[a..b]`, so it lies inside that slice. */
  lemma ContainsWithinCore(t: string, a: nat, b: nat, sub: string)
    requires a <= b <= |t|
    requires forall i :: 0 <= i < a ==> IsSpace(t[i])
    requires forall i :: b <= i < |t| ==> IsSpace(t[i])
    requires |sub| > 0 && forall j :: 0 <= j < |sub| ==> !IsSpace(sub[j])
    ensures Contains(t, sub) <==> Contains(t[a..b], sub)
  {
    var core := t[a..b];
    if Contains(t, sub) {
      var i :| 0 <= i <= |t| - |sub| && OccursAt(t, sub, i);
      assert t[i..i + |sub|][0] == sub[0];
      assert t[i..i + |sub|][|sub| - 1] == sub[|sub| - 1];
      assert a <= i;
      assert i + |sub| <= b;
      forall j | 0 <= j < |sub| ensures core[i - a + j] == sub[j] {
        assert t[i..i + |sub|][j] == t[i + j];
      }
      assert core[i - a..i - a + |sub|] == sub;
      assert OccursAt(core, sub, i - a);
    }
    if Contains(core, sub) {
      var i :| 0 <= i <= |core| - |sub| && OccursAt(core, sub, i);
      forall j | 0 <= j < |sub| ensures t[a + i + j] == sub[j] {
        assert core[i..i + |sub|][j] == core[i + j];
      }
      assert t[a + i..a + i + |sub|] == sub;
      assert OccursAt(t, sub, a + i);
    }
  }

  /** Upper-casing and stripping do not change whether a non-empty
      whitespace-free upper-case word occurs. */
  lemma ContainsUpperStrip(s: string, sub: string)
    requires |sub| > 0 && forall j :: 0 <= j < |sub| ==> !IsSpace(sub[j])
    ensures Contains(Upper(Strip(s)), sub) <==> Contains(Upper(s), sub)
  {
    var a, b := StripIsSlice(s);
    UpperSlice(s, a, b);
    var u := Upper(s);
    forall i | 0 <= i < a ensures IsSpace(u[i]) { }
    forall i | b <= i < |u| ensures IsSpace(u[i]) { }
    ContainsWithinCore(u, a, b, sub);
  }

  // ---------------------------------------------------------------------------
  // Facts about split() and join()

  /** No character of `s` is `c`. */
  predicate Lacks(s: string, c: char) {
    forall i | 0 <= i < |s| :: s[i] != c
  }

  lemma LacksConcat(a: string, b: string, c: char)
    requires Lacks(a, c) && Lacks(b, c)
    ensures Lacks(a + b, c)
  {
    forall j | 0 <= j < |a + b|
      ensures (a + b)[j] != c
    {
      if j >= |a| {
        assert (a + b)[j] == b[j - |a|];
      }
    }
  }

  /** A string without the separator is a single field. */
  lemma {:induction false} SplitNoSep(s: string, sep: char)
    requires Lacks(s, sep)
    ensures Split(s, sep) == [s]
    decreases |s|
  {
    if |s| > 0 {
      assert forall i | 0 <= i < |s[1..]| :: s[1..][i] == s[i + 1];
      SplitNoSep(s[1..], sep);
      assert [s[0]] + s[1..] == s;
    }
  }

  /** Splitting at one separator splits both sides independently. */
  lemma {:induction false} SplitConcat(x: string, y: string, sep: char)
    ensures Split(x + [sep] + y, sep) == Split(x, sep) + Split(y, sep)
    decreases |x|
  {
    var s := x + [sep] + y;
    if |x| == 0 {
      assert s[1..] == y;
    } else {
      assert s[1..] == x[1..] + [sep] + y;
      SplitConcat(x[1..], y, sep);
    }
  }

  /** A string containing the separator has at least two fields. */
  lemma SplitHasTwoFields(s: string, sep: char, k: nat)
    requires k < |s| && s[k] == sep
    ensures |Split(s, sep)| >= 2
  {
    assert s == s[..k] + [sep] + s[k + 1..];
    SplitConcat(s[..k], s[k + 1..], sep);
  }

  /** `split` undoes `join` when no part contains the separator. */
  lemma {:induction false} SplitJoin(parts: seq<string>, sep: char)
    requires |parts| >= 1
    requires forall p | p in parts :: Lacks(p, sep)
    ensures Split(Join([sep], parts), sep) == parts
    decreases |parts|
  {
    assert parts[0] in parts;
    SplitNoSep(parts[0], sep);
    if |parts| > 1 {
      var tail := parts[1..];
      assert forall p | p in tail :: p in parts;
      var j := Join([sep], tail);
      assert Join([sep], parts) == parts[0] + [sep] + j;
      SplitJoin(tail, sep);
      SplitConcat(parts[0], j, sep);
      assert [parts[0]] + tail == parts;
    }
  }

}
