/**
 * String operations the core relies on: JavaScript's `trim()` and Python's
 * `strip()` (each with its own whitespace set), ASCII `toUpperCase()`,
 * prefix and substring tests, and `split` on one separator character.
 */
module Text {
  import opened Wrappers

  /** WhiteSpace and LineTerminator of ECMAScript, which `String.prototype.trim` removes. */
  predicate IsJsWhitespace(c: char) {
    c == ' ' || ('\t' <= c <= '\r') || c == '\U{00A0}' || c == '\U{1680}'
    || ('\U{2000}' <= c <= '\U{200A}') || c == '\U{2028}' || c == '\U{2029}'
    || c == '\U{202F}' || c == '\U{205F}' || c == '\U{3000}' || c == '\U{FEFF}'
  }

  /** Characters for which Python's `str.isspace()` holds, which `str.strip()` removes. */
  predicate IsPyWhitespace(c: char) {
    c == ' ' || ('\t' <= c <= '\r') || ('\U{001C}' <= c <= '\U{001F}')
    || c == '\U{0085}' || c == '\U{00A0}' || c == '\U{1680}'
    || ('\U{2000}' <= c <= '\U{200A}') || c == '\U{2028}' || c == '\U{2029}'
    || c == '\U{202F}' || c == '\U{205F}' || c == '\U{3000}'
  }

  /** `s` without its leading characters satisfying `w`. */
  function TrimStart(s: string, w: char -> bool): (r: string)
    ensures |r| <= |s| && r == s[|s| - |r|..]
    ensures r != [] ==> !w(r[0])
    ensures forall i :: 0 <= i < |s| - |r| ==> w(s[i])
    decreases |s|
  {
    if s != [] && w(s[0]) then TrimStart(s[1..], w) else s
  }

  /** `s` without its trailing characters satisfying `w`. */
  function TrimEnd(s: string, w: char -> bool): (r: string)
    ensures |r| <= |s| && r == s[..|r|]
    ensures r != [] ==> !w(r[|r| - 1])
    ensures forall i :: |r| <= i < |s| ==> w(s[i])
    decreases |s|
  {
    if s != [] && w(s[|s| - 1]) then TrimEnd(s[..|s| - 1], w) else s
  }

  function Trim(s: string, w: char -> bool): string {
    TrimEnd(TrimStart(s, w), w)
  }

  /** `s.trim()` in JavaScript. */
  function JsTrim(s: string): string {
    Trim(s, IsJsWhitespace)
  }

  /** `s.strip()` in Python. */
  function PyStrip(s: string): string {
    Trim(s, IsPyWhitespace)
  }

  /**
   * Trimming cuts exactly the surrounding whitespace: the result is the infix
   * of the input starting after the leading whitespace, it neither starts nor
   * ends with whitespace, and everything around it is whitespace.
   */
  lemma TrimSpec(s: string, w: char -> bool)
    ensures var a := |s| - |TrimStart(s, w)|; var r := Trim(s, w);
      && a + |r| <= |s| && r == s[a..][..|r|]
      && (r != [] ==> !w(r[0]) && !w(r[|r| - 1]))
      && (forall i :: 0 <= i < a ==> w(s[i]))
      && (forall i :: a + |r| <= i < |s| ==> w(s[i]))
  {
  }

  /** The trimmed text is the infix of `s` that starts after the leading run. */
  lemma TrimInfix(s: string, w: char -> bool)
    ensures |s| - |TrimStart(s, w)| + |Trim(s, w)| <= |s|
    ensures Trim(s, w) == s[|s| - |TrimStart(s, w)|..|s| - |TrimStart(s, w)| + |Trim(s, w)|]
  {
    TrimSpec(s, w);
    var a := |s| - |TrimStart(s, w)|;
    SliceOfSuffix(s, a, |Trim(s, w)|);
  }

  /** Cutting a suffix and then a prefix gives the slice between the two. */
  lemma SliceOfSuffix<T>(s: seq<T>, a: nat, n: nat)
    requires a + n <= |s|
    ensures s[a..][..n] == s[a..a + n]
  {
  }

  /** A string that neither starts nor ends with whitespace is its own trim. */
  lemma TrimNoop(s: string, w: char -> bool)
    requires s != [] ==> !w(s[0]) && !w(s[|s| - 1])
    ensures Trim(s, w) == s
  {
  }

  lemma {:induction false} TrimIdempotent(s: string, w: char -> bool)
    ensures Trim(Trim(s, w), w) == Trim(s, w)
  {
    TrimSpec(s, w);
    TrimNoop(Trim(s, w), w);
  }

  // ---------------------------------------------------------------------
  // ASCII upper case

  function UpperChar(c: char): char {
    if 'a' <= c <= 'z' then (c as int - 32) as char else c
  }

  /** `s.toUpperCase()` restricted to ASCII letters. */
  function Upper(s: string): (r: string)
    ensures |r| == |s| && forall i :: 0 <= i < |s| ==> r[i] == UpperChar(s[i])
  {
    seq(|s|, i requires 0 <= i < |s| => UpperChar(s[i]))
  }

  lemma UpperIdempotent(s: string)
    ensures Upper(Upper(s)) == Upper(s)
  {
  }

  lemma UpperConcat(a: string, b: string)
    ensures Upper(a + b) == Upper(a) + Upper(b)
  {
  }

  /**
   * Upper-casing and trimming commute for both whitespace sets, so
   * `upper(trim(q))` and `trim(upper(q))` agree.
   */
  lemma {:induction false} TrimStartUpper(s: string, w: char -> bool)
    requires forall c :: w(UpperChar(c)) == w(c)
    ensures TrimStart(Upper(s), w) == Upper(TrimStart(s, w))
    decreases |s|
  {
    if s != [] {
      assert Upper(s)[0] == UpperChar(s[0]);
      if w(s[0]) {
        assert Upper(s)[1..] == Upper(s[1..]);
        TrimStartUpper(s[1..], w);
      }
    }
  }

  lemma {:induction false} TrimEndUpper(s: string, w: char -> bool)
    requires forall c :: w(UpperChar(c)) == w(c)
    ensures TrimEnd(Upper(s), w) == Upper(TrimEnd(s, w))
    decreases |s|
  {
    if s != [] {
      var u := Upper(s);
      var n := |s| - 1;
      assert u[n] == UpperChar(s[n]);
      if w(s[n]) {
        UpperPrefix(s, n);
        assert TrimEnd(u, w) == TrimEnd(u[..n], w);
        assert TrimEnd(s, w) == TrimEnd(s[..n], w);
        TrimEndUpper(s[..n], w);
      } else {
        assert TrimEnd(u, w) == u;
        assert TrimEnd(s, w) == s;
      }
    }
  }

  lemma UpperPrefix(s: string, n: nat)
    requires n <= |s|
    ensures Upper(s)[..n] == Upper(s[..n])
  {
  }

  lemma JsTrimUpper(s: string)
    ensures JsTrim(Upper(s)) == Upper(JsTrim(s))
  {
    TrimStartUpper(s, IsJsWhitespace);
    TrimEndUpper(TrimStart(s, IsJsWhitespace), IsJsWhitespace);
  }

  // ---------------------------------------------------------------------
  // Prefixes and substrings

  predicate StartsWith(s: string, p: string) {
    |p| <= |s| && s[..|p|] == p
  }

  /** `sub` occurs in `s` starting at position `i`. */
  predicate OccursAt(s: string, sub: string, i: nat) {
    i + |sub| <= |s| && s[i..i + |sub|] == sub
  }

  /** `s.includes(sub)`, by scanning start positions left to right. */
  function Contains(s: string, sub: string): bool
    decreases |s|
  {
    StartsWith(s, sub) || (s != [] && Contains(s[1..], sub))
  }

  /** `Contains` finds `sub` exactly when it occurs at some position. */
  lemma {:induction false} ContainsIff(s: string, sub: string)
    ensures Contains(s, sub) <==> exists i: nat :: OccursAt(s, sub, i)
    decreases |s|
  {
    if StartsWith(s, sub) {
      assert OccursAt(s, sub, 0);
    }
    if s != [] {
      ContainsIff(s[1..], sub);
      if Contains(s[1..], sub) {
        var i: nat :| OccursAt(s[1..], sub, i);
        assert s[1..][i..i + |sub|] == s[i + 1..i + 1 + |sub|];
        assert OccursAt(s, sub, i + 1);
      }
      if exists i: nat :: OccursAt(s, sub, i) {
        var i: nat :| OccursAt(s, sub, i);
        if i > 0 {
          assert s[1..][i - 1..i - 1 + |sub|] == s[i..i + |sub|];
          assert OccursAt(s[1..], sub, i - 1);
        }
      }
    } else {
      if exists i: nat :: OccursAt(s, sub, i) {
        var i: nat :| OccursAt(s, sub, i);
        assert i == 0 && sub == [];
      }
    }
  }

  lemma ContainsAt(s: string, sub: string, i: nat)
    requires OccursAt(s, sub, i)
    ensures Contains(s, sub)
  {
    ContainsIff(s, sub);
  }

  /** An occurrence inside the infix `r` of `u` that starts at `a` is an occurrence in `r`. */
  lemma InfixOccurrence(u: string, r: string, a: nat, sub: string, i: nat)
    requires a + |r| <= |u| && r == u[a..a + |r|]
    requires OccursAt(u, sub, i) && a <= i && i + |sub| <= a + |r|
    ensures OccursAt(r, sub, i - a)
  {
    var t := r[i - a..i - a + |sub|];
    forall k | 0 <= k < |sub| ensures t[k] == sub[k] {
      assert t[k] == r[i - a + k] == u[i + k];
      assert sub[k] == u[i..i + |sub|][k];
    }
  }

  lemma ContainsInfix(a: string, sub: string, b: string)
    ensures Contains(a + sub + b, sub)
  {
    assert (a + sub + b)[|a|..|a| + |sub|] == sub;
    ContainsAt(a + sub + b, sub, |a|);
  }

  /** Text around a string keeps every occurrence inside it. */
  lemma ContainsWithin(a: string, x: string, b: string, sub: string)
    requires Contains(x, sub)
    ensures Contains(a + x + b, sub)
  {
    ContainsIff(x, sub);
    var i: nat :| OccursAt(x, sub, i);
    assert (a + x + b)[|a| + i..|a| + i + |sub|] == x[i..i + |sub|];
    ContainsAt(a + x + b, sub, |a| + i);
  }

  /** Upper-casing cannot create or destroy an occurrence of an upper-case keyword. */
  lemma ContainsUpperConcat(a: string, b: string, sub: string)
    requires Contains(Upper(a), sub)
    ensures Contains(Upper(a + b), sub) && Contains(Upper(b + a), sub)
  {
    ContainsIff(Upper(a), sub);
    var i: nat :| OccursAt(Upper(a), sub, i);
    UpperConcat(a, b);
    UpperConcat(b, a);
    assert Upper(a + b)[i..i + |sub|] == sub;
    assert Upper(b + a)[|b| + i..|b| + i + |sub|] == sub;
    ContainsAt(Upper(a + b), sub, i);
    ContainsAt(Upper(b + a), sub, |b| + i);
  }

  // ---------------------------------------------------------------------
  // split

  /** The position of the first `c` in `s`. */
  function IndexOf(s: string, c: char): (r: Option<nat>)
    ensures r.Some? ==> r.value < |s| && s[r.value] == c && c !in s[..r.value]
    ensures r.None? <==> c !in s
    decreases |s|
  {
    if s == [] then None
    else if s[0] == c then Some(0)
    else
      var r := IndexOf(s[1..], c);
      if r.None? then None
      else
        assert s[..r.value + 1] == [s[0]] + s[1..][..r.value];
        Some(r.value + 1)
  }

  /** `s.split(c)` with a one-character separator. */
  function Split(s: string, c: char): (r: seq<string>)
    ensures |r| >= 1
    ensures forall i :: 0 <= i < |r| ==> c !in r[i]
    decreases |s|
  {
    var k := IndexOf(s, c);
    if k.None? then [s] else [s[..k.value]] + Split(s[k.value + 1..], c)
  }

  /** `parts.join(c)`. */
  function Join(parts: seq<string>, c: char): string
    requires |parts| >= 1
  {
    if |parts| == 1 then parts[0] else parts[0] + [c] + Join(parts[1..], c)
  }

  /** Joining the pieces with the separator gives the input back. */
  lemma {:induction false} JoinSplit(s: string, c: char)
    ensures Join(Split(s, c), c) == s
    decreases |s|
  {
    var k := IndexOf(s, c);
    if k.Some? {
      var head, rest := s[..k.value], s[k.value + 1..];
      var tail := Split(rest, c);
      assert Split(s, c) == [head] + tail;
      JoinSplit(rest, c);
      JoinCons(head, tail, c);
      assert s == head + [c] + rest;
    } else {
      assert Split(s, c) == [s];
    }
  }

  lemma JoinCons(head: string, tail: seq<string>, c: char)
    requires |tail| >= 1
    ensures Join([head] + tail, c) == head + [c] + Join(tail, c)
  {
    assert ([head] + tail)[1..] == tail;
  }

  /** Splitting the joined pieces gives the pieces back when none holds the separator. */
  lemma {:induction false} SplitJoin(parts: seq<string>, c: char)
    requires |parts| >= 1 && forall i :: 0 <= i < |parts| ==> c !in parts[i]
    ensures Split(Join(parts, c), c) == parts
    decreases |parts|
  {
    if |parts| > 1 {
      SplitJoin(parts[1..], c);
      SplitCons(parts[0], Join(parts[1..], c), c);
    } else {
      SplitNoSeparator(parts[0], c);
    }
  }

  lemma SplitNoSeparator(s: string, c: char)
    requires c !in s
    ensures Split(s, c) == [s]
  {
  }

  /** The first separator of `a + [c] + b` is the one after `a` when `a` has none. */
  lemma {:induction false} IndexOfAfter(a: string, b: string, c: char)
    requires c !in a
    ensures IndexOf(a + [c] + b, c) == Some(|a|)
    decreases |a|
  {
    if a != [] {
      assert (a + [c] + b)[1..] == a[1..] + [c] + b;
      IndexOfAfter(a[1..], b, c);
    }
  }

  lemma SplitCons(a: string, b: string, c: char)
    requires c !in a
    ensures Split(a + [c] + b, c) == [a] + Split(b, c)
  {
    var s := a + [c] + b;
    IndexOfAfter(a, b, c);
    assert s[..|a|] == a && s[|a| + 1..] == b;
  }
}
