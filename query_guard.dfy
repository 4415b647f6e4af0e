/**
 * The SQL text filter of `Database.isQuerySafe`: the query is upper-cased and
 * trimmed, rejected when any denylisted keyword occurs in it as a substring,
 * and otherwise accepted only when it starts with SELECT or INSERT.
 * It is a text filter, not a parser.
 */
module QueryGuard {
  import opened Text

  /** The denylist, in the order the scan visits it. */
  const BlockedOperations: seq<string> :=
    ["UPDATE", "DELETE", "DROP", "ALTER", "TRUNCATE", "CREATE", "GRANT", "REVOKE"]

  const BlockedMessage: string := "Operation not allowed for security reasons"

  /** `query.toUpperCase().trim()`. */
  function Normalise(q: string): string {
    JsTrim(Upper(q))
  }

  /** The scan over the denylist: true when some keyword of `ops` occurs in `u`. */
  function HitsDenylist(u: string, ops: seq<string>): bool {
    if ops == [] then false
    else if Contains(u, ops[0]) then true
    else HitsDenylist(u, ops[1..])
  }

  predicate HasAllowedPrefix(u: string) {
    StartsWith(u, "SELECT") || StartsWith(u, "INSERT")
  }

  /** `isQuerySafe(query)`. */
  function IsQuerySafe(q: string): bool {
    var u := Normalise(q);
    if HitsDenylist(u, BlockedOperations) then false
    else HasAllowedPrefix(u)
  }

  lemma {:induction false} HitsDenylistIff(u: string, ops: seq<string>)
    ensures HitsDenylist(u, ops) <==> exists i :: 0 <= i < |ops| && Contains(u, ops[i])
  {
    if ops != [] {
      HitsDenylistIff(u, ops[1..]);
      if HitsDenylist(u, ops[1..]) {
        var i :| 0 <= i < |ops| - 1 && Contains(u, ops[1..][i]);
        assert Contains(u, ops[i + 1]);
      }
      if exists i :: 0 <= i < |ops| && Contains(u, ops[i]) {
        var i :| 0 <= i < |ops| && Contains(u, ops[i]);
        if i > 0 {
          assert ops[1..][i - 1] == ops[i];
        }
      }
    }
  }

  /**
   * The guard accepts exactly the queries whose upper-cased, trimmed text
   * starts with SELECT or INSERT and contains none of the eight keywords.
   */
  lemma QuerySafeIff(q: string)
    ensures IsQuerySafe(q) <==>
      HasAllowedPrefix(Normalise(q))
      && forall op :: op in BlockedOperations ==> !Contains(Normalise(q), op)
  {
    HitsDenylistIff(Normalise(q), BlockedOperations);
    if exists op :: op in BlockedOperations && Contains(Normalise(q), op) {
      var op :| op in BlockedOperations && Contains(Normalise(q), op);
      var i :| 0 <= i < |BlockedOperations| && BlockedOperations[i] == op;
    }
  }

  /**
   * Matching is by substring: any text holding a keyword anywhere, inside a
   * column name or a string literal included, is rejected. Lower-case and
   * mixed-case spellings follow through `CaseInsensitive`.
   */
  lemma {:induction false} KeywordAnywhereBlocks(before: string, op: string, after: string)
    requires op in BlockedOperations
    ensures !IsQuerySafe(before + op + after)
  {
    var q := before + op + after;
    QuerySafeIff(q);
    UpperConcat(before + op, after);
    UpperConcat(before, op);
    assert Upper(op) == op by {
      UpperOfKeyword(op);
    }
    ContainsInfix(Upper(before), op, Upper(after));
    KeywordSurvivesTrim(Upper(q), op);
  }

  /** The keywords consist of upper-case letters only. */
  lemma UpperOfKeyword(op: string)
    requires op in BlockedOperations
    ensures Upper(op) == op
    ensures forall i :: 0 <= i < |op| ==> 'A' <= op[i] <= 'Z'
  {
  }

  /**
   * Trimming only removes surrounding characters satisfying `w`, so it keeps
   * every occurrence of a text that neither starts nor ends with one.
   */
  lemma OccurrenceSurvivesTrim(u: string, sub: string, i: nat, w: char -> bool)
    requires OccursAt(u, sub, i) && sub != []
    requires !w(sub[0]) && !w(sub[|sub| - 1])
    ensures Contains(Trim(u, w), sub)
  {
    OccurrenceAfterLeading(u, sub, i, w);
    OccurrenceBeforeTrailing(u, sub, i, w);
    OccurrenceInsideTrim(u, sub, i, w);
  }

  /** An occurrence between the leading and the trailing run is kept. */
  lemma OccurrenceInsideTrim(u: string, sub: string, i: nat, w: char -> bool)
    requires OccursAt(u, sub, i)
    requires |u| - |TrimStart(u, w)| <= i
    requires i + |sub| <= |u| - |TrimStart(u, w)| + |Trim(u, w)|
    ensures Contains(Trim(u, w), sub)
  {
    var a := |u| - |TrimStart(u, w)|;
    TrimInfix(u, w);
    InfixOccurrence(u, Trim(u, w), a, sub, i);
    ContainsAt(Trim(u, w), sub, i - a);
  }

  /** An occurrence starting with a kept character lies after the leading run. */
  lemma OccurrenceAfterLeading(u: string, sub: string, i: nat, w: char -> bool)
    requires OccursAt(u, sub, i) && sub != [] && !w(sub[0])
    ensures |u| - |TrimStart(u, w)| <= i
  {
    TrimSpec(u, w);
    assert u[i] == sub[0];
  }

  /** An occurrence ending with a kept character lies before the trailing run. */
  lemma OccurrenceBeforeTrailing(u: string, sub: string, i: nat, w: char -> bool)
    requires OccursAt(u, sub, i) && sub != [] && !w(sub[|sub| - 1])
    ensures i + |sub| <= |u| - |TrimStart(u, w)| + |Trim(u, w)|
  {
    TrimSpec(u, w);
    assert u[i + |sub| - 1] == u[i..i + |sub|][|sub| - 1];
  }

  /** Trimming keeps every occurrence of a keyword. */
  lemma KeywordSurvivesTrim(u: string, op: string)
    requires op in BlockedOperations
    requires Contains(u, op)
    ensures Contains(JsTrim(u), op)
  {
    UpperOfKeyword(op);
    ContainsIff(u, op);
    var i: nat :| OccursAt(u, op, i);
    OccurrenceSurvivesTrim(u, op, i, IsJsWhitespace);
  }

  /** The verdict ignores letter case: queries equal up to case get the same answer. */
  lemma CaseInsensitive(q1: string, q2: string)
    requires Upper(q1) == Upper(q2)
    ensures IsQuerySafe(q1) == IsQuerySafe(q2)
  {
  }

  lemma {:induction false} TrimStartPadding(p: string, x: string, w: char -> bool)
    requires forall i :: 0 <= i < |p| ==> w(p[i])
    ensures TrimStart(p + x, w) == TrimStart(x, w)
    decreases |p|
  {
    if p == [] {
      assert p + x == x;
    } else {
      assert (p + x)[0] == p[0] && (p + x)[1..] == p[1..] + x;
      TrimStartPadding(p[1..], x, w);
    }
  }

  lemma {:induction false} TrimEndPadding(x: string, p: string, w: char -> bool)
    requires forall i :: 0 <= i < |p| ==> w(p[i])
    ensures TrimEnd(x + p, w) == TrimEnd(x, w)
    decreases |p|
  {
    if p == [] {
      assert x + p == x;
    } else {
      var init := p[..|p| - 1];
      assert (x + p)[|x + p| - 1] == p[|p| - 1] && (x + p)[..|x + p| - 1] == x + init;
      TrimEndPadding(x, init, w);
    }
  }

  /** Whitespace characters are not letters, so upper-casing leaves them alone. */
  lemma UpperOfWhitespace(p: string)
    requires forall i :: 0 <= i < |p| ==> IsJsWhitespace(p[i])
    ensures Upper(p) == p
  {
  }

  /** The verdict ignores whitespace around the query. */
  lemma WhitespaceInsensitive(pre: string, q: string, post: string)
    requires forall i :: 0 <= i < |pre| ==> IsJsWhitespace(pre[i])
    requires forall i :: 0 <= i < |post| ==> IsJsWhitespace(post[i])
    ensures IsQuerySafe(pre + q + post) == IsQuerySafe(q)
  {
    NormaliseIgnoresPadding(pre, q, post);
  }

  /** Whitespace around a query does not change its normalised text. */
  lemma NormaliseIgnoresPadding(pre: string, q: string, post: string)
    requires forall i :: 0 <= i < |pre| ==> IsJsWhitespace(pre[i])
    requires forall i :: 0 <= i < |post| ==> IsJsWhitespace(post[i])
    ensures Normalise(pre + q + post) == Normalise(q)
  {
    var uq := Upper(q);
    UpperOfPadded(pre, q, post);
    TrimStartPadding(pre, uq + post, IsJsWhitespace);
    assert JsTrim(pre + (uq + post)) == JsTrim(uq + post);
    TrimStartEndCommute(uq, post);
  }

  /** Upper-casing leaves whitespace padding as it is. */
  lemma UpperOfPadded(pre: string, q: string, post: string)
    requires forall i :: 0 <= i < |pre| ==> IsJsWhitespace(pre[i])
    requires forall i :: 0 <= i < |post| ==> IsJsWhitespace(post[i])
    ensures Upper(pre + q + post) == pre + (Upper(q) + post)
  {
    UpperConcat(pre + q, post);
    UpperConcat(pre, q);
    UpperOfWhitespace(pre);
    UpperOfWhitespace(post);
    assert pre + Upper(q) + post == pre + (Upper(q) + post);
  }

  lemma TrimStartEndCommute(x: string, post: string)
    requires forall i :: 0 <= i < |post| ==> IsJsWhitespace(post[i])
    ensures JsTrim(x + post) == JsTrim(x)
  {
    var t := TrimStart(x, IsJsWhitespace);
    if t == [] {
      // x is all whitespace, and so is x + post
      TrimStartPadding(x, post, IsJsWhitespace);
      assert post + [] == post;
      TrimStartPadding(post, [], IsJsWhitespace);
    } else {
      TrimStartKeepsTail(x, post);
      TrimEndPadding(t, post, IsJsWhitespace);
    }
  }

  lemma {:induction false} TrimStartKeepsTail(x: string, post: string)
    requires TrimStart(x, IsJsWhitespace) != []
    ensures TrimStart(x + post, IsJsWhitespace) == TrimStart(x, IsJsWhitespace) + post
    decreases |x|
  {
    assert x != [];
    assert (x + post)[0] == x[0];
    if IsJsWhitespace(x[0]) {
      assert (x + post)[1..] == x[1..] + post;
      TrimStartKeepsTail(x[1..], post);
    }
  }

  /** A SELECT naming a column `created_at` is rejected: it contains CREATE. */
  lemma CreatedAtColumnBlocked()
    ensures !IsQuerySafe("SELECT created_at FROM user")
  {
    assert "SELECT created_at FROM user" == "SELECT " + "CREATE"[..0] + "created_at FROM user";
    var q := "SELECT created_at FROM user";
    assert Upper(q)[7..13] == "CREATE";
    ContainsAt(Upper(q), "CREATE", 7);
    KeywordSurvivesTrim(Upper(q), "CREATE");
    QuerySafeIff(q);
  }

  /** A second statement after a SELECT is caught by the denylist. */
  lemma BatchedDeleteBlocked()
    ensures !IsQuerySafe("select * from t; DELETE FROM t")
  {
    var q := "select * from t; DELETE FROM t";
    assert Upper(q)[17..23] == "DELETE";
    ContainsAt(Upper(q), "DELETE", 17);
    KeywordSurvivesTrim(Upper(q), "DELETE");
    QuerySafeIff(q);
  }

  /**
   * The prefix test is on raw text, not on a word: anything that starts
   * with the letters SELECT, such as `SELECTX ...`, passes when it holds
   * no keyword.
   */
  lemma RawSelectPrefixAccepted(rest: string)
    requires forall op :: op in BlockedOperations ==> !Contains(Normalise("SELECT" + rest), op)
    ensures IsQuerySafe("SELECT" + rest)
  {
    var q := "SELECT" + rest;
    UpperConcat("SELECT", rest);
    assert Upper("SELECT") == "SELECT";
    TrimKeepsPrefix(Upper(q), "SELECT", IsJsWhitespace);
    QuerySafeIff(q);
  }

  /** A prefix without whitespace at its ends survives trimming. */
  lemma TrimKeepsPrefix(s: string, p: string, w: char -> bool)
    requires p != [] && StartsWith(s, p) && !w(p[0]) && !w(p[|p| - 1])
    ensures StartsWith(Trim(s, w), p)
  {
    TrimSpec(s, w);
    var a := |s| - |TrimStart(s, w)|;
    var r := Trim(s, w);
    assert a == 0 by {
      assert !w(s[0]);
    }
    assert |p| <= |r| by {
      assert !w(s[|p| - 1]);
    }
    assert r[..|p|] == s[..|p|];
  }

  /** `DROP TABLE t` is refused by its keyword. */
  lemma DropRejected()
    ensures !IsQuerySafe("DROP TABLE t")
  {
    var q := "DROP TABLE t";
    assert Upper(q)[0..4] == "DROP";
    ContainsAt(Upper(q), "DROP", 0);
    KeywordSurvivesTrim(Upper(q), "DROP");
    QuerySafeIff(q);
  }

  /** `sub` cannot occur in `s` when its first character does not. */
  lemma {:induction false} AbsentInitial(s: string, sub: string)
    requires sub != [] && sub[0] !in s
    ensures !Contains(s, sub)
    decreases |s|
  {
    if s != [] {
      assert forall k :: 0 <= k < |s| - 1 ==> s[1..][k] == s[k + 1];
      AbsentInitial(s[1..], sub);
    }
  }

  /**
   * The prefix rule refuses on its own: `show keys in x` holds none of the
   * keywords, so the scan lets it through, yet it starts with neither
   * SELECT nor INSERT.
   */
  lemma ShowKeysRejected()
    ensures !HitsDenylist(Normalise("show keys in x"), BlockedOperations)
    ensures !HasAllowedPrefix(Normalise("show keys in x"))
    ensures !IsQuerySafe("show keys in x")
  {
    ShowKeysNormal();
    ShowKeysKeywordFree();
    NeitherPrefix("SHOW KEYS IN X");
    PrefixRuleAlone("show keys in x", "SHOW KEYS IN X");
  }

  /** A query whose normal form holds no keyword and has neither prefix is refused by the prefix rule. */
  lemma PrefixRuleAlone(q: string, u: string)
    requires Normalise(q) == u && !HitsDenylist(u, BlockedOperations) && !HasAllowedPrefix(u)
    ensures !HitsDenylist(Normalise(q), BlockedOperations) && !HasAllowedPrefix(Normalise(q)) && !IsQuerySafe(q)
  {
  }

  /** `SHOW KEYS IN X` holds none of the keywords. */
  lemma ShowKeysKeywordFree()
    ensures !HitsDenylist("SHOW KEYS IN X", BlockedOperations)
  {
    InitialsAbsent("SHOW KEYS IN X");
  }

  /** A text whose second letter is H starts with neither SELECT nor INSERT. */
  lemma NeitherPrefix(u: string)
    requires |u| >= 6 && u[1] == 'H'
    ensures !HasAllowedPrefix(u)
  {
    assert u[..6][1] == 'H';
  }

  /** `show keys in x` normalises to its upper-case form. */
  lemma ShowKeysNormal()
    ensures Normalise("show keys in x") == "SHOW KEYS IN X"
  {
    assert Upper("show keys in x") == "SHOW KEYS IN X";
    TrimNoop("SHOW KEYS IN X", IsJsWhitespace);
  }

  /** The scan finds nothing in a text that holds no keyword's first letter. */
  lemma InitialsAbsent(u: string)
    requires 'U' !in u && 'D' !in u && 'A' !in u && 'T' !in u && 'C' !in u && 'G' !in u && 'R' !in u
    ensures !HitsDenylist(u, BlockedOperations)
  {
    forall i | 0 <= i < |BlockedOperations|
      ensures !Contains(u, BlockedOperations[i])
    {
      AbsentInitial(u, BlockedOperations[i]);
    }
    HitsDenylistIff(u, BlockedOperations);
  }
}
