/**
 * The text-level stages of the SQL gate, which run before any parsing: comment stripping and
 * the pre-parse screen for blocked keywords and for a second statement.
 */
module SqlText {
  import opened Base
  import opened Text
  import Registry

  // ---------------------------------------------------------------------------
  // Comment stripping
  // ---------------------------------------------------------------------------

  /** The text from the first newline on (the newline kept), or nothing when there is none. */
  function FromNewline(s: string): (r: string)
    ensures |r| <= |s|
    ensures r != [] ==> r[0] == '\n'
    ensures '\n' !in s[..|s| - |r|]
    ensures r == s[|s| - |r|..]
  {
    match IndexOfChar(s, '\n')
    case None => []
    case Some(i) => s[i..]
  }

  predicate DashesAt(s: string, i: int)
  {
    0 <= i && i + 1 < |s| && s[i] == '-' && s[i + 1] == '-'
  }

  /**
   * A global replace of the pattern `--[^\n]*` by nothing: scanning from the left, each `--`
   * and the rest of its line up to (not including) the newline is deleted.
   */
  function StripLineComments(s: string): string
    decreases |s|
  {
    if DashesAt(s, 0) then StripLineComments(FromNewline(s))
    else if s == [] then []
    else [s[0]] + StripLineComments(s[1..])
  }

  /**
   * A global, non-greedy replace of block comments by nothing: scanning from the left, each
   * slash-star opener that has a later star-slash closer is deleted together with everything up to
   * the first such closer; an opener without a closer is kept.
   */
  function StripBlockComments(s: string): string
    decreases |s|
  {
    if |s| >= 2 && s[0] == '/' && s[1] == '*' then
      match IndexOfFrom(s, "*/", 2)
      case Some(j) => StripBlockComments(s[j + 2..])
      case None => [s[0]] + StripBlockComments(s[1..])
    else if s == [] then []
    else [s[0]] + StripBlockComments(s[1..])
  }

  /** Line comments first, then block comments, then surrounding whitespace. */
  function StripComments(s: string): (r: string)
    ensures r != [] ==> !IsJsSpace(r[0]) && !IsJsSpace(r[|r| - 1])
  {
    var t := StripBlockComments(StripLineComments(s));
    TrimEnds(t, IsJsSpace);
    TrimJs(t)
  }

  predicate NoDoubleDash(s: string)
  {
    forall i :: 0 <= i < |s| ==> !DashesAt(s, i)
  }

  lemma StripLineHead(s: string)
    requires s != [] && !DashesAt(s, 0)
    ensures StripLineComments(s) == [s[0]] + StripLineComments(s[1..])
  {
  }

  /** After the line-comment pass no `--` is left, not even one formed by joining the pieces around a comment. */
  lemma {:induction false} StripLineLeavesNoDashes(s: string)
    ensures NoDoubleDash(StripLineComments(s))
    decreases |s|
  {
    if DashesAt(s, 0) {
      StripLineLeavesNoDashes(FromNewline(s));
    } else if s != [] {
      var rest := StripLineComments(s[1..]);
      StripLineLeavesNoDashes(s[1..]);
      var r := [s[0]] + rest;
      if s[0] == '-' && |s| > 1 {
        assert s[1] != '-';
        StripLineHead(s[1..]);
        assert rest[0] == s[1];
      }
      if s[0] == '-' && |s| == 1 {
        assert rest == [];
      }
      forall i | 0 <= i < |r| ensures !DashesAt(r, i) {
        if i > 0 {
          assert !DashesAt(rest, i - 1);
        }
      }
    }
  }

  /** Text without a dash passes the line-comment pass unchanged. */
  lemma {:induction false} StripLineFixesDashFree(a: string)
    requires '-' !in a
    ensures StripLineComments(a) == a
    decreases |a|
  {
    if a != [] {
      assert '-' !in a[1..];
      StripLineFixesDashFree(a[1..]);
    }
  }

  lemma FromNewlineAfter(p: string, c: string)
    requires '\n' !in p
    requires c == [] || c[0] == '\n'
    ensures FromNewline(p + c) == c
  {
    var s := p + c;
    if c == [] {
      assert s == p;
    } else {
      var r := IndexOfChar(s, '\n');
      assert s[|p|] == '\n';
      assert r.Some?;
      assert s[|p|..] == c;
    }
  }

  /** A leading character other than a dash is kept by the line-comment pass. */
  lemma {:induction false} StripLineCons(a: string, rest: string)
    requires a != [] && a[0] != '-'
    ensures StripLineComments(a + rest) == [a[0]] + StripLineComments(a[1..] + rest)
  {
    assert (a + rest)[0] == a[0];
    assert (a + rest)[1..] == a[1..] + rest;
  }

  /** Putting the head of `a` back in front of the rest of it. */
  lemma ConsBack(a: string, x: string, y: string, t: string)
    requires a != []
    requires x == [a[0]] + y && y == a[1..] + t
    ensures x == a + t
  {
    assert [a[0]] + (a[1..] + t) == a + t;
  }

  /** Text that does not start with a dash is kept, character by character. */
  lemma {:induction false} StripLineKeeps(a: string, rest: string, t: string)
    requires a != [] && a[0] != '-'
    requires StripLineComments(a[1..] + rest) == a[1..] + t
    ensures StripLineComments(a + rest) == a + t
  {
    StripLineCons(a, rest);
    ConsBack(a, StripLineComments(a + rest), StripLineComments(a[1..] + rest), t);
  }

  /** A comment at the very start is deleted up to its newline. */
  lemma StripLeadingComment(b: string, c: string)
    requires '\n' !in b
    requires c == [] || c[0] == '\n'
    ensures StripLineComments("--" + b + c) == StripLineComments(c)
  {
    var s := "--" + b + c;
    assert s[0] == '-' && s[1] == '-';
    assert DashesAt(s, 0);
    FromNewlineAfter("--" + b, c);
  }

  /** A `--` comment running to a newline (or the end) is deleted, and the newline is kept. */
  lemma {:induction false} StripLineComment(a: string, b: string, c: string)
    requires '-' !in a && '\n' !in b
    requires c == [] || c[0] == '\n'
    ensures StripLineComments(a + "--" + b + c) == a + StripLineComments(c)
    decreases |a|
  {
    var rest := "--" + b + c;
    assert a + "--" + b + c == a + rest;
    if a == [] {
      assert a + rest == rest;
      StripLeadingComment(b, c);
    } else {
      StripLineComment(a[1..], b, c);
      assert a[1..] + "--" + b + c == a[1..] + rest;
      StripLineKeeps(a, rest, StripLineComments(c));
    }
  }

  /** The first closer at or after position 2 of an opener followed by text without a closer. */
  lemma FirstCloser(b: string, c: string)
    requires !Contains(b, "*/")
    ensures IndexOfFrom("/*" + b + "*/" + c, "*/", 2) == Some(2 + |b|)
  {
    var s := "/*" + b + "*/" + c;
    var j := 2 + |b|;
    assert s[j..j + 2] == "*/";
    ContainsIff(b, "*/");
    forall k | 2 <= k < j ensures !OccursAt(s, "*/", k) {
      if k + 1 < j {
        assert s[k..k + 2] == b[k - 2..k];
        assert !OccursAt(b, "*/", k - 2);
      } else {
        assert s[k..k + 2][1] == '*';
      }
    }
    IndexOfFromIs(s, "*/", 2, j);
  }

  /** Dropping the first character of opener-free text leaves opener-free text that does not start an opener. */
  lemma NoOpenerTail(a: string)
    requires a != [] && !Contains(a, "/*")
    ensures !Contains(a[1..], "/*")
    ensures !(|a| >= 2 && a[0] == '/' && a[1] == '*')
  {
    ContainsIff(a, "/*");
    ContainsIff(a[1..], "/*");
    forall k ensures OccursAt(a[1..], "/*", k) == OccursAt(a, "/*", k + 1) {
      if 0 <= k && k + 3 <= |a| {
        assert a[1..][k..k + 2] == a[k + 1..k + 3];
      }
    }
    if |a| >= 2 {
      assert a[0..2] == [a[0], a[1]];
    }
    assert !OccursAt(a, "/*", 0);
  }

  lemma StripBlockHead(s: string)
    requires s != [] && !(|s| >= 2 && s[0] == '/' && s[1] == '*')
    ensures StripBlockComments(s) == [s[0]] + StripBlockComments(s[1..])
  {
  }

  /** A closed block comment at the start is deleted. */
  lemma StripBlockAtOpener(b: string, c: string)
    requires !Contains(b, "*/")
    ensures StripBlockComments("/*" + b + "*/" + c) == StripBlockComments(c)
  {
    var s := "/*" + b + "*/" + c;
    FirstCloser(b, c);
    assert s[2 + |b| + 2..] == c;
  }

  /** Opener-free text before an opener is kept character by character. */
  lemma StripBlockKeepsHead(a: string, x: string)
    requires a != [] && !Contains(a, "/*") && x != [] && x[0] == '/'
    ensures StripBlockComments(a + x) == [a[0]] + StripBlockComments(a[1..] + x)
  {
    var s := a + x;
    assert s[1..] == a[1..] + x;
    NoOpenerTail(a);
    assert s[0] == a[0];
    assert |a| >= 2 ==> s[1] == a[1];
    assert |a| == 1 ==> s[1] == '/';
    StripBlockHead(s);
  }

  /** Opener-free text in front of an opener is kept as it is. */
  lemma {:induction false} StripBlockKeepsPrefix(a: string, x: string)
    requires !Contains(a, "/*") && x != [] && x[0] == '/'
    ensures StripBlockComments(a + x) == a + StripBlockComments(x)
    decreases |a|
  {
    if a == [] {
      assert a + x == x;
    } else {
      NoOpenerTail(a);
      StripBlockKeepsHead(a, x);
      StripBlockKeepsPrefix(a[1..], x);
      assert a == [a[0]] + a[1..];
    }
  }

  /** A closed block comment is deleted when nothing before it opens one. */
  lemma StripBlockComment(a: string, b: string, c: string)
    requires !Contains(a, "/*") && !Contains(b, "*/")
    ensures StripBlockComments(a + "/*" + b + "*/" + c) == a + StripBlockComments(c)
  {
    var x := "/*" + b + "*/" + c;
    assert a + "/*" + b + "*/" + c == a + x;
    StripBlockKeepsPrefix(a, x);
    StripBlockAtOpener(b, c);
  }

  // ---------------------------------------------------------------------------
  // Pre-parse screen
  // ---------------------------------------------------------------------------

  /** Whether position `j` of `u` holds a regular-expression word character. */
  predicate WordCharAt(u: string, j: int)
  {
    0 <= j < |u| && IsWordChar(u[j])
  }

  /** The `\b` assertion at position `i`: a word character on exactly one side. */
  predicate Boundary(u: string, i: int)
  {
    WordCharAt(u, i - 1) != WordCharAt(u, i)
  }

  /** The pattern `\bK\b` matches at position `i`. */
  predicate WordAt(u: string, k: string, i: int)
  {
    OccursAt(u, k, i) && Boundary(u, i) && Boundary(u, i + |k|)
  }

  /** `new RegExp('\\b' + k + '\\b', 'i').test(u)` on an upper-cased `u` and an upper-case `k`. */
  predicate HasWholeWord(u: string, k: string)
  {
    exists i | 0 <= i <= |u| - |k| :: WordAt(u, k, i)
  }

  function KeywordMessage(k: string): string
  {
    "Blocked keyword detected: " + k
  }

  const MultipleStatementsMessage := "Multiple statements are not permitted"

  /** One message per keyword of `kws` that occurs as a whole word in `u`, in the order of `kws`. */
  function KeywordHits(u: string, kws: seq<string>): seq<string>
  {
    if kws == [] then [] else
      var last := kws[|kws| - 1];
      KeywordHits(u, kws[..|kws| - 1]) + (if HasWholeWord(u, last) then [KeywordMessage(last)] else [])
  }

  predicate AllJsSpace(t: string)
  {
    forall k :: 0 <= k < |t| ==> IsJsSpace(t[k])
  }

  /** The leftmost position from `from` on where `;\s*$` matches. */
  function TrailingSemicolonFrom(s: string, from: nat): (r: Option<nat>)
    ensures r.Some? ==> from <= r.value < |s| && s[r.value] == ';' && AllJsSpace(s[r.value + 1..])
    ensures r.None? ==> forall i :: from <= i < |s| && s[i] == ';' ==> !AllJsSpace(s[i + 1..])
    decreases |s| - from
  {
    if from >= |s| then None
    else if s[from] == ';' && AllJsSpace(s[from + 1..]) then Some(from)
    else TrailingSemicolonFrom(s, from + 1)
  }

  /** `s.replace(/;\s*$/, '')`. */
  function WithoutTrailingSemicolon(s: string): string
  {
    match TrailingSemicolonFrom(s, 0)
    case Some(i) => s[..i]
    case None => s
  }

  /** A semicolon survives the removal of one trailing semicolon. */
  predicate MultipleStatements(s: string)
  {
    ';' in WithoutTrailingSemicolon(s)
  }

  /**
   * The errors of the pre-parse screen, in the order they are reported: the semicolon error is
   * among them exactly when there is a second statement.
   */
  function KeywordErrors(sql: string): (r: seq<string>)
    ensures MultipleStatementsMessage in r <==> MultipleStatements(sql)
  {
    KeywordHitsNotSemicolon(Upper(sql), Registry.BlockedKeywords);
    KeywordHits(Upper(sql), Registry.BlockedKeywords)
    + (if MultipleStatements(sql) then [MultipleStatementsMessage] else [])
  }

  /** A keyword message is never the semicolon message. */
  lemma {:induction false} KeywordHitsNotSemicolon(u: string, kws: seq<string>)
    ensures MultipleStatementsMessage !in KeywordHits(u, kws)
    decreases |kws|
  {
    if kws != [] {
      var last := kws[|kws| - 1];
      KeywordHitsNotSemicolon(u, kws[..|kws| - 1]);
      assert KeywordMessage(last)[0] == 'B' != MultipleStatementsMessage[0];
    }
  }

  /** The keyword screen: one regular-expression test per blocked keyword, then the semicolon test. */
  method CheckBlockedKeywords(sql: string) returns (errors: seq<string>)
    ensures errors == KeywordErrors(sql)
  {
    errors := [];
    var upper := Upper(sql);
    var kws := Registry.BlockedKeywords;
    var i := 0;
    while i < |kws|
      invariant 0 <= i <= |kws|
      invariant errors == KeywordHits(upper, kws[..i])
    {
      assert kws[..i + 1][..i] == kws[..i];
      if HasWholeWord(upper, kws[i]) {
        errors := errors + [KeywordMessage(kws[i])];
      }
      i := i + 1;
    }
    assert kws[..i] == kws;
    var trimmed := WithoutTrailingSemicolon(sql);
    if ';' in trimmed {
      errors := errors + [MultipleStatementsMessage];
    }
  }

  lemma KeywordMessageInjective(k1: string, k2: string)
    requires KeywordMessage(k1) == KeywordMessage(k2)
    ensures k1 == k2
  {
    var p := "Blocked keyword detected: ";
    assert k1 == KeywordMessage(k1)[|p|..];
    assert k2 == KeywordMessage(k2)[|p|..];
  }

  /** A keyword message is reported exactly for the keywords of the list found as whole words. */
  lemma {:induction false} KeywordHitsIff(u: string, kws: seq<string>, k: string)
    ensures KeywordMessage(k) in KeywordHits(u, kws) <==> k in kws && HasWholeWord(u, k)
    ensures |KeywordHits(u, kws)| <= |kws|
    decreases |kws|
  {
    if kws != [] {
      var init := kws[..|kws| - 1];
      var last := kws[|kws| - 1];
      KeywordHitsIff(u, init, k);
      assert kws == init + [last];
      if KeywordMessage(k) == KeywordMessage(last) {
        KeywordMessageInjective(k, last);
      }
    }
  }

  lemma {:induction false} KeywordHitsEmpty(u: string, kws: seq<string>)
    ensures KeywordHits(u, kws) == [] <==> forall k :: k in kws ==> !HasWholeWord(u, k)
    decreases |kws|
  {
    if kws != [] {
      var init := kws[..|kws| - 1];
      KeywordHitsEmpty(u, init);
      assert kws == init + [kws[|kws| - 1]];
    }
  }

  /** The screen passes iff no blocked keyword occurs as a whole word and there is no second statement. */
  lemma KeywordErrorsEmptyIff(sql: string)
    ensures KeywordErrors(sql) == [] <==>
      (forall k :: k in Registry.BlockedKeywords ==> !HasWholeWord(Upper(sql), k))
      && !MultipleStatements(sql)
  {
    KeywordHitsEmpty(Upper(sql), Registry.BlockedKeywords);
  }

  /** A second statement exists exactly when some semicolon is followed, somewhere later, by a non-space. */
  lemma MultipleStatementsIff(s: string)
    ensures MultipleStatements(s) <==>
      exists k, j :: 0 <= k < j < |s| && s[k] == ';' && !IsJsSpace(s[j])
  {
    match TrailingSemicolonFrom(s, 0)
    case Some(i) =>
      var t := s[..i];
      if ';' in t {
        var k :| 0 <= k < |t| && t[k] == ';';
        assert s[k] == ';' && !IsJsSpace(s[i]);
      }
      if exists k, j :: 0 <= k < j < |s| && s[k] == ';' && !IsJsSpace(s[j]) {
        var k, j :| 0 <= k < j < |s| && s[k] == ';' && !IsJsSpace(s[j]);
        assert t[k] == ';';
      }
    case None =>
      if ';' in s {
        var k :| 0 <= k < |s| && s[k] == ';';
        assert !AllJsSpace(s[k + 1..]);
        var m :| 0 <= m < |s[k + 1..]| && !IsJsSpace(s[k + 1..][m]);
        assert !IsJsSpace(s[k + 1 + m]);
      }
  }

  /** A single statement with one trailing semicolon and trailing whitespace passes the semicolon test. */
  lemma TrailingSemicolonAccepted(a: string, t: string)
    requires ';' !in a && AllJsSpace(t)
    ensures !MultipleStatements(a + ";" + t)
  {
    var s := a + ";" + t;
    MultipleStatementsIff(s);
  }

  /** Text after a semicolon that is not only whitespace makes a second statement. */
  lemma SecondStatementRejected(a: string, b: string, j: nat)
    requires j < |b| && !IsJsSpace(b[j])
    ensures MultipleStatements(a + ";" + b)
  {
    var s := a + ";" + b;
    assert s[|a|] == ';' && s[|a| + 1 + j] == b[j];
    MultipleStatementsIff(s);
  }

  /** A keyword glued to other word characters (`OFFSET`, `SET_CONFIG`) is no match, while a word on its own is. */
  lemma WholeWordExamples()
    ensures !HasWholeWord("OFFSET", "SET")
    ensures !HasWholeWord("SET_CONFIG", "SET")
    ensures HasWholeWord("UPDATE PERSON SET X", "SET")
  {
    assert WordAt("UPDATE PERSON SET X", "SET", 14);
    assert !WordAt("OFFSET", "SET", 3) by { assert WordCharAt("OFFSET", 2); }
    assert !WordAt("SET_CONFIG", "SET", 0) by { assert WordCharAt("SET_CONFIG", 3); }
  }
}
