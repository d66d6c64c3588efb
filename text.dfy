/**
 * Character and string operations of JavaScript and Python that the modelled code relies on:
 * ASCII case mapping, the two languages' whitespace classes, trimming, searching, joining and
 * splitting, and decimal rendering of naturals.
 */
module Text {
  import opened Base

  // ---------------------------------------------------------------------------
  // Character classes
  // ---------------------------------------------------------------------------

  predicate IsAsciiUpper(c: char) { 'A' <= c <= 'Z' }

  predicate IsAsciiLower(c: char) { 'a' <= c <= 'z' }

  predicate IsDigit(c: char) { '0' <= c <= '9' }

  /** The class `\w` of a non-unicode JavaScript regular expression, which also decides `\b`. */
  predicate IsWordChar(c: char)
  {
    IsAsciiUpper(c) || IsAsciiLower(c) || IsDigit(c) || c == '_'
  }

  /** JavaScript's WhiteSpace and LineTerminator characters: `\s` in a regular expression and what `trim` removes. */
  predicate IsJsSpace(c: char)
  {
    var n := c as int;
    (9 <= n <= 13) || n == 32 || n == 0xA0 || n == 0x1680 || (0x2000 <= n <= 0x200A)
    || n == 0x2028 || n == 0x2029 || n == 0x202F || n == 0x205F || n == 0x3000 || n == 0xFEFF
  }

  /** Python's `str.isspace` characters: what `str.strip()` removes. */
  predicate IsPySpace(c: char)
  {
    var n := c as int;
    (9 <= n <= 13) || (0x1C <= n <= 0x20) || n == 0x85 || n == 0xA0 || n == 0x1680
    || (0x2000 <= n <= 0x200A) || n == 0x2028 || n == 0x2029 || n == 0x202F || n == 0x205F
    || n == 0x3000
  }

  // ---------------------------------------------------------------------------
  // Case mapping (ASCII letters only)
  // ---------------------------------------------------------------------------

  function LowerChar(c: char): char
  {
    if IsAsciiUpper(c) then (c as int + 32) as char else c
  }

  function UpperChar(c: char): char
  {
    if IsAsciiLower(c) then (c as int - 32) as char else c
  }

  /** `toLowerCase()` / `str.lower()` restricted to ASCII letters. */
  function Lower(s: string): (r: string)
    ensures |r| == |s|
  {
    seq(|s|, i requires 0 <= i < |s| => LowerChar(s[i]))
  }

  /** `toUpperCase()` restricted to ASCII letters. */
  function Upper(s: string): (r: string)
    ensures |r| == |s|
  {
    seq(|s|, i requires 0 <= i < |s| => UpperChar(s[i]))
  }

  lemma LowerIdempotent(s: string)
    ensures Lower(Lower(s)) == Lower(s)
  {
  }

  /** A string without upper-case ASCII letters is its own lower-case form. */
  lemma LowerUnchanged(s: string)
    requires forall i :: 0 <= i < |s| ==> !IsAsciiUpper(s[i])
    ensures Lower(s) == s
  {
  }

  lemma LowerAppend(a: string, b: string)
    ensures Lower(a + b) == Lower(a) + Lower(b)
  {
  }

  // ---------------------------------------------------------------------------
  // Prefixes, suffixes and search
  // ---------------------------------------------------------------------------

  predicate StartsWith(s: string, p: string)
  {
    |p| <= |s| && s[..|p|] == p
  }

  predicate EndsWith(s: string, p: string)
  {
    |p| <= |s| && s[|s| - |p|..] == p
  }

  /** Whether `sub` occurs in `s` starting at position `i`. */
  predicate OccursAt(s: string, sub: string, i: int)
  {
    0 <= i && i + |sub| <= |s| && s[i..i + |sub|] == sub
  }

  /** The first position at or after `from` where `sub` occurs. */
  function IndexOfFrom(s: string, sub: string, from: nat): (r: Option<nat>)
    ensures r.Some? ==> from <= r.value && OccursAt(s, sub, r.value)
    ensures r.Some? ==> forall k :: from <= k < r.value ==> !OccursAt(s, sub, k)
    ensures r.None? ==> forall k :: from <= k ==> !OccursAt(s, sub, k)
    decreases |s| - from
  {
    if from + |sub| > |s| then None
    else if s[from..from + |sub|] == sub then Some(from)
    else IndexOfFrom(s, sub, from + 1)
  }

  /** An occurrence with none before it, from `from` on, is what the search finds. */
  lemma {:induction false} IndexOfFromIs(s: string, sub: string, from: nat, j: nat)
    requires from <= j && OccursAt(s, sub, j)
    requires forall k :: from <= k < j ==> !OccursAt(s, sub, k)
    ensures IndexOfFrom(s, sub, from) == Some(j)
    decreases j - from
  {
    if from < j {
      assert !OccursAt(s, sub, from);
      IndexOfFromIs(s, sub, from + 1, j);
    }
  }

  /** `s.includes(sub)` / Python's `sub in s`. */
  predicate Contains(s: string, sub: string)
  {
    IndexOfFrom(s, sub, 0).Some?
  }

  lemma ContainsIff(s: string, sub: string)
    ensures Contains(s, sub) <==> exists k :: OccursAt(s, sub, k)
  {
    var r := IndexOfFrom(s, sub, 0);
    if r.Some? {
      assert OccursAt(s, sub, r.value);
    }
  }

  /** A string contains `p` exactly when `p` starts it or its tail contains `p`. */
  lemma ContainsCons(s: string, p: string)
    requires s != []
    ensures Contains(s, p) <==> OccursAt(s, p, 0) || Contains(s[1..], p)
  {
    ContainsIff(s, p);
    ContainsIff(s[1..], p);
    if Contains(s, p) {
      var k :| OccursAt(s, p, k);
      if k > 0 {
        assert s[k..k + |p|] == s[1..][k - 1..k - 1 + |p|];
        assert OccursAt(s[1..], p, k - 1);
      }
    }
    if Contains(s[1..], p) {
      var k :| OccursAt(s[1..], p, k);
      assert s[k + 1..k + 1 + |p|] == s[1..][k..k + |p|];
      assert OccursAt(s, p, k + 1);
    }
  }

  /** A string occurs in anything built around it. */
  lemma ContainsInfix(a: string, k: string, b: string)
    ensures Contains(a + k + b, k)
  {
    var s := a + k + b;
    assert s[|a|..|a| + |k|] == k;
    assert OccursAt(s, k, |a|);
    ContainsIff(s, k);
  }

  /** A text that starts with `a + b` starts with `a`. */
  lemma StartsWithFront(s: string, a: string, b: string)
    requires StartsWith(s, a + b)
    ensures StartsWith(s, a)
  {
    assert s[..|a|] == s[..|a + b|][..|a|];
  }

  /** A text that ends with `b`, where `b` ends with `t`, ends with `t`. */
  lemma EndsWithEnd(s: string, b: string, t: string)
    requires EndsWith(s, b) && EndsWith(b, t)
    ensures EndsWith(s, t)
  {
    assert s[|s| - |t|..] == s[|s| - |b|..][|b| - |t|..];
  }

  /** A string built from three parts starts with the first and ends with the last. */
  lemma StartsAndEnds(a: string, k: string, b: string)
    ensures StartsWith(a + k + b, a) && EndsWith(a + k + b, b)
  {
    var s := a + k + b;
    assert s[..|a|] == a;
    assert s[|s| - |b|..] == b;
  }

  /** Containment survives putting text around the container. */
  lemma ContainsWithin(a: string, s: string, b: string, k: string)
    requires Contains(s, k)
    ensures Contains(a + s + b, k)
  {
    ContainsIff(s, k);
    var i :| OccursAt(s, k, i);
    var t := a + s + b;
    assert t[|a| + i..|a| + i + |k|] == s[i..i + |k|];
    assert OccursAt(t, k, |a| + i);
    ContainsIff(t, k);
  }

  /** A string does not contain anything that starts with a character it lacks. */
  lemma AbsentLeadNotContained(s: string, sub: string)
    requires sub != [] && sub[0] !in s
    ensures !Contains(s, sub)
  {
    ContainsIff(s, sub);
  }

  /** First index of a character. */
  function IndexOfChar(s: string, c: char): (r: Option<nat>)
    ensures r.Some? ==> r.value < |s| && s[r.value] == c && c !in s[..r.value]
    ensures r.None? <==> c !in s
  {
    if s == [] then None
    else if s[0] == c then Some(0)
    else match IndexOfChar(s[1..], c)
      case None => None
      case Some(k) => assert s[1..][..k] == s[1..k + 1]; Some(k + 1)
  }

  /** Last index of a character. */
  function LastIndexOfChar(s: string, c: char): (r: Option<nat>)
    ensures r.Some? ==> r.value < |s| && s[r.value] == c && c !in s[r.value + 1..]
    ensures r.None? <==> c !in s
  {
    if s == [] then None
    else if s[|s| - 1] == c then Some(|s| - 1)
    else match LastIndexOfChar(s[..|s| - 1], c)
      case None => None
      case Some(k) => Some(k)
  }

  // ---------------------------------------------------------------------------
  // Trimming
  // ---------------------------------------------------------------------------

  /** The position of the first character at or after `i` that is not a space; `|s|` when there is none. */
  function SpacesFrom(s: string, isSpace: char -> bool, i: nat): (j: nat)
    requires i <= |s|
    ensures i <= j <= |s|
    ensures forall k :: i <= k < j ==> isSpace(s[k])
    ensures j < |s| ==> !isSpace(s[j])
    decreases |s| - i
  {
    if i < |s| && isSpace(s[i]) then SpacesFrom(s, isSpace, i + 1) else i
  }

  /** The position just after the last character before `j` that is not a space; 0 when there is none. */
  function SpacesBefore(s: string, isSpace: char -> bool, j: nat): (i: nat)
    requires j <= |s|
    ensures i <= j
    ensures forall k :: i <= k < j ==> isSpace(s[k])
    ensures i > 0 ==> !isSpace(s[i - 1])
    decreases j
  {
    if j > 0 && isSpace(s[j - 1]) then SpacesBefore(s, isSpace, j - 1) else j
  }

  function TrimStart(s: string, isSpace: char -> bool): (r: string)
    ensures |r| <= |s|
    ensures r != [] ==> !isSpace(r[0])
  {
    s[SpacesFrom(s, isSpace, 0)..]
  }

  /** `TrimStart` keeps a suffix. */
  lemma TrimStartSuffix(s: string, isSpace: char -> bool)
    ensures TrimStart(s, isSpace) == s[|s| - |TrimStart(s, isSpace)|..]
  {
  }

  /** Everything `TrimStart` removes is space. */
  lemma TrimStartRemovesSpaces(s: string, isSpace: char -> bool)
    ensures forall k :: 0 <= k < |s| - |TrimStart(s, isSpace)| ==> isSpace(s[k])
  {
  }

  function TrimEnd(s: string, isSpace: char -> bool): (r: string)
    ensures |r| <= |s|
    ensures r != [] ==> !isSpace(r[|r| - 1])
  {
    s[..SpacesBefore(s, isSpace, |s|)]
  }

  /** `TrimEnd` keeps a prefix. */
  lemma TrimEndPrefix(s: string, isSpace: char -> bool)
    ensures TrimEnd(s, isSpace) == s[..|TrimEnd(s, isSpace)|]
  {
  }

  /** Everything `TrimEnd` removes is space. */
  lemma TrimEndRemovesSpaces(s: string, isSpace: char -> bool)
    ensures forall k :: |TrimEnd(s, isSpace)| <= k < |s| ==> isSpace(s[k])
  {
  }

  /** Removes leading and trailing characters of the given class. */
  function Trim(s: string, isSpace: char -> bool): string
  {
    TrimEnd(TrimStart(s, isSpace), isSpace)
  }

  /** Trimming leaves no space at either end and removes only spaces. */
  lemma TrimEnds(s: string, isSpace: char -> bool)
    ensures var r := Trim(s, isSpace);
      (r != [] ==> !isSpace(r[0]) && !isSpace(r[|r| - 1]))
      && (r == [] ==> forall k :: 0 <= k < |s| ==> isSpace(s[k]))
  {
    var t := TrimStart(s, isSpace);
    var r := TrimEnd(t, isSpace);
    TrimStartRemovesSpaces(s, isSpace);
    TrimEndRemovesSpaces(t, isSpace);
    TrimStartSuffix(s, isSpace);
    TrimEndPrefix(t, isSpace);
    if r != [] {
      assert r[0] == t[0];
    }
  }

  /** One leading space before a non-space is removed, and nothing else. */
  lemma TrimStartOne(c: char, s: string, isSpace: char -> bool)
    requires isSpace(c) && s != [] && !isSpace(s[0])
    ensures TrimStart([c] + s, isSpace) == s
  {
    var t := [c] + s;
    assert t[1] == s[0];
    assert SpacesFrom(t, isSpace, 1) == 1;
    assert SpacesFrom(t, isSpace, 0) == 1;
    assert t[1..] == s;
  }

  /** One trailing space after a non-space is removed, and nothing else. */
  lemma TrimEndOne(s: string, c: char, isSpace: char -> bool)
    requires isSpace(c) && s != [] && !isSpace(s[|s| - 1])
    ensures TrimEnd(s + [c], isSpace) == s
  {
    var t := s + [c];
    assert t[|s| - 1] == s[|s| - 1] && t[|s|] == c;
    assert SpacesBefore(t, isSpace, |s|) == |s|;
    assert SpacesBefore(t, isSpace, |t|) == |s|;
    assert t[..|s|] == s;
  }

  /** A string made only of spaces trims to nothing. */
  lemma TrimAllSpaces(s: string, isSpace: char -> bool)
    requires forall k :: 0 <= k < |s| ==> isSpace(s[k])
    ensures Trim(s, isSpace) == []
  {
    var t := TrimStart(s, isSpace);
    TrimStartSuffix(s, isSpace);
  }

  lemma TrimIdempotent(s: string, isSpace: char -> bool)
    ensures Trim(Trim(s, isSpace), isSpace) == Trim(s, isSpace)
  {
    TrimEnds(s, isSpace);
  }

  /** A string with no space at either end is its own trim. */
  lemma TrimUnchanged(s: string, isSpace: char -> bool)
    requires s != [] && !isSpace(s[0]) && !isSpace(s[|s| - 1])
    ensures Trim(s, isSpace) == s
  {
    assert TrimStart(s, isSpace) == s;
  }

  /** JavaScript `String.prototype.trim`. */
  function TrimJs(s: string): string { Trim(s, IsJsSpace) }

  /** Python `str.strip()`. */
  function StripPy(s: string): string { Trim(s, IsPySpace) }

  // ---------------------------------------------------------------------------
  // Joining and splitting
  // ---------------------------------------------------------------------------

  /** `parts.join(sep)` / `sep.join(parts)`. */
  function Join(parts: seq<string>, sep: string): string
  {
    if parts == [] then ""
    else if |parts| == 1 then parts[0]
    else Join(parts[..|parts| - 1], sep) + sep + parts[|parts| - 1]
  }

  /** A joined text starts with its first part. */
  lemma {:induction false} JoinStartsWith(parts: seq<string>, sep: string)
    requires parts != []
    ensures StartsWith(Join(parts, sep), parts[0])
  {
    if |parts| > 1 {
      var init := parts[..|parts| - 1];
      JoinStartsWith(init, sep);
      assert init[0] == parts[0];
      var j := Join(init, sep);
      assert (j + sep + parts[|parts| - 1])[..|parts[0]|] == j[..|parts[0]|];
    }
  }

  /** Every part occurs in the joined text. */
  lemma {:induction false} JoinContainsPart(parts: seq<string>, sep: string, i: nat)
    requires i < |parts|
    ensures Contains(Join(parts, sep), parts[i])
  {
    if |parts| == 1 {
      ContainsInfix("", parts[0], "");
      assert "" + parts[0] + "" == parts[0];
    } else if i == |parts| - 1 {
      ContainsInfix(Join(parts[..i], sep) + sep, parts[i], "");
      assert Join(parts[..i], sep) + sep + parts[i] + "" == Join(parts, sep);
    } else {
      var init := parts[..|parts| - 1];
      JoinContainsPart(init, sep, i);
      assert init[i] == parts[i];
      ContainsWithin("", Join(init, sep), sep + parts[|parts| - 1], parts[i]);
      assert "" + Join(init, sep) + (sep + parts[|parts| - 1]) == Join(parts, sep);
    }
  }

  /** Python `s.split(c)` for a one-character separator: every piece, empty ones included. */
  function Split(s: string, c: char): (r: seq<string>)
    ensures |r| >= 1
    ensures forall k :: 0 <= k < |r| ==> c !in r[k]
  {
    match IndexOfChar(s, c)
    case None => [s]
    case Some(i) => [s[..i]] + Split(s[i + 1..], c)
  }

  lemma JoinCons(p: string, ps: seq<string>, sep: string)
    requires ps != []
    ensures Join([p] + ps, sep) == p + sep + Join(ps, sep)
    decreases |ps|
  {
    if |ps| == 1 {
      assert [p] + ps == [p, ps[0]];
      assert ([p] + ps)[..1] == [p];
    } else {
      var q := ([p] + ps)[..|ps|];
      assert q == [p] + ps[..|ps| - 1];
      JoinCons(p, ps[..|ps| - 1], sep);
    }
  }

  /** Splitting at a character and joining the pieces back with it gives back the string. */
  lemma {:induction false} JoinSplit(s: string, c: char)
    ensures Join(Split(s, c), [c]) == s
    decreases |s|
  {
    match IndexOfChar(s, c)
    case None =>
      assert Split(s, c) == [s];
    case Some(i) =>
      var rest := Split(s[i + 1..], c);
      assert Split(s, c) == [s[..i]] + rest;
      JoinSplit(s[i + 1..], c);
      JoinCons(s[..i], rest, [c]);
      SplitAround(s, i);
  }

  /** A string is what comes before position `i`, the character there, and what comes after. */
  lemma SplitAround(s: string, i: nat)
    requires i < |s|
    ensures s == s[..i] + [s[i]] + s[i + 1..]
  {
  }

  /** The first `c` in `a + [c] + b` is the one after `a` when `a` has none. */
  lemma FirstCharAt(a: string, c: char, b: string)
    requires c !in a
    ensures IndexOfChar(a + [c] + b, c) == Some(|a|)
  {
    var s := a + [c] + b;
    assert s[|a|] == c;
    assert s[..|a|] == a;
  }

  /** Joining pieces free of `c` with it and splitting at `c` gives back the pieces. */
  lemma {:induction false} SplitJoin(parts: seq<string>, c: char)
    requires parts != [] && forall k :: 0 <= k < |parts| ==> c !in parts[k]
    ensures Split(Join(parts, [c]), c) == parts
    decreases |parts|
  {
    if |parts| > 1 {
      var rest := parts[1..];
      assert parts == [parts[0]] + rest;
      JoinCons(parts[0], rest, [c]);
      FirstCharAt(parts[0], c, Join(rest, [c]));
      var s := Join(parts, [c]);
      assert s[..|parts[0]|] == parts[0];
      assert s[|parts[0]| + 1..] == Join(rest, [c]);
      SplitJoin(rest, c);
    } else {
      assert c !in parts[0];
    }
  }

  /** Python `s.split(c, 1)`: the text before the first `c` and, when there is one, the text after it. */
  function SplitOnce(s: string, c: char): (r: (string, Option<string>))
    ensures r.1.None? ==> r.0 == s && c !in s
    ensures r.1.Some? ==> s == r.0 + [c] + r.1.value && c !in r.0
  {
    match IndexOfChar(s, c)
    case None => (s, None)
    case Some(i) => assert s == s[..i] + [c] + s[i + 1..]; (s[..i], Some(s[i + 1..]))
  }

  // ---------------------------------------------------------------------------
  // Decimal numbers
  // ---------------------------------------------------------------------------

  function DigitChar(d: nat): char
    requires d < 10
  {
    ('0' as int + d) as char
  }

  /** The decimal rendering of a natural, as template literals and f-strings print it. */
  function NatToString(n: nat): (r: string)
    ensures r != [] && forall k :: 0 <= k < |r| ==> IsDigit(r[k])
    ensures n > 0 ==> r[0] != '0'
    decreases n
  {
    if n < 10 then [DigitChar(n)] else NatToString(n / 10) + [DigitChar(n % 10)]
  }

  function DigitValue(c: char): nat
    requires IsDigit(c)
  {
    c as int - '0' as int
  }

  /** Reads a string of decimal digits. */
  function DigitsValue(s: string): nat
    requires forall k :: 0 <= k < |s| ==> IsDigit(s[k])
  {
    if s == [] then 0 else 10 * DigitsValue(s[..|s| - 1]) + DigitValue(s[|s| - 1])
  }

  /** Rendering is inverted by reading the digits back, so distinct numbers print differently. */
  lemma {:induction false} NatToStringRoundTrip(n: nat)
    ensures DigitsValue(NatToString(n)) == n
    decreases n
  {
    if n >= 10 {
      NatToStringRoundTrip(n / 10);
      var r := NatToString(n);
      assert r[..|r| - 1] == NatToString(n / 10);
    }
  }

  /** A signed integer rendered as JavaScript's `String(n)` does. */
  function IntToString(n: int): string
  {
    if n < 0 then "-" + NatToString(-n) else NatToString(n)
  }
}
