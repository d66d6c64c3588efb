/** Optional values and results with an error payload, shared by every module. */
module Base {

  datatype Option<T> = None | Some(value: T)
  {
    function GetOr(default: T): T
    {
      if Some? then value else default
    }
  }

  /** A computation that either produces a value or raises an error carrying a message. */
  datatype Result<T> = Ok(value: T) | Err(message: string)

  /** A sequence without repeated elements: no element occurs again before its own position. */
  ghost predicate NoDup<T>(s: seq<T>)
    decreases |s|
  {
    s == [] || (s[|s| - 1] !in s[..|s| - 1] && NoDup(s[..|s| - 1]))
  }

  /** Appending an element not yet present keeps a sequence duplicate-free. */
  lemma NoDupSnoc<T>(s: seq<T>, x: T)
    requires NoDup(s) && x !in s
    ensures NoDup(s + [x])
  {
    assert (s + [x])[..|s|] == s;
  }

  /** No two positions of a duplicate-free sequence hold the same element. */
  lemma {:induction false} NoDupDistinctAt<T>(s: seq<T>, i: nat, j: nat)
    requires NoDup(s) && i < j < |s|
    ensures s[i] != s[j]
    decreases |s|
  {
    var init := s[..|s| - 1];
    if j < |s| - 1 {
      NoDupDistinctAt(init, i, j);
    } else {
      assert s[i] == init[i];
    }
  }

  /**
   * The distinct elements in order of first occurrence, as an insertion-ordered set
   * (`new Set(xs)` in JavaScript, `dict.fromkeys(xs)` in Python) keeps them.
   */
  function Distinct<T(==,!new)>(xs: seq<T>): (r: seq<T>)
    ensures forall x :: x in r <==> x in xs
    ensures |r| <= |xs|
  {
    if xs == [] then []
    else
      var d := Distinct(xs[..|xs| - 1]);
      if xs[|xs| - 1] in d then d else d + [xs[|xs| - 1]]
  }

  /** Each element is kept once. */
  lemma {:induction false} DistinctNoDup<T(!new)>(xs: seq<T>)
    ensures NoDup(Distinct(xs))
    decreases |xs|
  {
    if xs != [] {
      var d := Distinct(xs[..|xs| - 1]);
      DistinctNoDup(xs[..|xs| - 1]);
      if xs[|xs| - 1] !in d {
        NoDupSnoc(d, xs[|xs| - 1]);
      }
    }
  }

  /** The elements of a concatenation are those of its two parts. */
  lemma SetOfAppend<T>(a: seq<T>, b: seq<T>)
    ensures (set x | x in a + b) == (set x | x in a) + (set x | x in b)
  {
  }

  /** A duplicate-free sequence has as many elements as its set. */
  lemma {:induction false} NoDupCard<T(!new)>(s: seq<T>)
    requires NoDup(s)
    ensures |set x | x in s| == |s|
  {
    if s != [] {
      var init := s[..|s| - 1];
      NoDupCard(init);
      assert s == init + [s[|s| - 1]];
      assert s[|s| - 1] !in init;
      assert (set x | x in s) == (set x | x in init) + {s[|s| - 1]};
    }
  }

  /** `new Set(xs).size`: the number of different elements. */
  lemma DistinctCount<T(!new)>(xs: seq<T>)
    ensures |Distinct(xs)| == |set x | x in xs|
  {
    DistinctNoDup(xs);
    NoDupCard(Distinct(xs));
    assert (set x | x in Distinct(xs)) == (set x | x in xs);
  }

  /** Sum of a sequence of naturals. */
  function Sum(s: seq<nat>): nat
  {
    if s == [] then 0 else Sum(s[..|s| - 1]) + s[|s| - 1]
  }

  /** Concatenation of a sequence of sequences, in order. */
  function Flatten<T>(ss: seq<seq<T>>): seq<T>
  {
    if ss == [] then [] else Flatten(ss[..|ss| - 1]) + ss[|ss| - 1]
  }

  /** `s[start:start + size]` for a non-negative start: Python slicing clamps both ends. */
  function Window<T>(s: seq<T>, start: nat, size: nat): (r: seq<T>)
    ensures |r| <= size && r == s[Min(start, |s|)..Min(start + size, |s|)]
  {
    s[Min(start, |s|)..Min(start + size, |s|)]
  }

  /** The number of windows of `size` that cover `n` elements: the ceiling of `n / size`. */
  function WindowCount(n: nat, size: nat): (c: nat)
    requires size > 0
    ensures c * size >= n && (c == 0 || (c - 1) * size < n)
  {
    var c := (n + size - 1) / size;
    assert c * size + (n + size - 1) % size == n + size - 1;
    c
  }

  /** `[s[i:i + size] for i in range(0, len(s), size)]`: consecutive windows of `size` elements. */
  function Windows<T>(s: seq<T>, size: nat): (r: seq<seq<T>>)
    requires size > 0
    ensures |r| == WindowCount(|s|, size)
    ensures forall i :: 0 <= i < |r| ==> r[i] == Window(s, i * size, size)
  {
    seq(WindowCount(|s|, size), i requires 0 <= i < WindowCount(|s|, size) => Window(s, i * size, size))
  }

  /** Windows `0 .. |ws| - 1`, put back together, are the prefix of `s` they cover. */
  lemma {:induction false} WindowsPrefix<T>(s: seq<T>, size: nat, ws: seq<seq<T>>)
    requires size > 0
    requires forall i :: 0 <= i < |ws| ==> ws[i] == Window(s, i * size, size)
    ensures Flatten(ws) == s[..Min(|ws| * size, |s|)]
    decreases |ws|
  {
    if ws != [] {
      var m := |ws|;
      WindowsPrefix(s, size, ws[..m - 1]);
      LastWindow(s, size, m);
      MulMonotone(m - 1, m, size);
      FlattenThenSlice(ws, s, Min((m - 1) * size, |s|), Min(m * size, |s|));
    }
  }

  /** A last piece that continues a flattened prefix extends the prefix. */
  lemma FlattenThenSlice<T>(ws: seq<seq<T>>, s: seq<T>, a: nat, b: nat)
    requires ws != [] && a <= b <= |s|
    requires Flatten(ws[..|ws| - 1]) == s[..a] && ws[|ws| - 1] == s[a..b]
    ensures Flatten(ws) == s[..b]
  {
    PrefixThenSlice(s, a, b);
  }

  /** Window `m - 1` runs from the end of the first `m - 1` windows to the end of the first `m`. */
  lemma LastWindow<T>(s: seq<T>, size: nat, m: nat)
    requires m > 0
    ensures Window(s, (m - 1) * size, size) == s[Min((m - 1) * size, |s|)..Min(m * size, |s|)]
  {
    assert m * size == (m - 1) * size + size;
  }

  lemma PrefixThenSlice<T>(s: seq<T>, a: nat, b: nat)
    requires a <= b <= |s|
    ensures s[..a] + s[a..b] == s[..b]
  {
  }

  lemma AppendAssoc<T>(x: seq<T>, y: seq<T>, z: seq<T>)
    ensures (x + y) + z == x + (y + z)
  {
  }

  /** Dropping the last element of `a + b` drops the last element of `b`. */
  lemma InitOfAppend<T>(a: seq<T>, b: seq<T>)
    requires b != []
    ensures (a + b)[..|a + b| - 1] == a + b[..|b| - 1] && (a + b)[|a + b| - 1] == b[|b| - 1]
  {
  }

  lemma MulMonotone(a: nat, b: nat, size: nat)
    requires a <= b
    ensures a * size <= b * size
  {
    assert b * size == a * size + (b - a) * size;
  }

  /** The windows put back together are the sequence: nothing is lost, repeated or reordered. */
  lemma WindowsFlatten<T>(s: seq<T>, size: nat)
    requires size > 0
    ensures Flatten(Windows(s, size)) == s
  {
    WindowsPrefix(s, size, Windows(s, size));
  }

  /** Every window is non-empty and every one but the last holds exactly `size` elements. */
  lemma WindowsFull<T>(s: seq<T>, size: nat)
    requires size > 0
    ensures var r := Windows(s, size);
      (forall i :: 0 <= i < |r| ==> 0 < |r[i]| <= size)
      && (forall i :: 0 <= i < |r| - 1 ==> |r[i]| == size)
  {
    var r := Windows(s, size);
    forall i | 0 <= i < |r| ensures 0 < |r[i]| <= size && (i < |r| - 1 ==> |r[i]| == size) {
      WindowSize(s, size, |r|, i);
    }
  }

  lemma WindowSize<T>(s: seq<T>, size: nat, c: nat, i: nat)
    requires size > 0 && c == WindowCount(|s|, size) && i < c
    ensures 0 < |Window(s, i * size, size)| <= size
    ensures i < c - 1 ==> |Window(s, i * size, size)| == size
  {
    MulMonotone(i, c - 1, size);
    if i < c - 1 {
      MulMonotone(i + 1, c - 1, size);
      assert (i + 1) * size == i * size + size;
    }
  }

  function Min(a: int, b: int): int { if a <= b then a else b }

  function Max(a: int, b: int): int { if a >= b then a else b }

  /** 2^k. */
  function Pow2(k: nat): nat
    ensures Pow2(k) >= 1
  {
    if k == 0 then 1 else 2 * Pow2(k - 1)
  }
}
