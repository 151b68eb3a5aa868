/** List operations with Python's semantics: slicing and order-preserving de-duplication. */
module Seqs {

  /** Python's reading of a slice bound: negative counts from the end, then clamped to the list. */
  function SliceIndex(i: int, len: nat): (r: nat)
    ensures r <= len
    ensures 0 <= i <= len ==> r == i
    ensures i > len ==> r == len
    ensures -(len as int) <= i < 0 ==> r == len + i
    ensures i < -(len as int) ==> r == 0
  {
    if i < 0 then (if i + len < 0 then 0 else i + len)
    else if i > len then len
    else i
  }

  /** Python `s[start:stop]`. */
  function Slice<T>(s: seq<T>, start: int, stop: int): (r: seq<T>)
    ensures |r| <= |s|
    ensures var lo := SliceIndex(start, |s|); var hi := SliceIndex(stop, |s|);
            r == if lo <= hi then s[lo..hi] else []
  {
    var lo := SliceIndex(start, |s|);
    var hi := SliceIndex(stop, |s|);
    if lo <= hi then s[lo..hi] else []
  }

  /** Python `s[:n]` / JavaScript `s.slice(0, n)` for `n >= 0`. */
  function Take<T>(s: seq<T>, n: nat): (r: seq<T>)
    ensures |r| == (if n < |s| then n else |s|)
    ensures r == s[..|r|]
  {
    if n < |s| then s[..n] else s
  }

  predicate NoDup<T(==)>(s: seq<T>) {
    forall i, j :: 0 <= i < j < |s| ==> s[i] != s[j]
  }

  /** Keeps exactly the first occurrence of every element, in input order. */
  function Dedup<T(==)>(s: seq<T>): (r: seq<T>)
    decreases |s|
  {
    if s == [] then []
    else if s[|s| - 1] in s[..|s| - 1] then Dedup(s[..|s| - 1])
    else Dedup(s[..|s| - 1]) + [s[|s| - 1]]
  }

  /** De-duplication keeps every element and loses none. */
  lemma {:induction false} DedupElements<T>(s: seq<T>)
    ensures forall x :: x in Dedup(s) <==> x in s
    decreases |s|
  {
    if s != [] {
      DedupElements(s[..|s| - 1]);
      assert s == s[..|s| - 1] + [s[|s| - 1]];
    }
  }

  /** De-duplication leaves no element twice. */
  lemma {:induction false} DedupNoDup<T>(s: seq<T>)
    ensures NoDup(Dedup(s))
    decreases |s|
  {
    if s != [] {
      DedupNoDup(s[..|s| - 1]);
      DedupElements(s[..|s| - 1]);
    }
  }

  /** A list without repeats is its own de-duplication. */
  lemma {:induction false} DedupOfNoDup<T>(s: seq<T>)
    requires NoDup(s)
    ensures Dedup(s) == s
    decreases |s|
  {
    if s != [] {
      var init := s[..|s| - 1];
      assert NoDup(init);
      assert s[|s| - 1] !in init;
      DedupOfNoDup(init);
      assert s == init + [s[|s| - 1]];
    }
  }

  /** Extending the input by one element extends the output by it exactly when it is new. */
  lemma DedupSnoc<T>(s: seq<T>, x: T)
    ensures Dedup(s + [x]) == if x in s then Dedup(s) else Dedup(s) + [x]
  {
    assert (s + [x])[..|s|] == s;
  }

  /** Position of the first occurrence of `x` (Python `s.index(x)`). */
  function FirstIndex<T(==)>(s: seq<T>, x: T): (i: nat)
    requires x in s
    ensures i < |s| && s[i] == x && x !in s[..i]
  {
    if s[0] == x then 0
    else
      var j := FirstIndex(s[1..], x);
      assert s[..j + 1] == [s[0]] + s[1..][..j];
      j + 1
  }

  /** The first position holding `x` is where `FirstIndex` stops. */
  lemma {:induction false} FirstIndexAt<T>(s: seq<T>, x: T, i: nat)
    requires i < |s| && s[i] == x && x !in s[..i]
    ensures FirstIndex(s, x) == i
    decreases i
  {
    if i > 0 {
      assert s[0] != x by { assert s[0] == s[..i][0]; }
      assert s[1..][..i - 1] == s[..i][1..];
      FirstIndexAt(s[1..], x, i - 1);
    }
  }
  /** Appending keeps every element, and never moves the first occurrence of one already present. */
  lemma FirstIndexSnoc<T>(s: seq<T>, x: T, y: T)
    requires y in s
    ensures y in s + [x] && FirstIndex(s + [x], y) == FirstIndex(s, y)
  {
    assert (s + [x])[..|s|] == s;
  }

  /** The elements of `r` appear in `s` in the order of their first occurrences. */
  predicate FirstOccurrenceOrder<T(==)>(r: seq<T>, s: seq<T>) {
    forall i, j :: 0 <= i < j < |r| ==> r[i] in s && r[j] in s && FirstIndex(s, r[i]) < FirstIndex(s, r[j])
  }

  lemma DedupMember<T>(s: seq<T>, i: nat)
    requires i < |Dedup(s)|
    ensures Dedup(s)[i] in s
  {
    DedupElements(s);
    assert Dedup(s)[i] in Dedup(s);
  }

  lemma DedupOrderSnoc<T>(init: seq<T>, x: T)
    requires FirstOccurrenceOrder(Dedup(init), init)
    ensures FirstOccurrenceOrder(Dedup(init + [x]), init + [x])
  {
    var s := init + [x];
    var r0 := Dedup(init);
    DedupSnoc(init, x);
    var r := Dedup(s);
    assert r[..|r0|] == r0;
    forall i, j | 0 <= i < j < |r|
      ensures r[i] in s && r[j] in s && FirstIndex(s, r[i]) < FirstIndex(s, r[j])
    {
      DedupMember(init, i);
      FirstIndexSnoc(init, x, r0[i]);
      if j < |r0| {
        DedupMember(init, j);
        FirstIndexSnoc(init, x, r0[j]);
      } else {
        assert r[j] == x && x !in init;
        assert s[|init|] == x && x !in s[..|init|];
      }
    }
  }

  /** De-duplication lists elements in the order of their first occurrences. */
  lemma {:induction false} DedupOrder<T>(s: seq<T>)
    ensures FirstOccurrenceOrder(Dedup(s), s)
    decreases |s|
  {
    if s != [] {
      DedupOrder(s[..|s| - 1]);
      DedupOrderSnoc(s[..|s| - 1], s[|s| - 1]);
      assert s == s[..|s| - 1] + [s[|s| - 1]];
    }
  }

  /** `s` without any occurrence of `x`, the rest in order (JavaScript `s.filter(y => y !== x)`). */
  function RemoveAll<T(==)>(s: seq<T>, x: T): (r: seq<T>)
    ensures |r| <= |s|
    ensures forall y :: y in r ==> y in s && y != x
    ensures forall y :: y in s && y != x ==> y in r
  {
    if s == [] then []
    else
      var init := s[..|s| - 1];
      assert s == init + [s[|s| - 1]];
      RemoveAll(init, x) + (if s[|s| - 1] == x then [] else [s[|s| - 1]])
  }

  /** Removing an absent element changes nothing. */
  lemma {:induction false} RemoveAllAbsent<T>(s: seq<T>, x: T)
    requires x !in s
    ensures RemoveAll(s, x) == s
    decreases |s|
  {
    if s != [] {
      RemoveAllAbsent(s[..|s| - 1], x);
      assert s == s[..|s| - 1] + [s[|s| - 1]];
    }
  }

  /** Removing `x` from a list that starts with it and holds it nowhere else leaves the rest. */
  lemma {:induction false} RemoveAllHead<T>(x: T, rest: seq<T>)
    requires x !in rest
    ensures RemoveAll([x] + rest, x) == rest
    decreases |rest|
  {
    if rest == [] {
      assert RemoveAll([x], x) == RemoveAll([], x) + [];
    } else {
      var init := rest[..|rest| - 1];
      RemoveAllHead(x, init);
      assert ([x] + rest)[..|rest|] == [x] + init;
      assert rest == init + [rest[|rest| - 1]];
    }
  }

  lemma NotInPrefix<T>(s: seq<T>, k: nat, x: T)
    requires x !in s && k <= |s|
    ensures x !in s[..k]
  {
  }

  /**
   * A most-recently-used list after using `x`: `x` first, then the earlier
   * entries other than `x` in their order, keeping at most `max`.
   */
  function PushRecent<T(==)>(s: seq<T>, x: T, max: nat): (r: seq<T>)
    requires max >= 1
    ensures 1 <= |r| <= max
    ensures r[0] == x && x !in r[1..]
    ensures r[1..] == Take(RemoveAll(s, x), max - 1)
    ensures forall y :: y in r ==> y == x || y in s
  {
    var rest := RemoveAll(s, x);
    var r := Take([x] + rest, max);
    assert r[1..] == Take(rest, max - 1);
    NotInPrefix(rest, |r| - 1, x);
    r
  }

  /** Using the same element twice in a row leaves the list as using it once. */
  lemma PushRecentTwice<T>(s: seq<T>, x: T, max: nat)
    requires max >= 1
    ensures PushRecent(PushRecent(s, x, max), x, max) == PushRecent(s, x, max)
  {
    var r := PushRecent(s, x, max);
    assert r == [x] + r[1..];
    RemoveAllHead(x, r[1..]);
  }

  /** Extending a prefix by one element. */
  lemma PrefixSnoc<T>(s: seq<T>, k: nat)
    requires k < |s|
    ensures s[..k + 1] == s[..k] + [s[k]]
  {
  }

  /** The results of `f` on each element, concatenated in order. */
  function FlatMap<S, T>(f: S -> seq<T>, s: seq<S>): seq<T> {
    if s == [] then [] else FlatMap(f, s[..|s| - 1]) + f(s[|s| - 1])
  }

  lemma FlatMapSnoc<S, T>(f: S -> seq<T>, s: seq<S>, x: S)
    ensures FlatMap(f, s + [x]) == FlatMap(f, s) + f(x)
  {
    assert (s + [x])[..|s|] == s;
  }

  /** The results of `f` on each element and its number counted from `first`, concatenated in order. */
  function FlatMapFrom<S, T>(f: (S, nat) -> seq<T>, s: seq<S>, first: nat): seq<T> {
    if s == [] then [] else FlatMapFrom(f, s[..|s| - 1], first) + f(s[|s| - 1], first + |s| - 1)
  }

  lemma FlatMapFromPrefix<S, T>(f: (S, nat) -> seq<T>, s: seq<S>, k: nat, first: nat)
    requires k < |s|
    ensures FlatMapFrom(f, s[..k + 1], first) == FlatMapFrom(f, s[..k], first) + f(s[k], first + k)
  {
    assert s[..k + 1][..k] == s[..k];
  }

  /** Mapping over a concatenation concatenates the results. */
  lemma {:induction false} FlatMapAppend<S, T>(f: S -> seq<T>, a: seq<S>, b: seq<S>)
    ensures FlatMap(f, a + b) == FlatMap(f, a) + FlatMap(f, b)
    decreases |b|
  {
    if b == [] {
      assert a + b == a;
    } else {
      FlatMapAppend(f, a, b[..|b| - 1]);
      assert (a + b)[..|a + b| - 1] == a + b[..|b| - 1];
    }
  }

  /** `[f(first), f(first + 1), ..., f(first + n - 1)]`. */
  function Range<T>(f: nat -> T, first: nat, n: nat): (r: seq<T>)
    ensures |r| == n
  {
    if n == 0 then [] else Range(f, first, n - 1) + [f(first + n - 1)]
  }

  /** Appending the next value of `f` extends the range by one. */
  lemma RangeAppend<T>(f: nat -> T, first: nat, s: seq<T>, n: nat, x: T)
    requires s == Range(f, first, |s|) && n == first + |s| && x == f(n)
    ensures s + [x] == Range(f, first, |s| + 1)
  {
  }

  /** The `k`-th element of a range is `f(first + k)`. */
  lemma {:induction false} RangeAt<T>(f: nat -> T, first: nat, n: nat, k: nat)
    requires k < n
    ensures Range(f, first, n)[k] == f(first + k)
    decreases n
  {
    if k < n - 1 {
      RangeAt(f, first, n - 1, k);
    }
  }

  lemma MulMonotone(a: nat, b: nat, m: nat)
    requires a <= b
    ensures a * m <= b * m
  {
    assert b * m - a * m == (b - a) * m;
  }

  /** When every block has `m` elements, the result has `m` per input element. */
  lemma {:induction false} FlatMapLength<S, T>(f: S -> seq<T>, s: seq<S>, m: nat)
    requires forall x :: x in s ==> |f(x)| == m
    ensures |FlatMap(f, s)| == |s| * m
    decreases |s|
  {
    if s != [] {
      var init := s[..|s| - 1];
      var last := s[|s| - 1];
      assert forall x :: x in init ==> x in s;
      FlatMapLength(f, init, m);
      assert FlatMap(f, s) == FlatMap(f, init) + f(last);
      assert |f(last)| == m by { assert last in s; }
      MulSucc(|init|, m);
    }
  }

  lemma MulSucc(n: nat, m: nat)
    ensures (n + 1) * m == n * m + m
  {
  }

  /** When every block has `m` elements, element `j` of block `i` sits at `i * m + j`. */
  lemma {:induction false} FlatMapBlock<S, T>(f: S -> seq<T>, s: seq<S>, m: nat, i: nat, j: nat)
    requires forall x :: x in s ==> |f(x)| == m
    requires i < |s| && j < m
    ensures |FlatMap(f, s)| == |s| * m
    ensures i * m + j < |FlatMap(f, s)| && FlatMap(f, s)[i * m + j] == f(s[i])[j]
    decreases |s|
  {
    var init := s[..|s| - 1];
    assert forall x :: x in init ==> x in s;
    FlatMapLength(f, s, m);
    FlatMapLength(f, init, m);
    assert FlatMap(f, s) == FlatMap(f, init) + f(s[|s| - 1]);
    if i < |init| {
      FlatMapBlock(f, init, m, i, j);
      MulMonotone(i + 1, |init|, m);
    } else {
      assert i * m == |FlatMap(f, init)|;
    }
  }

  function Sum(xs: seq<int>): int {
    if xs == [] then 0 else Sum(xs[..|xs| - 1]) + xs[|xs| - 1]
  }

  /** Sum of a concatenation. */
  lemma {:induction false} SumAppend(xs: seq<int>, ys: seq<int>)
    ensures Sum(xs + ys) == Sum(xs) + Sum(ys)
    decreases |ys|
  {
    if ys == [] {
      assert xs + ys == xs;
    } else {
      SumAppend(xs, ys[..|ys| - 1]);
      assert (xs + ys)[..|xs + ys| - 1] == xs + ys[..|ys| - 1];
    }
  }
}
