/** Python's `sorted(set(...))` on strings: code-point lexicographic order. */
module Sorting {
  import opened Seqs

  /** Python's `a < b` on strings. */
  predicate StrLess(a: string, b: string) {
    if a == [] then b != []
    else if b == [] then false
    else if a[0] != b[0] then a[0] < b[0]
    else StrLess(a[1..], b[1..])
  }

  /** Two different strings are ordered one way or the other. */
  lemma {:induction false} StrLessTotal(a: string, b: string)
    requires a != b
    ensures StrLess(a, b) || StrLess(b, a)
  {
    if a != [] && b != [] && a[0] == b[0] {
      assert a == [a[0]] + a[1..] && b == [b[0]] + b[1..];
      StrLessTotal(a[1..], b[1..]);
    }
  }

  /** Each element is strictly below the next. */
  predicate Ascending(s: seq<string>) {
    forall i :: 0 < i < |s| ==> StrLess(s[i - 1], s[i])
  }

  /** Inserts a new element into an ascending list at its place. */
  function Insert(x: string, s: seq<string>): (r: seq<string>)
    requires Ascending(s) && NoDup(s) && x !in s
    ensures Ascending(r) && NoDup(r)
    ensures |r| == |s| + 1 && (r[0] == x || (s != [] && r[0] == s[0]))
    ensures forall y :: y in r <==> y == x || y in s
  {
    if s == [] then [x]
    else if StrLess(x, s[0]) then [x] + s
    else
      StrLessTotal(x, s[0]);
      assert Ascending(s[1..]) && NoDup(s[1..]);
      var rest := Insert(x, s[1..]);
      assert s[0] !in s[1..];
      [s[0]] + rest
  }

  /** `sorted(set(s))`: the distinct elements of `s` in ascending order. */
  function SortedSet(s: seq<string>): (r: seq<string>)
    ensures Ascending(r) && NoDup(r)
    ensures forall y :: y in r <==> y in s
  {
    if s == [] then []
    else
      var rest := SortedSet(s[..|s| - 1]);
      assert forall y :: y in s <==> y in s[..|s| - 1] || y == s[|s| - 1];
      if s[|s| - 1] in rest then rest else Insert(s[|s| - 1], rest)
  }
}
