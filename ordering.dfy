/**
 * `[...new Set(xs)].sort((a, b) => a - b)` on frequencies: the distinct
 * values of a list in ascending numeric order.
 */
module Ordering {
  predicate StrictlyIncreasing(s: seq<nat>)
  {
    forall i, j :: 0 <= i < j < |s| ==> s[i] < s[j]
  }

  /** Insert `x` into an ascending list of distinct values, unless it is already there. */
  function Insert(x: nat, s: seq<nat>): (r: seq<nat>)
    requires StrictlyIncreasing(s)
    ensures StrictlyIncreasing(r)
    ensures forall y :: y in r <==> y == x || y in s
  {
    if s == [] then [x]
    else if x < s[0] then [x] + s
    else if x == s[0] then s
    else
      var t := Insert(x, s[1..]);
      assert forall y :: y in t ==> s[0] < y;
      assert forall j :: 0 <= j < |t| ==> t[j] in t;
      [s[0]] + t
  }

  /** The distinct values of `xs`, ascending. */
  function SortedDistinct(xs: seq<nat>): (r: seq<nat>)
    ensures StrictlyIncreasing(r)
    ensures forall y :: y in r <==> y in xs
    ensures Elements(r) == Elements(xs)
  {
    if xs == [] then []
    else Insert(xs[|xs| - 1], SortedDistinct(xs[..|xs| - 1]))
  }

  /** The head of an ascending list is its least element. */
  lemma HeadIsLeast(s: seq<nat>, y: nat)
    requires StrictlyIncreasing(s) && y in s
    ensures s[0] <= y
  {
  }

  /** An ascending list of distinct values is determined by its elements. */
  lemma {:induction false} AscendingUnique(a: seq<nat>, b: seq<nat>)
    requires StrictlyIncreasing(a) && StrictlyIncreasing(b)
    requires Elements(a) == Elements(b)
    ensures a == b
  {
    assert forall y :: y in a <==> y in Elements(a);
    assert forall y :: y in b <==> y in Elements(b);
    assert a != [] ==> a[0] in b;
    assert b != [] ==> b[0] in a;
    if a != [] && b != [] {
      HeadIsLeast(a, b[0]);
      HeadIsLeast(b, a[0]);
      forall y ensures y in Elements(a[1..]) <==> y in Elements(b[1..]) {
        if y in a[1..] {
          assert a[0] < y && y in b;
        }
        if y in b[1..] {
          assert b[0] < y && y in a;
        }
      }
      AscendingUnique(a[1..], b[1..]);
      assert a == [a[0]] + a[1..] && b == [b[0]] + b[1..];
    }
  }

  /** The set of values of a list. */
  function Elements(s: seq<nat>): set<nat>
  {
    set y | y in s
  }

  predicate Distinct(s: seq<nat>)
  {
    forall i, j :: 0 <= i < j < |s| ==> s[i] != s[j]
  }

  lemma ElementsOfTail(s: seq<nat>)
    requires s != []
    ensures Elements(s) == {s[0]} + Elements(s[1..])
  {
    var t := s[1..];
    forall y ensures y in s <==> y == s[0] || y in t {
      if y in s && y != s[0] {
        var k :| 0 <= k < |s| && s[k] == y;
        assert t[k - 1] == y;
      }
    }
  }

  lemma DistinctTail(s: seq<nat>)
    requires s != [] && Distinct(s)
    ensures s[0] !in Elements(s[1..]) && Distinct(s[1..])
  {
    var t := s[1..];
    forall k | 0 <= k < |t| ensures t[k] != s[0] {
      assert s[k + 1] == t[k];
    }
  }

  lemma AddOne(x: nat, rest: set<nat>, all: set<nat>)
    requires x !in rest && all == {x} + rest
    ensures |all| == |rest| + 1
  {
  }

  /** A list without repeated values has as many values as elements. */
  lemma {:induction false} DistinctCount(s: seq<nat>)
    requires Distinct(s)
    ensures |Elements(s)| == |s|
  {
    if s != [] {
      ElementsOfTail(s);
      DistinctTail(s);
      DistinctCount(s[1..]);
      AddOne(s[0], Elements(s[1..]), Elements(s));
    }
  }

  /** The length of `SortedDistinct(xs)` is the number of distinct values of `xs`. */
  lemma SortedDistinctCount(xs: seq<nat>)
    ensures |SortedDistinct(xs)| == |Elements(xs)|
  {
    var r := SortedDistinct(xs);
    assert Distinct(r);
    DistinctCount(r);
    assert Elements(r) == Elements(xs);
  }
}
