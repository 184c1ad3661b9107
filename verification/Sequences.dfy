/** Searching and sorting sequences. */
module Sequences {
  import opened Wrappers

  /** The first position whose element satisfies `p`. */
  function FirstIndex<T>(s: seq<T>, p: T -> bool): (r: Option<nat>)
    ensures r.Some? ==> r.value < |s| && p(s[r.value]) && forall i :: 0 <= i < r.value ==> !p(s[i])
    ensures r.None? ==> forall i :: 0 <= i < |s| ==> !p(s[i])
  {
    if s == [] then None
    else if p(s[0]) then Some(0)
    else
      match FirstIndex(s[1..], p)
      case None => None
      case Some(i) => Some(i + 1)
  }

  /** Whether the first element may stand before the second. */
  type Order<!T> = (T, T) -> bool

  ghost predicate IsTotal<T(!new)>(leq: Order<T>) {
    forall a, b :: leq(a, b) || leq(b, a)
  }

  ghost predicate Ordered<T>(leq: Order<T>, s: seq<T>) {
    |s| > 1 ==> leq(s[|s| - 2], s[|s| - 1]) && Ordered(leq, s[..|s| - 1])
  }

  /** Places `x` after everything that may stand before it. */
  function Inserted<T(==)>(leq: Order<T>, x: T, s: seq<T>): (r: seq<T>)
    ensures |r| == |s| + 1
    ensures multiset(r) == multiset(s) + multiset{x}
    ensures r[|s|] == x || (s != [] && r[|s|] == s[|s| - 1])
  {
    if s == [] || leq(s[|s| - 1], x) then s + [x]
    else
      assert s == s[..|s| - 1] + [s[|s| - 1]];
      Inserted(leq, x, s[..|s| - 1]) + [s[|s| - 1]]
  }

  /** The stable sort. */
  function Sorted<T(==)>(leq: Order<T>, s: seq<T>): (r: seq<T>)
    ensures |r| == |s| && multiset(r) == multiset(s)
  {
    if s == [] then []
    else
      assert s == s[..|s| - 1] + [s[|s| - 1]];
      Inserted(leq, s[|s| - 1], Sorted(leq, s[..|s| - 1]))
  }

  lemma {:induction false} InsertedOrdered<T(!new)>(leq: Order<T>, x: T, s: seq<T>)
    requires IsTotal(leq) && Ordered(leq, s)
    ensures Ordered(leq, Inserted(leq, x, s))
  {
    var r := Inserted(leq, x, s);
    if s == [] || leq(s[|s| - 1], x) {
      assert r[..|s|] == s;
    } else {
      var front := s[..|s| - 1];
      InsertedOrdered(leq, x, front);
      assert r[..|s|] == Inserted(leq, x, front);
      assert r[|s| - 1] == Inserted(leq, x, front)[|front|];
    }
  }

  lemma {:induction false} SortedOrdered<T(!new)>(leq: Order<T>, s: seq<T>)
    requires IsTotal(leq)
    ensures Ordered(leq, Sorted(leq, s))
  {
    if s != [] {
      SortedOrdered(leq, s[..|s| - 1]);
      InsertedOrdered(leq, s[|s| - 1], Sorted(leq, s[..|s| - 1]));
    }
  }
}
