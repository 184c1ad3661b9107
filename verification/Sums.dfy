/** Finite sums over sequences, as the queries' `SUM` computes them. */
module Sums {

  function Sum<T>(s: seq<T>, f: T -> nat): nat {
    if s == [] then 0 else f(s[0]) + Sum(s[1..], f)
  }

  lemma {:induction false} SumEqual<T>(s: seq<T>, f: T -> nat, g: T -> nat)
    requires forall x :: x in s ==> f(x) == g(x)
    ensures Sum(s, f) == Sum(s, g)
  {
    if s != [] {
      SumEqual(s[1..], f, g);
    }
  }

  lemma {:induction false} SumAdd<T>(s: seq<T>, f: T -> nat, g: T -> nat, h: T -> nat)
    requires forall x :: x in s ==> h(x) == f(x) + g(x)
    ensures Sum(s, h) == Sum(s, f) + Sum(s, g)
  {
    if s != [] {
      SumAdd(s[1..], f, g, h);
    }
  }

  lemma {:induction false} SumZero<T>(s: seq<T>, f: T -> nat)
    ensures Sum(s, f) == 0 <==> forall x :: x in s ==> f(x) == 0
  {
    if s != [] {
      SumZero(s[1..], f);
      assert s == [s[0]] + s[1..];
    }
  }

  lemma {:induction false} SumSplit<T>(s: seq<T>, t: seq<T>, f: T -> nat)
    ensures Sum(s + t, f) == Sum(s, f) + Sum(t, f)
  {
    if s == [] {
      assert s + t == t;
    } else {
      assert (s + t)[1..] == s[1..] + t;
      SumSplit(s[1..], t, f);
    }
  }

  /** Only one row contributes. */
  lemma {:induction false} SumOnly<T>(s: seq<T>, f: T -> nat, i: nat)
    requires i < |s| && forall j :: 0 <= j < |s| && j != i ==> f(s[j]) == 0
    ensures Sum(s, f) == f(s[i])
  {
    SumSplit(s[..i], s[i..], f);
    assert s == s[..i] + s[i..];
    SumZero(s[..i], f);
    SumZero(s[i + 1..], f);
    assert s[i..][1..] == s[i + 1..];
  }

  function Row<A, B>(f: (A, B) -> nat, a: A): B -> nat {
    b => f(a, b)
  }

  function Column<A, B>(f: (A, B) -> nat, b: B): A -> nat {
    a => f(a, b)
  }

  /** The sum over a join: every pair of rows contributes. */
  function JoinSum<A, B>(s: seq<A>, t: seq<B>, f: (A, B) -> nat): nat {
    if s == [] then 0 else Sum(t, Row(f, s[0])) + JoinSum(s[1..], t, f)
  }

  /** The order of summation does not matter: `g` sums a column of the join. */
  lemma {:induction false} JoinSumByColumn<A, B>(s: seq<A>, t: seq<B>, f: (A, B) -> nat, g: B -> nat)
    requires forall b :: b in t ==> g(b) == Sum(s, Column(f, b))
    ensures JoinSum(s, t, f) == Sum(t, g)
  {
    if s == [] {
      SumZero(t, g);
    } else {
      var rest := b => Sum(s[1..], Column(f, b));
      JoinSumByColumn(s[1..], t, f, rest);
      SumAdd(t, Row(f, s[0]), rest, g);
    }
  }

  lemma {:induction false} SumScale<T>(s: seq<T>, n: nat, f: T -> nat, g: T -> nat)
    requires forall x :: x in s ==> g(x) == n * f(x)
    ensures Sum(s, g) == n * Sum(s, f)
  {
    if s != [] {
      SumScale(s[1..], n, f, g);
      assert n * (f(s[0]) + Sum(s[1..], f)) == n * f(s[0]) + n * Sum(s[1..], f);
    }
  }
}
