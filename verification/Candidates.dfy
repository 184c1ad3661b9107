/** Permissioned candidates, their derived order, and sorting by it (primitives `domain`). */
module Candidates {
  import opened Sequences

  type Bytes = seq<nat>

  datatype Candidate = Candidate(sidechainKey: Bytes, auraKey: Bytes, grandpaKey: Bytes)

  /** The lexicographic comparison of byte strings: negative, zero or positive. */
  function CompareBytes(a: Bytes, b: Bytes): int {
    if a == [] then (if b == [] then 0 else -1)
    else if b == [] then 1
    else if a[0] < b[0] then -1
    else if a[0] > b[0] then 1
    else CompareBytes(a[1..], b[1..])
  }

  /** Field by field, in declaration order. */
  function Compare(a: Candidate, b: Candidate): int {
    var s, t := CompareBytes(a.sidechainKey, b.sidechainKey), CompareBytes(a.auraKey, b.auraKey);
    if s != 0 then s else if t != 0 then t else CompareBytes(a.grandpaKey, b.grandpaKey)
  }

  lemma {:induction false} CompareBytesIsOrder(a: Bytes, b: Bytes, c: Bytes)
    ensures CompareBytes(a, b) == 0 <==> a == b
    ensures CompareBytes(a, b) == -CompareBytes(b, a)
    ensures CompareBytes(a, b) <= 0 && CompareBytes(b, c) <= 0 ==> CompareBytes(a, c) <= 0
    ensures CompareBytes(a, b) <= 0 && CompareBytes(b, c) <= 0 && CompareBytes(a, c) == 0 ==> a == b
  {
    if a != [] && b != [] && a[0] == b[0] {
      var rest := if c == [] then [] else c[1..];
      CompareBytesIsOrder(a[1..], b[1..], rest);
      assert a == [a[0]] + a[1..] && b == [b[0]] + b[1..];
    }
    if a != [] && b != [] && c != [] && a[0] == b[0] == c[0] {
      assert c == [c[0]] + c[1..];
    } else if a != [] && c != [] && a[0] == c[0] && b != [] {
      CompareBytesIsOrder(a[1..], c[1..], []);
      assert a == [a[0]] + a[1..] && c == [c[0]] + c[1..];
    }
  }

  /** The derived order is total and antisymmetric. */
  lemma CompareIsOrder(a: Candidate, b: Candidate, c: Candidate)
    ensures Compare(a, b) == 0 <==> a == b
    ensures Compare(a, b) == -Compare(b, a)
    ensures Compare(a, b) <= 0 && Compare(b, c) <= 0 ==> Compare(a, c) <= 0
  {
    CompareBytesIsOrder(a.sidechainKey, b.sidechainKey, c.sidechainKey);
    CompareBytesIsOrder(a.auraKey, b.auraKey, c.auraKey);
    CompareBytesIsOrder(a.grandpaKey, b.grandpaKey, c.grandpaKey);
    CompareBytesIsOrder(b.sidechainKey, c.sidechainKey, a.sidechainKey);
    CompareBytesIsOrder(b.auraKey, c.auraKey, a.auraKey);
  }

  /** `a` comes before `b`: they agree up to position `n`, where `a` ends or has the smaller byte. */
  ghost predicate LessAt(a: Bytes, b: Bytes, n: nat) {
    n <= |a| && n < |b| && a[..n] == b[..n] && (n == |a| || a[n] < b[n])
  }

  ghost predicate Less(a: Bytes, b: Bytes) {
    exists n: nat :: LessAt(a, b, n)
  }

  /** The comparison of byte strings is the dictionary order. */
  lemma {:induction false} CompareBytesIs(a: Bytes, b: Bytes)
    ensures CompareBytes(a, b) < 0 <==> Less(a, b)
  {
    if a != [] && b != [] && a[0] == b[0] {
      CompareBytesIs(a[1..], b[1..]);
      if n: nat :| LessAt(a[1..], b[1..], n) {
        assert a[..n + 1] == [a[0]] + a[1..][..n] && b[..n + 1] == [b[0]] + b[1..][..n];
        assert LessAt(a, b, n + 1);
      }
      if n: nat :| LessAt(a, b, n) {
        assert n > 0;
        assert a[1..][..n - 1] == a[..n][1..] && b[1..][..n - 1] == b[..n][1..];
        assert LessAt(a[1..], b[1..], n - 1);
      }
    } else if b != [] && (a == [] || a[0] < b[0]) {
      assert LessAt(a, b, 0);
    } else if n: nat :| LessAt(a, b, n) {
      assert n > 0 ==> a[..n][0] == b[..n][0];
    }
  }

  /** Candidates are compared by sidechain key, then by Aura key, then by Grandpa key. */
  lemma CompareIs(a: Candidate, b: Candidate)
    ensures Compare(a, b) < 0 <==>
              || Less(a.sidechainKey, b.sidechainKey)
              || (a.sidechainKey == b.sidechainKey && Less(a.auraKey, b.auraKey))
              || (a.sidechainKey == b.sidechainKey && a.auraKey == b.auraKey && Less(a.grandpaKey, b.grandpaKey))
  {
    CompareBytesIs(a.sidechainKey, b.sidechainKey);
    CompareBytesIs(a.auraKey, b.auraKey);
    CompareBytesIs(a.grandpaKey, b.grandpaKey);
    CompareBytesIsOrder(a.sidechainKey, b.sidechainKey, []);
    CompareBytesIsOrder(a.auraKey, b.auraKey, []);
  }

  /** The order in which candidates are sorted. */
  function NotGreater(): Order<Candidate> {
    (a: Candidate, b: Candidate) => Compare(a, b) <= 0
  }

  function Sort(s: seq<Candidate>): (r: seq<Candidate>)
    ensures multiset(r) == multiset(s)
  {
    Sorted(NotGreater(), s)
  }

  lemma SortOrdered(s: seq<Candidate>)
    ensures Ordered(NotGreater(), Sort(s))
  {
    forall a, b
      ensures NotGreater()(a, b) || NotGreater()(b, a)
    {
      CompareIsOrder(a, b, a);
    }
    SortedOrdered(NotGreater(), s);
  }

  lemma {:induction false} LastIsGreatest(s: seq<Candidate>, c: Candidate)
    requires Ordered(NotGreater(), s) && c in s
    ensures Compare(c, s[|s| - 1]) <= 0
  {
    var last := s[|s| - 1];
    CompareIsOrder(last, last, last);
    if c != last {
      var front := s[..|s| - 1];
      assert s == front + [last];
      LastIsGreatest(front, c);
      CompareIsOrder(c, front[|front| - 1], last);
    }
  }

  lemma SameLast(s: seq<Candidate>, t: seq<Candidate>)
    requires Ordered(NotGreater(), s) && Ordered(NotGreater(), t) && multiset(s) == multiset(t) && s != [] && t != []
    ensures s[|s| - 1] == t[|t| - 1]
  {
    var a, b := s[|s| - 1], t[|t| - 1];
    assert a in multiset(t) && b in multiset(s);
    LastIsGreatest(t, a);
    LastIsGreatest(s, b);
    CompareIsOrder(a, b, a);
  }

  lemma SameLength(s: seq<Candidate>, t: seq<Candidate>)
    requires multiset(s) == multiset(t)
    ensures |s| == |t|
  {
    assert |multiset(s)| == |s| && |multiset(t)| == |t|;
  }

  lemma SameFrontMultiset(s: seq<Candidate>, t: seq<Candidate>)
    requires multiset(s) == multiset(t) && s != [] && t != [] && s[|s| - 1] == t[|t| - 1]
    ensures multiset(s[..|s| - 1]) == multiset(t[..|t| - 1])
  {
    assert s == s[..|s| - 1] + [s[|s| - 1]];
    assert t == t[..|t| - 1] + [t[|t| - 1]];
    assert multiset(s[..|s| - 1]) == multiset(s) - multiset{s[|s| - 1]};
    assert multiset(t[..|t| - 1]) == multiset(t) - multiset{t[|t| - 1]};
  }

  lemma SameParts(s: seq<Candidate>, t: seq<Candidate>)
    requires s != [] && t != [] && s[..|s| - 1] == t[..|t| - 1] && s[|s| - 1] == t[|t| - 1]
    ensures s == t
  {
    assert s == s[..|s| - 1] + [s[|s| - 1]];
    assert t == t[..|t| - 1] + [t[|t| - 1]];
  }

  /** An ordered list is determined by what it holds. */
  lemma {:induction false} OrderedIsUnique(s: seq<Candidate>, t: seq<Candidate>)
    requires Ordered(NotGreater(), s) && Ordered(NotGreater(), t) && multiset(s) == multiset(t)
    ensures s == t
    decreases |s|
  {
    SameLength(s, t);
    if s != [] {
      SameLast(s, t);
      SameFrontMultiset(s, t);
      OrderedIsUnique(s[..|s| - 1], t[..|t| - 1]);
      SameParts(s, t);
    }
  }

  /** Two lists sort to the same list exactly when one is a permutation of the other. */
  lemma SortedEqualIff(s: seq<Candidate>, t: seq<Candidate>)
    ensures Sort(s) == Sort(t) <==> multiset(s) == multiset(t)
  {
    SortOrdered(s);
    SortOrdered(t);
    if multiset(s) == multiset(t) {
      OrderedIsUnique(Sort(s), Sort(t));
    }
  }
}
