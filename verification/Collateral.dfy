/** Largest-first selection of collateral inputs (offchain `collateral_selection`; the largest-first section of CIP-0002). */
module Collateral {
  import opened Sequences
  import opened Widths
  import opened Wrappers

  datatype Utxo = Utxo(id: nat, lovelace: nat)

  function Total(utxos: seq<Utxo>): nat {
    if utxos == [] then 0 else Total(utxos[..|utxos| - 1]) + utxos[|utxos| - 1].lovelace
  }

  /** The order in which inputs are sorted. */
  function NotLarger(): Order<Utxo> {
    (a: Utxo, b: Utxo) => a.lovelace <= b.lovelace
  }

  ghost predicate Ascending(utxos: seq<Utxo>) {
    Ordered(NotLarger(), utxos)
  }

  lemma {:induction false} InsertedTotal(u: Utxo, sorted: seq<Utxo>)
    ensures Total(Inserted(NotLarger(), u, sorted)) == Total(sorted) + u.lovelace
  {
    var r := Inserted(NotLarger(), u, sorted);
    if sorted == [] || sorted[|sorted| - 1].lovelace <= u.lovelace {
      assert r[..|sorted|] == sorted;
    } else {
      InsertedTotal(u, sorted[..|sorted| - 1]);
      assert r[..|sorted|] == Inserted(NotLarger(), u, sorted[..|sorted| - 1]);
    }
  }

  lemma {:induction false} SortedTotal(utxos: seq<Utxo>)
    ensures Total(Sorted(NotLarger(), utxos)) == Total(utxos)
  {
    if utxos != [] {
      SortedTotal(utxos[..|utxos| - 1]);
      InsertedTotal(utxos[|utxos| - 1], Sorted(NotLarger(), utxos[..|utxos| - 1]));
    }
  }

  /** The total of the last `n` inputs. */
  function TopTotal(s: seq<Utxo>, n: nat): nat
    requires n <= |s|
  {
    if n == 0 then 0 else s[|s| - 1].lovelace + TopTotal(s[..|s| - 1], n - 1)
  }

  lemma {:induction false} TopTotalStep(s: seq<Utxo>, n: nat)
    requires n < |s|
    ensures TopTotal(s, n + 1) == TopTotal(s, n) + s[|s| - 1 - n].lovelace
  {
    if n > 0 {
      TopTotalStep(s[..|s| - 1], n - 1);
    }
  }

  lemma {:induction false} TopTotalGrows(s: seq<Utxo>, n: nat, m: nat)
    requires n <= m <= |s|
    ensures TopTotal(s, n) <= TopTotal(s, m)
    decreases m
  {
    if n < m {
      TopTotalGrows(s, n, m - 1);
      TopTotalStep(s, m - 1);
    }
  }

  lemma {:induction false} TopTotalAll(s: seq<Utxo>)
    ensures TopTotal(s, |s|) == Total(s)
  {
    if s != [] {
      TopTotalAll(s[..|s| - 1]);
    }
  }

  /** With a larger input at the end, the last `n` are worth at least as much. */
  lemma {:induction false} LongerIsWorthMore(s: seq<Utxo>, n: nat)
    requires Ascending(s) && n < |s|
    ensures TopTotal(s[..|s| - 1], n) <= TopTotal(s, n)
  {
    if n > 0 {
      LongerIsWorthMore(s[..|s| - 1], n - 1);
    }
  }

  /** A choice of inputs, each available one at most once. */
  ghost predicate Choice(chosen: seq<Utxo>, available: seq<Utxo>) {
    multiset(chosen) <= multiset(available)
  }

  function Without(s: seq<Utxo>, i: nat): seq<Utxo>
    requires i < |s|
  {
    s[..i] + s[i + 1..]
  }

  lemma {:induction false} TotalWithout(s: seq<Utxo>, i: nat)
    requires i < |s|
    ensures Total(s) == Total(Without(s, i)) + s[i].lovelace
  {
    var front := s[..|s| - 1];
    if i < |s| - 1 {
      TotalWithout(front, i);
      assert Without(s, i)[..|s| - 2] == Without(front, i);
    } else {
      assert Without(s, i) == front;
    }
  }

  lemma MultisetWithout(s: seq<Utxo>, i: nat)
    requires i < |s|
    ensures multiset(Without(s, i)) == multiset(s) - multiset{s[i]}
  {
    assert s == s[..i] + [s[i]] + s[i + 1..];
  }

  lemma ChoiceIsShorter(chosen: seq<Utxo>, s: seq<Utxo>)
    requires Choice(chosen, s)
    ensures |chosen| <= |s|
  {
    assert multiset(s) == multiset(chosen) + (multiset(s) - multiset(chosen));
    assert |multiset(s)| == |multiset(chosen)| + |multiset(s) - multiset(chosen)|;
  }

  /** A choice that uses the last input, without it. */
  lemma ChoiceWithoutLast(chosen: seq<Utxo>, s: seq<Utxo>, i: nat)
    requires Choice(chosen, s) && s != [] && i < |chosen| && chosen[i] == s[|s| - 1]
    ensures Choice(Without(chosen, i), s[..|s| - 1])
  {
    MultisetWithout(chosen, i);
    assert s == s[..|s| - 1] + [s[|s| - 1]];
    assert multiset(s) == multiset(s[..|s| - 1]) + multiset{s[|s| - 1]};
  }

  /** A choice that does not use the last input. */
  lemma ChoiceOfOthers(chosen: seq<Utxo>, s: seq<Utxo>)
    requires Choice(chosen, s) && s != [] && s[|s| - 1] !in chosen
    ensures Choice(chosen, s[..|s| - 1])
  {
    assert multiset(chosen)[s[|s| - 1]] == 0;
    assert s == s[..|s| - 1] + [s[|s| - 1]];
    assert multiset(s) == multiset(s[..|s| - 1]) + multiset{s[|s| - 1]};
  }

  /** No choice is worth more than the same number of largest inputs. */
  lemma {:induction false} LargestAreWorthMost(chosen: seq<Utxo>, s: seq<Utxo>)
    requires Ascending(s) && Choice(chosen, s)
    ensures |chosen| <= |s| && Total(chosen) <= TopTotal(s, |chosen|)
    decreases |s|
  {
    ChoiceIsShorter(chosen, s);
    if chosen != [] {
      var front := s[..|s| - 1];
      if i :| 0 <= i < |chosen| && chosen[i] == s[|s| - 1] {
        ChoiceWithoutLast(chosen, s, i);
        TotalWithout(chosen, i);
        LargestAreWorthMost(Without(chosen, i), front);
      } else {
        ChoiceOfOthers(chosen, s);
        LargestAreWorthMost(chosen, front);
        LongerIsWorthMore(s, |chosen|);
      }
    }
  }

  /** The last `n` inputs cover the amount, and one fewer would not. */
  ghost predicate Tight(s: seq<Utxo>, n: nat, needed: nat)
    requires n <= |s|
  {
    && TopTotal(s, n) >= needed
    && (n > 0 ==> TopTotal(s, n - 1) < needed)
  }

  /** A choice that covers the amount is not smaller than a tight one. */
  lemma CoveringIsNotSmaller(c: seq<Utxo>, s: seq<Utxo>, n: nat, needed: nat)
    requires Ascending(s) && n <= |s| && Tight(s, n, needed) && Choice(c, s) && Total(c) >= needed
    ensures n <= |c|
  {
    LargestAreWorthMost(c, s);
    if |c| < n {
      TopTotalGrows(s, |c|, n - 1);
    }
  }

  lemma NothingCovers(c: seq<Utxo>, s: seq<Utxo>)
    requires Ascending(s) && Choice(c, s)
    ensures Total(c) <= Total(s)
  {
    LargestAreWorthMost(c, s);
    TopTotalGrows(s, |c|, |s|);
    TopTotalAll(s);
  }

  /** Pops the largest inputs until they cover the amount. */
  method TakeLargest(sorted: seq<Utxo>, needed: nat) returns (selected: seq<Utxo>)
    requires Total(sorted) >= needed
    ensures Choice(selected, sorted) && |selected| <= |sorted|
    ensures Total(selected) == TopTotal(sorted, |selected|) && Tight(sorted, |selected|, needed)
  {
    var left, sum := sorted, 0;
    selected := [];
    while sum < needed
      invariant |selected| <= |sorted| && left == sorted[..|sorted| - |selected|]
      invariant sum == Total(selected) == TopTotal(sorted, |selected|)
      invariant multiset(left) + multiset(selected) == multiset(sorted)
      invariant |selected| > 0 ==> TopTotal(sorted, |selected| - 1) < needed
      decreases |left|
    {
      TopTotalAll(sorted);
      var u := left[|left| - 1];
      TopTotalStep(sorted, |selected|);
      assert left == left[..|left| - 1] + [u];
      assert (selected + [u])[..|selected|] == selected;
      left := left[..|left| - 1];
      sum := sum + u.lovelace;
      selected := selected + [u];
    }
  }

  /**
    Selects inputs covering the larger of `required` and `minimum`. It succeeds exactly when some choice of at most
    `maxInputs` inputs covers that amount, and then no smaller choice does.
   */
  method LargestFirst(available: seq<Utxo>, required: nat, maxInputs: nat, minimum: nat) returns (r: Result<seq<Utxo>>)
    requires Total(available) < U64_LIMIT && |available| < U32_LIMIT
    ensures r.Ok? <==> exists c :: Choice(c, available) && |c| <= maxInputs && Total(c) >= required && Total(c) >= minimum
    ensures r.Ok? ==> Choice(r.value, available) && |r.value| <= maxInputs && Total(r.value) >= required && Total(r.value) >= minimum
    ensures r.Ok? ==> forall c :: Choice(c, available) && Total(c) >= required && Total(c) >= minimum ==> |r.value| <= |c|
  {
    var needed := if required < minimum then minimum else required;
    if Total(available) < needed {
      TooLittle(available, needed);
      return Err;
    }
    var sorted := Sorted(NotLarger(), available);
    SortedTotal(available);
    var selected := TakeLargest(sorted, needed);
    FewestCover(available, selected, needed);
    if |selected| > maxInputs {
      return Err;
    }
    return Ok(selected);
  }

  /** If all inputs together are not enough, no choice is. */
  lemma TooLittle(available: seq<Utxo>, needed: nat)
    requires Total(available) < needed
    ensures forall c :: Choice(c, available) ==> Total(c) < needed
  {
    SortedOrdered(NotLarger(), available);
    SortedTotal(available);
    forall c | Choice(c, available)
      ensures Total(c) < needed
    {
      NothingCovers(c, Sorted(NotLarger(), available));
    }
  }

  /** What is popped from the sorted inputs is a choice that covers the amount, and no choice that does is smaller. */
  lemma FewestCover(available: seq<Utxo>, selected: seq<Utxo>, needed: nat)
    requires var sorted := Sorted(NotLarger(), available);
             && Choice(selected, sorted) && |selected| <= |sorted|
             && Total(selected) == TopTotal(sorted, |selected|) && Tight(sorted, |selected|, needed)
    ensures Choice(selected, available) && Total(selected) >= needed
    ensures forall c :: Choice(c, available) && Total(c) >= needed ==> |selected| <= |c|
  {
    SortedOrdered(NotLarger(), available);
    forall c | Choice(c, available) && Total(c) >= needed
      ensures |selected| <= |c|
    {
      CoveringIsNotSmaller(c, Sorted(NotLarger(), available), |selected|, needed);
    }
  }
}
