/**
  The main chain as a follower sees it: a sequence of blocks in block-number order, replaced from time
  to time by a chain switch that rolls back at most `k` blocks (the security parameter).
 */
module Chains {

  /** The number of leading blocks that no switch can replace: all but the last `k`, and always the first block. */
  function Settled<B>(k: nat, c: seq<B>): nat {
    if |c| == 0 then 0 else if |c| <= k then 1 else |c| - k
  }

  /** One chain switch: the settled blocks stay, and the new chain is at least as long. */
  ghost predicate Switches<B>(k: nat, c: seq<B>, c': seq<B>) {
    && |c| <= |c'|
    && c[..Settled(k, c)] == c'[..Settled(k, c)]
  }

  /** The successive chains a follower sees. */
  ghost predicate Follows<B>(k: nat, views: seq<seq<B>>) {
    forall i, j :: 0 <= i && j == i + 1 && j < |views| ==> Switches(k, views[i], views[j])
  }

  lemma SwitchesTransitive<B>(k: nat, a: seq<B>, b: seq<B>, c: seq<B>)
    requires Switches(k, a, b) && Switches(k, b, c)
    ensures Switches(k, a, c)
  {
    var n := Settled(k, a);
    assert a[..n] == b[..n];
    assert b[..Settled(k, b)][..n] == b[..n];
    assert c[..Settled(k, b)][..n] == c[..n];
  }

  /** However many switches lie between two views, together they are no more than one. */
  lemma {:induction false} FollowsSwitches<B>(k: nat, views: seq<seq<B>>, i: nat, j: nat)
    requires Follows(k, views) && i <= j < |views|
    ensures Switches(k, views[i], views[j])
    decreases j - i
  {
    if i < j {
      FollowsSwitches(k, views, i, j - 1);
      SwitchesTransitive(k, views[i], views[j - 1], views[j]);
    }
  }

  /** A settled block keeps its position in every later view. */
  lemma SettledBlockStays<B>(k: nat, c: seq<B>, c': seq<B>, i: nat)
    requires Switches(k, c, c') && i < Settled(k, c)
    ensures i < Settled(k, c') && c'[i] == c[i]
  {
    assert c[..Settled(k, c)][i] == c'[..Settled(k, c)][i];
  }

  lemma SettledSliceStays<B>(k: nat, c: seq<B>, c': seq<B>, lo: nat, hi: nat)
    requires Switches(k, c, c') && lo <= hi <= Settled(k, c)
    ensures hi <= Settled(k, c') && c[lo..hi] == c'[lo..hi]
  {
    var n := Settled(k, c);
    assert c[lo..hi] == c[..n][lo..hi];
    assert c'[lo..hi] == c'[..n][lo..hi];
  }
}
