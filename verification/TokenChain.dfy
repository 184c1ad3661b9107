/** The main chain as the native-token observation sees it: what each block adds to the illiquid supply address. */
module TokenChain {
  import opened Sums

  /** `locked` is the amount of the configured token; `foreign` the amount of all other assets sent to the same address. */
  datatype TokenBlock = TokenBlock(hash: nat, locked: nat, foreign: nat)

  type Chain = seq<TokenBlock>

  /** A row of the per-block query. */
  datatype BlockAmount = BlockAmount(hash: nat, amount: nat)

  function Locked(blocks: Chain): nat {
    Sum(blocks, (b: TokenBlock) => b.locked)
  }

  function Foreign(blocks: Chain): nat {
    Sum(blocks, (b: TokenBlock) => b.foreign)
  }

  function Rows(blocks: Chain): (r: seq<BlockAmount>)
    ensures |r| == |blocks|
    ensures forall i :: 0 <= i < |r| ==> r[i] == BlockAmount(blocks[i].hash, blocks[i].locked + blocks[i].foreign)
  {
    seq(|blocks|, i requires 0 <= i < |blocks| => BlockAmount(blocks[i].hash, blocks[i].locked + blocks[i].foreign))
  }

  lemma RowsSlice(c: Chain, lo: nat, hi: nat, i: nat, j: nat)
    requires lo <= hi <= |c| && i <= j <= hi - lo
    ensures Rows(c[lo..hi])[i..j] == Rows(c[lo + i..lo + j])
  {
    forall n | 0 <= n < j - i
      ensures Rows(c[lo..hi])[i..j][n] == Rows(c[lo + i..lo + j])[n]
    {
      assert c[lo..hi][i + n] == c[lo + i..lo + j][n];
    }
  }

  function Amounts(rows: seq<BlockAmount>): nat {
    Sum(rows, (r: BlockAmount) => r.amount)
  }

  /** The per-block query counts every asset at the address. */
  lemma {:induction false} RowsCountBoth(blocks: Chain)
    ensures Amounts(Rows(blocks)) == Locked(blocks) + Foreign(blocks)
  {
    if blocks != [] {
      assert Rows(blocks)[1..] == Rows(blocks[1..]);
      RowsCountBoth(blocks[1..]);
    }
  }

  lemma OneBlock(b: TokenBlock)
    ensures Locked([b]) == b.locked && Foreign([b]) == b.foreign && Amounts(Rows([b])) == b.locked + b.foreign
  {
    SumOnly([b], (x: TokenBlock) => x.locked, 0);
    SumOnly([b], (x: TokenBlock) => x.foreign, 0);
    RowsCountBoth([b]);
  }

  lemma LockedSplit(c: Chain, lo: nat, mid: nat, hi: nat)
    requires lo <= mid <= hi <= |c|
    ensures Locked(c[lo..hi]) == Locked(c[lo..mid]) + Locked(c[mid..hi])
    ensures Foreign(c[lo..hi]) == Foreign(c[lo..mid]) + Foreign(c[mid..hi])
  {
    assert c[lo..hi] == c[lo..mid] + c[mid..hi];
    SumSplit(c[lo..mid], c[mid..hi], (b: TokenBlock) => b.locked);
    SumSplit(c[lo..mid], c[mid..hi], (b: TokenBlock) => b.foreign);
  }

  ghost predicate DistinctHashes(c: Chain) {
    forall i, j :: 0 <= i < |c| && 0 <= j < |c| && c[i].hash == c[j].hash ==> i == j
  }
}
