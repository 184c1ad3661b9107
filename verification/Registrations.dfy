/**
  The registered candidates behind the candidate cache: the unspent outputs at the registration address as of the last
  block of the data epoch (db-sync-follower `candidates`).
 */
module Registrations {
  import opened Wrappers
  import opened Chains
  import opened StableEpochs
  import Utxos

  datatype TxBody = TxBody(hash: nat, inputs: seq<Utxos.OutRef>, outputs: seq<Utxos.Output>)
  datatype BlockBody = BlockBody(slot: nat, txs: seq<TxBody>)

  /** A block's hash determines what is in it. */
  type Contents = nat -> BlockBody

  type Rows = multiset<Utxos.Row>

  /** The transactions of one block, placed in the chain. */
  function BlockTxs(contents: Contents, b: EpochBlock, number: nat): (txs: seq<Utxos.Tx>)
    ensures forall t :: t in txs ==> t.blockNo == number
    ensures |txs| == |contents(b.hash).txs|
    ensures forall i :: 0 <= i < |txs| ==>
              var body, tx := contents(b.hash), txs[i];
              && tx.hash == body.txs[i].hash && tx.inputs == body.txs[i].inputs && tx.outputs == body.txs[i].outputs
              && tx.place == Utxos.Place(body.slot, b.epoch, i)
  {
    var body := contents(b.hash);
    seq(|body.txs|, i requires 0 <= i < |body.txs| =>
      Utxos.Tx(body.txs[i].hash, number, Utxos.Place(body.slot, b.epoch, i), body.txs[i].inputs, body.txs[i].outputs))
  }

  /** The ledger a chain carries. */
  function LedgerOf(contents: Contents, c: Chain): Utxos.Ledger {
    if c == [] then [] else LedgerOf(contents, c[..|c| - 1]) + BlockTxs(contents, c[|c| - 1], |c| - 1)
  }

  /** The ledger holds the transactions of all blocks and nothing else. */
  lemma {:induction false} LedgerHolds(contents: Contents, c: Chain, t: Utxos.Tx)
    ensures t in LedgerOf(contents, c) <==> exists n :: 0 <= n < |c| && t in BlockTxs(contents, c[n], n)
  {
    if c != [] {
      var n := |c| - 1;
      LedgerHolds(contents, c[..n], t);
      assert forall i :: 0 <= i < n ==> c[..n][i] == c[i];
    }
  }

  ghost predicate InBlockOrder(l: Utxos.Ledger, n: nat) {
    (forall t :: t in l ==> t.blockNo < n) && forall i, j :: 0 <= i < j < |l| ==> l[i].blockNo <= l[j].blockNo
  }

  /** In block order. */
  lemma {:induction false} LedgerInOrder(contents: Contents, c: Chain)
    ensures InBlockOrder(LedgerOf(contents, c), |c|)
  {
    if c != [] {
      var n := |c| - 1;
      LedgerInOrder(contents, c[..n]);
      AppendedInOrder(LedgerOf(contents, c[..n]), BlockTxs(contents, c[n], n), n);
    }
  }

  lemma AppendedInOrder(l: Utxos.Ledger, txs: seq<Utxos.Tx>, n: nat)
    requires InBlockOrder(l, n) && forall t :: t in txs ==> t.blockNo == n
    ensures InBlockOrder(l + txs, n + 1)
  {
    var all := l + txs;
    forall i, j | 0 <= i < j < |all|
      ensures all[i].blockNo <= all[j].blockNo
    {
      assert i < |l| ==> all[i] in l;
      assert i >= |l| ==> all[i] in txs;
      assert j >= |l| ==> all[j] in txs;
    }
  }

  /** `get_latest_block_for_epoch`: the last block of an epoch up to `e`; blocks are in slot order. */
  function LastBlock(c: Chain, e: int): Option<nat> {
    if c == [] then None
    else if c[|c| - 1].epoch <= e then Some(|c| - 1)
    else LastBlock(c[..|c| - 1], e)
  }

  /** A query for the rows at an address as of a block. */
  type LedgerQuery = (Utxos.Ledger, nat, nat) -> Result<Rows>

  /** `get_registered_candidates`, as far as the main chain is concerned: it reads the whole chain the follower has. */
  function Registered(query: LedgerQuery, contents: Contents, c: Chain, key: Key): Result<Rows> {
    if key.epoch < 2 then Err
    else
      match LastBlock(c, key.epoch - 2)
      case None => Ok(multiset{})
      case Some(b) => query(LedgerOf(contents, c), key.subject, b)
  }

  /** The same read off the blocks up to the data epoch. */
  function RegisteredAtEnd(query: LedgerQuery, contents: Contents): Source<Rows> {
    (blocks: Chain, key: Key) =>
      if blocks == [] then Ok(multiset{}) else query(LedgerOf(contents, blocks), key.subject, |blocks| - 1)
  }

  function NumberUpTo(c: Chain, e: int): (n: nat)
    ensures n <= |c|
  {
    if c == [] then 0
    else if c[|c| - 1].epoch <= e then |c|
    else NumberUpTo(c[..|c| - 1], e)
  }

  lemma {:induction false} AllUpTo(c: Chain, e: int)
    requires forall i :: 0 <= i < |c| ==> c[i].epoch <= e
    ensures UpTo(c, e) == c
  {
    if c != [] {
      AllUpTo(c[..|c| - 1], e);
    }
  }

  /** With epochs in order, the blocks up to an epoch are a prefix that ends at the last such block. */
  lemma {:induction false} UpToIsPrefix(c: Chain, e: int)
    requires Monotone(c)
    ensures UpTo(c, e) == c[..NumberUpTo(c, e)]
    ensures LastBlock(c, e) == if NumberUpTo(c, e) == 0 then None else Some(NumberUpTo(c, e) - 1)
  {
    if c != [] {
      if c[|c| - 1].epoch <= e {
        AllUpTo(c, e);
      } else {
        var front := c[..|c| - 1];
        UpToIsPrefix(front, e);
        assert front[..NumberUpTo(front, e)] == c[..NumberUpTo(c, e)];
      }
    }
  }

  /** The ledger of a prefix is a prefix of the ledger, and the rest lies in later blocks. */
  lemma {:induction false} LedgerOfPrefix(contents: Contents, c: Chain, n: nat)
    requires n <= |c|
    ensures var l, m := LedgerOf(contents, c), |LedgerOf(contents, c[..n])|;
            m <= |l| && l[..m] == LedgerOf(contents, c[..n]) && forall t :: t in l[m..] ==> t.blockNo >= n
  {
    if n == |c| {
      assert c[..n] == c;
    } else {
      var front := c[..|c| - 1];
      assert front[..n] == c[..n];
      LedgerOfPrefix(contents, front, n);
      var l, m, last := LedgerOf(contents, front), |LedgerOf(contents, c[..n])|, BlockTxs(contents, c[|c| - 1], |c| - 1);
      assert (l + last)[..m] == l[..m] && (l + last)[m..] == l[m..] + last;
    }
  }

  /** The query answers alike on the whole chain and on the blocks up to the data epoch. */
  ghost predicate SameOnPrefix(query: LedgerQuery, contents: Contents, c: Chain, key: Key) {
    var n := NumberUpTo(c, key.epoch - 2);
    n > 0 ==> query(LedgerOf(contents, c), key.subject, n - 1) == query(LedgerOf(contents, c[..n]), key.subject, n - 1)
  }

  lemma QuerySameOnPrefix(contents: Contents, c: Chain, key: Key)
    requires Utxos.Valid(LedgerOf(contents, c))
    ensures SameOnPrefix(Utxos.Query, contents, c, key)
  {
    var n := NumberUpTo(c, key.epoch - 2);
    if n > 0 {
      LedgerOfPrefix(contents, c, n);
      Utxos.LaterBlocksDoNotMatter(LedgerOf(contents, c), |LedgerOf(contents, c[..n])|, key.subject, n - 1);
    }
  }

  lemma RegisteredIsAtEnd(query: LedgerQuery, contents: Contents, c: Chain, key: Key)
    requires Monotone(c) && SameOnPrefix(query, contents, c, key)
    ensures Registered(query, contents, c, key) == Direct(RegisteredAtEnd(query, contents), c, key)
  {
    if key.epoch >= 2 {
      UpToIsPrefix(c, key.epoch - 2);
      assert |UpTo(c, key.epoch - 2)| == NumberUpTo(c, key.epoch - 2);
    }
  }

  /** The candidate query reads nothing beyond the data epoch, although later blocks are there to be read. */
  lemma RegisteredReadsDataEpoch(contents: Contents, c: Chain, key: Key)
    requires Monotone(c) && Utxos.Valid(LedgerOf(contents, c))
    ensures Registered(Utxos.Query, contents, c, key) == Direct(RegisteredAtEnd(Utxos.Query, contents), c, key)
  {
    QuerySameOnPrefix(contents, c, key);
    RegisteredIsAtEnd(Utxos.Query, contents, c, key);
  }

  /** So, over any run of chain switches and requests, the cached registrations are the uncached ones on the present chain. */
  method RegisteredAll(contents: Contents, k: nat, capacity: nat, views: seq<Chain>, keys: seq<Key>) returns (answers: seq<Result<Rows>>)
    requires |views| == |keys| && Follows(k, views)
    requires forall i :: 0 <= i < |views| ==> Monotone(views[i]) && Utxos.Valid(LedgerOf(contents, views[i]))
    ensures |answers| == |keys|
    ensures forall i :: 0 <= i < |keys| ==>
              answers[i] == if LatestStableEpoch(k, views[i]).Undecodable? then Err else Registered(Utxos.Query, contents, views[i], keys[i])
  {
    answers := AnswerAll(RegisteredAtEnd(Utxos.Query, contents), k, capacity, views, keys);
    forall i | 0 <= i < |keys|
      ensures answers[i] == if LatestStableEpoch(k, views[i]).Undecodable? then Err else Registered(Utxos.Query, contents, views[i], keys[i])
    {
      RegisteredReadsDataEpoch(contents, views[i], keys[i]);
    }
  }
}
