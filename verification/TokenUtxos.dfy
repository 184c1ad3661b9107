/**
  The Ariadne parameters behind the candidate cache: the latest outputs that carry the D-parameter token and the
  permissioned-candidates token as of the data epoch (db-sync-follower `candidates` and `db_model`).
 */
module TokenUtxos {
  import opened Wrappers
  import opened Chains
  import opened StableEpochs
  import Registrations

  datatype TokenOutput = TokenOutput(asset: nat, index: nat, datum: Option<nat>)

  /** The token outputs of the transactions of a block, which its hash determines. */
  type Contents = nat -> seq<seq<TokenOutput>>

  /** A joined row: an output with its place in the chain. */
  datatype Row = Row(output: TokenOutput, blockNo: nat, txIndex: nat, epoch: nat)

  function TxRows(outputs: seq<TokenOutput>, blockNo: nat, txIndex: nat, epoch: nat): (rows: seq<Row>)
    ensures forall row :: row in rows ==> row.blockNo == blockNo && row.txIndex == txIndex && row.epoch == epoch
    ensures |rows| == |outputs| && forall i :: 0 <= i < |rows| ==> rows[i].output == outputs[i]
  {
    seq(|outputs|, i requires 0 <= i < |outputs| => Row(outputs[i], blockNo, txIndex, epoch))
  }

  /** The rows of the first `n` transactions of a block, in order. */
  function BlockRows(txs: seq<seq<TokenOutput>>, n: nat, blockNo: nat, epoch: nat): (rows: seq<Row>)
    requires n <= |txs|
    ensures forall row :: row in rows ==> row.blockNo == blockNo && row.txIndex < n && row.epoch == epoch
  {
    if n == 0 then [] else BlockRows(txs, n - 1, blockNo, epoch) + TxRows(txs[n - 1], blockNo, n - 1, epoch)
  }

  /** The rows of a chain, in order. */
  function RowsOf(contents: Contents, c: Chain): (rows: seq<Row>)
    ensures forall row :: row in rows ==> row.blockNo < |c|
  {
    if c == [] then []
    else
      var n := |c| - 1;
      var txs := contents(c[n].hash);
      RowsOf(contents, c[..n]) + BlockRows(txs, |txs|, n, c[n].epoch)
  }

  predicate Matches(row: Row, asset: nat, e: int) {
    row.output.asset == asset && row.epoch <= e
  }

  /** The last of the rows that match. */
  function Latest(rows: seq<Row>, asset: nat, e: int): Option<Row> {
    if rows == [] then None
    else if Matches(rows[|rows| - 1], asset, e) then Some(rows[|rows| - 1])
    else Latest(rows[..|rows| - 1], asset, e)
  }

  /** `get_token_utxo_for_epoch`: it filters and orders the rows of the whole chain the follower has. */
  function TokenQuery(contents: Contents, c: Chain, asset: nat, e: int): Option<Row> {
    Latest(RowsOf(contents, c), asset, e)
  }

  // ---------- what the query returns ----------

  /** Earlier in block-number order, and within a block in transaction order. */
  predicate NotLater(a: Row, b: Row) {
    a.blockNo < b.blockNo || (a.blockNo == b.blockNo && a.txIndex <= b.txIndex)
  }

  ghost predicate InOrder(rows: seq<Row>) {
    forall i, j :: 0 <= i < j < |rows| ==> NotLater(rows[i], rows[j])
  }

  lemma {:induction false} BlockRowsInOrder(txs: seq<seq<TokenOutput>>, n: nat, blockNo: nat, epoch: nat)
    requires n <= |txs|
    ensures InOrder(BlockRows(txs, n, blockNo, epoch))
  {
    if n > 0 {
      BlockRowsInOrder(txs, n - 1, blockNo, epoch);
      AppendInOrder(BlockRows(txs, n - 1, blockNo, epoch), TxRows(txs[n - 1], blockNo, n - 1, epoch));
    }
  }

  lemma AppendInOrder(a: seq<Row>, b: seq<Row>)
    requires InOrder(a) && InOrder(b) && forall x, y :: x in a && y in b ==> NotLater(x, y)
    ensures InOrder(a + b)
  {
    var c := a + b;
    forall i, j | 0 <= i < j < |c|
      ensures NotLater(c[i], c[j])
    {
      assert i < |a| ==> c[i] in a;
      assert j >= |a| ==> c[j] in b;
    }
  }

  lemma {:induction false} RowsInOrder(contents: Contents, c: Chain)
    ensures InOrder(RowsOf(contents, c))
  {
    if c != [] {
      var n := |c| - 1;
      var txs := contents(c[n].hash);
      RowsInOrder(contents, c[..n]);
      BlockRowsInOrder(txs, |txs|, n, c[n].epoch);
      AppendInOrder(RowsOf(contents, c[..n]), BlockRows(txs, |txs|, n, c[n].epoch));
    }
  }

  lemma {:induction false} LatestIs(rows: seq<Row>, asset: nat, e: int)
    requires InOrder(rows)
    ensures var r := Latest(rows, asset, e);
            && (r.None? ==> forall row :: row in rows ==> !Matches(row, asset, e))
            && (r.Some? ==> r.value in rows && Matches(r.value, asset, e)
                            && forall row :: row in rows && Matches(row, asset, e) ==> NotLater(row, r.value))
  {
    if rows != [] {
      var before, last := rows[..|rows| - 1], rows[|rows| - 1];
      assert rows == before + [last];
      if !Matches(last, asset, e) {
        LatestIs(before, asset, e);
      } else {
        forall row | row in rows
          ensures NotLater(row, last)
        {
          var i :| 0 <= i < |rows| && rows[i] == row;
        }
      }
    }
  }

  lemma {:induction false} BlockRowsAre(txs: seq<seq<TokenOutput>>, n: nat, blockNo: nat, epoch: nat, row: Row)
    requires n <= |txs|
    ensures row in BlockRows(txs, n, blockNo, epoch) <==>
              row.blockNo == blockNo && row.epoch == epoch && row.txIndex < n && row.output in txs[row.txIndex]
  {
    if n > 0 {
      BlockRowsAre(txs, n - 1, blockNo, epoch, row);
      var rows := TxRows(txs[n - 1], blockNo, n - 1, epoch);
      if row.blockNo == blockNo && row.epoch == epoch && row.txIndex == n - 1 && row.output in txs[n - 1] {
        var j :| 0 <= j < |txs[n - 1]| && txs[n - 1][j] == row.output;
        assert rows[j] == row;
      }
    }
  }

  /** The rows of a chain are the token outputs of the transactions of its blocks, each with its place. */
  lemma {:induction false} RowsAre(contents: Contents, c: Chain, row: Row)
    ensures row in RowsOf(contents, c) <==>
              && row.blockNo < |c| && row.epoch == c[row.blockNo].epoch
              && row.txIndex < |contents(c[row.blockNo].hash)| && row.output in contents(c[row.blockNo].hash)[row.txIndex]
  {
    if c != [] {
      var n := |c| - 1;
      var txs := contents(c[n].hash);
      RowsAre(contents, c[..n], row);
      BlockRowsAre(txs, |txs|, n, c[n].epoch, row);
    }
  }

  /**
    The query returns an output of the asset, of an epoch up to `e`, than which no other such output is in a later block or
    a later transaction of its block; and nothing exactly if there is none.
   */
  lemma QueryIsLatest(contents: Contents, c: Chain, asset: nat, e: int)
    ensures var rows, r := RowsOf(contents, c), TokenQuery(contents, c, asset, e);
            && (r.None? <==> forall row :: row in rows ==> !(row.output.asset == asset && row.epoch <= e))
            && (r.Some? ==>
                  && r.value in rows && r.value.output.asset == asset && r.value.epoch <= e
                  && forall row :: row in rows && row.output.asset == asset && row.epoch <= e ==>
                       row.blockNo < r.value.blockNo || (row.blockNo == r.value.blockNo && row.txIndex <= r.value.txIndex))
  {
    RowsInOrder(contents, c);
    LatestIs(RowsOf(contents, c), asset, e);
  }

  // ---------- it reads the data epoch only ----------

  lemma {:induction false} LatestOfFront(a: seq<Row>, b: seq<Row>, asset: nat, e: int)
    requires forall row :: row in b ==> row.epoch > e
    ensures Latest(a + b, asset, e) == Latest(a, asset, e)
  {
    if b == [] {
      assert a + b == a;
    } else {
      var front := b[..|b| - 1];
      assert (a + b)[..|a + b| - 1] == a + front;
      assert b[|b| - 1] in b;
      LatestOfFront(a, front, asset, e);
    }
  }

  /** Blocks of later epochs do not matter. */
  lemma {:induction false} QueryOfPrefix(contents: Contents, c: Chain, n: nat, asset: nat, e: int)
    requires n <= |c| && forall i :: n <= i < |c| ==> c[i].epoch > e
    ensures TokenQuery(contents, c, asset, e) == TokenQuery(contents, c[..n], asset, e)
  {
    if n == |c| {
      assert c[..n] == c;
    } else {
      var last := |c| - 1;
      var txs := contents(c[last].hash);
      assert c[..last][..n] == c[..n];
      QueryOfPrefix(contents, c[..last], n, asset, e);
      LatestOfFront(RowsOf(contents, c[..last]), BlockRows(txs, |txs|, last, c[last].epoch), asset, e);
    }
  }

  /** The two assets a request is about. */
  type Assets = nat -> (nat, nat)

  /** How the parameters are made of the two outputs; it fails if one is missing or does not decode. */
  type Decoding<!R> = (Option<Row>, Option<Row>) -> Result<R>

  /** `get_ariadne_parameters`, as far as the main chain is concerned. */
  function Parameters<R>(contents: Contents, assets: Assets, decode: Decoding<R>, c: Chain, key: Key): Result<R> {
    if key.epoch < 2 then Err
    else
      var (d, candidates) := assets(key.subject);
      decode(TokenQuery(contents, c, d, key.epoch - 2), TokenQuery(contents, c, candidates, key.epoch - 2))
  }

  /** The same read off the blocks up to the data epoch. */
  function ParametersAtEnd<R>(contents: Contents, assets: Assets, decode: Decoding<R>): Source<R> {
    (blocks: Chain, key: Key) => Parameters(contents, assets, decode, blocks, key)
  }

  lemma {:induction false} LaterEpochs(c: Chain, e: int)
    requires Monotone(c)
    ensures forall i :: Registrations.NumberUpTo(c, e) <= i < |c| ==> c[i].epoch > e
  {
    if c != [] && c[|c| - 1].epoch > e {
      LaterEpochs(c[..|c| - 1], e);
    }
  }

  /** The parameters are read off the blocks up to the data epoch, although later blocks are there to be read. */
  lemma ParametersReadDataEpoch<R>(contents: Contents, assets: Assets, decode: Decoding<R>, c: Chain, key: Key)
    requires Monotone(c)
    ensures Parameters(contents, assets, decode, c, key) == Direct(ParametersAtEnd(contents, assets, decode), c, key)
    ensures key.epoch < 2 ==> Parameters(contents, assets, decode, c, key) == Err
    ensures key.epoch >= 2 ==>
              var e, blocks := key.epoch - 2, UpTo(c, key.epoch - 2);
              Parameters(contents, assets, decode, c, key)
              == decode(TokenQuery(contents, blocks, assets(key.subject).0, e), TokenQuery(contents, blocks, assets(key.subject).1, e))
  {
    if key.epoch >= 2 {
      var e := key.epoch - 2;
      var n := Registrations.NumberUpTo(c, e);
      Registrations.UpToIsPrefix(c, e);
      LaterEpochs(c, e);
      QueryOfPrefix(contents, c, n, assets(key.subject).0, e);
      QueryOfPrefix(contents, c, n, assets(key.subject).1, e);
    }
  }

  /** So, over any run of chain switches and requests, the cached parameters are the uncached ones on the present chain. */
  method ParametersAll<R(==)>(contents: Contents, assets: Assets, decode: Decoding<R>, k: nat, capacity: nat,
                              views: seq<Chain>, keys: seq<Key>)
      returns (answers: seq<Result<R>>)
    requires |views| == |keys| && Follows(k, views)
    requires forall i :: 0 <= i < |views| ==> Monotone(views[i])
    ensures |answers| == |keys|
    ensures forall i :: 0 <= i < |keys| ==>
              answers[i] == if LatestStableEpoch(k, views[i]).Undecodable? then Err
                            else Parameters(contents, assets, decode, views[i], keys[i])
  {
    answers := AnswerAll(ParametersAtEnd(contents, assets, decode), k, capacity, views, keys);
    forall i | 0 <= i < |keys|
      ensures answers[i] == if LatestStableEpoch(k, views[i]).Undecodable? then Err
                            else Parameters(contents, assets, decode, views[i], keys[i])
    {
      ParametersReadDataEpoch(contents, assets, decode, views[i], keys[i]);
    }
  }
}
