/**
  The two SQL queries over the db-sync tables that observe transfers to the illiquid supply address:
  the total since genesis and the amounts block by block (db-sync-follower `db_model`).
  A join is written as a sum over the joined rows; a left join keeps a row that matches nothing.
 */
module TransferQueries {
  import opened Sums
  import opened TokenChain

  datatype BlockRow = BlockRow(id: nat, number: nat, hash: nat)
  datatype TxRow = TxRow(id: nat, blockId: nat)
  datatype TxOutRow = TxOutRow(id: nat, txId: nat, address: nat)
  datatype MaTxOutRow = MaTxOutRow(txOutId: nat, ident: nat, quantity: nat)
  datatype MultiAssetRow = MultiAssetRow(id: nat, policy: nat, name: nat)

  datatype Tables = Tables(
    blocks: seq<BlockRow>,
    txs: seq<TxRow>,
    outs: seq<TxOutRow>,
    assetOuts: seq<MaTxOutRow>,
    assets: seq<MultiAssetRow>)

  /** The configured native token and the illiquid supply address. */
  datatype Scripts = Scripts(policy: nat, name: nat, address: nat)

  /** Asset ids are a primary key, and the block table is read in block-number order. */
  ghost predicate WellFormed(db: Tables) {
    && (forall i, j :: 0 <= i < |db.assets| && 0 <= j < |db.assets| && db.assets[i].id == db.assets[j].id ==> i == j)
    && (forall i :: 0 <= i < |db.blocks| ==> db.blocks[i].number == i)
  }

  // The terms of the sums, one per joined row.

  function AssetTerm(s: Scripts, m: MaTxOutRow): MultiAssetRow -> nat {
    (a: MultiAssetRow) => if a.id == m.ident && a.policy == s.policy && a.name == s.name then 1 else 0
  }

  /** How many rows the configured asset contributes for `m`. */
  function AssetMatches(db: Tables, s: Scripts, m: MaTxOutRow): nat {
    Sum(db.assets, AssetTerm(s, m))
  }

  function FilteredTerm(db: Tables, s: Scripts, o: TxOutRow): MaTxOutRow -> nat {
    (m: MaTxOutRow) => if m.txOutId == o.id then AssetMatches(db, s, m) * m.quantity else 0
  }

  function OtherTerm(db: Tables, s: Scripts, o: TxOutRow): MaTxOutRow -> nat {
    (m: MaTxOutRow) => if m.txOutId == o.id && AssetMatches(db, s, m) == 0 then m.quantity else 0
  }

  /** A left-joined row that matches nothing still counts once. */
  function LeftJoinTerm(db: Tables, s: Scripts, o: TxOutRow): MaTxOutRow -> nat {
    (m: MaTxOutRow) =>
      if m.txOutId == o.id then (if AssetMatches(db, s, m) == 0 then 1 else AssetMatches(db, s, m)) * m.quantity else 0
  }

  function PlacedUpToTerm(o: TxOutRow, to: int): (TxRow, BlockRow) -> nat {
    (t: TxRow, b: BlockRow) => if t.id == o.txId && b.id == t.blockId && b.number <= to then 1 else 0
  }

  /** The transaction and block rows joined to an output, up to a block number. */
  function PlacedUpTo(db: Tables, o: TxOutRow, to: int): nat {
    JoinSum(db.txs, db.blocks, PlacedUpToTerm(o, to))
  }

  /** `SUM(quantity)` over the assets of one output, the asset filter being in the `WHERE` clause. */
  function FilteredQuantity(db: Tables, s: Scripts, o: TxOutRow): nat {
    Sum(db.assetOuts, FilteredTerm(db, s, o))
  }

  /** The same sum with the asset filter in the `ON` clause of the left join. */
  function LeftJoinedQuantity(db: Tables, s: Scripts, o: TxOutRow): nat {
    Sum(db.assetOuts, LeftJoinTerm(db, s, o))
  }

  /** What an output carries of other assets than the configured one. */
  function OtherQuantity(db: Tables, s: Scripts, o: TxOutRow): nat {
    Sum(db.assetOuts, OtherTerm(db, s, o))
  }

  function TotalTerm(db: Tables, s: Scripts, to: int): TxOutRow -> nat {
    (o: TxOutRow) => if o.address == s.address then PlacedUpTo(db, o, to) * FilteredQuantity(db, s, o) else 0
  }

  /** `get_total_native_tokens_transfered` */
  function TotalQuery(db: Tables, s: Scripts, to: int): nat {
    Sum(db.outs, TotalTerm(db, s, to))
  }

  function BlockContribution(db: Tables, s: Scripts, b: BlockRow, t: TxRow, o: TxOutRow): nat {
    if t.blockId == b.id && o.txId == t.id && o.address == s.address then LeftJoinedQuantity(db, s, o) else 0
  }

  function BlockTerm(db: Tables, s: Scripts, b: BlockRow): (TxRow, TxOutRow) -> nat {
    (t: TxRow, o: TxOutRow) => BlockContribution(db, s, b, t, o)
  }

  /** The amount column of `get_native_token_transfers` for one block. */
  function BlockQuery(db: Tables, s: Scripts, b: BlockRow): nat {
    JoinSum(db.txs, db.outs, BlockTerm(db, s, b))
  }

  function RowsBetween(db: Tables, s: Scripts, blocks: seq<BlockRow>, from: nat, to: int): seq<BlockAmount> {
    if blocks == [] then []
    else
      (if from <= blocks[0].number <= to then [BlockAmount(blocks[0].hash, BlockQuery(db, s, blocks[0]))] else [])
      + RowsBetween(db, s, blocks[1..], from, to)
  }

  /** `get_native_token_transfers` */
  function TransfersQuery(db: Tables, s: Scripts, from: nat, to: int): seq<BlockAmount> {
    RowsBetween(db, s, db.blocks, from, to)
  }

  // ---------- the block-by-block reading of the tables ----------

  function PlacedTerm(o: TxOutRow, b: BlockRow): TxRow -> nat {
    (t: TxRow) => if t.id == o.txId && b.id == t.blockId then 1 else 0
  }

  function Placed(db: Tables, o: TxOutRow, b: BlockRow): nat {
    Sum(db.txs, PlacedTerm(o, b))
  }

  function LockedTerm(db: Tables, s: Scripts, b: BlockRow): TxOutRow -> nat {
    (o: TxOutRow) => if o.address == s.address then Placed(db, o, b) * FilteredQuantity(db, s, o) else 0
  }

  function ForeignTerm(db: Tables, s: Scripts, b: BlockRow): TxOutRow -> nat {
    (o: TxOutRow) => if o.address == s.address then Placed(db, o, b) * OtherQuantity(db, s, o) else 0
  }

  function SeenTerm(db: Tables, s: Scripts, b: BlockRow): TxOutRow -> nat {
    (o: TxOutRow) => if o.address == s.address then Placed(db, o, b) * LeftJoinedQuantity(db, s, o) else 0
  }

  function LockedInBlock(db: Tables, s: Scripts, b: BlockRow): nat {
    Sum(db.outs, LockedTerm(db, s, b))
  }

  function ForeignInBlock(db: Tables, s: Scripts, b: BlockRow): nat {
    Sum(db.outs, ForeignTerm(db, s, b))
  }

  function ObservedBlock(db: Tables, s: Scripts, b: BlockRow): TokenBlock {
    TokenBlock(b.hash, LockedInBlock(db, s, b), ForeignInBlock(db, s, b))
  }

  function Observed(db: Tables, s: Scripts): (c: Chain)
    ensures |c| == |db.blocks|
  {
    seq(|db.blocks|, i requires 0 <= i < |db.blocks| => ObservedBlock(db, s, db.blocks[i]))
  }

  /** The row `m` carries the configured token: its asset has both the policy and the name of the scripts. */
  ghost predicate OfConfigured(db: Tables, s: Scripts, m: MaTxOutRow) {
    exists i :: 0 <= i < |db.assets| && db.assets[i].id == m.ident && db.assets[i].policy == s.policy && db.assets[i].name == s.name
  }

  /** Which asset counts as the configured token: exactly the one of the scripts' policy and name. */
  lemma MatchesIff(db: Tables, s: Scripts, m: MaTxOutRow)
    requires WellFormed(db)
    ensures AssetMatches(db, s, m) == if OfConfigured(db, s, m) then 1 else 0
  {
    if i :| 0 <= i < |db.assets| && db.assets[i].id == m.ident {
      SumOnly(db.assets, AssetTerm(s, m), i);
    } else {
      SumZero(db.assets, AssetTerm(s, m));
    }
  }

  /** And row by row: of the asset `i` the row refers to, policy and name decide. */
  lemma AssetDecides(db: Tables, s: Scripts, m: MaTxOutRow, i: nat)
    requires WellFormed(db) && i < |db.assets| && db.assets[i].id == m.ident
    ensures AssetMatches(db, s, m) == if db.assets[i].policy == s.policy && db.assets[i].name == s.name then 1 else 0
  {
    SumOnly(db.assets, AssetTerm(s, m), i);
  }

  ghost function ConfiguredTerm(db: Tables, s: Scripts, o: TxOutRow): MaTxOutRow -> nat {
    (m: MaTxOutRow) => if m.txOutId == o.id && OfConfigured(db, s, m) then m.quantity else 0
  }

  ghost function NotConfiguredTerm(db: Tables, s: Scripts, o: TxOutRow): MaTxOutRow -> nat {
    (m: MaTxOutRow) => if m.txOutId == o.id && !OfConfigured(db, s, m) then m.quantity else 0
  }

  /** What counts of an output is the sum of exactly its rows of the configured asset, and the rest is that of all its other rows. */
  lemma QuantitiesAre(db: Tables, s: Scripts, o: TxOutRow)
    requires WellFormed(db)
    ensures FilteredQuantity(db, s, o) == Sum(db.assetOuts, ConfiguredTerm(db, s, o))
    ensures OtherQuantity(db, s, o) == Sum(db.assetOuts, NotConfiguredTerm(db, s, o))
  {
    forall m { MatchesIff(db, s, m); }
    SumEqual(db.assetOuts, FilteredTerm(db, s, o), ConfiguredTerm(db, s, o));
    SumEqual(db.assetOuts, OtherTerm(db, s, o), NotConfiguredTerm(db, s, o));
  }

  ghost function ConfiguredInTotal(db: Tables, s: Scripts, to: int): TxOutRow -> nat {
    (o: TxOutRow) => if o.address == s.address then PlacedUpTo(db, o, to) * Sum(db.assetOuts, ConfiguredTerm(db, s, o)) else 0
  }

  /** The total query adds up the rows of the configured asset at the address, up to the bound. */
  lemma TotalQueryIs(db: Tables, s: Scripts, to: int)
    requires WellFormed(db)
    ensures TotalQuery(db, s, to) == Sum(db.outs, ConfiguredInTotal(db, s, to))
  {
    forall o { QuantitiesAre(db, s, o); }
    SumEqual(db.outs, TotalTerm(db, s, to), ConfiguredInTotal(db, s, to));
  }

  ghost function ConfiguredInBlock(db: Tables, s: Scripts, b: BlockRow): TxOutRow -> nat {
    (o: TxOutRow) => if o.address == s.address then Placed(db, o, b) * Sum(db.assetOuts, ConfiguredTerm(db, s, o)) else 0
  }

  ghost function NotConfiguredInBlock(db: Tables, s: Scripts, b: BlockRow): TxOutRow -> nat {
    (o: TxOutRow) => if o.address == s.address then Placed(db, o, b) * Sum(db.assetOuts, NotConfiguredTerm(db, s, o)) else 0
  }

  /** What a block adds of the configured token, and of all other assets, at the address. */
  lemma BlockAmountsAre(db: Tables, s: Scripts, b: BlockRow)
    requires WellFormed(db)
    ensures LockedInBlock(db, s, b) == Sum(db.outs, ConfiguredInBlock(db, s, b))
    ensures ForeignInBlock(db, s, b) == Sum(db.outs, NotConfiguredInBlock(db, s, b))
  {
    forall o { QuantitiesAre(db, s, o); }
    SumEqual(db.outs, LockedTerm(db, s, b), ConfiguredInBlock(db, s, b));
    SumEqual(db.outs, ForeignTerm(db, s, b), NotConfiguredInBlock(db, s, b));
  }

  lemma LeftJoinCountsBoth(db: Tables, s: Scripts, o: TxOutRow)
    requires WellFormed(db)
    ensures LeftJoinedQuantity(db, s, o) == FilteredQuantity(db, s, o) + OtherQuantity(db, s, o)
  {
    forall m { MatchesIff(db, s, m); }
    SumAdd(db.assetOuts, FilteredTerm(db, s, o), OtherTerm(db, s, o), LeftJoinTerm(db, s, o));
  }

  lemma BlockColumn(db: Tables, s: Scripts, b: BlockRow, o: TxOutRow)
    ensures Sum(db.txs, Column(BlockTerm(db, s, b), o)) == SeenTerm(db, s, b)(o)
  {
    if o.address == s.address {
      SumScale(db.txs, LeftJoinedQuantity(db, s, o), PlacedTerm(o, b), Column(BlockTerm(db, s, b), o));
    } else {
      SumZero(db.txs, Column(BlockTerm(db, s, b), o));
    }
  }

  /** One row of the per-block query is the block's own token plus everything else sent to the address. */
  lemma BlockQueryCountsBoth(db: Tables, s: Scripts, b: BlockRow)
    requires WellFormed(db)
    ensures BlockQuery(db, s, b) == LockedInBlock(db, s, b) + ForeignInBlock(db, s, b)
  {
    forall o { BlockColumn(db, s, b, o); }
    JoinSumByColumn(db.txs, db.outs, BlockTerm(db, s, b), SeenTerm(db, s, b));
    forall o: TxOutRow
      ensures SeenTerm(db, s, b)(o) == LockedTerm(db, s, b)(o) + ForeignTerm(db, s, b)(o)
    {
      LeftJoinCountsBoth(db, s, o);
      Distribute(Placed(db, o, b), FilteredQuantity(db, s, o), OtherQuantity(db, s, o));
    }
    SumAdd(db.outs, LockedTerm(db, s, b), ForeignTerm(db, s, b), SeenTerm(db, s, b));
  }

  lemma Distribute(n: nat, x: nat, y: nat)
    ensures n * (x + y) == n * x + n * y
  {
  }

  /** The blocks numbered `from` to `to`, both included. */
  function Between(c: Chain, from: nat, to: int): Chain {
    if from <= to < |c| then c[from..to + 1] else []
  }

  lemma RowsStep(c: Chain, from: nat, to: int)
    requires from <= to < |c|
    ensures Rows(Between(c, from, to))
         == [BlockAmount(c[from].hash, c[from].locked + c[from].foreign)] + Rows(Between(c, from + 1, to))
  {
  }

  lemma ObservedRow(db: Tables, s: Scripts, i: nat)
    requires WellFormed(db) && i < |db.blocks|
    ensures var b := Observed(db, s)[i];
            BlockAmount(db.blocks[i].hash, BlockQuery(db, s, db.blocks[i])) == BlockAmount(b.hash, b.locked + b.foreign)
  {
    BlockQueryCountsBoth(db, s, db.blocks[i]);
  }

  lemma RowsBetweenStep(db: Tables, s: Scripts, offset: nat, from: nat, to: int)
    requires WellFormed(db) && offset < |db.blocks|
    ensures RowsBetween(db, s, db.blocks[offset..], from, to)
         == (if from <= offset <= to then [BlockAmount(db.blocks[offset].hash, BlockQuery(db, s, db.blocks[offset]))] else [])
            + RowsBetween(db, s, db.blocks[offset + 1..], from, to)
  {
    var blocks := db.blocks[offset..];
    assert blocks[1..] == db.blocks[offset + 1..];
  }

  function Later(from: nat, offset: nat): nat {
    if from < offset then offset else from
  }

  lemma BetweenStep(c: Chain, offset: nat, from: nat, to: int)
    requires offset < |c| && to < |c|
    ensures Rows(Between(c, Later(from, offset), to))
         == (if from <= offset <= to then [BlockAmount(c[offset].hash, c[offset].locked + c[offset].foreign)] else [])
            + Rows(Between(c, Later(from, offset + 1), to))
  {
    if from <= offset <= to {
      RowsStep(c, offset, to);
    } else if from <= offset {
      assert Between(c, offset, to) == Between(c, offset + 1, to) == [];
    }
  }

  lemma {:induction false} RowsAreObserved(db: Tables, s: Scripts, offset: nat, from: nat, to: int)
    requires WellFormed(db) && offset <= |db.blocks| && to < |db.blocks|
    ensures RowsBetween(db, s, db.blocks[offset..], from, to) == Rows(Between(Observed(db, s), Later(from, offset), to))
    decreases |db.blocks| - offset
  {
    if offset == |db.blocks| {
      assert db.blocks[offset..] == [];
    } else {
      RowsBetweenStep(db, s, offset, from, to);
      RowsAreObserved(db, s, offset + 1, from, to);
      ObservedRow(db, s, offset);
      BetweenStep(Observed(db, s), offset, from, to);
    }
  }

  /** The rows of the per-block query are the observed blocks of the range. */
  lemma TransfersAreObserved(db: Tables, s: Scripts, from: nat, to: nat)
    requires WellFormed(db) && from <= to + 1 <= |db.blocks|
    ensures TransfersQuery(db, s, from, to) == Rows(Observed(db, s)[from..to + 1])
  {
    assert db.blocks[0..] == db.blocks;
    RowsAreObserved(db, s, 0, from, to);
  }

  lemma PlacedUpToColumn(db: Tables, o: TxOutRow, to: int, b: BlockRow)
    ensures Sum(db.txs, Column(PlacedUpToTerm(o, to), b)) == if b.number <= to then Placed(db, o, b) else 0
  {
    if b.number <= to {
      SumEqual(db.txs, Column(PlacedUpToTerm(o, to), b), PlacedTerm(o, b));
    } else {
      SumZero(db.txs, Column(PlacedUpToTerm(o, to), b));
    }
  }

  function TotalContribution(db: Tables, s: Scripts, to: int, b: BlockRow, o: TxOutRow): nat {
    if b.number <= to && o.address == s.address then FilteredQuantity(db, s, o) * Placed(db, o, b) else 0
  }

  function TotalJoinTerm(db: Tables, s: Scripts, to: int): (BlockRow, TxOutRow) -> nat {
    (b: BlockRow, o: TxOutRow) => TotalContribution(db, s, to, b, o)
  }

  function PlacedIfTerm(db: Tables, o: TxOutRow, to: int): BlockRow -> nat {
    (b: BlockRow) => if b.number <= to then Placed(db, o, b) else 0
  }

  lemma PlacedByBlock(db: Tables, o: TxOutRow, to: int)
    ensures PlacedUpTo(db, o, to) == Sum(db.blocks, PlacedIfTerm(db, o, to))
  {
    forall b { PlacedUpToColumn(db, o, to, b); }
    JoinSumByColumn(db.txs, db.blocks, PlacedUpToTerm(o, to), PlacedIfTerm(db, o, to));
  }

  lemma TotalColumn(db: Tables, s: Scripts, to: int, o: TxOutRow)
    ensures TotalTerm(db, s, to)(o) == Sum(db.blocks, Column(TotalJoinTerm(db, s, to), o))
  {
    PlacedByBlock(db, o, to);
    if o.address == s.address {
      SumScale(db.blocks, FilteredQuantity(db, s, o), PlacedIfTerm(db, o, to), Column(TotalJoinTerm(db, s, to), o));
    } else {
      SumZero(db.blocks, Column(TotalJoinTerm(db, s, to), o));
    }
  }

  lemma TotalRowTerm(db: Tables, s: Scripts, to: int, b: BlockRow, o: TxOutRow)
    ensures Row(TotalJoinTerm(db, s, to), b)(o) == if b.number <= to then LockedTerm(db, s, b)(o) else 0
  {
  }

  lemma TotalRow(db: Tables, s: Scripts, to: int, b: BlockRow)
    ensures Sum(db.outs, Row(TotalJoinTerm(db, s, to), b)) == if b.number <= to then LockedInBlock(db, s, b) else 0
  {
    forall o: TxOutRow
      ensures Row(TotalJoinTerm(db, s, to), b)(o) == if b.number <= to then LockedTerm(db, s, b)(o) else 0
    {
      TotalRowTerm(db, s, to, b, o);
    }
    if b.number <= to {
      SumEqual(db.outs, Row(TotalJoinTerm(db, s, to), b), LockedTerm(db, s, b));
    } else {
      SumZero(db.outs, Row(TotalJoinTerm(db, s, to), b));
    }
  }

  lemma LockedStep(c: Chain, from: nat, to: int)
    requires from <= to < |c|
    ensures Locked(Between(c, from, to)) == c[from].locked + Locked(Between(c, from + 1, to))
  {
    assert Between(c, from, to)[1..] == Between(c, from + 1, to);
  }

  lemma {:induction false} TotalRows(db: Tables, s: Scripts, to: int, n: nat)
    requires WellFormed(db) && n <= |db.blocks| && to < |db.blocks|
    ensures JoinSum(db.blocks[n..], db.outs, TotalJoinTerm(db, s, to)) == Locked(Between(Observed(db, s), n, to))
    decreases |db.blocks| - n
  {
    if n < |db.blocks| {
      assert db.blocks[n..][1..] == db.blocks[n + 1..];
      TotalRows(db, s, to, n + 1);
      TotalRow(db, s, to, db.blocks[n]);
      if n <= to {
        LockedStep(Observed(db, s), n, to);
      }
    }
  }

  /** The total since genesis is what the blocks up to `to` add of the configured token, and nothing else. */
  lemma TotalQueryCountsLocked(db: Tables, s: Scripts, to: int)
    requires WellFormed(db) && to < |db.blocks|
    ensures TotalQuery(db, s, to) == Locked(Observed(db, s)[..if to < 0 then 0 else to + 1])
  {
    forall o { TotalColumn(db, s, to, o); }
    JoinSumByColumn(db.blocks, db.outs, TotalJoinTerm(db, s, to), TotalTerm(db, s, to));
    assert db.blocks[0..] == db.blocks;
    TotalRows(db, s, to, 0);
  }

  /**
    The total up to a later block is the total up to an earlier one plus the per-block amounts in between,
    if and only if no other asset was sent to the address in those blocks.
   */
  lemma TotalsAgree(db: Tables, s: Scripts, m: nat, n: nat)
    requires WellFormed(db) && m <= n < |db.blocks|
    ensures TotalQuery(db, s, n) == TotalQuery(db, s, m) + Amounts(TransfersQuery(db, s, m + 1, n))
       <==> forall i :: m < i <= n ==> ForeignInBlock(db, s, db.blocks[i]) == 0
  {
    var c := Observed(db, s);
    var between := c[m + 1..n + 1];
    assert TotalQuery(db, s, n) == TotalQuery(db, s, m) + Locked(between) by {
      TotalQueryCountsLocked(db, s, n);
      TotalQueryCountsLocked(db, s, m);
      LockedSplit(c, 0, m + 1, n + 1);
    }
    assert Amounts(TransfersQuery(db, s, m + 1, n)) == Locked(between) + Foreign(between) by {
      TransfersAreObserved(db, s, m + 1, n);
      RowsCountBoth(between);
    }
    NoForeign(db, s, m, n);
  }

  lemma NoForeign(db: Tables, s: Scripts, m: nat, n: nat)
    requires m <= n < |db.blocks|
    ensures Foreign(Observed(db, s)[m + 1..n + 1]) == 0
       <==> forall i :: m < i <= n ==> ForeignInBlock(db, s, db.blocks[i]) == 0
  {
    var between := Observed(db, s)[m + 1..n + 1];
    SumZero(between, (b: TokenBlock) => b.foreign);
    forall i | m < i <= n
      ensures between[i - (m + 1)].foreign == ForeignInBlock(db, s, db.blocks[i]) && between[i - (m + 1)] in between
    {
    }
    forall b | b in between
      ensures exists i :: m < i <= n && b.foreign == ForeignInBlock(db, s, db.blocks[i])
    {
      var k :| 0 <= k < |between| && between[k] == b;
      assert b.foreign == ForeignInBlock(db, s, db.blocks[k + m + 1]);
    }
  }

  /** Two blocks; in the second, five units of the asset with this policy and name reach address 1. */
  function OneTransfer(policy: nat, name: nat): Tables {
    Tables([BlockRow(0, 0, 0), BlockRow(1, 1, 1)], [TxRow(0, 1)], [TxOutRow(0, 0, 1)],
           [MaTxOutRow(0, 0, 5)], [MultiAssetRow(0, policy, name)])
  }

  lemma OtherAssetIsForeign(policy: nat, name: nat, s: Scripts)
    requires s.address == 1 && (policy != s.policy || name != s.name)
    ensures var db := OneTransfer(policy, name); ForeignInBlock(db, s, db.blocks[1]) == 5 && LockedInBlock(db, s, db.blocks[1]) == 0
  {
    var db := OneTransfer(policy, name);
    var o, b, m := db.outs[0], db.blocks[1], db.assetOuts[0];
    assert AssetMatches(db, s, m) == 0 by { SumOnly(db.assets, AssetTerm(s, m), 0); }
    assert OtherQuantity(db, s, o) == 5 by { SumOnly(db.assetOuts, OtherTerm(db, s, o), 0); }
    assert Placed(db, o, b) == 1 by { SumOnly(db.txs, PlacedTerm(o, b), 0); }
    assert ForeignInBlock(db, s, b) == 5 by { SumOnly(db.outs, ForeignTerm(db, s, b), 0); }
    assert FilteredQuantity(db, s, o) == 0 by { SumOnly(db.assetOuts, FilteredTerm(db, s, o), 0); }
    assert LockedInBlock(db, s, b) == 0 by { SumOnly(db.outs, LockedTerm(db, s, b), 0); }
  }

  /** An asset of another policy, or only of another name: the total stays, the per-block amount does not, so the queries disagree. */
  lemma OtherAssetBreaksAgreement(policy: nat, name: nat, s: Scripts)
    requires s.address == 1 && (policy != s.policy || name != s.name)
    ensures var db := OneTransfer(policy, name);
            && WellFormed(db) && TotalQuery(db, s, 1) == TotalQuery(db, s, 0)
            && TotalQuery(db, s, 1) != TotalQuery(db, s, 0) + Amounts(TransfersQuery(db, s, 1, 1))
  {
    var db := OneTransfer(policy, name);
    OtherAssetIsForeign(policy, name, s);
    TotalGrows(db, s);
    ForeignBreaksAgreement(db, s);
  }

  lemma TotalGrows(db: Tables, s: Scripts)
    requires WellFormed(db) && |db.blocks| == 2
    ensures TotalQuery(db, s, 1) == TotalQuery(db, s, 0) + LockedInBlock(db, s, db.blocks[1])
  {
    var c := Observed(db, s);
    TotalQueryCountsLocked(db, s, 1);
    TotalQueryCountsLocked(db, s, 0);
    LockedSplit(c, 0, 1, 2);
    assert c[1..2] == [c[1]];
    OneBlock(c[1]);
  }

  lemma ForeignBreaksAgreement(db: Tables, s: Scripts)
    requires WellFormed(db) && |db.blocks| == 2 && ForeignInBlock(db, s, db.blocks[1]) != 0
    ensures TotalQuery(db, s, 1) != TotalQuery(db, s, 0) + Amounts(TransfersQuery(db, s, 1, 1))
  {
    TotalsAgree(db, s, 0, 1);
  }
}
