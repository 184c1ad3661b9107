/**
  The unspent-outputs query against a replay of the ledger (db-sync-follower `get_utxos_for_address`).
  A ledger is the sequence of its transactions in chain order.
 */
module Utxos {
  import opened Wrappers

  datatype OutRef = OutRef(tx: nat, index: nat)
  datatype Output = Output(address: nat, datum: Option<nat>)

  /** Where a transaction sits besides its block number. */
  datatype Place = Place(slot: nat, epoch: nat, indexInBlock: nat)

  datatype Tx = Tx(hash: nat, blockNo: nat, place: Place, inputs: seq<OutRef>, outputs: seq<Output>)

  type Ledger = seq<Tx>

  // ---------- replay ----------

  function Created(t: Tx): set<OutRef> {
    set i | 0 <= i < |t.outputs| :: OutRef(t.hash, i)
  }

  /** The unspent outputs after the transactions of all blocks up to `b`. */
  function UnspentAt(l: Ledger, b: nat): set<OutRef> {
    if l == [] then {}
    else
      var t, before := l[|l| - 1], UnspentAt(l[..|l| - 1], b);
      if t.blockNo <= b then before - (set r | r in t.inputs) + Created(t) else before
  }

  /** Block numbers do not decrease, hashes are new, and inputs are distinct unspent outputs. */
  ghost predicate Valid(l: Ledger) {
    l != [] ==>
      var t, before := l[|l| - 1], l[..|l| - 1];
      && Valid(before)
      && (forall u :: u in before ==> u.hash != t.hash && u.blockNo <= t.blockNo)
      && (forall i, j :: 0 <= i < j < |t.inputs| ==> t.inputs[i] != t.inputs[j])
      && (forall r :: r in t.inputs ==> r in UnspentAt(before, t.blockNo))
  }

  // ---------- the query ----------

  /** The block numbers of the inputs that match `r`: one per row of the consuming join. */
  function MatchingInputs(inputs: seq<OutRef>, blockNo: nat, r: OutRef): seq<nat> {
    if inputs == [] then []
    else MatchingInputs(inputs[..|inputs| - 1], blockNo, r) + if inputs[|inputs| - 1] == r then [blockNo] else []
  }

  function Consumers(l: Ledger, r: OutRef): seq<nat> {
    if l == [] then []
    else Consumers(l[..|l| - 1], r) + MatchingInputs(l[|l| - 1].inputs, l[|l| - 1].blockNo, r)
  }

  function Above(blockNos: seq<nat>, b: nat): nat {
    if blockNos == [] then 0
    else Above(blockNos[..|blockNos| - 1], b) + if blockNos[|blockNos| - 1] > b then 1 else 0
  }

  /** The joined rows of an output that pass the filter: not consumed at all, or consumed above `b`. */
  function PassingRows(l: Ledger, r: OutRef, b: nat): nat {
    if Consumers(l, r) == [] then 1 else Above(Consumers(l, r), b)
  }

  /** An output reference as printed for the inputs column; `None` when the join leaves part of it null. */
  function PrintedInput(l: Ledger, r: OutRef): Option<OutRef> {
    if exists t :: t in l && t.hash == r.tx && r.index < |t.outputs| then Some(r) else None
  }

  function PrintedInputs(l: Ledger, t: Tx): seq<Option<OutRef>> {
    if t.inputs == [] then [None]
    else seq(|t.inputs|, i requires 0 <= i < |t.inputs| => PrintedInput(l, t.inputs[i]))
  }

  function Copies(s: seq<Option<OutRef>>, n: nat): seq<Option<OutRef>> {
    if n == 0 then [] else Copies(s, n - 1) + s
  }

  /** One group of the query; the inputs of the origin transaction are repeated for every joined row. */
  datatype Group = Group(ref: OutRef, blockNo: nat, place: Place, output: Output, inputs: seq<Option<OutRef>>)

  function GroupOf(l: Ledger, t: Tx, i: nat, b: nat): Group
    requires i < |t.outputs|
  {
    var r := OutRef(t.hash, i);
    Group(r, t.blockNo, t.place, t.outputs[i], Copies(PrintedInputs(l, t), PassingRows(l, r, b)))
  }

  predicate Selected(l: Ledger, t: Tx, i: nat, b: nat, address: nat)
    requires i < |t.outputs|
  {
    t.outputs[i].address == address && t.blockNo <= b && PassingRows(l, OutRef(t.hash, i), b) > 0
  }

  function TxGroups(l: Ledger, t: Tx, n: nat, b: nat, address: nat): seq<Group>
    requires n <= |t.outputs|
  {
    if n == 0 then []
    else TxGroups(l, t, n - 1, b, address) + if Selected(l, t, n - 1, b, address) then [GroupOf(l, t, n - 1, b)] else []
  }

  function Groups(l: Ledger, txs: seq<Tx>, b: nat, address: nat): seq<Group> {
    if txs == [] then []
    else
      var t := txs[|txs| - 1];
      Groups(l, txs[..|txs| - 1], b, address) + TxGroups(l, t, |t.outputs|, b, address)
  }

  /** The order of the inputs is not promised. */
  datatype Row = Row(ref: OutRef, blockNo: nat, place: Place, output: Output, inputs: multiset<OutRef>)

  predicate Parses(g: Group) {
    forall i :: 0 <= i < |g.inputs| ==> g.inputs[i].Some?
  }

  function ParsedInputs(g: Group): seq<OutRef>
    requires Parses(g)
  {
    seq(|g.inputs|, i requires 0 <= i < |g.inputs| => g.inputs[i].value)
  }

  function Parse(g: Group): Row
    requires Parses(g)
  {
    Row(g.ref, g.blockNo, g.place, g.output, multiset(ParsedInputs(g)))
  }

  function ParsedRows(groups: seq<Group>): seq<Row>
    requires forall i :: 0 <= i < |groups| ==> Parses(groups[i])
  {
    seq(|groups|, i requires 0 <= i < |groups| => Parse(groups[i]))
  }

  /** `get_utxos_for_address`: one input that does not parse fails the whole query; the order of the rows is not promised. */
  function Query(l: Ledger, address: nat, b: nat): Result<multiset<Row>> {
    var groups := Groups(l, l, b, address);
    if forall i :: 0 <= i < |groups| ==> Parses(groups[i])
    then Ok(multiset(ParsedRows(groups)))
    else Err
  }

  // ---------- the replay, characterised ----------

  ghost predicate CreatedBy(l: Ledger, r: OutRef, b: nat) {
    exists t :: t in l && t.blockNo <= b && r in Created(t)
  }

  ghost predicate SpentBy(l: Ledger, r: OutRef, b: nat) {
    exists t :: t in l && t.blockNo <= b && r in t.inputs
  }

  /** After replay an output is unspent exactly when it was created and not spent. */
  lemma {:induction false} UnspentIff(l: Ledger, r: OutRef, b: nat)
    requires Valid(l)
    ensures r in UnspentAt(l, b) <==> CreatedBy(l, r, b) && !SpentBy(l, r, b)
  {
    if l != [] {
      var t, before := l[|l| - 1], l[..|l| - 1];
      UnspentIff(before, r, b);
      assert l == before + [t];
      if t.blockNo <= b && r in Created(t) {
        NotSpentBeforeCreated(l, r);
      }
    }
  }

  /** Outputs of the last transaction are not inputs of any transaction. */
  lemma NotSpentBeforeCreated(l: Ledger, r: OutRef)
    requires Valid(l) && l != [] && r in Created(l[|l| - 1])
    ensures forall u :: u in l ==> r !in u.inputs
  {
    var t, before := l[|l| - 1], l[..|l| - 1];
    forall u | u in l
      ensures r !in u.inputs
    {
      var i :| 0 <= i < |l| && l[i] == u;
      InputsAreEarlier(l, i);
      forall v | v in l[..i] ensures v in before {}
    }
  }

  lemma {:induction false} UnspentWasCreated(l: Ledger, b: nat, r: OutRef)
    requires r in UnspentAt(l, b)
    ensures exists t :: t in l && t.blockNo <= b && r in Created(t)
  {
    var t, before := l[|l| - 1], l[..|l| - 1];
    if t.blockNo > b || r !in Created(t) {
      UnspentWasCreated(before, b, r);
    }
  }

  lemma {:induction false} InputsAreEarlier(l: Ledger, i: nat)
    requires Valid(l) && i < |l|
    ensures forall r :: r in l[i].inputs ==> exists t :: t in l[..i] && r in Created(t)
  {
    var before := l[..|l| - 1];
    if i == |l| - 1 {
      forall r | r in l[i].inputs
        ensures exists t :: t in l[..i] && r in Created(t)
      {
        UnspentWasCreated(before, l[i].blockNo, r);
      }
    } else {
      InputsAreEarlier(before, i);
      assert before[..i] == l[..i];
    }
  }

  // ---------- the joins, characterised ----------

  lemma {:induction false} MatchOnce(inputs: seq<OutRef>, blockNo: nat, r: OutRef)
    requires forall i, j :: 0 <= i < j < |inputs| ==> inputs[i] != inputs[j]
    ensures MatchingInputs(inputs, blockNo, r) == if r in inputs then [blockNo] else []
  {
    if inputs != [] {
      MatchOnce(inputs[..|inputs| - 1], blockNo, r);
      assert inputs == inputs[..|inputs| - 1] + [inputs[|inputs| - 1]];
    }
  }

  lemma {:induction false} MatchesIff(inputs: seq<OutRef>, blockNo: nat, r: OutRef)
    ensures MatchingInputs(inputs, blockNo, r) != [] <==> r in inputs
  {
    if inputs != [] {
      MatchesIff(inputs[..|inputs| - 1], blockNo, r);
      assert inputs == inputs[..|inputs| - 1] + [inputs[|inputs| - 1]];
    }
  }

  lemma {:induction false} NotConsumedIff(l: Ledger, r: OutRef)
    ensures Consumers(l, r) == [] <==> forall t :: t in l ==> r !in t.inputs
  {
    if l != [] {
      var t, before := l[|l| - 1], l[..|l| - 1];
      NotConsumedIff(before, r);
      MatchesIff(t.inputs, t.blockNo, r);
      assert l == before + [t];
    }
  }

  /** The last transaction consumes only outputs that no earlier one consumes. */
  lemma InputsAreUnconsumed(l: Ledger, r: OutRef)
    requires Valid(l) && l != [] && r in l[|l| - 1].inputs
    ensures Consumers(l[..|l| - 1], r) == []
  {
    var t, before := l[|l| - 1], l[..|l| - 1];
    UnspentIff(before, r, t.blockNo);
    NotConsumedIff(before, r);
  }

  /** An output has at most one consuming row, and that row tells when it was spent. */
  lemma {:induction false} ConsumedOnce(l: Ledger, r: OutRef, b: nat)
    requires Valid(l)
    ensures |Consumers(l, r)| <= 1
    ensures SpentBy(l, r, b) <==> Consumers(l, r) != [] && Consumers(l, r)[0] <= b
  {
    if l != [] {
      var t, before := l[|l| - 1], l[..|l| - 1];
      ConsumedOnce(before, r, b);
      MatchOnce(t.inputs, t.blockNo, r);
      if r in t.inputs {
        InputsAreUnconsumed(l, r);
      }
      SpentByStep(l, r, b);
    }
  }

  lemma SpentByStep(l: Ledger, r: OutRef, b: nat)
    requires l != []
    ensures SpentBy(l, r, b) <==> SpentBy(l[..|l| - 1], r, b) || (l[|l| - 1].blockNo <= b && r in l[|l| - 1].inputs)
  {
    assert l == l[..|l| - 1] + [l[|l| - 1]];
  }

  lemma PassingRowsIs(l: Ledger, r: OutRef, b: nat)
    requires Valid(l)
    ensures PassingRows(l, r, b) == if SpentBy(l, r, b) then 0 else 1
  {
    ConsumedOnce(l, r, b);
    var c := Consumers(l, r);
    assert SpentBy(l, r, b) <==> c != [] && c[0] <= b;
    if c != [] {
      assert c[..|c| - 1] == [];
      assert Above(c[..|c| - 1], b) == 0;
    }
  }

  lemma InputsPrint(l: Ledger, t: Tx)
    requires Valid(l) && t in l && t.inputs != []
    ensures |PrintedInputs(l, t)| == |t.inputs|
    ensures forall i :: 0 <= i < |t.inputs| ==> PrintedInputs(l, t)[i] == Some(t.inputs[i])
  {
    var n :| 0 <= n < |l| && l[n] == t;
    InputsAreEarlier(l, n);
    forall i | 0 <= i < |t.inputs|
      ensures PrintedInput(l, t.inputs[i]) == Some(t.inputs[i])
    {
      assert t.inputs[i] in l[n].inputs;
      var u :| u in l[..n] && t.inputs[i] in Created(u);
      assert u in l;
    }
  }

  lemma CopiesOnce(s: seq<Option<OutRef>>)
    ensures Copies(s, 1) == s
  {
    assert Copies(s, 0) == [];
  }

  // ---------- what the groups are ----------

  ghost predicate IsTxGroup(l: Ledger, t: Tx, n: nat, b: nat, address: nat, g: Group)
    requires n <= |t.outputs|
  {
    exists i :: 0 <= i < n && Selected(l, t, i, b, address) && g == GroupOf(l, t, i, b)
  }

  ghost predicate IsGroup(l: Ledger, txs: seq<Tx>, b: nat, address: nat, g: Group) {
    exists t :: t in txs && IsTxGroup(l, t, |t.outputs|, b, address, g)
  }

  lemma {:induction false} TxGroupsAre(l: Ledger, t: Tx, n: nat, b: nat, address: nat, g: Group)
    requires n <= |t.outputs|
    ensures g in TxGroups(l, t, n, b, address) <==> IsTxGroup(l, t, n, b, address, g)
  {
    if n > 0 {
      TxGroupsAre(l, t, n - 1, b, address, g);
      assert IsTxGroup(l, t, n, b, address, g)
        <==> IsTxGroup(l, t, n - 1, b, address, g) || (Selected(l, t, n - 1, b, address) && g == GroupOf(l, t, n - 1, b));
    }
  }

  lemma {:induction false} GroupsAre(l: Ledger, txs: seq<Tx>, b: nat, address: nat, g: Group)
    ensures g in Groups(l, txs, b, address) <==> IsGroup(l, txs, b, address, g)
  {
    if txs != [] {
      var t, before := txs[|txs| - 1], txs[..|txs| - 1];
      GroupsAre(l, before, b, address, g);
      TxGroupsAre(l, t, |t.outputs|, b, address, g);
      assert txs == before + [t];
    }
  }

  ghost predicate DistinctRefs(groups: seq<Group>) {
    forall i, j :: 0 <= i < j < |groups| ==> groups[i].ref != groups[j].ref
  }

  lemma {:induction false} TxGroupsDistinct(l: Ledger, t: Tx, n: nat, b: nat, address: nat)
    requires n <= |t.outputs|
    ensures DistinctRefs(TxGroups(l, t, n, b, address))
    ensures forall g :: g in TxGroups(l, t, n, b, address) ==> g.ref.tx == t.hash && g.ref.index < n
  {
    if n > 0 {
      TxGroupsDistinct(l, t, n - 1, b, address);
    }
  }

  lemma {:induction false} GroupsDistinct(l: Ledger, txs: seq<Tx>, b: nat, address: nat)
    requires Valid(txs)
    ensures DistinctRefs(Groups(l, txs, b, address))
  {
    if txs != [] {
      var t, before := txs[|txs| - 1], txs[..|txs| - 1];
      GroupsDistinct(l, before, b, address);
      TxGroupsDistinct(l, t, |t.outputs|, b, address);
      forall g | g in Groups(l, before, b, address)
        ensures g.ref.tx != t.hash
      {
        GroupsAre(l, before, b, address, g);
      }
    }
  }

  // ---------- the query is the replay ----------

  /** Output `i` of `t` is unspent at block `b` and sits at the address. */
  ghost predicate Live(l: Ledger, t: Tx, i: int, b: nat, address: nat) {
    && t in l && 0 <= i < |t.outputs| && t.outputs[i].address == address
    && OutRef(t.hash, i) in UnspentAt(l, b)
  }

  lemma {:induction false} HashesIdentify(l: Ledger, t: Tx, u: Tx)
    requires Valid(l) && t in l && u in l && t.hash == u.hash
    ensures t == u
  {
    var last, before := l[|l| - 1], l[..|l| - 1];
    assert l == before + [last];
    if t != last && u != last {
      HashesIdentify(before, t, u);
    }
  }

  lemma SelectedIffLive(l: Ledger, t: Tx, i: nat, b: nat, address: nat)
    requires Valid(l) && t in l && i < |t.outputs|
    ensures Selected(l, t, i, b, address) <==> Live(l, t, i, b, address)
  {
    var r := OutRef(t.hash, i);
    PassingRowsIs(l, r, b);
    UnspentIff(l, r, b);
    assert r in Created(t);
    if CreatedBy(l, r, b) {
      var u :| u in l && u.blockNo <= b && r in Created(u);
      HashesIdentify(l, t, u);
    }
  }

  function RowFor(t: Tx, i: nat): Row
    requires i < |t.outputs|
  {
    Row(OutRef(t.hash, i), t.blockNo, t.place, t.outputs[i], multiset(t.inputs))
  }

  /** A live output's group holds the inputs of its transaction once. */
  lemma LiveGroupInputs(l: Ledger, t: Tx, i: nat, b: nat, address: nat)
    requires Valid(l) && i < |t.outputs| && Live(l, t, i, b, address)
    ensures GroupOf(l, t, i, b).inputs == PrintedInputs(l, t)
  {
    PassingRowsIs(l, OutRef(t.hash, i), b);
    UnspentIff(l, OutRef(t.hash, i), b);
    CopiesOnce(PrintedInputs(l, t));
  }

  lemma PrintsParse(l: Ledger, t: Tx, g: Group)
    requires Valid(l) && t in l && t.inputs != [] && g.inputs == PrintedInputs(l, t)
    ensures Parses(g) && ParsedInputs(g) == t.inputs
  {
    InputsPrint(l, t);
  }

  /** So it parses unless the transaction has no inputs, and then it is the output with those inputs. */
  lemma LiveGroup(l: Ledger, t: Tx, i: nat, b: nat, address: nat)
    requires Valid(l) && i < |t.outputs| && Live(l, t, i, b, address)
    ensures Parses(GroupOf(l, t, i, b)) <==> t.inputs != []
    ensures t.inputs != [] ==> Parse(GroupOf(l, t, i, b)) == RowFor(t, i)
  {
    LiveGroupInputs(l, t, i, b, address);
    if t.inputs != [] {
      PrintsParse(l, t, GroupOf(l, t, i, b));
    } else {
      assert GroupOf(l, t, i, b).inputs[0].None?;
    }
  }

  lemma LiveIsInGroups(l: Ledger, t: Tx, i: nat, b: nat, address: nat) returns (n: nat)
    requires Valid(l) && i < |t.outputs| && Live(l, t, i, b, address)
    ensures n < |Groups(l, l, b, address)| && Groups(l, l, b, address)[n] == GroupOf(l, t, i, b)
  {
    GroupsAreLive(l, b, address, GroupOf(l, t, i, b));
    n :| 0 <= n < |Groups(l, l, b, address)| && Groups(l, l, b, address)[n] == GroupOf(l, t, i, b);
  }

  lemma GroupsAreLive(l: Ledger, b: nat, address: nat, g: Group)
    requires Valid(l)
    ensures g in Groups(l, l, b, address)
       <==> exists t, i :: Live(l, t, i, b, address) && g == GroupOf(l, t, i, b)
  {
    GroupsAre(l, l, b, address, g);
    if t, i :| Live(l, t, i, b, address) && g == GroupOf(l, t, i, b) {
      SelectedIffLive(l, t, i, b, address);
      assert IsTxGroup(l, t, |t.outputs|, b, address, g);
    }
    if IsGroup(l, l, b, address, g) {
      var t :| t in l && IsTxGroup(l, t, |t.outputs|, b, address, g);
      var i :| 0 <= i < |t.outputs| && Selected(l, t, i, b, address) && g == GroupOf(l, t, i, b);
      SelectedIffLive(l, t, i, b, address);
    }
  }

  lemma LiveWithoutInputsFails(l: Ledger, t: Tx, i: nat, b: nat, address: nat)
    requires Valid(l) && i < |t.outputs| && Live(l, t, i, b, address) && t.inputs == []
    ensures Query(l, address, b).Err?
  {
    LiveGroup(l, t, i, b, address);
    var n := LiveIsInGroups(l, t, i, b, address);
    assert !Parses(Groups(l, l, b, address)[n]);
  }

  lemma FailureHasWitness(l: Ledger, address: nat, b: nat) returns (t: Tx, i: nat)
    requires Valid(l) && Query(l, address, b).Err?
    ensures Live(l, t, i, b, address) && t.inputs == []
  {
    var groups := Groups(l, l, b, address);
    var n :| 0 <= n < |groups| && !Parses(groups[n]);
    GroupsAreLive(l, b, address, groups[n]);
    t, i :| Live(l, t, i, b, address) && groups[n] == GroupOf(l, t, i, b);
    LiveGroup(l, t, i, b, address);
  }

  /** The query fails exactly when a live output comes from a transaction without inputs. */
  lemma QueryFailsIff(l: Ledger, address: nat, b: nat)
    requires Valid(l)
    ensures Query(l, address, b).Err? <==> exists t, i :: Live(l, t, i, b, address) && t.inputs == []
  {
    if t, i :| Live(l, t, i, b, address) && t.inputs == [] {
      LiveWithoutInputsFails(l, t, i, b, address);
    }
    if Query(l, address, b).Err? {
      var t, i := FailureHasWitness(l, address, b);
    }
  }

  /** One output of one transaction without inputs is enough. */
  lemma OutputWithoutInputsFails()
    ensures var l := [Tx(1, 0, Place(0, 0, 0), [], [Output(5, None)])]; Valid(l) && Query(l, 5, 0).Err?
  {
    var t := Tx(1, 0, Place(0, 0, 0), [], [Output(5, None)]);
    var l := [t];
    assert l[..0] == [] && Valid([]);
    assert OutRef(1, 0) in Created(t);
    LiveWithoutInputsFails(l, t, 0, 0, 5);
  }

  lemma GroupIsLiveRow(l: Ledger, address: nat, b: nat, n: nat) returns (t: Tx, i: nat)
    requires Valid(l) && Query(l, address, b).Ok? && n < |Groups(l, l, b, address)|
    ensures Live(l, t, i, b, address) && Parses(Groups(l, l, b, address)[n]) && Parse(Groups(l, l, b, address)[n]) == RowFor(t, i)
  {
    var g := Groups(l, l, b, address)[n];
    GroupsAreLive(l, b, address, g);
    t, i :| Live(l, t, i, b, address) && g == GroupOf(l, t, i, b);
    LiveGroup(l, t, i, b, address);
  }

  lemma LiveIsRow(l: Ledger, address: nat, b: nat, t: Tx, i: nat)
    requires Valid(l) && Query(l, address, b).Ok? && Live(l, t, i, b, address)
    ensures RowFor(t, i) in ParsedRows(Groups(l, l, b, address))
  {
    var n := LiveIsInGroups(l, t, i, b, address);
    LiveGroup(l, t, i, b, address);
    assert ParsedRows(Groups(l, l, b, address))[n] == RowFor(t, i);
  }

  lemma QueryRows(l: Ledger, address: nat, b: nat) returns (rows: seq<Row>)
    requires Query(l, address, b).Ok?
    ensures (forall i :: 0 <= i < |Groups(l, l, b, address)| ==> Parses(Groups(l, l, b, address)[i]))
    ensures rows == ParsedRows(Groups(l, l, b, address)) && Query(l, address, b).value == multiset(rows)
  {
    rows := ParsedRows(Groups(l, l, b, address));
  }

  lemma RowIffLive(l: Ledger, address: nat, b: nat, row: Row)
    requires Valid(l) && Query(l, address, b).Ok?
    ensures row in Query(l, address, b).value <==> exists t, i :: Live(l, t, i, b, address) && row == RowFor(t, i)
  {
    var rows := QueryRows(l, address, b);
    if row in rows {
      var n :| 0 <= n < |rows| && rows[n] == row;
      var t, i := GroupIsLiveRow(l, address, b, n);
    }
    if t, i :| Live(l, t, i, b, address) && row == RowFor(t, i) {
      LiveIsRow(l, address, b, t, i);
    }
  }

  ghost predicate DistinctRows(rows: seq<Row>) {
    forall i, j :: 0 <= i < j < |rows| ==> rows[i].ref != rows[j].ref
  }

  lemma RowsAreDistinct(l: Ledger, address: nat, b: nat, row: Row, other: Row)
    requires Valid(l) && Query(l, address, b).Ok?
    ensures var rows := Query(l, address, b).value;
            rows[row] <= 1 && (row in rows && other in rows && row.ref == other.ref ==> row == other)
  {
    var rows := QueryRows(l, address, b);
    GroupsDistinct(l, l, b, address);
    assert DistinctRows(rows);
    DistinctOnce(rows);
  }

  /** Otherwise it returns exactly the replayed unspent outputs at the address, once each, with their transaction's inputs. */
  lemma QueryIsReplay(l: Ledger, address: nat, b: nat)
    requires Valid(l) && Query(l, address, b).Ok?
    ensures var rows := Query(l, address, b).value;
            && (forall row :: row in rows <==> exists t, i :: Live(l, t, i, b, address) && row == RowFor(t, i))
            && (forall row :: rows[row] <= 1)
            && (forall row, other :: row in rows && other in rows && row.ref == other.ref ==> row == other)
  {
    var rows := Query(l, address, b).value;
    forall row
      ensures row in rows <==> exists t, i :: Live(l, t, i, b, address) && row == RowFor(t, i)
    {
      RowIffLive(l, address, b, row);
    }
    forall row, other
      ensures rows[row] <= 1 && (row in rows && other in rows && row.ref == other.ref ==> row == other)
    {
      RowsAreDistinct(l, address, b, row, other);
    }
  }

  lemma {:induction false} DistinctOnce(rows: seq<Row>)
    requires DistinctRows(rows)
    ensures forall row :: multiset(rows)[row] <= 1
    ensures forall row, other :: row in rows && other in rows && row.ref == other.ref ==> row == other
  {
    if rows != [] {
      var before, last := rows[..|rows| - 1], rows[|rows| - 1];
      DistinctOnce(before);
      assert rows == before + [last];
      assert last !in before;
    }
  }

  // ---------- later blocks do not matter ----------

  lemma {:induction false} ValidPrefix(l: Ledger, n: nat)
    requires Valid(l) && n <= |l|
    ensures Valid(l[..n])
    decreases |l| - n
  {
    if n < |l| {
      ValidPrefix(l, n + 1);
      assert l[..n + 1][..n] == l[..n];
    } else {
      assert l[..n] == l;
    }
  }

  lemma SpentByPrefix(l: Ledger, n: nat, r: OutRef, b: nat)
    requires n <= |l| && forall t :: t in l[n..] ==> t.blockNo > b
    ensures SpentBy(l, r, b) <==> SpentBy(l[..n], r, b)
  {
    assert l == l[..n] + l[n..];
  }

  lemma SamePrint(l: Ledger, n: nat, t: Tx)
    requires Valid(l) && n <= |l| && t in l[..n]
    ensures PrintedInputs(l, t) == PrintedInputs(l[..n], t)
  {
    if t.inputs != [] {
      ValidPrefix(l, n);
      InputsPrint(l[..n], t);
      assert t in l;
      InputsPrint(l, t);
    }
  }

  lemma SamePassing(l: Ledger, n: nat, r: OutRef, b: nat)
    requires Valid(l) && n <= |l| && forall u :: u in l[n..] ==> u.blockNo > b
    ensures PassingRows(l, r, b) == PassingRows(l[..n], r, b)
  {
    ValidPrefix(l, n);
    SpentByPrefix(l, n, r, b);
    PassingRowsIs(l, r, b);
    PassingRowsIs(l[..n], r, b);
  }

  lemma {:induction false} SameTxGroups(l: Ledger, n: nat, t: Tx, m: nat, b: nat, address: nat)
    requires Valid(l) && n <= |l| && t in l[..n] && m <= |t.outputs|
    requires forall u :: u in l[n..] ==> u.blockNo > b
    ensures TxGroups(l, t, m, b, address) == TxGroups(l[..n], t, m, b, address)
  {
    if m > 0 {
      SameTxGroups(l, n, t, m - 1, b, address);
      SamePrint(l, n, t);
      SamePassing(l, n, OutRef(t.hash, m - 1), b);
    }
  }

  lemma {:induction false} NoGroupsAbove(l: Ledger, t: Tx, m: nat, b: nat, address: nat)
    requires m <= |t.outputs| && t.blockNo > b
    ensures TxGroups(l, t, m, b, address) == []
  {
    if m > 0 {
      NoGroupsAbove(l, t, m - 1, b, address);
    }
  }

  lemma {:induction false} SameGroups(l: Ledger, n: nat, txs: seq<Tx>, b: nat, address: nat)
    requires Valid(l) && n <= |l| && (forall t :: t in txs ==> t in l[..n])
    requires forall u :: u in l[n..] ==> u.blockNo > b
    ensures Groups(l, txs, b, address) == Groups(l[..n], txs, b, address)
  {
    if txs != [] {
      var t := txs[|txs| - 1];
      SameGroups(l, n, txs[..|txs| - 1], b, address);
      SameTxGroups(l, n, t, |t.outputs|, b, address);
    }
  }

  lemma {:induction false} GroupsOfPrefix(l: Ledger, n: nat, m: nat, b: nat, address: nat)
    requires n <= m <= |l| && forall u :: u in l[n..] ==> u.blockNo > b
    ensures Groups(l, l[..m], b, address) == Groups(l, l[..n], b, address)
    decreases m
  {
    if n < m {
      GroupsOfPrefix(l, n, m - 1, b, address);
      var t := l[m - 1];
      assert l[..m][..m - 1] == l[..m - 1];
      assert l[n..][m - 1 - n] == t;
      NoGroupsAbove(l, t, |t.outputs|, b, address);
    }
  }

  /** Blocks above `b`, appended or replaced, never change the answer at `b`. */
  lemma LaterBlocksDoNotMatter(l: Ledger, n: nat, address: nat, b: nat)
    requires Valid(l) && n <= |l| && forall t :: t in l[n..] ==> t.blockNo > b
    ensures Query(l, address, b) == Query(l[..n], address, b)
  {
    GroupsOfPrefix(l, n, |l|, b, address);
    assert l[..|l|] == l;
    SameGroups(l, n, l[..n], b, address);
  }
}
