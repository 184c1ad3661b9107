/**
  The main-chain block every partner-chain block refers to: how a proposer picks it, how a verifier
  looks it up through the cache of stable blocks, and when the reference is accepted
  (db-sync-follower `block`, primitives `sidechain-mc-hash`).
 */
module McReference {
  import opened Wrappers
  import opened Chains

  datatype McBlock = McBlock(number: nat, hash: nat, time: int)

  type Chain = seq<McBlock>

  /** Blocks are numbered from zero, hashes identify them, and time goes up. */
  ghost predicate WellFormed(c: Chain) {
    && (forall i :: 0 <= i < |c| ==> c[i].number == i)
    && (forall i, j :: 0 <= i < |c| && 0 <= j < |c| && c[i].hash == c[j].hash ==> i == j)
    && (forall i, j :: 0 <= i < j < |c| ==> c[i].time < c[j].time)
  }

  /** `minAge` is the security parameter over the active slot coefficient; a block may be up to three times that old. */
  datatype Limits = Limits(k: nat, margin: nat, minAge: nat, cacheSize: nat)

  predicate TimeValid(l: Limits, b: McBlock, timestamp: int) {
    timestamp - 3 * l.minAge <= b.time <= timestamp - l.minAge
  }

  function FindByHash(blocks: seq<McBlock>, hash: nat): (r: Option<McBlock>)
    ensures r.Some? ==> r.value in blocks && r.value.hash == hash
    ensures r.None? ==> forall b :: b in blocks ==> b.hash != hash
  {
    if blocks == [] then None
    else if blocks[0].hash == hash then Some(blocks[0])
    else FindByHash(blocks[1..], hash)
  }

  /** The uncached lookup: the block of this hash, if it is at least `k` below the tip and old enough but not too old. */
  function Lookup(l: Limits, c: Chain, hash: nat, timestamp: int): Option<McBlock> {
    match FindByHash(c, hash)
    case None => None
    case Some(b) => if b.number + l.k < |c| && TimeValid(l, b, timestamp) then Some(b) else None
  }

  /** The highest block not above `limit` whose time is acceptable. */
  function Highest(l: Limits, c: Chain, limit: nat, timestamp: int): (r: Option<McBlock>)
    requires limit <= |c|
    ensures r.Some? ==> exists i :: 0 <= i < limit && c[i] == r.value && TimeValid(l, c[i], timestamp)
                                    && forall j :: i < j < limit ==> !TimeValid(l, c[j], timestamp)
    ensures r.None? ==> forall j :: 0 <= j < limit ==> !TimeValid(l, c[j], timestamp)
  {
    if limit == 0 then None
    else if TimeValid(l, c[limit - 1], timestamp) then Some(c[limit - 1])
    else Highest(l, c, limit - 1, timestamp)
  }

  /** A proposer's choice; the subtraction of the stability offset from the tip saturates at block zero. */
  function Propose(l: Limits, c: Chain, timestamp: int): Option<McBlock> {
    Highest(l, c, Settled(l.k + l.margin, c), timestamp)
  }

  /** A verifier's decision on a block's reference; the parent is the genesis block or has a slot time and a reference. */
  function Verify(l: Limits, c: Chain, parent: Option<(int, nat)>, timestamp: int, hash: nat): Result<McBlock> {
    match Lookup(l, c, hash, timestamp)
    case None => Err
    case Some(b) =>
      match parent {
        case None => Ok(b)
        case Some((parentTime, parentHash)) =>
          match Lookup(l, c, parentHash, parentTime) {
            case None => Err
            case Some(p) => if b.number < p.number then Err else Ok(b)
          }
      }
  }

  lemma LookupSettled(l: Limits, c: Chain, i: nat, timestamp: int)
    requires WellFormed(c) && i < |c|
    ensures FindByHash(c, c[i].hash) == Some(c[i])
    ensures i + l.k < |c| && TimeValid(l, c[i], timestamp) ==> Lookup(l, c, c[i].hash, timestamp) == Some(c[i])
  {
    assert c[i] in c;
  }

  /** A block of the chain, found by its hash, is stable and of an allowed age: one to three times the minimal age before the slot. */
  ghost predicate Eligible(l: Limits, c: Chain, b: McBlock, hash: nat, timestamp: int) {
    && b.number < |c| && c[b.number] == b && b.hash == hash
    && b.number + l.k <= |c| - 1
    && timestamp - 3 * l.minAge <= b.time <= timestamp - l.minAge
  }

  /** The lookup finds exactly the eligible blocks. */
  lemma LookupIff(l: Limits, c: Chain, hash: nat, timestamp: int, b: McBlock)
    requires WellFormed(c)
    ensures Lookup(l, c, hash, timestamp) == Some(b) <==> Eligible(l, c, b, hash, timestamp)
  {
    var found := FindByHash(c, hash);
    if found.Some? {
      var i :| 0 <= i < |c| && c[i] == found.value;
    }
    if Eligible(l, c, b, hash, timestamp) {
      LookupSettled(l, c, b.number, timestamp);
    }
  }

  /**
    A reference is accepted if and only if it is an eligible block and, given a parent, the parent's reference is eligible
    for the parent's slot and not a later block.
   */
  lemma VerifyIff(l: Limits, c: Chain, parent: Option<(int, nat)>, timestamp: int, hash: nat, b: McBlock)
    requires WellFormed(c)
    ensures Verify(l, c, parent, timestamp, hash) == Ok(b) <==>
              && Eligible(l, c, b, hash, timestamp)
              && (parent.Some? ==> exists p :: Eligible(l, c, p, parent.value.1, parent.value.0) && p.number <= b.number)
  {
    LookupIff(l, c, hash, timestamp, b);
    if parent.Some? {
      var found := Lookup(l, c, parent.value.1, parent.value.0);
      if found.Some? {
        LookupIff(l, c, parent.value.1, parent.value.0, found.value);
      }
      forall p | Eligible(l, c, p, parent.value.1, parent.value.0)
        ensures found == Some(p)
      {
        LookupIff(l, c, parent.value.1, parent.value.0, p);
      }
    }
  }

  /** A reference that goes back is refused, however well it would do on its own. */
  lemma RegressionRefused(l: Limits, c: Chain, parentTime: int, p: McBlock, timestamp: int, b: McBlock)
    requires WellFormed(c) && Eligible(l, c, p, p.hash, parentTime) && b.number < p.number
    ensures Verify(l, c, Some((parentTime, p.hash)), timestamp, b.hash) != Ok(b)
    ensures Eligible(l, c, b, b.hash, timestamp) ==>
              Verify(l, c, None, timestamp, b.hash) == Ok(b) && Verify(l, c, Some((parentTime, p.hash)), timestamp, b.hash).Err?
  {
    LookupIff(l, c, p.hash, parentTime, p);
    LookupIff(l, c, b.hash, timestamp, b);
  }

  /** The proposal is the highest eligible block that is also `margin` deeper than stable, or block zero on a chain too short for that. */
  lemma ProposeIs(l: Limits, c: Chain, timestamp: int, i: nat)
    requires WellFormed(c) && i < |c|
    ensures var depth := l.k + l.margin;
            var last := if |c| - 1 < depth then 0 else |c| - 1 - depth;
            Propose(l, c, timestamp) == Some(c[i]) <==>
              && i <= last && timestamp - 3 * l.minAge <= c[i].time <= timestamp - l.minAge
              && forall j :: i < j <= last ==> !(timestamp - 3 * l.minAge <= c[j].time <= timestamp - l.minAge)
  {
    var last := Settled(l.k + l.margin, c);
    HighestIs(l, c, last, timestamp, i);
  }

  lemma {:induction false} HighestIs(l: Limits, c: Chain, limit: nat, timestamp: int, i: nat)
    requires WellFormed(c) && limit <= |c| && i < |c|
    ensures Highest(l, c, limit, timestamp) == Some(c[i]) <==>
              i < limit && TimeValid(l, c[i], timestamp) && forall j :: i < j < limit ==> !TimeValid(l, c[j], timestamp)
  {
    if limit > 0 && !TimeValid(l, c[limit - 1], timestamp) {
      HighestIs(l, c, limit - 1, timestamp, i);
    }
  }

  /** A partner-chain block as its verifier sees it: the time of its slot and the hash it refers to. */
  datatype Referring = Referring(time: int, hash: nat)

  function ParentOf(blocks: seq<Referring>, i: nat): Option<(int, nat)>
    requires i < |blocks|
  {
    if i == 0 then None else Some((blocks[i - 1].time, blocks[i - 1].hash))
  }

  ghost predicate AcceptedAt(l: Limits, views: seq<Chain>, blocks: seq<Referring>, accepted: seq<McBlock>, i: nat)
    requires i < |views| == |blocks| == |accepted|
  {
    Verify(l, views[i], ParentOf(blocks, i), blocks[i].time, blocks[i].hash) == Ok(accepted[i])
  }

  /** Every block is accepted in the view its verifier has by then; `accepted` are the main-chain blocks referred to. */
  ghost predicate AcceptedRun(l: Limits, views: seq<Chain>, blocks: seq<Referring>, accepted: seq<McBlock>) {
    && |views| == |blocks| == |accepted| && Follows(l.k, views)
    && (forall i :: 0 <= i < |views| ==> WellFormed(views[i]))
    && forall i {:trigger AcceptedAt(l, views, blocks, accepted, i)} :: 0 <= i < |blocks| ==> AcceptedAt(l, views, blocks, accepted, i)
  }

  /** An accepted reference is a settled block of its view, and stays the block of its number in the next one. */
  lemma AcceptedStays(l: Limits, views: seq<Chain>, blocks: seq<Referring>, accepted: seq<McBlock>, i: nat)
    requires AcceptedRun(l, views, blocks, accepted) && i < |blocks|
    ensures Eligible(l, views[i], accepted[i], blocks[i].hash, blocks[i].time)
    ensures i + 1 < |blocks| ==> accepted[i].number < |views[i + 1]| && views[i + 1][accepted[i].number] == accepted[i]
  {
    assert AcceptedAt(l, views, blocks, accepted, i);
    VerifyIff(l, views[i], ParentOf(blocks, i), blocks[i].time, blocks[i].hash, accepted[i]);
    if i + 1 < |blocks| {
      SettledBlockStays(l.k, views[i], views[i + 1], accepted[i].number);
    }
  }

  lemma NotBeforeParent(l: Limits, c: Chain, parent: McBlock, parentTime: int, timestamp: int, hash: nat, b: McBlock)
    requires WellFormed(c) && parent.number < |c| && c[parent.number] == parent
    requires Verify(l, c, Some((parentTime, parent.hash)), timestamp, hash) == Ok(b)
    ensures parent.number <= b.number
  {
    VerifyIff(l, c, Some((parentTime, parent.hash)), timestamp, hash, b);
    var p :| Eligible(l, c, p, parent.hash, parentTime) && p.number <= b.number;
    SameHashSameBlock(c, p.number, parent.number);
  }

  lemma NextNotBefore(l: Limits, views: seq<Chain>, blocks: seq<Referring>, accepted: seq<McBlock>, i: nat)
    requires AcceptedRun(l, views, blocks, accepted) && i + 1 < |blocks|
    ensures accepted[i].number <= accepted[i + 1].number
  {
    AcceptedStays(l, views, blocks, accepted, i);
    assert AcceptedAt(l, views, blocks, accepted, i + 1);
    NotBeforeParent(l, views[i + 1], accepted[i], blocks[i].time, blocks[i + 1].time, blocks[i + 1].hash, accepted[i + 1]);
  }

  lemma ReferenceIsSettled(l: Limits, views: seq<Chain>, blocks: seq<Referring>, accepted: seq<McBlock>, i: nat)
    requires AcceptedRun(l, views, blocks, accepted) && i < |blocks|
    ensures accepted[i].number < Settled(l.k, views[i])
  {
    AcceptedStays(l, views, blocks, accepted, i);
  }

  /** Over every run of accepted blocks, while chains are being switched, references are stable and never decrease. */
  lemma {:induction false} ReferencesNeverDecrease(l: Limits, views: seq<Chain>, blocks: seq<Referring>, accepted: seq<McBlock>, i: nat, j: nat)
    requires AcceptedRun(l, views, blocks, accepted) && i <= j < |blocks|
    ensures accepted[i].number <= accepted[j].number && accepted[j].number < Settled(l.k, views[j])
    decreases j - i
  {
    ReferenceIsSettled(l, views, blocks, accepted, j);
    if i < j {
      ReferencesNeverDecrease(l, views, blocks, accepted, i, j - 1);
      NextNotBefore(l, views, blocks, accepted, j - 1);
    }
  }

  lemma SameHashSameBlock(c: Chain, i: nat, j: nat)
    requires WellFormed(c) && i < |c| && j < |c| && c[i].hash == c[j].hash
    ensures i == j
  {
  }

  /**
    In the proposer's own view its choice is a block the verifier finds if and only if the chain is
    longer than the security parameter: below that, the saturated offset lets block zero through.
   */
  lemma ProposalIsStable(l: Limits, c: Chain, timestamp: int)
    requires WellFormed(c) && Propose(l, c, timestamp).Some?
    ensures var b := Propose(l, c, timestamp).value;
            && b in c
            && (Lookup(l, c, b.hash, timestamp) == Some(b) <==> l.k < |c|)
  {
    var b := Propose(l, c, timestamp).value;
    var i :| 0 <= i < Settled(l.k + l.margin, c) && c[i] == b && TimeValid(l, c[i], timestamp);
    LookupSettled(l, c, i, timestamp);
  }

  /** A short chain whose only block is proposed and then not found. */
  lemma ProposalOnShortChain()
    ensures var l := Limits(2, 0, 1, 10);
            var c := [McBlock(0, 7, 0)];
            Propose(l, c, 1) == Some(c[0]) && Lookup(l, c, 7, 1) == None
  {
    var l := Limits(2, 0, 1, 10);
    var c := [McBlock(0, 7, 0)];
    assert TimeValid(l, c[0], 1);
    assert Highest(l, c, 1, 1) == Some(c[0]);
  }

  /** As time passes and the chain is switched, the proposed reference never goes back. */
  lemma ProposalsAdvance(l: Limits, c: Chain, c': Chain, timestamp: int, timestamp': int)
    requires WellFormed(c) && WellFormed(c') && l.k < |c| && Switches(l.k, c, c') && timestamp <= timestamp'
    requires Propose(l, c, timestamp).Some? && Propose(l, c', timestamp').Some?
    ensures Propose(l, c, timestamp).value.number <= Propose(l, c', timestamp').value.number
  {
    var n, n' := Settled(l.k + l.margin, c), Settled(l.k + l.margin, c');
    var i :| 0 <= i < n && c[i] == Propose(l, c, timestamp).value && TimeValid(l, c[i], timestamp);
    var j :| 0 <= j < n' && c'[j] == Propose(l, c', timestamp').value && TimeValid(l, c'[j], timestamp')
             && forall m :: j < m < n' ==> !TimeValid(l, c'[m], timestamp');
    SettledBlockStays(l.k, c, c', i);
    assert forall m :: j < m < n' ==> c'[j].time < c'[m].time;
  }

  /**
    Honest references are accepted: what is proposed on top of an honestly proposed parent passes
    verification in every view that follows, so accepted references never decrease.
   */
  lemma HonestReferenceAccepted(l: Limits, views: seq<Chain>, i: nat, j: nat, v: nat, parentTime: int, timestamp: int)
    requires Follows(l.k, views) && i <= j <= v < |views| && parentTime <= timestamp
    requires forall n :: 0 <= n < |views| ==> WellFormed(views[n])
    requires l.k < |views[i]|
    requires Propose(l, views[i], parentTime).Some? && Propose(l, views[j], timestamp).Some?
    ensures var p := Propose(l, views[i], parentTime).value;
            var b := Propose(l, views[j], timestamp).value;
            && Verify(l, views[v], Some((parentTime, p.hash)), timestamp, b.hash) == Ok(b)
            && Verify(l, views[v], None, timestamp, b.hash) == Ok(b)
  {
    FollowsSwitches(l.k, views, i, j);
    FollowsSwitches(l.k, views, i, v);
    FollowsSwitches(l.k, views, j, v);
    ProposalStaysFound(l, views[i], views[v], parentTime);
    ProposalStaysFound(l, views[j], views[v], timestamp);
    ProposalsAdvance(l, views[i], views[j], parentTime, timestamp);
  }

  lemma ProposalStaysFound(l: Limits, c: Chain, c': Chain, timestamp: int)
    requires WellFormed(c) && WellFormed(c') && l.k < |c| && Switches(l.k, c, c')
    requires Propose(l, c, timestamp).Some?
    ensures var b := Propose(l, c, timestamp).value; Lookup(l, c', b.hash, timestamp) == Some(b)
  {
    var b := Propose(l, c, timestamp).value;
    var i :| 0 <= i < Settled(l.k + l.margin, c) && c[i] == b && TimeValid(l, c[i], timestamp);
    SettledBlockStays(l.k, c, c', i);
    LookupSettled(l, c', i, timestamp);
  }

  /** The data source with its cache of stable blocks. */
  class BlockSource {
    const limits: Limits
    var cache: seq<McBlock>

    /** Cached blocks are stable blocks of the chain. */
    ghost predicate Valid(c: Chain)
      reads this
    {
      forall b :: b in cache ==> b.number + limits.k < |c| && c[b.number] == b
    }

    constructor (limits: Limits)
      ensures this.limits == limits && cache == []
    {
      this.limits, cache := limits, [];
    }

    lemma SwitchKeepsValid(c: Chain, c': Chain)
      requires Valid(c) && Switches(limits.k, c, c')
      ensures Valid(c')
    {
      forall b | b in cache
        ensures b.number + limits.k < |c'| && c'[b.number] == b
      {
        SettledBlockStays(limits.k, c, c', b.number);
      }
    }

    method FillCache(c: Chain, from: McBlock)
      requires WellFormed(c) && from.number + limits.k < |c| && c[from.number] == from
      modifies this
      ensures Valid(c) && from in cache
      ensures |cache| <= limits.cacheSize + 1 && from.number + |cache| <= |c| - limits.k
      ensures cache == c[from.number..from.number + |cache|]
      ensures |cache| == limits.cacheSize + 1 || from.number + |cache| == |c| - limits.k
    {
      var stable := |c| - 1 - limits.k;
      var to := if from.number + limits.cacheSize < stable then from.number + limits.cacheSize else stable;
      if to > from.number {
        cache := c[from.number..to + 1];
        assert cache[0] == from;
      } else {
        cache := [from];
      }
    }

    /** The cached lookup answers exactly as the uncached one would on the present chain. */
    method GetStableBlock(c: Chain, hash: nat, timestamp: int) returns (r: Option<McBlock>)
      requires WellFormed(c) && Valid(c)
      modifies this
      ensures Valid(c)
      ensures r == Lookup(limits, c, hash, timestamp)
    {
      var cached := FindByHash(cache, hash);
      if cached.Some? {
        LookupSettled(limits, c, cached.value.number, timestamp);
        if TimeValid(limits, cached.value, timestamp) {
          return cached;
        }
      }
      r := Lookup(limits, c, hash, timestamp);
      if r.Some? {
        FillCache(c, r.value);
      }
    }
  }

  /** A run of lookups while the chain is being switched: every answer is the uncached one. */
  method LookupAll(limits: Limits, views: seq<Chain>, asked: seq<(nat, int)>) returns (answers: seq<Option<McBlock>>)
    requires |views| == |asked| && Follows(limits.k, views)
    requires forall i :: 0 <= i < |views| ==> WellFormed(views[i])
    ensures |answers| == |asked|
    ensures forall i :: 0 <= i < |asked| ==> answers[i] == Lookup(limits, views[i], asked[i].0, asked[i].1)
  {
    var source := new BlockSource(limits);
    answers := [];
    for i := 0 to |asked|
      invariant source.limits == limits
      invariant |answers| == i
      invariant i < |views| ==> source.Valid(views[i])
      invariant forall j :: 0 <= j < i ==> answers[j] == Lookup(limits, views[j], asked[j].0, asked[j].1)
    {
      var r := source.GetStableBlock(views[i], asked[i].0, asked[i].1);
      answers := answers + [r];
      if i + 1 < |views| {
        source.SwitchKeepsValid(views[i], views[i + 1]);
      }
    }
  }
}
