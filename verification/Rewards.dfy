/**
  Epoch changes and block rewards (pallets `sidechain` and `block-rewards`, wired by the runtime:
  one point per block, at most one block per slot, rewards drained when the epoch changes).
 */
module Rewards {
  import opened Wrappers
  import opened Slots
  import opened Widths

  type Beneficiary(==, !new)

  /** What the new-epoch hook receives: the epoch that ended and the points earned in it. */
  datatype Drain = Drain(epoch: nat, rewards: multiset<Beneficiary>)

  /** The stored epoch, the pending points and the drains so far. */
  datatype State = State(epoch: Option<nat>, pending: multiset<Beneficiary>, drains: seq<Drain>)

  /** A block: its slot and the beneficiaries its inherents name, the last of which stays. */
  datatype Block = Block(slot: nat, beneficiaries: seq<Beneficiary>)

  function Genesis(): State {
    State(None, multiset{}, [])
  }

  function EpochStarted(s: State, epoch: nat): State {
    match s.epoch
    case None => s.(epoch := Some(epoch))
    case Some(saved) =>
      if saved == epoch then s
      else State(Some(epoch), multiset{}, s.drains + [Drain(saved, s.pending)])
  }

  /** A block without a beneficiary aborts, and so does a counter that leaves 32 bits. */
  function Finalized(s: State, beneficiaries: seq<Beneficiary>): Fallible<State> {
    if beneficiaries == [] then Panicked
    else
      var b := beneficiaries[|beneficiaries| - 1];
      if s.pending[b] + 1 < U32_LIMIT then Done(s.(pending := s.pending + multiset{b})) else Panicked
  }

  function Executed(slotsPerEpoch: nat, blocks: seq<Block>): Fallible<State>
    requires slotsPerEpoch > 0
  {
    if blocks == [] then Done(Genesis())
    else
      var last := blocks[|blocks| - 1];
      match Executed(slotsPerEpoch, blocks[..|blocks| - 1])
      case Panicked => Panicked
      case Done(s) => Finalized(EpochStarted(s, last.slot / slotsPerEpoch), last.beneficiaries)
  }

  /** Every block names a beneficiary, and slots increase strictly. */
  ghost predicate Run(blocks: seq<Block>) {
    && (forall i :: 0 <= i < |blocks| ==> blocks[i].beneficiaries != [])
    && (forall i, j :: 0 <= i < j < |blocks| ==> blocks[i].slot < blocks[j].slot)
  }

  function Earner(b: Block): Beneficiary
    requires b.beneficiaries != []
  {
    b.beneficiaries[|b.beneficiaries| - 1]
  }

  // ---------- the pallets ----------

  ghost predicate Represents(rewards: map<Beneficiary, nat>, points: multiset<Beneficiary>) {
    && (forall b :: b in rewards <==> b in points)
    && (forall b :: b in rewards ==> rewards[b] == points[b])
  }

  /** The reward maps, pending and passed on, hold the points of `s`. */
  ghost predicate MapsHold(pending: map<Beneficiary, nat>, drained: seq<(nat, map<Beneficiary, nat>)>, s: State) {
    && Represents(pending, s.pending)
    && |drained| == |s.drains|
    && forall i :: 0 <= i < |drained| ==> drained[i].0 == s.drains[i].epoch && Represents(drained[i].1, s.drains[i].rewards)
  }

  class RewardPallets {
    const slotsPerEpoch: nat
    var epoch: Option<nat>
    var beneficiary: Option<Beneficiary>
    var pending: map<Beneficiary, nat>
    /** The calls of the new-epoch hook, in order. */
    var drained: seq<(nat, map<Beneficiary, nat>)>
    ghost var state: State

    /** The stored values mean what `state` says. */
    ghost predicate Mirrors()
      reads this
    {
      state.epoch == epoch && MapsHold(pending, drained, state)
    }

    ghost predicate Valid()
      reads this
    {
      slotsPerEpoch > 0 && beneficiary.None? && Mirrors()
    }

    constructor (slotsPerEpoch: nat)
      requires slotsPerEpoch > 0
      ensures Valid() && state == Genesis() && this.slotsPerEpoch == slotsPerEpoch
    {
      this.slotsPerEpoch := slotsPerEpoch;
      epoch, beneficiary, pending, drained, state := None, None, map[], [], Genesis();
    }

    method GetRewardsAndClear() returns (rewards: map<Beneficiary, nat>)
      modifies this`pending
      ensures rewards == old(pending) && pending == map[]
    {
      rewards := pending;
      pending := map[];
    }

    method OnInitialize(slot: nat)
      requires Valid()
      modifies this
      ensures Valid() && state == EpochStarted(old(state), slot / slotsPerEpoch)
    {
      var realEpoch := slot / slotsPerEpoch;
      state := EpochStarted(state, realEpoch);
      match epoch {
        case None =>
          epoch := Some(realEpoch);
        case Some(saved) =>
          if saved != realEpoch {
            epoch := Some(realEpoch);
            var rewards := GetRewardsAndClear();
            drained := drained + [(saved, rewards)];
          }
      }
    }

    method OnFinalize() returns (r: Fallible<()>)
      requires slotsPerEpoch > 0
      modifies this`beneficiary, this`pending
      ensures beneficiary == None
      ensures r.Panicked? <==>
                old(beneficiary).None?
                || (old(beneficiary).value in old(pending) && old(pending)[old(beneficiary).value] + 1 >= U32_LIMIT)
      ensures r.Done? ==>
                var b := old(beneficiary).value;
                pending == old(pending)[b := (if b in old(pending) then old(pending)[b] else 0) + 1]
      ensures r.Panicked? ==> pending == old(pending)
    {
      var taken := beneficiary;
      beneficiary := None;
      if taken.None? {
        return Panicked;
      }
      var b := taken.value;
      if b !in pending {
        pending := pending[b := 1];
      } else if pending[b] + 1 < U32_LIMIT {
        pending := pending[b := pending[b] + 1];
      } else {
        return Panicked;
      }
      return Done(());
    }

    /** The inherents of a block and its end. */
    method FinishBlock(beneficiaries: seq<Beneficiary>) returns (r: Fallible<()>)
      requires Valid()
      modifies this
      ensures r.Panicked? <==> Finalized(old(state), beneficiaries).Panicked?
      ensures r.Done? ==> Valid() && state == Finalized(old(state), beneficiaries).value
    {
      SetBeneficiaries(beneficiaries);
      r := OnFinalize();
      if r.Done? {
        state := state.(pending := state.pending + multiset{beneficiaries[|beneficiaries| - 1]});
      }
    }

    /** The inherents of a block, each overwriting the one before. */
    method SetBeneficiaries(beneficiaries: seq<Beneficiary>)
      modifies this`beneficiary
      ensures beneficiary == if beneficiaries == [] then old(beneficiary) else Some(beneficiaries[|beneficiaries| - 1])
    {
      for i := 0 to |beneficiaries|
        invariant beneficiary == if i == 0 then old(beneficiary) else Some(beneficiaries[i - 1])
      {
        beneficiary := Some(beneficiaries[i]);
      }
    }
  }

  // ---------- what the points mean ----------

  /** The point a block earns: its epoch and its beneficiary. */
  datatype Point = Point(epoch: nat, earner: Beneficiary)

  function PointOf(slotsPerEpoch: nat, b: Block): Point
    requires slotsPerEpoch > 0 && b.beneficiaries != []
  {
    Point(b.slot / slotsPerEpoch, Earner(b))
  }

  function Points(slotsPerEpoch: nat, blocks: seq<Block>): seq<Point>
    requires slotsPerEpoch > 0 && forall i :: 0 <= i < |blocks| ==> blocks[i].beneficiaries != []
  {
    seq(|blocks|, i requires 0 <= i < |blocks| => PointOf(slotsPerEpoch, blocks[i]))
  }

  /** The earners of the points of epoch `e`. */
  function Earned(points: seq<Point>, e: nat): multiset<Beneficiary> {
    if points == [] then multiset{}
    else
      var last := points[|points| - 1];
      Earned(points[..|points| - 1], e) + if last.epoch == e then multiset{last.earner} else multiset{}
  }

  function Occurrences(points: seq<Point>, p: Point): set<nat> {
    set i: nat | i < |points| && points[i] == p
  }

  lemma OccurrencesExtended(points: seq<Point>, last: Point, p: Point)
    ensures Occurrences(points + [last], p) == Occurrences(points, p) + if last == p then {|points|} else {}
  {
  }

  /** Its multiplicities are counts of blocks. */
  lemma {:induction false} EarnedCounts(points: seq<Point>, e: nat, b: Beneficiary)
    ensures Earned(points, e)[b] == |Occurrences(points, Point(e, b))|
  {
    if points != [] {
      var before, last := points[..|points| - 1], points[|points| - 1];
      EarnedCounts(before, e, b);
      assert points == before + [last];
      OccurrencesExtended(before, last, Point(e, b));
    }
  }

  lemma EarnedExtended(points: seq<Point>, p: Point, e: nat)
    ensures Earned(points + [p], e) == Earned(points, e) + if p.epoch == e then multiset{p.earner} else multiset{}
  {
    assert (points + [p])[..|points|] == points;
  }

  lemma {:induction false} NothingEarned(points: seq<Point>, e: nat)
    requires forall i :: 0 <= i < |points| ==> points[i].epoch != e
    ensures Earned(points, e) == multiset{}
  {
    if points != [] {
      NothingEarned(points[..|points| - 1], e);
    }
  }

  function Drained(drains: seq<Drain>): nat {
    if drains == [] then 0 else Drained(drains[..|drains| - 1]) + |drains[|drains| - 1].rewards|
  }

  ghost predicate HasDrain(drains: seq<Drain>, e: nat) {
    exists i :: 0 <= i < |drains| && drains[i].epoch == e
  }

  /** The drains are of the epochs before `e`, each once and in order. */
  ghost predicate EpochsAscend(drains: seq<Drain>, e: nat) {
    && (forall i :: 0 <= i < |drains| ==> drains[i].epoch < e)
    && (forall i, j :: 0 <= i < j < |drains| ==> drains[i].epoch < drains[j].epoch)
  }

  ghost predicate RewardsAreEarned(points: seq<Point>, drains: seq<Drain>) {
    forall i :: 0 <= i < |drains| ==> drains[i].rewards == Earned(points, drains[i].epoch)
  }

  ghost predicate AllDrainedBut(points: seq<Point>, drains: seq<Drain>, e: nat) {
    forall j :: 0 <= j < |points| ==> points[j].epoch == e || HasDrain(drains, points[j].epoch)
  }

  /** The drains are of the epochs before `e`, each once, in order, and complete. */
  ghost predicate DrainsComplete(points: seq<Point>, drains: seq<Drain>, e: nat) {
    EpochsAscend(drains, e) && RewardsAreEarned(points, drains) && AllDrainedBut(points, drains, e)
  }

  /** The points pending are those of the current epoch, no more of them than slots so far in it, and no point is lost. */
  ghost predicate Counted(points: seq<Point>, s: State, e: nat, slotsSoFar: nat) {
    && s.epoch == Some(e)
    && s.pending == Earned(points, e)
    && |s.pending| <= slotsSoFar
    && Drained(s.drains) + |s.pending| == |points|
  }

  lemma SameEpoch(points: seq<Point>, b: Block, s: State, e: nat, slotsSoFar: nat, slotsNow: nat)
    requires Counted(points, s, e, slotsSoFar) && slotsSoFar < slotsNow < U32_LIMIT && b.beneficiaries != []
    ensures var after := Finalized(EpochStarted(s, e), b.beneficiaries);
            after.Done? && Counted(points + [Point(e, Earner(b))], after.value, e, slotsNow)
  {
    EarnedExtended(points, Point(e, Earner(b)), e);
    assert s.pending[Earner(b)] <= |s.pending|;
  }

  lemma NewEpoch(points: seq<Point>, b: Block, s: State, ended: nat, e: nat, slotsSoFar: nat, slotsNow: nat)
    requires Counted(points, s, ended, slotsSoFar) && ended != e && slotsNow > 0 && b.beneficiaries != []
    requires forall i :: 0 <= i < |points| ==> points[i].epoch != e
    ensures var after := Finalized(EpochStarted(s, e), b.beneficiaries);
            after.Done? && Counted(points + [Point(e, Earner(b))], after.value, e, slotsNow)
  {
    EarnedExtended(points, Point(e, Earner(b)), e);
    NothingEarned(points, e);
    var drains := s.drains + [Drain(ended, s.pending)];
    assert drains[..|s.drains|] == s.drains;
  }

  lemma RewardsStayEarned(points: seq<Point>, p: Point, drains: seq<Drain>)
    requires RewardsAreEarned(points, drains) && EpochsAscend(drains, p.epoch)
    ensures RewardsAreEarned(points + [p], drains)
  {
    forall i | 0 <= i < |drains|
      ensures drains[i].rewards == Earned(points + [p], drains[i].epoch)
    {
      EarnedExtended(points, p, drains[i].epoch);
    }
  }

  lemma AllDrainedAfter(points: seq<Point>, p: Point, drains: seq<Drain>, d: Drain)
    requires AllDrainedBut(points, drains, d.epoch)
    ensures AllDrainedBut(points + [p], drains + [d], p.epoch)
  {
    forall j | 0 <= j < |points|
      ensures HasDrain(drains + [d], points[j].epoch)
    {
      HasDrainAfter(drains, d, points[j].epoch);
    }
  }

  /** A point of the current epoch leaves the drains complete. */
  lemma DrainsKept(points: seq<Point>, p: Point, drains: seq<Drain>)
    requires DrainsComplete(points, drains, p.epoch)
    ensures DrainsComplete(points + [p], drains, p.epoch)
  {
    RewardsStayEarned(points, p, drains);
  }

  /** Ending an epoch completes the drains. */
  lemma DrainsExtended(points: seq<Point>, p: Point, drains: seq<Drain>, ended: nat)
    requires DrainsComplete(points, drains, ended) && ended < p.epoch
    ensures DrainsComplete(points + [p], drains + [Drain(ended, Earned(points, ended))], p.epoch)
  {
    var d := Drain(ended, Earned(points, ended));
    assert EpochsAscend(drains + [d], p.epoch);
    assert RewardsAreEarned(points, drains + [d]);
    RewardsStayEarned(points, p, drains + [d]);
    AllDrainedAfter(points, p, drains, d);
  }

  lemma HasDrainAfter(drains: seq<Drain>, d: Drain, e: nat)
    ensures HasDrain(drains + [d], e) <==> d.epoch == e || HasDrain(drains, e)
  {
    var all := drains + [d];
    assert all[|drains|] == d;
    if HasDrain(drains, e) {
      var i :| 0 <= i < |drains| && drains[i].epoch == e;
      assert all[i] == drains[i];
    }
  }

  /** In a run the epochs of the earlier blocks are not after the last one's. */
  lemma EarlierEpochs(slotsPerEpoch: nat, blocks: seq<Block>, e: nat)
    requires slotsPerEpoch > 0 && blocks != [] && Run(blocks) && blocks[|blocks| - 1].slot / slotsPerEpoch < e
    ensures forall i :: 0 <= i < |blocks| ==> Points(slotsPerEpoch, blocks)[i].epoch != e
  {
    forall i | 0 <= i < |blocks|
      ensures Points(slotsPerEpoch, blocks)[i].epoch != e
    {
      EpochsGrow(slotsPerEpoch, blocks[i].slot, blocks[|blocks| - 1].slot);
    }
  }

  /**
    No run aborts: the 32-bit counters never overflow. The pending points are those of the current epoch, at most
    one per slot of it so far, and drained and pending points together are one per block.
   */
  lemma {:induction false} PointsOfRun(slotsPerEpoch: nat, blocks: seq<Block>)
    requires 0 < slotsPerEpoch < U32_LIMIT && blocks != [] && Run(blocks)
    ensures Executed(slotsPerEpoch, blocks).Done?
    ensures var slot := blocks[|blocks| - 1].slot;
            Counted(Points(slotsPerEpoch, blocks), Executed(slotsPerEpoch, blocks).value, slot / slotsPerEpoch, slot % slotsPerEpoch + 1)
  {
    var before, last := blocks[..|blocks| - 1], blocks[|blocks| - 1];
    var points, e := Points(slotsPerEpoch, before), last.slot / slotsPerEpoch;
    assert Points(slotsPerEpoch, blocks) == points + [Point(e, Earner(last))];
    if before == [] {
      EarnedExtended([], Point(e, Earner(last)), e);
    } else {
      PointsOfRun(slotsPerEpoch, before);
      var s, previous := Executed(slotsPerEpoch, before).value, before[|before| - 1].slot;
      EpochsGrow(slotsPerEpoch, previous, last.slot);
      if e == previous / slotsPerEpoch {
        PositionsGrow(slotsPerEpoch, previous, last.slot);
        SameEpoch(points, last, s, e, previous % slotsPerEpoch + 1, last.slot % slotsPerEpoch + 1);
      } else {
        EarlierEpochs(slotsPerEpoch, before, e);
        NewEpoch(points, last, s, previous / slotsPerEpoch, e, previous % slotsPerEpoch + 1, last.slot % slotsPerEpoch + 1);
      }
    }
  }

  /** One block keeps the drains complete. */
  lemma DrainsStep(points: seq<Point>, p: Point, s: State, ended: nat)
    requires s.epoch == Some(ended) && s.pending == Earned(points, ended) && ended <= p.epoch
    requires DrainsComplete(points, s.drains, ended)
    ensures DrainsComplete(points + [p], EpochStarted(s, p.epoch).drains, p.epoch)
  {
    if ended == p.epoch {
      DrainsKept(points, p, s.drains);
    } else {
      DrainsExtended(points, p, s.drains, ended);
    }
  }

  lemma PointsExtended(slotsPerEpoch: nat, blocks: seq<Block>)
    requires slotsPerEpoch > 0 && blocks != [] && forall i :: 0 <= i < |blocks| ==> blocks[i].beneficiaries != []
    ensures Points(slotsPerEpoch, blocks)
         == Points(slotsPerEpoch, blocks[..|blocks| - 1]) + [PointOf(slotsPerEpoch, blocks[|blocks| - 1])]
  {
  }

  lemma LastDrains(slotsPerEpoch: nat, blocks: seq<Block>)
    requires slotsPerEpoch > 0 && blocks != [] && Executed(slotsPerEpoch, blocks).Done?
    ensures Executed(slotsPerEpoch, blocks[..|blocks| - 1]).Done?
    ensures Executed(slotsPerEpoch, blocks).value.drains
         == EpochStarted(Executed(slotsPerEpoch, blocks[..|blocks| - 1]).value, blocks[|blocks| - 1].slot / slotsPerEpoch).drains
  {
  }

  /** What the last block of a run does, told by points: it drains the points of the epoch before, if that has ended. */
  lemma LastBlockDrains(slotsPerEpoch: nat, blocks: seq<Block>) returns (s: State, ended: nat, p: Point)
    requires 0 < slotsPerEpoch < U32_LIMIT && |blocks| > 1 && Run(blocks)
    ensures var before := blocks[..|blocks| - 1];
            && Executed(slotsPerEpoch, before) == Done(s) && Executed(slotsPerEpoch, blocks).Done?
            && ended == before[|before| - 1].slot / slotsPerEpoch && p == PointOf(slotsPerEpoch, blocks[|blocks| - 1])
            && s.epoch == Some(ended) && s.pending == Earned(Points(slotsPerEpoch, before), ended) && ended <= p.epoch
            && Points(slotsPerEpoch, blocks) == Points(slotsPerEpoch, before) + [p]
            && Executed(slotsPerEpoch, blocks).value.drains == EpochStarted(s, p.epoch).drains
  {
    var before, last := blocks[..|blocks| - 1], blocks[|blocks| - 1];
    PointsOfRun(slotsPerEpoch, before);
    assert Executed(slotsPerEpoch, blocks).Done? by {
      PointsOfRun(slotsPerEpoch, blocks);
    }
    PointsExtended(slotsPerEpoch, blocks);
    LastDrains(slotsPerEpoch, blocks);
    EpochsGrow(slotsPerEpoch, before[|before| - 1].slot, last.slot);
    s, ended, p := Executed(slotsPerEpoch, before).value, before[|before| - 1].slot / slotsPerEpoch, PointOf(slotsPerEpoch, last);
  }

  /** The drains are exactly the points of the earlier epochs: every epoch with a block, once, in order. */
  lemma {:induction false} DrainsOfRun(slotsPerEpoch: nat, blocks: seq<Block>)
    requires 0 < slotsPerEpoch < U32_LIMIT && blocks != [] && Run(blocks)
    ensures Executed(slotsPerEpoch, blocks).Done?
    ensures DrainsComplete(Points(slotsPerEpoch, blocks), Executed(slotsPerEpoch, blocks).value.drains,
                           blocks[|blocks| - 1].slot / slotsPerEpoch)
  {
    if |blocks| == 1 {
      PointsOfRun(slotsPerEpoch, blocks);
      assert blocks[..0] == [];
    } else {
      var before := blocks[..|blocks| - 1];
      DrainsOfRun(slotsPerEpoch, before);
      var s, ended, p := LastBlockDrains(slotsPerEpoch, blocks);
      DrainsStep(Points(slotsPerEpoch, before), p, s, ended);
    }
  }

  /** No beneficiary ever has more pending points than an epoch has slots. */
  lemma PendingWithinEpoch(slotsPerEpoch: nat, blocks: seq<Block>, b: Beneficiary)
    requires 0 < slotsPerEpoch < U32_LIMIT && blocks != [] && Run(blocks)
    ensures Executed(slotsPerEpoch, blocks).Done? && Executed(slotsPerEpoch, blocks).value.pending[b] <= slotsPerEpoch
  {
    PointsOfRun(slotsPerEpoch, blocks);
    var pending := Executed(slotsPerEpoch, blocks).value.pending;
    assert pending[b] <= |pending|;
  }
}
