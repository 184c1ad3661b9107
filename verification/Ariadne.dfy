/**
  When the off-chain provider has selection inputs for a block: the data epoch must lie before the epoch of the main-chain
  reference (primitives `authority-selection-inherents`, `sidechain-slots` and `domain`).
 */
module Ariadne {
  import opened Wrappers
  import opened Committees
  import opened Slots

  /** Times are in milliseconds; a reference is between one and three times `minAge` old. */
  datatype Timing = Timing(slotsPerEpoch: nat, slotMillis: nat, mcEpochMillis: nat, firstMcEpoch: nat, firstMcMillis: nat, minAge: nat)

  ghost predicate Sensible(t: Timing) {
    t.slotsPerEpoch > 0 && t.slotMillis > 0 && t.mcEpochMillis > 0
  }

  function SlotTime(t: Timing, slot: nat): nat {
    slot * t.slotMillis
  }

  function EpochStart(t: Timing, epoch: nat): nat {
    SlotTime(t, epoch * t.slotsPerEpoch)
  }

  /** `timestamp_to_mainchain_epoch`; a time before the first epoch is an error. */
  function McEpochAt(t: Timing, time: int): Result<nat>
    requires t.mcEpochMillis > 0
  {
    if time < t.firstMcMillis then Err else Ok(t.firstMcEpoch + (time - t.firstMcMillis) / t.mcEpochMillis)
  }

  /** Whether there are inputs for the committee of epoch `target`, given the time of the main-chain reference. */
  function HasInputs(t: Timing, target: nat, referenceTime: int): Result<bool>
    requires t.mcEpochMillis > 0
  {
    match (McEpochAt(t, EpochStart(t, target)), McEpochAt(t, referenceTime))
    case (Ok(forEpoch), Ok(referenceEpoch)) => if forEpoch < 2 then Err else Ok(forEpoch - 2 < referenceEpoch)
    case _ => Err
  }

  ghost predicate AgeAllowed(t: Timing, slot: nat, referenceTime: int) {
    slot * t.slotMillis - 3 * t.minAge <= referenceTime <= slot * t.slotMillis - t.minAge
  }

  /** The furthest the start of a target epoch can lie after the reference. */
  function Horizon(t: Timing): nat
    requires t.slotsPerEpoch > 0
  {
    (2 * t.slotsPerEpoch - 1) * t.slotMillis + 3 * t.minAge
  }

  /** What the provider puts into the inherent data, if it can be made at all. */
  function ProvidedInputs(t: Timing, target: nat, referenceTime: int, inputs: SelectionInputs): Result<Option<SelectionInputs>>
    requires t.mcEpochMillis > 0
  {
    match HasInputs(t, target, referenceTime)
    case Err => Err
    case Ok(has) => Ok(if has then Some(inputs) else None)
  }

  // ---------- when inputs are there ----------

  /** The reference or the start of the target epoch is before the first main-chain epoch, or that start is before main-chain epoch two. */
  ghost predicate TooEarly(t: Timing, target: nat, referenceTime: int) {
    var start := target * t.slotsPerEpoch * t.slotMillis;
    || start < t.firstMcMillis || referenceTime < t.firstMcMillis
    || start - t.firstMcMillis < (2 - t.firstMcEpoch) * t.mcEpochMillis
  }

  /**
    The provider fails exactly when it is too early. Otherwise there are inputs if and only if the target epoch starts
    before the end of the main-chain epoch that follows the reference's.
   */
  lemma HasInputsIs(t: Timing, target: nat, referenceTime: int)
    requires t.mcEpochMillis > 0
    ensures HasInputs(t, target, referenceTime).Err? <==> TooEarly(t, target, referenceTime)
    ensures !TooEarly(t, target, referenceTime) ==>
              var start := target * t.slotsPerEpoch * t.slotMillis;
              var sinceFirst := referenceTime - t.firstMcMillis;
              HasInputs(t, target, referenceTime)
              == Ok(start - t.firstMcMillis < (sinceFirst / t.mcEpochMillis + 2) * t.mcEpochMillis)
  {
    var start, d := target * t.slotsPerEpoch * t.slotMillis, t.mcEpochMillis;
    assert EpochStart(t, target) == start;
    if start >= t.firstMcMillis && referenceTime >= t.firstMcMillis {
      QuotientLess(start - t.firstMcMillis, d, 2 - t.firstMcEpoch);
      QuotientLess(start - t.firstMcMillis, d, (referenceTime - t.firstMcMillis) / d + 2);
    }
  }


  /** The epoch two past a slot's starts at most two epochs after the slot. */
  lemma TargetSlot(slotsPerEpoch: nat, last: nat, unset: nat)
    requires slotsPerEpoch > 0 && unset <= last / slotsPerEpoch + 2
    ensures unset * slotsPerEpoch <= last + 2 * slotsPerEpoch
  {
    TimesMonotone(unset, last / slotsPerEpoch + 2, slotsPerEpoch);
    assert (last / slotsPerEpoch + 2) * slotsPerEpoch == last / slotsPerEpoch * slotsPerEpoch + 2 * slotsPerEpoch;
    assert last / slotsPerEpoch * slotsPerEpoch <= last;
  }

  /** So its start is within the horizon of any reference of a later slot. */
  lemma TargetTime(t: Timing, last: nat, slot: nat, target: nat, referenceTime: int)
    requires Sensible(t) && last < slot && AgeAllowed(t, slot, referenceTime)
    requires target * t.slotsPerEpoch <= last + 2 * t.slotsPerEpoch
    ensures EpochStart(t, target) - referenceTime <= Horizon(t)
  {
    var n := 2 * t.slotsPerEpoch - 1;
    TimesMonotone(target * t.slotsPerEpoch, slot + n, t.slotMillis);
    assert (slot + n) * t.slotMillis == slot * t.slotMillis + n * t.slotMillis;
  }

  lemma QuotientsClose(x: nat, y: nat, d: nat)
    requires d > 0 && y <= x + d
    ensures y / d <= x / d + 1
  {
    EpochsGrow(d, y, x + d);
    assert (x / d + 1) * d == x / d * d + d;
    QuotientIs(x + d, d, x / d + 1, x % d);
  }

  /** Within one main-chain epoch of the reference there are inputs. */
  lemma CloseHasInputs(t: Timing, target: nat, referenceTime: int)
    requires t.mcEpochMillis > 0 && EpochStart(t, target) - referenceTime <= t.mcEpochMillis
    ensures HasInputs(t, target, referenceTime) != Ok(false)
  {
    if EpochStart(t, target) >= t.firstMcMillis && referenceTime >= t.firstMcMillis {
      QuotientsClose(referenceTime - t.firstMcMillis, EpochStart(t, target) - t.firstMcMillis, t.mcEpochMillis);
    }
  }

  /** If the horizon is at most a main-chain epoch, no block of any run is without inputs. */
  lemma InputsAlwaysThere(t: Timing, select: Selection, initial: seq<Authority>, blocks: seq<Block>, slot: nat, referenceTime: int)
    requires Sensible(t) && Horizon(t) <= t.mcEpochMillis
    requires Run(select, t.slotsPerEpoch, initial, blocks) && (blocks != [] ==> blocks[|blocks| - 1].slot < slot)
    requires AgeAllowed(t, slot, referenceTime)
    ensures var target := OffchainTarget(After(t.slotsPerEpoch, initial, blocks), slot / t.slotsPerEpoch);
            HasInputs(t, target, referenceTime) == if TooEarly(t, target, referenceTime) then Err else Ok(true)
  {
    var target := OffchainTarget(After(t.slotsPerEpoch, initial, blocks), slot / t.slotsPerEpoch);
    if blocks == [] {
      FirstTarget(t, slot, referenceTime);
    } else {
      var last := blocks[|blocks| - 1].slot;
      EpochsFit(select, t.slotsPerEpoch, initial, blocks);
      RunInvariant(select, t.slotsPerEpoch, initial, blocks);
      TargetSlot(t.slotsPerEpoch, last, target);
      TargetTime(t, last, slot, target, referenceTime);
    }
    CloseHasInputs(t, target, referenceTime);
    HasInputsIs(t, target, referenceTime);
  }

  lemma FirstTarget(t: Timing, slot: nat, referenceTime: int)
    requires Sensible(t) && AgeAllowed(t, slot, referenceTime)
    ensures EpochStart(t, slot / t.slotsPerEpoch) - referenceTime <= Horizon(t)
  {
    var n := slot / t.slotsPerEpoch * t.slotsPerEpoch;
    assert n <= slot;
    TimesMonotone(n, slot, t.slotMillis);
    TimesMonotone(0, 2 * t.slotsPerEpoch - 1, t.slotMillis);
  }

  /** So, unless it is too early, the proposer is given its inputs and never panics for want of them. */
  lemma ProposerDoesNotPanic(t: Timing, select: Selection, initial: seq<Authority>, blocks: seq<Block>, slot: nat, referenceTime: int,
                             inputs: SelectionInputs)
    requires Sensible(t) && Horizon(t) <= t.mcEpochMillis
    requires Run(select, t.slotsPerEpoch, initial, blocks) && (blocks != [] ==> blocks[|blocks| - 1].slot < slot)
    requires AgeAllowed(t, slot, referenceTime)
    ensures var s, epoch := After(t.slotsPerEpoch, initial, blocks), slot / t.slotsPerEpoch;
            var target := OffchainTarget(s, epoch);
            var provided := ProvidedInputs(t, target, referenceTime, inputs);
            && (provided.Err? <==> TooEarly(t, target, referenceTime))
            && (provided.Ok? ==>
                  provided.value == Some(inputs) && CreateInherent(select, Initialized(s, |blocks| + 1, epoch), provided.value).Done?)
  {
    InputsAlwaysThere(t, select, initial, blocks, slot, referenceTime);
  }

  // ---------- inputs are missing ----------

  /** The first block of a run, in the first slot of epoch `n`. */
  function FirstOf(slotsPerEpoch: nat, initial: seq<Authority>, select: Selection, data: SelectionInputs, n: nat): Block {
    var committee := match select(data, n + 1) { case Some(c) => c case None => Truncated(initial) };
    Block(n * slotsPerEpoch, Some(data), [SetCall(committee, n + 1)])
  }

  lemma FirstOfRuns(slotsPerEpoch: nat, initial: seq<Authority>, select: Selection, data: SelectionInputs, n: nat)
    requires slotsPerEpoch > 0
    ensures var b := FirstOf(slotsPerEpoch, initial, select, data, n);
            && Run(select, slotsPerEpoch, initial, [b])
            && NextUnsetEpoch(After(slotsPerEpoch, initial, [b])) == n + 2
  {
    var b := FirstOf(slotsPerEpoch, initial, select, data, n);
    QuotientIs(b.slot, slotsPerEpoch, n, 0);
    FirstBlockRuns(select, slotsPerEpoch, initial, b, n);
  }

  /** Beyond two main-chain epochs there are none. */
  lemma FarHasNone(t: Timing, target: nat, referenceTime: int)
    requires t.mcEpochMillis > 0 && t.firstMcMillis <= referenceTime < t.firstMcMillis + t.mcEpochMillis
    requires EpochStart(t, target) >= t.firstMcMillis + 2 * t.mcEpochMillis
    ensures HasInputs(t, target, referenceTime) == Ok(false)
  {
    var d := t.mcEpochMillis;
    QuotientIs(2 * d, d, 2, 0);
    QuotientIs(referenceTime - t.firstMcMillis, d, 0, referenceTime - t.firstMcMillis);
    EpochsGrow(d, 2 * d, EpochStart(t, target) - t.firstMcMillis);
  }

  /**
    If the horizon is longer than a main-chain epoch, main-chain epochs can start so that the second block of a run, right
    after the first, finds no inputs, for every selection and genesis committee.
   */
  lemma InputsCanBeMissing(t: Timing, select: Selection, initial: seq<Authority>, data: SelectionInputs)
      returns (start: nat, blocks: seq<Block>, slot: nat, referenceTime: int)
    requires Sensible(t) && Horizon(t) > t.mcEpochMillis
    ensures blocks != [] && Run(select, t.slotsPerEpoch, initial, blocks) && blocks[|blocks| - 1].slot < slot
    ensures AgeAllowed(t, slot, referenceTime)
    ensures var target := OffchainTarget(After(t.slotsPerEpoch, initial, blocks), slot / t.slotsPerEpoch);
            HasInputs(t.(firstMcMillis := start), target, referenceTime) == Ok(false)
  {
    var n := 3 * t.minAge + t.mcEpochMillis;
    var b := FirstOf(t.slotsPerEpoch, initial, select, data, n);
    FirstOfRuns(t.slotsPerEpoch, initial, select, data, n);
    blocks, slot := [b], b.slot + 1;
    LateEnough(t, n);
    referenceTime := SlotTime(t, slot) - 3 * t.minAge;
    start := referenceTime - (t.mcEpochMillis - 1);
    TargetDistance(t, n);
    FarHasNone(t.(firstMcMillis := start), n + 2, referenceTime);
  }

  lemma LateEnough(t: Timing, n: nat)
    requires Sensible(t)
    ensures SlotTime(t, n * t.slotsPerEpoch + 1) >= n
  {
    TimesMonotone(1, t.slotsPerEpoch, n);
    TimesMonotone(1, t.slotMillis, n * t.slotsPerEpoch + 1);
  }

  lemma TargetDistance(t: Timing, n: nat)
    requires Sensible(t)
    ensures EpochStart(t, n + 2) - SlotTime(t, n * t.slotsPerEpoch + 1) == (2 * t.slotsPerEpoch - 1) * t.slotMillis
  {
    var a, b := (n + 2) * t.slotsPerEpoch, n * t.slotsPerEpoch + 1;
    assert a - b == 2 * t.slotsPerEpoch - 1;
    assert a * t.slotMillis - b * t.slotMillis == (a - b) * t.slotMillis;
  }
}
