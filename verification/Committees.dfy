/**
  Committee hand-over: who sets the next committee, when it takes over, and how the proposer, the
  verifier and the off-chain data provider agree about it
  (pallet `session-validator-management`, primitives `session-manager` and `authority-selection-inherents`).
 */
module Committees {
  import opened Wrappers
  import opened Slots
  import opened Widths

  type AuthorityId(==, !new)
  type AuthorityKeys(==, !new)
  type AccountId(==, !new)
  type SelectionInputs(==, !new)

  datatype Authority = Authority(id: AuthorityId, keys: AuthorityKeys)
  datatype Validator = Validator(account: AccountId, keys: AuthorityKeys)

  const MAX_VALIDATORS: nat := 32

  /** A bounded vector of authorities. */
  type Committee = s: seq<Authority> | |s| <= MAX_VALIDATORS

  datatype CommitteeInfo = CommitteeInfo(epoch: nat, committee: Committee)

  /** The storage of the pallet. */
  datatype State = State(current: CommitteeInfo, next: Option<CommitteeInfo>)

  /** The call that stores a committee for an epoch. */
  datatype SetCall = SetCall(validators: Committee, forEpoch: nat)

  /** The selection algorithm, any deterministic function that can fail. */
  type Selection = (SelectionInputs, nat) -> Option<Committee>

  // ---------- storage changes ----------

  function Truncated(s: seq<Authority>): (c: Committee)
    ensures c <= s && (c == s || |c| == MAX_VALIDATORS)
  {
    if |s| <= MAX_VALIDATORS then s else s[..MAX_VALIDATORS]
  }

  function Genesis(initial: seq<Authority>): State {
    State(CommitteeInfo(0, Truncated(initial)), None)
  }

  /** The hook of the pallet: the genesis committee gets the epoch of the first block. */
  function Started(s: State, blockNr: nat, epoch: nat): State {
    if blockNr == 1 then s.(current := s.current.(epoch := epoch)) else s
  }

  predicate ShouldEndSession(s: State, epoch: nat) {
    epoch > s.current.epoch && s.next.Some?
  }

  function Rotated(s: State): State {
    match s.next
    case None => s
    case Some(next) => State(next, None)
  }

  /** What block initialization does to the committees: the hook, then the end of the session if due. */
  function Initialized(s: State, blockNr: nat, epoch: nat): State {
    var started := Started(s, blockNr, epoch);
    if ShouldEndSession(started, epoch) then Rotated(started) else started
  }

  function Set(s: State, call: SetCall): Result<State> {
    if call.forEpoch == s.current.epoch + 1
    then Ok(s.(next := Some(CommitteeInfo(call.forEpoch, call.validators))))
    else Err
  }

  function NextUnsetEpoch(s: State): nat {
    match s.next
    case None => s.current.epoch + 1
    case Some(next) => next.epoch + 1
  }

  // ---------- the inherent ----------

  /** Selection from inherent data that may be missing; the lookup then panics. */
  function Calculated(select: Selection, data: Option<SelectionInputs>, epoch: nat): Fallible<Option<Committee>> {
    match data
    case None => Panicked
    case Some(inputs) => Done(select(inputs, epoch))
  }

  function CreateInherent(select: Selection, s: State, data: Option<SelectionInputs>): Fallible<Option<SetCall>> {
    if s.next.Some? then Done(None)
    else
      var forEpoch := s.current.epoch + 1;
      match Calculated(select, data, forEpoch)
      case Panicked => Panicked
      case Done(None) => Done(Some(SetCall(s.current.committee, forEpoch)))
      case Done(Some(validators)) => Done(Some(SetCall(validators, forEpoch)))
  }

  /** The verdict on a call, in the state before the block is initialized. */
  function CheckInherent(select: Selection, s: State, call: SetCall, data: Option<SelectionInputs>): Fallible<bool> {
    match Calculated(select, data, call.forEpoch)
    case Panicked => Panicked
    case Done(selected) =>
      var expected := match selected {
        case Some(validators) => validators
        case None => if s.next.Some? then s.next.value.committee else s.current.committee
      };
      Done(call.validators == expected)
  }

  predicate IsInherentRequired(s: State) {
    s.next.None?
  }

  /** The call sets a committee, and dispatching it after the verifier's check and the block's initialization succeeds. */
  predicate PassesAndDispatches(select: Selection, s: State, blockNr: nat, epoch: nat, call: SetCall, data: Option<SelectionInputs>) {
    && CheckInherent(select, s, call, data) == Done(true)
    && Set(Initialized(s, blockNr, epoch), call).Ok?
  }

  /** Honest blocks are accepted: what the proposer creates after initialization passes the check made before it, and dispatches. */
  lemma HonestBlockAccepted(select: Selection, s: State, blockNr: nat, epoch: nat, data: Option<SelectionInputs>)
    ensures var created := CreateInherent(select, Initialized(s, blockNr, epoch), data);
            && (created.Panicked? <==> Initialized(s, blockNr, epoch).next.None? && data.None?)
            && (created.Done? && created.value.None? <==> Initialized(s, blockNr, epoch).next.Some?)
            && (created.Done? && created.value.Some? ==>
                  var call, current := created.value.value, Initialized(s, blockNr, epoch).current;
                  && PassesAndDispatches(select, s, blockNr, epoch, call, data)
                  && call.forEpoch == current.epoch + 1
                  && call.validators == match select(data.value, current.epoch + 1) {
                       case Some(selected) => selected
                       case None => current.committee
                     })
  {
  }

  /** And nothing else is: without a next committee, the created call is the only one that passes and dispatches. */
  lemma OnlyTheCreatedCall(select: Selection, s: State, blockNr: nat, epoch: nat, call: SetCall, data: Option<SelectionInputs>)
    requires Initialized(s, blockNr, epoch).next.None?
    ensures PassesAndDispatches(select, s, blockNr, epoch, call, data)
       <==> CreateInherent(select, Initialized(s, blockNr, epoch), data) == Done(Some(call))
  {
  }

  /** The committee a call would have to carry when a next committee is already stored. */
  function Replacement(select: Selection, s: State, data: SelectionInputs): Committee
    requires s.next.Some?
  {
    match select(data, s.current.epoch + 1)
    case None => s.next.value.committee
    case Some(validators) => validators
  }

  /**
    With a next committee already stored, exactly one call passes and dispatches although none is created.
    It leaves the stored committee alone if and only if selection fails or selects that committee again.
   */
  lemma SetAgain(select: Selection, s: State, blockNr: nat, epoch: nat, call: SetCall, data: SelectionInputs)
    requires blockNr != 1 && WellFormed(s) && Initialized(s, blockNr, epoch).next.Some?
    ensures PassesAndDispatches(select, s, blockNr, epoch, call, Some(data))
       <==> call == SetCall(Replacement(select, s, data), s.current.epoch + 1)
    ensures PassesAndDispatches(select, s, blockNr, epoch, call, Some(data)) ==>
              (Set(Initialized(s, blockNr, epoch), call) == Ok(Initialized(s, blockNr, epoch))
               <==> select(data, s.current.epoch + 1) in {None, Some(s.next.value.committee)})
  {
  }

  /** A stored next committee is for the epoch right after the current one. */
  predicate WellFormed(s: State) {
    s.next.Some? ==> s.next.value.epoch == s.current.epoch + 1
  }

  // ---------- the target epoch ----------

  /** The epoch the off-chain provider selects for: it looks at the parent state, and at the slot for the very first block. */
  function OffchainTarget(s: State, slotEpoch: nat): nat {
    if NextUnsetEpoch(s) == 1 then slotEpoch else NextUnsetEpoch(s)
  }

  /** After the first block, initialization keeps the next unset epoch, so all three views target the same epoch. */
  lemma TargetsAgree(select: Selection, s: State, blockNr: nat, epoch: nat, data: Option<SelectionInputs>)
    requires WellFormed(s) && blockNr != 1
    ensures NextUnsetEpoch(Initialized(s, blockNr, epoch)) == NextUnsetEpoch(s)
    ensures var created := CreateInherent(select, Initialized(s, blockNr, epoch), data);
            created.Done? && created.value.Some? && NextUnsetEpoch(s) != 1 ==>
              created.value.value.forEpoch == OffchainTarget(s, epoch)
  {
  }

  // ---------- the pallet ----------

  /** Each validator stands for the authority in its place: that one's account and that one's keys. */
  ghost predicate StandFor(toAccount: AuthorityId -> AccountId, v: seq<Validator>, committee: seq<Authority>) {
    && |v| == |committee|
    && forall i :: 0 <= i < |v| ==> v[i].account == toAccount(committee[i].id) && v[i].keys == committee[i].keys
  }

  function ToValidators(toAccount: AuthorityId -> AccountId, committee: seq<Authority>): (v: seq<Validator>)
    ensures |v| == |committee|
    ensures forall i :: 0 <= i < |v| ==> v[i].account == toAccount(committee[i].id) && v[i].keys == committee[i].keys
  {
    seq(|committee|, i requires 0 <= i < |committee| => Validator(toAccount(committee[i].id), committee[i].keys))
  }

  class CommitteePallet {
    var current: CommitteeInfo
    var next: Option<CommitteeInfo>

    function View(): State
      reads this
    {
      State(current, next)
    }

    constructor (initial: seq<Authority>)
      ensures View() == Genesis(initial)
      ensures current.committee <= initial && (current.committee == initial || |current.committee| == MAX_VALIDATORS)
    {
      current, next := CommitteeInfo(0, Truncated(initial)), None;
    }

    method OnInitialize(blockNr: nat, epoch: nat)
      modifies this
      ensures View() == Started(old(View()), blockNr, epoch)
    {
      if blockNr == 1 {
        current := current.(epoch := epoch);
      }
    }

    method SetNext(validators: Committee, forEpoch: nat) returns (ok: bool)
      modifies this
      ensures ok == Set(old(View()), SetCall(validators, forEpoch)).Ok?
      ensures View() == if ok then Set(old(View()), SetCall(validators, forEpoch)).value else old(View())
    {
      ok := forEpoch == current.epoch + 1;
      if ok {
        next := Some(CommitteeInfo(forEpoch, validators));
      }
    }

    method RotateCommittee(toAccount: AuthorityId -> AccountId) returns (r: Option<seq<Validator>>)
      modifies this
      ensures View() == Rotated(old(View()))
      ensures r.None? <==> old(next).None?
      ensures r.Some? ==> r.value == ToValidators(toAccount, current.committee) && StandFor(toAccount, r.value, old(next).value.committee)
    {
      if next.None? {
        return None;
      }
      current, next := next.value, None;
      r := Some(ToValidators(toAccount, current.committee));
    }
  }

  // ---------- runs of blocks ----------

  /** A block: its slot, the selection inputs its verifier computes, and the committee calls it carries. */
  datatype Block = Block(slot: nat, data: Option<SelectionInputs>, calls: seq<SetCall>)

  function SetAll(s: State, calls: seq<SetCall>): Result<State> {
    if calls == [] then Ok(s)
    else
      match SetAll(s, calls[..|calls| - 1])
      case Err => Err
      case Ok(before) => Set(before, calls[|calls| - 1])
  }

  /** Every call is checked in the parent state, a required one is present, and all dispatch after initialization. */
  predicate Accepted(select: Selection, s: State, blockNr: nat, epoch: nat, b: Block) {
    && (forall i :: 0 <= i < |b.calls| ==> CheckInherent(select, s, b.calls[i], b.data) == Done(true))
    && (IsInherentRequired(s) ==> b.calls != [])
    && SetAll(Initialized(s, blockNr, epoch), b.calls).Ok?
  }

  function Executed(s: State, blockNr: nat, epoch: nat, b: Block): State {
    var ready := Initialized(s, blockNr, epoch);
    match SetAll(ready, b.calls)
    case Ok(after) => after
    case Err => ready
  }

  function After(slotsPerEpoch: nat, initial: seq<Authority>, blocks: seq<Block>): State
    requires slotsPerEpoch > 0
  {
    if blocks == [] then Genesis(initial)
    else
      var n := |blocks| - 1;
      Executed(After(slotsPerEpoch, initial, blocks[..n]), n + 1, blocks[n].slot / slotsPerEpoch, blocks[n])
  }

  /** A run of accepted blocks, at most one per slot. */
  ghost predicate Run(select: Selection, slotsPerEpoch: nat, initial: seq<Authority>, blocks: seq<Block>)
    requires slotsPerEpoch > 0
  {
    blocks != [] ==>
      var n := |blocks| - 1;
      && Run(select, slotsPerEpoch, initial, blocks[..n])
      && (n > 0 ==> blocks[n - 1].slot < blocks[n].slot)
      && Accepted(select, After(slotsPerEpoch, initial, blocks[..n]), n + 1, blocks[n].slot / slotsPerEpoch, blocks[n])
  }

  /** Any number of calls in a block has the effect of the last one; the current committee is not theirs to change. */
  lemma {:induction false} SetAllEffect(s: State, calls: seq<SetCall>)
    requires SetAll(s, calls).Ok?
    ensures SetAll(s, calls).value.current == s.current
    ensures calls == [] ==> SetAll(s, calls).value == s
    ensures calls != [] ==>
              var last := calls[|calls| - 1];
              SetAll(s, calls).value.next == Some(CommitteeInfo(s.current.epoch + 1, last.validators))
  {
    if calls != [] {
      SetAllEffect(s, calls[..|calls| - 1]);
    }
  }

  /** The number of blocks that rotated the committee. */
  function Rotations(slotsPerEpoch: nat, initial: seq<Authority>, blocks: seq<Block>): nat
    requires slotsPerEpoch > 0
  {
    if blocks == [] then 0
    else Rotations(slotsPerEpoch, initial, blocks[..|blocks| - 1]) + if LastRotates(slotsPerEpoch, initial, blocks) then 1 else 0
  }

  /** The last block of a run ends the session. */
  predicate LastRotates(slotsPerEpoch: nat, initial: seq<Authority>, blocks: seq<Block>)
    requires slotsPerEpoch > 0 && blocks != []
  {
    var n := |blocks| - 1;
    var epoch := blocks[n].slot / slotsPerEpoch;
    ShouldEndSession(Started(After(slotsPerEpoch, initial, blocks[..n]), n + 1, epoch), epoch)
  }

  /**
    In every reachable state: the next committee is for the next epoch; the committee's epoch has advanced by
    exactly one per rotation since the first block and never overtakes the slot's epoch; and a next committee is
    missing exactly when the last block rotated without setting one.
   */
  lemma {:induction false} RunInvariant(select: Selection, slotsPerEpoch: nat, initial: seq<Authority>, blocks: seq<Block>)
    requires slotsPerEpoch > 0 && blocks != [] && Run(select, slotsPerEpoch, initial, blocks)
    ensures var s := After(slotsPerEpoch, initial, blocks);
            var last := blocks[|blocks| - 1];
            && WellFormed(s)
            && s.current.epoch == blocks[0].slot / slotsPerEpoch + Rotations(slotsPerEpoch, initial, blocks)
            && s.current.epoch <= last.slot / slotsPerEpoch
            && (s.next.None? <==> LastRotates(slotsPerEpoch, initial, blocks) && last.calls == [])
            && NextUnsetEpoch(s) > 1
  {
    var n := |blocks| - 1;
    var before, epoch := After(slotsPerEpoch, initial, blocks[..n]), blocks[n].slot / slotsPerEpoch;
    var ready := Initialized(before, n + 1, epoch);
    SetAllEffect(ready, blocks[n].calls);
    if n == 0 {
      assert blocks[..0] == [];
    } else {
      assert blocks[..n][0] == blocks[0] && blocks[..n][n - 1] == blocks[n - 1];
      RunInvariant(select, slotsPerEpoch, initial, blocks[..n]);
      EpochsGrow(slotsPerEpoch, blocks[n - 1].slot, blocks[n].slot);
    }
  }

  /** The next committee is never missing after two blocks in a row. */
  lemma NeverMissingTwice(select: Selection, slotsPerEpoch: nat, initial: seq<Authority>, blocks: seq<Block>)
    requires slotsPerEpoch > 0 && blocks != [] && Run(select, slotsPerEpoch, initial, blocks)
    ensures After(slotsPerEpoch, initial, blocks).next.None? ==>
              |blocks| > 1 && After(slotsPerEpoch, initial, blocks[..|blocks| - 1]).next.Some?
  {
    RunInvariant(select, slotsPerEpoch, initial, blocks);
    assert blocks[..0] == [];
  }

  /** Whatever the run so far, a block of a later epoch that omits the call is accepted and leaves the next committee missing. */
  lemma OmittedCallIsAccepted(select: Selection, slotsPerEpoch: nat, initial: seq<Authority>, blocks: seq<Block>,
                              slot: nat, data: Option<SelectionInputs>)
    requires slotsPerEpoch > 0 && blocks != [] && Run(select, slotsPerEpoch, initial, blocks)
    requires After(slotsPerEpoch, initial, blocks).next.Some? && blocks[|blocks| - 1].slot < slot
    requires slot / slotsPerEpoch > After(slotsPerEpoch, initial, blocks).current.epoch
    ensures Run(select, slotsPerEpoch, initial, blocks + [Block(slot, data, [])])
    ensures After(slotsPerEpoch, initial, blocks + [Block(slot, data, [])]).next.None?
  {
    var all := blocks + [Block(slot, data, [])];
    assert all[..|all| - 1] == blocks;
  }

  /** Two blocks from genesis: the first sets the committee for its next epoch, the second rotates to it and sets none. */
  function BlocksWithoutCall(select: Selection, initial: seq<Authority>, data: SelectionInputs): seq<Block> {
    var committee := match select(data, 2) { case Some(c) => c case None => Truncated(initial) };
    [Block(1, Some(data), [SetCall(committee, 2)])] + [Block(2, Some(data), [])]
  }

  lemma FirstBlockRuns(select: Selection, slotsPerEpoch: nat, initial: seq<Authority>, b: Block, epoch: nat)
    requires slotsPerEpoch > 0 && b.slot / slotsPerEpoch == epoch && |b.calls| == 1 && b.calls[0].forEpoch == epoch + 1
    requires CheckInherent(select, Genesis(initial), b.calls[0], b.data) == Done(true)
    ensures Run(select, slotsPerEpoch, initial, [b])
    ensures var s := After(slotsPerEpoch, initial, [b]); s.current.epoch == epoch && s.next.Some? && s.next.value.epoch == epoch + 1
  {
    assert [b][..0] == [] && b.calls[..0] == [];
    assert Accepted(select, Genesis(initial), 1, epoch, b);
  }

  /** So, with one slot per epoch, already the second block of a run can leave the next committee missing. */
  lemma NextCommitteeCanBeMissing(select: Selection, initial: seq<Authority>, data: SelectionInputs)
    ensures Run(select, 1, initial, BlocksWithoutCall(select, initial, data))
    ensures After(1, initial, BlocksWithoutCall(select, initial, data)).next.None?
  {
    var first := BlocksWithoutCall(select, initial, data)[..1];
    FirstBlockRuns(select, 1, initial, first[0], 1);
    assert first == [first[0]];
    OmittedCallIsAccepted(select, 1, initial, first, 2, Some(data));
    assert first + [Block(2, Some(data), [])] == BlocksWithoutCall(select, initial, data);
  }

  /** For every block of a run but the first, whatever the proposer creates is for the epoch the off-chain provider selected for. */
  lemma TargetsAgreeInRuns(select: Selection, slotsPerEpoch: nat, initial: seq<Authority>, blocks: seq<Block>,
                           epoch: nat, data: Option<SelectionInputs>)
    requires slotsPerEpoch > 0 && blocks != [] && Run(select, slotsPerEpoch, initial, blocks)
    ensures var s := After(slotsPerEpoch, initial, blocks);
            var created := CreateInherent(select, Initialized(s, |blocks| + 1, epoch), data);
            created.Done? && created.value.Some? ==> created.value.value.forEpoch == OffchainTarget(s, epoch)
  {
    RunInvariant(select, slotsPerEpoch, initial, blocks);
    TargetsAgree(select, After(slotsPerEpoch, initial, blocks), |blocks| + 1, epoch, data);
  }

  /** For the first block the two differ by one. */
  lemma FirstBlockTargets(select: Selection, initial: seq<Authority>, epoch: nat, data: SelectionInputs)
    ensures var s := Genesis(initial);
            var created := CreateInherent(select, Initialized(s, 1, epoch), Some(data));
            && created.Done? && created.value.Some?
            && created.value.value.forEpoch == OffchainTarget(s, epoch) + 1
  {
  }

  /** The next unset epoch is at most two past the slot's, so it stays within 64 bits while slots do, the very last slots apart. */
  lemma EpochsFit(select: Selection, slotsPerEpoch: nat, initial: seq<Authority>, blocks: seq<Block>)
    requires slotsPerEpoch > 0 && blocks != [] && Run(select, slotsPerEpoch, initial, blocks)
    ensures var slot, unset := blocks[|blocks| - 1].slot, NextUnsetEpoch(After(slotsPerEpoch, initial, blocks));
            && unset <= slot / slotsPerEpoch + 2
            && (slot < U64_LIMIT && (slotsPerEpoch > 1 || slot + 2 < U64_LIMIT) ==> unset < U64_LIMIT)
  {
    RunInvariant(select, slotsPerEpoch, initial, blocks);
    if slotsPerEpoch > 1 {
      HalfAtMost(blocks[|blocks| - 1].slot, slotsPerEpoch);
    }
  }

  // ---------- honest runs ----------

  /** The block carries what its proposer creates. */
  predicate Honest(select: Selection, s: State, blockNr: nat, epoch: nat, b: Block) {
    match CreateInherent(select, Initialized(s, blockNr, epoch), b.data)
    case Panicked => false
    case Done(None) => b.calls == []
    case Done(Some(call)) => b.calls == [call]
  }

  ghost predicate HonestRun(select: Selection, slotsPerEpoch: nat, initial: seq<Authority>, blocks: seq<Block>)
    requires slotsPerEpoch > 0
  {
    blocks != [] ==>
      var n := |blocks| - 1;
      && HonestRun(select, slotsPerEpoch, initial, blocks[..n])
      && (n > 0 ==> blocks[n - 1].slot < blocks[n].slot)
      && Honest(select, After(slotsPerEpoch, initial, blocks[..n]), n + 1, blocks[n].slot / slotsPerEpoch, blocks[n])
  }

  lemma HonestIsAccepted(select: Selection, s: State, blockNr: nat, epoch: nat, b: Block)
    requires Honest(select, s, blockNr, epoch, b)
    ensures Accepted(select, s, blockNr, epoch, b)
    ensures Executed(s, blockNr, epoch, b).next.Some?
    ensures Executed(s, blockNr, epoch, b).current == Initialized(s, blockNr, epoch).current
  {
    HonestBlockAccepted(select, s, blockNr, epoch, b.data);
    assert b.calls != [] ==> b.calls[..0] == [];
    SetAllEffect(Initialized(s, blockNr, epoch), b.calls);
  }

  /** Honest runs are accepted, and a next committee is stored after every block. */
  lemma {:induction false} HonestRunAccepted(select: Selection, slotsPerEpoch: nat, initial: seq<Authority>, blocks: seq<Block>)
    requires slotsPerEpoch > 0 && HonestRun(select, slotsPerEpoch, initial, blocks)
    ensures Run(select, slotsPerEpoch, initial, blocks)
    ensures blocks != [] ==> After(slotsPerEpoch, initial, blocks).next.Some?
  {
    if blocks != [] {
      var n := |blocks| - 1;
      HonestRunAccepted(select, slotsPerEpoch, initial, blocks[..n]);
      HonestIsAccepted(select, After(slotsPerEpoch, initial, blocks[..n]), n + 1, blocks[n].slot / slotsPerEpoch, blocks[n]);
    }
  }

  /** A stale chain catches up one epoch per block: after `j` blocks in epoch `e` the committee is `j` epochs further, or at `e`. */
  lemma {:induction false} CatchUp(select: Selection, slotsPerEpoch: nat, initial: seq<Authority>, blocks: seq<Block>, m: nat, e: nat)
    requires slotsPerEpoch > 0 && HonestRun(select, slotsPerEpoch, initial, blocks) && 0 < m <= |blocks|
    requires forall i :: m <= i < |blocks| ==> blocks[i].slot / slotsPerEpoch == e
    requires After(slotsPerEpoch, initial, blocks[..m]).current.epoch <= e
    ensures var c := After(slotsPerEpoch, initial, blocks[..m]).current.epoch;
            var j := |blocks| - m;
            After(slotsPerEpoch, initial, blocks).current.epoch == if c + j <= e then c + j else e
  {
    if m == |blocks| {
      assert blocks[..m] == blocks;
    } else {
      var n := |blocks| - 1;
      var before := blocks[..n];
      assert before[..m] == blocks[..m];
      CatchUp(select, slotsPerEpoch, initial, before, m, e);
      HonestRunAccepted(select, slotsPerEpoch, initial, before);
      RunInvariant(select, slotsPerEpoch, initial, before);
      HonestIsAccepted(select, After(slotsPerEpoch, initial, before), n + 1, e, blocks[n]);
    }
  }

  /** How far catching up has come: an epoch counts two, a stored next committee one. */
  function Progress(s: State): nat {
    2 * s.current.epoch + if s.next.Some? then 1 else 0
  }

  /** One accepted block of a stale chain makes progress, and the committee moves at most one epoch and not past `e`. */
  lemma StaleBlockProgresses(select: Selection, s: State, blockNr: nat, e: nat, b: Block)
    requires WellFormed(s) && blockNr != 1 && s.current.epoch <= e && Accepted(select, s, blockNr, e, b)
    ensures var after := Executed(s, blockNr, e, b);
            && s.current.epoch <= after.current.epoch <= e
            && after.current.epoch <= s.current.epoch + 1
            && (s.current.epoch < e ==> Progress(after) > Progress(s))
  {
    SetAllEffect(Initialized(s, blockNr, e), b.calls);
  }

  /** In any accepted run of a stale chain every block in epoch `e` makes progress until the committee is at `e`. */
  lemma {:induction false} CatchUpProgress(select: Selection, slotsPerEpoch: nat, initial: seq<Authority>, blocks: seq<Block>, m: nat, e: nat)
    requires slotsPerEpoch > 0 && Run(select, slotsPerEpoch, initial, blocks) && 0 < m <= |blocks|
    requires forall i :: m <= i < |blocks| ==> blocks[i].slot / slotsPerEpoch == e
    requires After(slotsPerEpoch, initial, blocks[..m]).current.epoch <= e
    ensures var from, to := After(slotsPerEpoch, initial, blocks[..m]), After(slotsPerEpoch, initial, blocks);
            var j := |blocks| - m;
            && from.current.epoch <= to.current.epoch <= e
            && to.current.epoch <= from.current.epoch + j
            && (to.current.epoch < e ==> Progress(to) >= Progress(from) + j)
  {
    if m == |blocks| {
      assert blocks[..m] == blocks;
    } else {
      var n := |blocks| - 1;
      var before := blocks[..n];
      assert before[..m] == blocks[..m];
      CatchUpProgress(select, slotsPerEpoch, initial, before, m, e);
      RunInvariant(select, slotsPerEpoch, initial, before);
      StaleBlockProgresses(select, After(slotsPerEpoch, initial, before), n + 1, e, blocks[n]);
    }
  }

  /** So it catches up: after `j` blocks it has moved at least one epoch per two blocks and at most one per block, or is at `e`. */
  lemma CatchUpAccepted(select: Selection, slotsPerEpoch: nat, initial: seq<Authority>, blocks: seq<Block>, m: nat, e: nat)
    requires slotsPerEpoch > 0 && Run(select, slotsPerEpoch, initial, blocks) && 0 < m <= |blocks|
    requires forall i :: m <= i < |blocks| ==> blocks[i].slot / slotsPerEpoch == e
    requires After(slotsPerEpoch, initial, blocks[..m]).current.epoch <= e
    ensures var c, j := After(slotsPerEpoch, initial, blocks[..m]).current.epoch, |blocks| - m;
            var after := After(slotsPerEpoch, initial, blocks).current.epoch;
            (if c + j / 2 <= e then c + j / 2 else e) <= after <= (if c + j <= e then c + j else e)
  {
    CatchUpProgress(select, slotsPerEpoch, initial, blocks, m, e);
  }
}
