/** The runtime: the pallets composed in the order in which blocks run them. */
module Runtime {
  import opened Wrappers
  import opened Committees
  import opened Widths
  import Session
  import Rewards
  import NativeToken
  import TransferData

  type ToAccount = AuthorityId -> AccountId

  datatype ChainState = ChainState(committees: State, session: Session.SessionState)

  function GenesisChain(polkadotJs: bool, toAccount: ToAccount, initial: seq<Authority>): ChainState {
    var committees := Genesis(initial);
    ChainState(committees, Session.GenesisSession(polkadotJs, ToValidators(toAccount, committees.current.committee)))
  }

  /** Block initialization: the committee pallet's hook, then the session pallet's. */
  function InitializedChain(polkadotJs: bool, toAccount: ToAccount, s: ChainState, blockNr: nat, epoch: nat): ChainState {
    var started := Started(s.committees, blockNr, epoch);
    if ShouldEndSession(started, epoch)
    then
      var rotated := Rotated(started);
      ChainState(rotated, Session.NewSession(polkadotJs, s.session, Some(ToValidators(toAccount, rotated.current.committee))))
    else ChainState(started, s.session)
  }

  function ExecutedChain(polkadotJs: bool, toAccount: ToAccount, s: ChainState, blockNr: nat, epoch: nat, b: Block): ChainState {
    var ready := InitializedChain(polkadotJs, toAccount, s, blockNr, epoch);
    ready.(committees := Executed(s.committees, blockNr, epoch, b))
  }

  function ChainAfter(polkadotJs: bool, toAccount: ToAccount, slotsPerEpoch: nat, initial: seq<Authority>, blocks: seq<Block>): ChainState
    requires slotsPerEpoch > 0
  {
    if blocks == [] then GenesisChain(polkadotJs, toAccount, initial)
    else
      var n := |blocks| - 1;
      var before := ChainAfter(polkadotJs, toAccount, slotsPerEpoch, initial, blocks[..n]);
      ExecutedChain(polkadotJs, toAccount, before, n + 1, blocks[n].slot / slotsPerEpoch, blocks[n])
  }

  ghost predicate Mirrors(toAccount: ToAccount, s: ChainState) {
    var v, committee := s.session.validatorsAndKeys, s.committees.current.committee;
    && |v| == |committee| <= MAX_VALIDATORS
    && forall i :: 0 <= i < |v| ==> v[i].account == toAccount(committee[i].id) && v[i].keys == committee[i].keys
  }

  /** One block keeps the session pallet in step with the committee, and counts a rotation exactly when there is one. */
  lemma MirrorsStep(polkadotJs: bool, toAccount: ToAccount, s: ChainState, blockNr: nat, epoch: nat, b: Block)
    requires Mirrors(toAccount, s) && SetAll(Initialized(s.committees, blockNr, epoch), b.calls).Ok?
    ensures var after := ExecutedChain(polkadotJs, toAccount, s, blockNr, epoch, b);
            && Mirrors(toAccount, after)
            && after.session.index == s.session.index + if ShouldEndSession(Started(s.committees, blockNr, epoch), epoch) then 1 else 0
  {
    SetAllEffect(Initialized(s.committees, blockNr, epoch), b.calls);
  }

  /** The calls of block `n` dispatch. */
  ghost predicate DispatchesAt(slotsPerEpoch: nat, initial: seq<Authority>, blocks: seq<Block>, n: nat)
    requires slotsPerEpoch > 0 && n < |blocks|
  {
    SetAll(Initialized(After(slotsPerEpoch, initial, blocks[..n]), n + 1, blocks[n].slot / slotsPerEpoch), blocks[n].calls).Ok?
  }

  lemma RotationsStep(slotsPerEpoch: nat, initial: seq<Authority>, blocks: seq<Block>, n: nat)
    requires slotsPerEpoch > 0 && n < |blocks|
    ensures var epoch := blocks[n].slot / slotsPerEpoch;
            Rotations(slotsPerEpoch, initial, blocks[..n + 1])
            == Rotations(slotsPerEpoch, initial, blocks[..n])
               + if ShouldEndSession(Started(After(slotsPerEpoch, initial, blocks[..n]), n + 1, epoch), epoch) then 1 else 0
  {
    assert blocks[..n + 1][..n] == blocks[..n];
  }

  lemma {:induction false} MirrorsAfter(polkadotJs: bool, toAccount: ToAccount, slotsPerEpoch: nat, initial: seq<Authority>, blocks: seq<Block>, m: nat)
    requires slotsPerEpoch > 0 && m <= |blocks|
    requires forall n :: 0 <= n < m ==> DispatchesAt(slotsPerEpoch, initial, blocks, n)
    ensures var s := ChainAfter(polkadotJs, toAccount, slotsPerEpoch, initial, blocks[..m]);
            Mirrors(toAccount, s) && s.session.index == Rotations(slotsPerEpoch, initial, blocks[..m])
  {
    if m > 0 {
      var n := m - 1;
      MirrorsAfter(polkadotJs, toAccount, slotsPerEpoch, initial, blocks, n);
      var before := ChainAfter(polkadotJs, toAccount, slotsPerEpoch, initial, blocks[..n]);
      CommitteesOfChain(polkadotJs, toAccount, slotsPerEpoch, initial, blocks[..n]);
      assert DispatchesAt(slotsPerEpoch, initial, blocks, n);
      MirrorsStep(polkadotJs, toAccount, before, m, blocks[n].slot / slotsPerEpoch, blocks[n]);
      NextChain(polkadotJs, toAccount, slotsPerEpoch, initial, blocks, n);
      RotationsStep(slotsPerEpoch, initial, blocks, n);
    }
  }

  /**
    After every block of every run the session pallet holds the current committee mapped to accounts, within the
    bound, and its index counts the rotations.
   */
  lemma SessionMirrorsCommittee(select: Selection, polkadotJs: bool, toAccount: ToAccount,
                                slotsPerEpoch: nat, initial: seq<Authority>, blocks: seq<Block>)
    requires slotsPerEpoch > 0 && Run(select, slotsPerEpoch, initial, blocks)
    ensures var s := ChainAfter(polkadotJs, toAccount, slotsPerEpoch, initial, blocks);
            && s.committees == After(slotsPerEpoch, initial, blocks)
            && Mirrors(toAccount, s)
            && s.session.index == Rotations(slotsPerEpoch, initial, blocks)
  {
    CommitteesOfChain(polkadotJs, toAccount, slotsPerEpoch, initial, blocks);
    forall n | 0 <= n < |blocks|
      ensures DispatchesAt(slotsPerEpoch, initial, blocks, n)
    {
      NextBlockDispatches(select, slotsPerEpoch, initial, blocks, n);
    }
    MirrorsAfter(polkadotJs, toAccount, slotsPerEpoch, initial, blocks, |blocks|);
    assert blocks[..|blocks|] == blocks;
  }

  /** So the session index tells how many epochs the committee has moved since the first block. */
  lemma IndexIsEpochDistance(select: Selection, polkadotJs: bool, toAccount: ToAccount,
                             slotsPerEpoch: nat, initial: seq<Authority>, blocks: seq<Block>)
    requires slotsPerEpoch > 0 && blocks != [] && Run(select, slotsPerEpoch, initial, blocks)
    ensures var s := ChainAfter(polkadotJs, toAccount, slotsPerEpoch, initial, blocks);
            s.session.index == s.committees.current.epoch - blocks[0].slot / slotsPerEpoch
  {
    SessionMirrorsCommittee(select, polkadotJs, toAccount, slotsPerEpoch, initial, blocks);
    RunInvariant(select, slotsPerEpoch, initial, blocks);
  }

  class Node {
    const toAccount: ToAccount
    const committees: CommitteePallet
    const session: Session.SessionPallet
    const rewards: Rewards.RewardPallets
    const tokens: NativeToken.NativeTokenPallet

    function View(): ChainState
      reads committees, session
    {
      ChainState(committees.View(), session.View())
    }

    constructor (polkadotJs: bool, toAccount: ToAccount, slotsPerEpoch: nat, initial: seq<Authority>, scripts: Option<TransferData.Scripts>)
      requires slotsPerEpoch > 0
      ensures fresh(committees) && fresh(session) && fresh(rewards) && fresh(tokens)
      ensures View() == GenesisChain(polkadotJs, toAccount, initial)
      ensures rewards.Valid() && rewards.state == Rewards.Genesis() && rewards.slotsPerEpoch == slotsPerEpoch
      ensures tokens.scripts == scripts && tokens.State() == NativeToken.Genesis()
      ensures this.toAccount == toAccount && session.polkadotJs == polkadotJs
      ensures forall a :: Session.Count(session.providers, a) == 0
      ensures scripts.Some? ==> At(slotsPerEpoch, initial, [], [], [])
    {
      var committees := new CommitteePallet(initial);
      var session := new Session.SessionPallet(polkadotJs, committees, toAccount, map[]);
      var rewards := new Rewards.RewardPallets(slotsPerEpoch);
      var tokens := new NativeToken.NativeTokenPallet(scripts);
      this.toAccount, this.committees, this.session, this.rewards, this.tokens := toAccount, committees, session, rewards, tokens;
    }

    /** Dispatches the committee calls of a block; a failing call makes the block invalid. */
    method DispatchSets(calls: seq<SetCall>) returns (ok: bool)
      modifies committees
      ensures ok == SetAll(old(committees.View()), calls).Ok?
      ensures ok ==> committees.View() == SetAll(old(committees.View()), calls).value
    {
      for i := 0 to |calls|
        invariant SetAll(old(committees.View()), calls[..i]) == Ok(committees.View())
      {
        assert calls[..i + 1][..i] == calls[..i];
        ok := committees.SetNext(calls[i].validators, calls[i].forEpoch);
        if !ok {
          SetAllFails(old(committees.View()), calls, i + 1);
          return false;
        }
      }
      assert calls[..|calls|] == calls;
      return true;
    }

    /** Epoch change and reward drain, committee hook, session hook, inherents, reward of the block. */
    method ExecuteBlock(blockNr: nat, b: Block, transfers: seq<nat>, beneficiaries: seq<Rewards.Beneficiary>) returns (r: Fallible<()>)
      requires rewards.Valid()
      modifies committees, session, rewards, tokens
      ensures var epoch := b.slot / rewards.slotsPerEpoch;
              var ready := Initialized(old(committees.View()), blockNr, epoch);
              var after := Rewards.Finalized(Rewards.EpochStarted(old(rewards.state), epoch), beneficiaries);
              && (r.Done? <==> SetAll(ready, b.calls).Ok? && (tokens.scripts.Some? || transfers == []) && after.Done?)
              && (r.Done? ==>
                    && View() == ExecutedChain(session.polkadotJs, toAccount, old(View()), blockNr, epoch, b)
                    && rewards.Valid() && rewards.state == after.value
                    && tokens.State() == NativeToken.Transferred(old(tokens.State()), transfers))
      ensures tokens.scripts == old(tokens.scripts)
      ensures forall a :: Session.Count(session.providers, a) == Session.Count(old(session.providers), a)
    {
      var epoch := b.slot / rewards.slotsPerEpoch;
      rewards.OnInitialize(b.slot);
      committees.OnInitialize(blockNr, epoch);
      r := session.OnInitialize(committees, toAccount, epoch);
      var ok := DispatchSets(b.calls);
      if !ok {
        return Panicked;
      }
      r := tokens.TransferAll(transfers);
      if r.Panicked? {
        return;
      }
      r := rewards.FinishBlock(beneficiaries);
    }

    /** The pallets have executed the given blocks. */
    ghost predicate At(slotsPerEpoch: nat, initial: seq<Authority>, blocks: seq<Block>, rewarded: seq<Rewards.Block>,
                       released: seq<NativeToken.Block>)
      requires slotsPerEpoch > 0
      reads committees, session, rewards, tokens
    {
      && View() == ChainAfter(session.polkadotJs, toAccount, slotsPerEpoch, initial, blocks)
      && rewards.Valid() && rewards.slotsPerEpoch == slotsPerEpoch && Rewards.Executed(slotsPerEpoch, rewarded) == Done(rewards.state)
      && tokens.scripts.Some? && tokens.State() == NativeToken.Execute(released)
      && forall a :: Session.Count(session.providers, a) == 0
    }

    /** Block `n` of a run executes without aborting. */
    method ExecuteNext(ghost select: Selection, ghost slotsPerEpoch: nat, ghost initial: seq<Authority>, blocks: seq<Block>,
                       ghost rewarded: seq<Rewards.Block>, named: seq<Rewards.Beneficiary>, released: seq<NativeToken.Block>, n: nat)
      requires 0 < slotsPerEpoch < U32_LIMIT && n < |blocks| == |rewarded| == |released|
      requires Run(select, slotsPerEpoch, initial, blocks) && Rewards.Run(rewarded) && rewarded[n] == Rewards.Block(blocks[n].slot, named)
      requires At(slotsPerEpoch, initial, blocks[..n], rewarded[..n], released[..n])
      modifies committees, session, rewards, tokens
      ensures At(slotsPerEpoch, initial, blocks[..n + 1], rewarded[..n + 1], released[..n + 1])
    {
      CommitteesOfChain(session.polkadotJs, toAccount, slotsPerEpoch, initial, blocks[..n]);
      NextBlockDispatches(select, slotsPerEpoch, initial, blocks, n);
      NextBlockRewards(slotsPerEpoch, rewarded, n);
      NextChain(session.polkadotJs, toAccount, slotsPerEpoch, initial, blocks, n);
      NativeToken.ExecuteStep(released, n);
      var r := ExecuteBlock(n + 1, blocks[n], released[n].calls, named);
    }

    /** The blocks of a run, one after another. */
    method ExecuteFrom(ghost select: Selection, ghost slotsPerEpoch: nat, ghost initial: seq<Authority>, blocks: seq<Block>,
                       ghost rewarded: seq<Rewards.Block>, named: seq<seq<Rewards.Beneficiary>>, released: seq<NativeToken.Block>)
      requires 0 < slotsPerEpoch < U32_LIMIT && |blocks| == |rewarded| == |named| == |released|
      requires Run(select, slotsPerEpoch, initial, blocks) && Rewards.Run(rewarded)
      requires forall i :: 0 <= i < |blocks| ==> rewarded[i] == Rewards.Block(blocks[i].slot, named[i])
      requires At(slotsPerEpoch, initial, blocks[..0], rewarded[..0], released[..0])
      modifies committees, session, rewards, tokens
      ensures At(slotsPerEpoch, initial, blocks[..|blocks|], rewarded[..|blocks|], released[..|blocks|])
    {
      for n := 0 to |blocks|
        invariant At(slotsPerEpoch, initial, blocks[..n], rewarded[..n], released[..n])
      {
        ExecuteNext(select, slotsPerEpoch, initial, blocks, rewarded, named[n], released, n);
      }
    }

    method ExecuteRun(ghost select: Selection, ghost slotsPerEpoch: nat, ghost initial: seq<Authority>, blocks: seq<Block>,
                      named: seq<seq<Rewards.Beneficiary>>, released: seq<NativeToken.Block>)
      requires 0 < slotsPerEpoch < U32_LIMIT && |blocks| == |named| == |released|
      requires Run(select, slotsPerEpoch, initial, blocks) && Rewards.Run(RewardBlocks(blocks, named))
      requires At(slotsPerEpoch, initial, [], [], [])
      modifies committees, session, rewards, tokens
      ensures At(slotsPerEpoch, initial, blocks, RewardBlocks(blocks, named), released)
    {
      ghost var rewarded := RewardBlocks(blocks, named);
      assert blocks[..0] == [] && rewarded[..0] == [] && released[..0] == [];
      ExecuteFrom(select, slotsPerEpoch, initial, blocks, rewarded, named, released);
      assert blocks[..|blocks|] == blocks && rewarded[..|blocks|] == rewarded && released[..|blocks|] == released;
    }
  }

  lemma {:induction false} SetAllFails(s: State, calls: seq<SetCall>, n: nat)
    requires n <= |calls| && SetAll(s, calls[..n]).Err?
    ensures SetAll(s, calls).Err?
  {
    if n == |calls| {
      assert calls[..n] == calls;
    } else {
      var front := calls[..|calls| - 1];
      assert front[..n] == calls[..n];
      SetAllFails(s, front, n);
    }
  }

  // ---------- whole runs ----------

  /** The blocks as the reward pallets see them. */
  function RewardBlocks(blocks: seq<Block>, named: seq<seq<Rewards.Beneficiary>>): seq<Rewards.Block>
    requires |blocks| == |named|
  {
    seq(|blocks|, i requires 0 <= i < |blocks| => Rewards.Block(blocks[i].slot, named[i]))
  }

  lemma {:induction false} SlotsGrow(select: Selection, slotsPerEpoch: nat, initial: seq<Authority>, blocks: seq<Block>)
    requires slotsPerEpoch > 0 && Run(select, slotsPerEpoch, initial, blocks)
    ensures forall i, j :: 0 <= i < j < |blocks| ==> blocks[i].slot < blocks[j].slot
  {
    if blocks != [] {
      var before := blocks[..|blocks| - 1];
      SlotsGrow(select, slotsPerEpoch, initial, before);
      assert forall i :: 0 <= i < |before| ==> before[i] == blocks[i];
    }
  }

  lemma RewardsRun(select: Selection, slotsPerEpoch: nat, initial: seq<Authority>, blocks: seq<Block>, named: seq<seq<Rewards.Beneficiary>>)
    requires slotsPerEpoch > 0 && Run(select, slotsPerEpoch, initial, blocks)
    requires |named| == |blocks| && forall i :: 0 <= i < |named| ==> named[i] != []
    ensures Rewards.Run(RewardBlocks(blocks, named))
  {
    SlotsGrow(select, slotsPerEpoch, initial, blocks);
  }

  lemma {:induction false} RunPrefix(select: Selection, slotsPerEpoch: nat, initial: seq<Authority>, blocks: seq<Block>, n: nat)
    requires slotsPerEpoch > 0 && Run(select, slotsPerEpoch, initial, blocks) && n <= |blocks|
    ensures Run(select, slotsPerEpoch, initial, blocks[..n])
    decreases |blocks| - n
  {
    if n < |blocks| {
      RunPrefix(select, slotsPerEpoch, initial, blocks, n + 1);
      assert blocks[..n + 1][..n] == blocks[..n];
    } else {
      assert blocks[..n] == blocks;
    }
  }

  /** The calls of every block of a run dispatch. */
  lemma NextBlockDispatches(select: Selection, slotsPerEpoch: nat, initial: seq<Authority>, blocks: seq<Block>, n: nat)
    requires slotsPerEpoch > 0 && Run(select, slotsPerEpoch, initial, blocks) && n < |blocks|
    ensures SetAll(Initialized(After(slotsPerEpoch, initial, blocks[..n]), n + 1, blocks[n].slot / slotsPerEpoch), blocks[n].calls).Ok?
  {
    RunPrefix(select, slotsPerEpoch, initial, blocks, n + 1);
    assert blocks[..n + 1][..n] == blocks[..n];
  }

  /** No reward of a run overflows. */
  lemma NextBlockRewards(slotsPerEpoch: nat, blocks: seq<Rewards.Block>, n: nat)
    requires 0 < slotsPerEpoch < U32_LIMIT && Rewards.Run(blocks) && n < |blocks|
    ensures Rewards.Executed(slotsPerEpoch, blocks[..n]).Done? && Rewards.Executed(slotsPerEpoch, blocks[..n + 1]).Done?
    ensures Rewards.Executed(slotsPerEpoch, blocks[..n + 1])
         == Rewards.Finalized(Rewards.EpochStarted(Rewards.Executed(slotsPerEpoch, blocks[..n]).value, blocks[n].slot / slotsPerEpoch),
                              blocks[n].beneficiaries)
  {
    assert blocks[..n + 1][..n] == blocks[..n];
    Rewards.PointsOfRun(slotsPerEpoch, blocks[..n + 1]);
  }

  lemma NextChain(polkadotJs: bool, toAccount: ToAccount, slotsPerEpoch: nat, initial: seq<Authority>, blocks: seq<Block>, n: nat)
    requires slotsPerEpoch > 0 && n < |blocks|
    ensures ChainAfter(polkadotJs, toAccount, slotsPerEpoch, initial, blocks[..n + 1])
         == ExecutedChain(polkadotJs, toAccount, ChainAfter(polkadotJs, toAccount, slotsPerEpoch, initial, blocks[..n]),
                          n + 1, blocks[n].slot / slotsPerEpoch, blocks[n])
  {
    assert blocks[..n + 1][..n] == blocks[..n];
  }

  lemma {:induction false} CommitteesOfChain(polkadotJs: bool, toAccount: ToAccount,
                                            slotsPerEpoch: nat, initial: seq<Authority>, blocks: seq<Block>)
    requires slotsPerEpoch > 0
    ensures ChainAfter(polkadotJs, toAccount, slotsPerEpoch, initial, blocks).committees == After(slotsPerEpoch, initial, blocks)
  {
    if blocks != [] {
      CommitteesOfChain(polkadotJs, toAccount, slotsPerEpoch, initial, blocks[..|blocks| - 1]);
    }
  }

  /**
    Executing a whole run of accepted blocks on the pallets never aborts. The pallets end in the state the run theorems
    are about, the reward maps are the points of the run, the released tokens those of the conservation law, and no
    account has gained a provider.
   */
  method ExecuteAll(ghost select: Selection, polkadotJs: bool, toAccount: ToAccount, slotsPerEpoch: nat, initial: seq<Authority>,
                    blocks: seq<Block>, named: seq<seq<Rewards.Beneficiary>>, ghost k: nat,
                    scripts: TransferData.Scripts, released: seq<NativeToken.Block>)
      returns (chain: ChainState, pending: map<Rewards.Beneficiary, nat>, drained: seq<(nat, map<Rewards.Beneficiary, nat>)>,
               tokens: NativeToken.State, providers: map<AccountId, nat>)
    requires 0 < slotsPerEpoch < U32_LIMIT && Run(select, slotsPerEpoch, initial, blocks)
    requires |named| == |blocks| && forall i :: 0 <= i < |named| ==> named[i] != []
    requires |released| == |blocks| && NativeToken.Run(k, released)
    ensures chain == ChainAfter(polkadotJs, toAccount, slotsPerEpoch, initial, blocks)
    ensures var r := Rewards.Executed(slotsPerEpoch, RewardBlocks(blocks, named));
            r.Done? && Rewards.MapsHold(pending, drained, r.value)
    ensures tokens == NativeToken.Execute(released)
    ensures tokens.released == NativeToken.LockedSoFar(released) <==> NativeToken.Clean(released)
    ensures forall a :: Session.Count(providers, a) == 0
  {
    var node := new Node(polkadotJs, toAccount, slotsPerEpoch, initial, Some(scripts));
    RewardsRun(select, slotsPerEpoch, initial, blocks, named);
    NativeToken.ReleasedMatchesLocked(k, released);
    node.ExecuteRun(select, slotsPerEpoch, initial, blocks, named, released);
    chain, pending, drained := node.View(), node.rewards.pending, node.rewards.drained;
    tokens, providers := node.tokens.State(), node.session.providers;
  }
}
