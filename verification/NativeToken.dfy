/**
  Release of native tokens: the inherent data provider, the pallet, and the conservation law over every run of accepted
  blocks (primitives and pallet `native-token-management`).
 */
module NativeToken {
  import opened Wrappers
  import opened Sums
  import opened Chains
  import opened TokenChain
  import opened TransferData

  // ---------- the inherent ----------

  /** The inherent data: an amount, never zero. */
  function Provided(amount: nat): (data: Option<nat>) {
    if amount > 0 then Some(amount) else None
  }

  /** The inherent data provider; `parentReference` is the main-chain reference of the parent, absent for genesis. */
  method ProvideTokenAmount(source: TransferSource, c: ScriptChain, scripts: Option<Scripts>, initialized: bool,
                            parentReference: Option<nat>, reference: nat)
      returns (r: Result<Option<nat>>)
    requires source.Valid(c)
    requires scripts.Some? ==> ProperRequest(source.k, c, Asked(initialized, parentReference, reference, scripts.value))
    modifies source
    ensures source.Valid(c)
    ensures scripts.None? ==> r == Ok(None) && source.View() == old(source.View())
    ensures scripts.Some? ==>
              var q := Asked(initialized, parentReference, reference, scripts.value);
              && source.View() == Remembered(source.k, source.cacheSize, old(source.View()), c, q)
              && r == Observation(Seen(c, ServedFor(old(source.View()), q)), initialized, parentReference, reference)
  {
    if scripts.None? {
      return Ok(None);
    }
    var amount := source.GetTotal(c, Asked(initialized, parentReference, reference, scripts.value));
    if amount.Err? {
      return Err;
    }
    return Ok(Provided(amount.value));
  }

  /** What the provider asks of the data source. */
  function Asked(initialized: bool, parentReference: Option<nat>, reference: nat, scripts: Scripts): Request {
    Request(if initialized then parentReference else None, reference, scripts)
  }

  function Observation(c: Chain, initialized: bool, parentReference: Option<nat>, reference: nat): Result<Option<nat>> {
    match Answer(c, if initialized then parentReference else None, reference)
    case Err => Err
    case Ok(amount) => Ok(Provided(amount))
  }

  datatype InherentError =
    | TokenTransferNotHandled(amount: nat)
    | IncorrectTokenNumberTransferred(expected: nat, actual: nat)
    | UnexpectedTokenTransferInherent(amount: nat)

  function CreateInherent(data: Option<nat>): Option<nat> {
    if data.Some? && data.value > 0 then data else None
  }

  function CheckInherent(call: nat, data: Option<nat>): Option<InherentError> {
    match data
    case None => Some(UnexpectedTokenTransferInherent(call))
    case Some(expected) => if expected != call then Some(IncorrectTokenNumberTransferred(expected, call)) else None
  }

  function IsInherentRequired(data: Option<nat>): Option<InherentError> {
    if data.Some? && data.value > 0 then Some(TokenTransferNotHandled(data.value)) else None
  }

  /** On provided data the three views agree: a call passes exactly when it is the one created, and it is created exactly when required. */
  lemma InherentViewsAgree(amount: nat, call: nat)
    ensures CheckInherent(call, Provided(amount)).None? <==> CreateInherent(Provided(amount)) == Some(call)
    ensures IsInherentRequired(Provided(amount)).Some? <==> CreateInherent(Provided(amount)).Some?
    ensures CreateInherent(Provided(amount)).Some? <==> amount > 0
    ensures amount == 0 ==> CheckInherent(call, Provided(amount)) == Some(UnexpectedTokenTransferInherent(call))
    ensures amount > 0 && call != amount ==>
              CheckInherent(call, Provided(amount)) == Some(IncorrectTokenNumberTransferred(amount, call))
    ensures amount > 0 ==> IsInherentRequired(Provided(amount)) == Some(TokenTransferNotHandled(amount))
  {
  }

  /** Inherent data that does hold an amount of zero, which the provider never makes, creates no call and requires none. */
  lemma ZeroIsIgnored(call: nat)
    ensures CreateInherent(Some(0)) == None && IsInherentRequired(Some(0)) == None && CreateInherent(None) == None
    ensures CheckInherent(call, Some(0)).None? <==> call == 0
  {
  }

  class NativeTokenPallet {
    var scripts: Option<Scripts>
    var initialized: bool
    /** The amounts passed to the transfer handler, in order. */
    var handled: seq<nat>

    constructor (scripts: Option<Scripts>)
      ensures this.scripts == scripts && State() == Genesis()
    {
      this.scripts, initialized, handled := scripts, false, [];
    }

    /** Changes what is observed; a pallet that has released tokens stays initialized. */
    method SetMainChainScripts(scripts: Scripts)
      modifies this
      ensures this.scripts == Some(scripts) && State() == old(State())
    {
      this.scripts := Some(scripts);
    }

    function State(): State
      reads this
    {
      TokenState(initialized, Sum(handled, (n: nat) => n))
    }

    method TransferTokens(amount: nat) returns (r: Fallible<()>)
      modifies this
      ensures scripts == old(scripts)
      ensures r.Panicked? <==> scripts.None?
      ensures State() == if scripts.Some? then Transferred(old(State()), [amount]) else old(State())
    {
      if scripts.None? {
        return Panicked;
      }
      initialized := true;
      SumSplit(handled, [amount], (n: nat) => n);
      handled := handled + [amount];
      r := Done(());
    }

    /** Dispatches the calls of a block. */
    method TransferAll(amounts: seq<nat>) returns (r: Fallible<()>)
      modifies this
      ensures scripts == old(scripts)
      ensures r.Panicked? <==> scripts.None? && amounts != []
      ensures State() == if scripts.Some? then Transferred(old(State()), amounts) else old(State())
    {
      r := Done(());
      for i := 0 to |amounts|
        invariant scripts == old(scripts) && r.Done?
        invariant scripts.None? ==> i == 0 && State() == old(State())
        invariant scripts.Some? ==> State() == Transferred(old(State()), amounts[..i])
      {
        r := TransferTokens(amounts[i]);
        if r.Panicked? {
          return;
        }
        TransferredTogether(old(State()), amounts[..i], amounts[i]);
        assert amounts[..i + 1] == amounts[..i] + [amounts[i]];
      }
      assert amounts[..|amounts|] == amounts;
    }
  }

  // ---------- runs ----------

  datatype State = TokenState(initialized: bool, released: nat)

  function Genesis(): State {
    TokenState(false, 0)
  }

  function Transferred(s: State, calls: seq<nat>): State {
    TokenState(s.initialized || calls != [], s.released + Sum(calls, (n: nat) => n))
  }

  lemma TransferredTogether(s: State, calls: seq<nat>, call: nat)
    ensures Transferred(s, calls + [call]) == Transferred(Transferred(s, calls), [call])
  {
    SumSplit(calls, [call], (n: nat) => n);
  }

  /** A partner-chain block: the chain its verifier sees, the number of the main-chain block it refers to, its transfer calls. */
  datatype Block = Block(view: Chain, reference: nat, calls: seq<nat>)

  function ReferenceHash(b: Block): Option<nat> {
    if b.reference < |b.view| then Some(b.view[b.reference].hash) else None
  }

  /** Each call is checked on its own, and a required inherent must be there. */
  predicate Accepted(data: Option<nat>, calls: seq<nat>) {
    && (forall i :: 0 <= i < |calls| ==> CheckInherent(calls[i], data).None?)
    && (IsInherentRequired(data).Some? ==> calls != [])
  }

  function Execute(blocks: seq<Block>): State {
    if blocks == [] then Genesis() else Transferred(Execute(blocks[..|blocks| - 1]), blocks[|blocks| - 1].calls)
  }

  function ParentReference(blocks: seq<Block>): Option<nat> {
    if |blocks| < 2 then None else ReferenceHash(blocks[|blocks| - 2])
  }

  /** What the last block's inherent data says, seen from its parent state. */
  function LastObservation(blocks: seq<Block>): Result<Option<nat>>
    requires blocks != []
  {
    var b := blocks[|blocks| - 1];
    if b.reference < |b.view|
    then Observation(b.view, Execute(blocks[..|blocks| - 1]).initialized, ParentReference(blocks), b.view[b.reference].hash)
    else Err
  }

  /** A run of accepted blocks that refer to stable main-chain blocks, never backwards, while the main chain is being switched. */
  ghost predicate Run(k: nat, blocks: seq<Block>) {
    blocks != [] ==>
      var n := |blocks| - 1;
      var b := blocks[n];
      && Run(k, blocks[..n])
      && DistinctHashes(b.view) && b.reference < Settled(k, b.view)
      && (n > 0 ==> Switches(k, blocks[n - 1].view, b.view) && blocks[n - 1].reference <= b.reference)
      && LastObservation(blocks).Ok? && Accepted(LastObservation(blocks).value, b.calls)
  }

  function LockedAt(b: Block): nat {
    if b.reference < |b.view| then Locked(b.view[..b.reference + 1]) else 0
  }

  /** The token locked on the main chain up to the last reference. */
  function LockedSoFar(blocks: seq<Block>): nat
  {
    if blocks == [] then 0 else LockedAt(blocks[|blocks| - 1])
  }

  function ForeignBetween(p: Block, b: Block): nat {
    if p.reference <= b.reference < |b.view| then Foreign(b.view[p.reference + 1..b.reference + 1]) else 0
  }

  /** The other assets that reached the address between the references of the last block and its parent. */
  function ForeignInLast(blocks: seq<Block>): nat
    requires blocks != []
  {
    var n := |blocks| - 1;
    if n > 0 then ForeignBetween(blocks[n - 1], blocks[n]) else 0
  }

  /** No block repeats the call, and no other asset reached the address once transfers have started. */
  predicate Clean(blocks: seq<Block>) {
    blocks != [] ==>
      var n := |blocks| - 1;
      && Clean(blocks[..n])
      && |blocks[n].calls| <= 1
      && (Execute(blocks[..n]).initialized ==> ForeignInLast(blocks) == 0)
  }

  /** Accepted calls all carry the observed amount. */
  lemma EqualCalls(calls: seq<nat>, amount: nat)
    requires Accepted(Provided(amount), calls)
    ensures calls == [] <==> amount == 0
    ensures Sum(calls, (n: nat) => n) >= amount
    ensures Sum(calls, (n: nat) => n) == amount <==> |calls| <= 1
  {
  }

  /** Nothing is released before the first transfer. */
  lemma {:induction false} UninitializedReleasesNothing(blocks: seq<Block>)
    ensures !Execute(blocks).initialized ==> Execute(blocks).released == 0
  {
    if blocks != [] {
      UninitializedReleasesNothing(blocks[..|blocks| - 1]);
    }
  }

  /** What a run says of a block and its successor. */
  ghost predicate Consecutive(k: nat, p: Block, b: Block) {
    && DistinctHashes(b.view) && Switches(k, p.view, b.view)
    && p.reference < Settled(k, p.view) && p.reference <= b.reference < Settled(k, b.view)
  }

  lemma RunLast(k: nat, blocks: seq<Block>)
    requires Run(k, blocks) && |blocks| >= 2
    ensures Consecutive(k, blocks[|blocks| - 2], blocks[|blocks| - 1])
  {
    var n := |blocks| - 1;
    assert Run(k, blocks[..n]) && blocks[..n][n - 1] == blocks[n - 1];
  }

  function ReceivedBetween(p: Block, b: Block): nat {
    if p.reference <= b.reference < |b.view| then Amounts(Rows(b.view[p.reference + 1..b.reference + 1])) else 0
  }

  /** The amount observed for a block when transfers have started. */
  lemma ObservedBetween(k: nat, p: Block, b: Block)
    requires Consecutive(k, p, b)
    ensures Observation(b.view, true, ReferenceHash(p), b.view[b.reference].hash) == Ok(Provided(ReceivedBetween(p, b)))
  {
    SettledBlockStays(k, p.view, b.view, p.reference);
    AnswerBetween(b.view, p.reference, b.reference);
  }

  /** Between two stable references the chain adds to the locked amount what the address received, less other assets. */
  lemma LockedBetween(k: nat, p: Block, b: Block)
    requires Switches(k, p.view, b.view) && p.reference < Settled(k, p.view) && p.reference <= b.reference < |b.view|
    ensures LockedAt(p) + ReceivedBetween(p, b) == LockedAt(b) + ForeignBetween(p, b)
  {
    var n := p.reference + 1;
    SettledSliceStays(k, p.view, b.view, 0, n);
    RowsCountBoth(b.view[n..b.reference + 1]);
    LockedSplit(b.view, 0, n, b.reference + 1);
  }

  lemma AmountSinceParent(k: nat, blocks: seq<Block>) returns (amount: nat)
    requires |blocks| >= 2 && Consecutive(k, blocks[|blocks| - 2], blocks[|blocks| - 1])
    requires Execute(blocks[..|blocks| - 1]).initialized
    ensures LastObservation(blocks) == Ok(Provided(amount))
    ensures LockedSoFar(blocks[..|blocks| - 1]) + amount == LockedSoFar(blocks) + ForeignInLast(blocks)
  {
    var p, b := blocks[|blocks| - 2], blocks[|blocks| - 1];
    amount := ReceivedBetween(p, b);
    ObservedBetween(k, p, b);
    LockedBetween(k, p, b);
  }

  /** The amount observed for the last block before the first transfer. */
  lemma AmountSinceGenesis(k: nat, blocks: seq<Block>)
    requires Run(k, blocks) && blocks != [] && !Execute(blocks[..|blocks| - 1]).initialized
    ensures LastObservation(blocks) == Ok(Provided(LockedSoFar(blocks)))
  {
    var b := blocks[|blocks| - 1];
    assert Answer(b.view, None, b.view[b.reference].hash) == Ok(Locked(b.view[..b.reference + 1]));
  }

  /** Released tokens are never fewer than the locked ones, and equal to them exactly in clean runs. */
  lemma {:induction false} ReleasedMatchesLocked(k: nat, blocks: seq<Block>)
    requires Run(k, blocks)
    ensures Execute(blocks).released >= LockedSoFar(blocks)
    ensures Execute(blocks).released == LockedSoFar(blocks) <==> Clean(blocks)
    ensures !Execute(blocks).initialized ==> Execute(blocks).released == LockedSoFar(blocks) == 0
  {
    if blocks != [] {
      var n := |blocks| - 1;
      var before, calls := blocks[..n], blocks[n].calls;
      ReleasedMatchesLocked(k, before);
      UninitializedReleasesNothing(before);
      var amount := LockedSoFar(blocks);
      if Execute(before).initialized {
        RunLast(k, blocks);
        amount := AmountSinceParent(k, blocks);
      } else {
        AmountSinceGenesis(k, blocks);
      }
      EqualCalls(calls, amount);
    }
  }

  // ---------- runs on the data source and the pallet ----------

  lemma {:induction false} RunPrefix(k: nat, blocks: seq<Block>, n: nat)
    requires Run(k, blocks) && n <= |blocks|
    ensures Run(k, blocks[..n])
    decreases |blocks| - n
  {
    if n < |blocks| {
      RunPrefix(k, blocks, n + 1);
      assert blocks[..n + 1][..n] == blocks[..n];
    } else {
      assert blocks[..n] == blocks;
    }
  }

  /** What the provider asks of the data source for the last block of a run is proper. */
  lemma ReferencesAreProper(k: nat, blocks: seq<Block>, initialized: bool)
    requires Run(k, blocks) && blocks != []
    ensures var b := blocks[|blocks| - 1];
            b.reference < |b.view| && Proper(k, b.view, if initialized then ParentReference(blocks) else None, b.view[b.reference].hash)
  {
    if |blocks| >= 2 {
      var p, b := blocks[|blocks| - 2], blocks[|blocks| - 1];
      RunLast(k, blocks);
      SettledBlockStays(k, p.view, b.view, p.reference);
    }
  }

  lemma ExecuteStep(blocks: seq<Block>, n: nat)
    requires n < |blocks|
    ensures blocks[..n + 1][..n] == blocks[..n]
    ensures Execute(blocks[..n + 1]) == Transferred(Execute(blocks[..n]), blocks[n].calls)
  {
  }

  /** The provider's request for the last block of a run is proper on the chain of any scripts. */
  lemma AskedIsProper(k: nat, blocks: seq<Block>, c: ScriptChain, s: Scripts, initialized: bool)
    requires Run(k, blocks) && blocks != [] && blocks[|blocks| - 1].view == Seen(c, s)
    ensures var b := blocks[|blocks| - 1];
            b.reference < |b.view| && ProperRequest(k, c, Asked(initialized, ParentReference(blocks), b.view[b.reference].hash, s))
  {
    ReferencesAreProper(k, blocks, initialized);
  }

  /** The cache holds nothing, or rows for scripts `s`. */
  ghost predicate CachedFor(m: Memory, s: Scripts) {
    m.rows == [] || m.scripts == s
  }

  /** With a cache that holds nothing for other scripts, the provider observes what the run says, and the calls are accepted on it. */
  method VerifyBlock(source: TransferSource, pallet: NativeTokenPallet, s: Scripts, c: ScriptChain, blocks: seq<Block>)
      returns (data: Result<Option<nat>>)
    requires blocks != [] && Run(source.k, blocks) && source.Valid(c) && blocks[|blocks| - 1].view == Seen(c, s)
    requires pallet.scripts == Some(s) && CachedFor(source.View(), s) && pallet.State() == Execute(blocks[..|blocks| - 1])
    modifies source
    ensures source.Valid(c) && CachedFor(source.View(), s)
    ensures data == LastObservation(blocks) && data.Ok? && Accepted(data.value, blocks[|blocks| - 1].calls)
  {
    var b := blocks[|blocks| - 1];
    AskedIsProper(source.k, blocks, c, s, pallet.initialized);
    data := ProvideTokenAmount(source, c, pallet.scripts, pallet.initialized, ParentReference(blocks), b.view[b.reference].hash);
  }

  /** The data source and the pallet have come to block `n` of a run. */
  ghost predicate Ready(source: TransferSource, pallet: NativeTokenPallet, s: Scripts, views: seq<ScriptChain>, blocks: seq<Block>, n: nat)
    requires n <= |blocks| == |views|
    reads source, pallet
  {
    && pallet.scripts == Some(s) && pallet.State() == Execute(blocks[..n])
    && CachedFor(source.View(), s) && (n < |views| ==> source.Valid(views[n]))
  }

  /** Verifies and executes block `n` of a run. */
  method ReleaseNext(source: TransferSource, pallet: NativeTokenPallet, s: Scripts, views: seq<ScriptChain>, blocks: seq<Block>, n: nat)
      returns (data: Result<Option<nat>>)
    requires n < |blocks| == |views| && Run(source.k, blocks[..n + 1]) && blocks[n].view == Seen(views[n], s)
    requires Ready(source, pallet, s, views, blocks, n) && (n + 1 < |views| ==> Switches(source.k, views[n], views[n + 1]))
    modifies source, pallet
    ensures Ready(source, pallet, s, views, blocks, n + 1)
    ensures data == LastObservation(blocks[..n + 1]) && data.Ok? && Accepted(data.value, blocks[n].calls)
  {
    ExecuteStep(blocks, n);
    data := VerifyBlock(source, pallet, s, views[n], blocks[..n + 1]);
    var r := pallet.TransferAll(blocks[n].calls);
    if n + 1 < |views| {
      SwitchKeepsRows(source.k, views[n], views[n + 1], source.View());
    }
  }

  /** The data observed for the blocks of a run, one after another. */
  function Observations(blocks: seq<Block>): seq<Result<Option<nat>>> {
    if blocks == [] then [] else Observations(blocks[..|blocks| - 1]) + [LastObservation(blocks)]
  }

  /** A run with scripts `s` whose views are those of a chain being switched. */
  ghost predicate RunOn(k: nat, s: Scripts, views: seq<ScriptChain>, blocks: seq<Block>) {
    && Run(k, blocks) && |views| == |blocks| && Follows(k, views)
    && forall i :: 0 <= i < |blocks| ==> blocks[i].view == Seen(views[i], s)
  }

  lemma RunOnStep(k: nat, s: Scripts, views: seq<ScriptChain>, blocks: seq<Block>, n: nat)
    requires RunOn(k, s, views, blocks) && n < |blocks|
    ensures Run(k, blocks[..n + 1]) && blocks[n].view == Seen(views[n], s) && blocks[..n + 1][..n] == blocks[..n]
    ensures n + 1 < |views| ==> Switches(k, views[n], views[n + 1])
  {
    RunPrefix(k, blocks, n + 1);
  }

  method ReleaseRun(source: TransferSource, pallet: NativeTokenPallet, s: Scripts, views: seq<ScriptChain>, blocks: seq<Block>)
      returns (observed: seq<Result<Option<nat>>>)
    requires RunOn(source.k, s, views, blocks) && Ready(source, pallet, s, views, blocks, 0)
    modifies source, pallet
    ensures Ready(source, pallet, s, views, blocks, |blocks|) && observed == Observations(blocks)
  {
    observed := [];
    for n := 0 to |blocks|
      invariant observed == Observations(blocks[..n]) && Ready(source, pallet, s, views, blocks, n)
    {
      RunOnStep(source.k, s, views, blocks, n);
      var data := ReleaseNext(source, pallet, s, views, blocks, n);
      observed := observed + [data];
    }
    assert blocks[..|blocks|] == blocks;
  }

  /**
    Any run with scripts `s` on the data source, its cache and the pallet: the provider observes for every block what the
    run says, and the amounts handed over in the end add up to what the conservation law is about.
   */
  method ReleaseAll(k: nat, cacheSize: nat, s: Scripts, views: seq<ScriptChain>, blocks: seq<Block>)
      returns (observed: seq<Result<Option<nat>>>, initialized: bool, handled: seq<nat>)
    requires RunOn(k, s, views, blocks)
    ensures observed == Observations(blocks)
    ensures TokenState(initialized, Sum(handled, (n: nat) => n)) == Execute(blocks)
  {
    var source := new TransferSource(k, cacheSize);
    var pallet := new NativeTokenPallet(Some(s));
    if |views| > 0 {
      EmptyHolds(k, views[0]);
    }
    observed := ReleaseRun(source, pallet, s, views, blocks);
    assert blocks[..|blocks|] == blocks;
    initialized, handled := pallet.initialized, pallet.handled;
  }

  // ---------- changed scripts ----------

  /** The state after the blocks that follow the first, from state `start` after the first. */
  function ExecuteSince(start: State, blocks: seq<Block>): State {
    if |blocks| < 2 then start else Transferred(ExecuteSince(start, blocks[..|blocks| - 1]), blocks[|blocks| - 1].calls)
  }

  /** A run of accepted blocks that follow the first, on a pallet that has released tokens before; all views are of the scripts now set. */
  ghost predicate RunSince(k: nat, blocks: seq<Block>) {
    |blocks| >= 2 ==>
      var p, b := blocks[|blocks| - 2], blocks[|blocks| - 1];
      && RunSince(k, blocks[..|blocks| - 1])
      && Consecutive(k, p, b)
      && var data := Observation(b.view, true, ReferenceHash(p), b.view[b.reference].hash);
         data.Ok? && Accepted(data.value, b.calls)
  }

  predicate CleanSince(blocks: seq<Block>) {
    |blocks| >= 2 ==>
      var p, b := blocks[|blocks| - 2], blocks[|blocks| - 1];
      CleanSince(blocks[..|blocks| - 1]) && |b.calls| <= 1 && ForeignBetween(p, b) == 0
  }

  /** A block releases at least what was locked since its parent, and exactly that if it is clean. */
  lemma StepReleases(k: nat, p: Block, b: Block)
    requires Consecutive(k, p, b)
    requires var data := Observation(b.view, true, ReferenceHash(p), b.view[b.reference].hash);
             data.Ok? && Accepted(data.value, b.calls)
    ensures LockedAt(p) + Sum(b.calls, (n: nat) => n) >= LockedAt(b)
    ensures LockedAt(p) + Sum(b.calls, (n: nat) => n) == LockedAt(b) <==> |b.calls| <= 1 && ForeignBetween(p, b) == 0
  {
    ObservedBetween(k, p, b);
    LockedBetween(k, p, b);
    EqualCalls(b.calls, ReceivedBetween(p, b));
  }

  /**
    After the scripts of an initialized pallet were changed, what is released since is never less than what was locked since
    the first block's reference, and exactly that in clean runs: what the new scripts had locked before is never released.
   */
  lemma {:induction false} ReleasedSinceMatchesLocked(k: nat, start: State, blocks: seq<Block>)
    requires blocks != [] && start.initialized && RunSince(k, blocks)
    ensures var s := ExecuteSince(start, blocks);
            && s.initialized
            && s.released + LockedAt(blocks[0]) >= start.released + LockedSoFar(blocks)
            && (s.released + LockedAt(blocks[0]) == start.released + LockedSoFar(blocks) <==> CleanSince(blocks))
  {
    if |blocks| >= 2 {
      var before, p, b := blocks[..|blocks| - 1], blocks[|blocks| - 2], blocks[|blocks| - 1];
      ReleasedSinceMatchesLocked(k, start, before);
      StepReleases(k, p, b);
    }
  }

  // ---------- runs that are not clean ----------

  /** One block that carries the call for the first `x` tokens some number of times. */
  function FirstTransfer(x: nat, calls: seq<nat>): seq<Block> {
    [Block([TokenBlock(0, x, 0)], 0, calls)]
  }

  lemma FirstTransferRuns(x: nat, calls: seq<nat>)
    requires Accepted(Provided(x), calls)
    ensures Run(0, FirstTransfer(x, calls)) && LockedSoFar(FirstTransfer(x, calls)) == x
  {
    var blocks := FirstTransfer(x, calls);
    var view := blocks[0].view;
    assert blocks[..0] == [] && view[..1] == view;
    OneBlock(view[0]);
    assert Answer(view, None, view[0].hash) == Ok(x);
    assert LastObservation(blocks) == Ok(Provided(x));
  }

  /** A block whose call is repeated releases more than is locked. */
  lemma RepeatedCallIsUnclean(x: nat)
    requires x > 0
    ensures Run(0, FirstTransfer(x, [x, x])) && Execute(FirstTransfer(x, [x, x])).released > LockedSoFar(FirstTransfer(x, [x, x]))
  {
    FirstTransferRuns(x, [x, x]);
    EqualCalls([x, x], x);
    assert FirstTransfer(x, [x, x])[..0] == [];
  }

  /** After a first transfer, a block that sees `y` of another asset reach the address. */
  function OtherAsset(x: nat, y: nat): seq<Block> {
    FirstTransfer(x, [x]) + [Block([TokenBlock(0, x, 0), TokenBlock(1, 0, y)], 1, [y])]
  }

  lemma OtherAssetRuns(x: nat, y: nat)
    requires x > 0 && y > 0
    ensures Run(0, OtherAsset(x, y)) && !Clean(OtherAsset(x, y))
  {
    var before, blocks := FirstTransfer(x, [x]), OtherAsset(x, y);
    FirstTransferRuns(x, [x]);
    assert blocks[..1] == before && before[..0] == [];
    var p, b := blocks[0], blocks[1];
    assert p.view[..1] == b.view[..1] && b.view[1..2] == [b.view[1]];
    ObservedBetween(0, p, b);
    OneBlock(b.view[1]);
    assert ReceivedBetween(p, b) == y && ForeignInLast(blocks) == y;
    assert LastObservation(blocks) == Ok(Provided(y));
  }

  /** Once transfers have started, another asset at the address is released as if it were the token. */
  lemma OtherAssetIsUnclean(x: nat, y: nat)
    requires x > 0 && y > 0
    ensures Run(0, OtherAsset(x, y)) && Execute(OtherAsset(x, y)).released > LockedSoFar(OtherAsset(x, y))
  {
    OtherAssetRuns(x, y);
    ReleasedMatchesLocked(0, OtherAsset(x, y));
  }
}
