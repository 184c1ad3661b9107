# Partner-chain block step and main-chain observation, in Dafny

A partner chain is a Substrate chain that follows Cardano. Every block of it may rotate the committee, rotate the
session, change the epoch, count a reward and release native tokens, and it does so on the basis of what a follower reads
from a main chain that is itself still being rolled back. This project models that block step as a state machine, the
queries and caches that feed it, and three self-contained algorithms around it, and proves what they promise over every
run. `dafny verify dfyconfig.toml` checks everything; nothing was executed.

| module | what it models |
|---|---|
| `Committees`, `Ariadne` | hand-over of the committee: proposer, verifier and off-chain views, runs of blocks, and when selection inputs are there |
| `Session` | the session pallet: validator list, disabled vector, account providers |
| `Rewards` | epoch change and block rewards |
| `Runtime` | the pallets composed in runtime order, and whole runs of them |
| `TransferQueries`, `TokenChain`, `Sums` | the SQL queries for token transfers |
| `TransferData` | the data source for transfers and its cache |
| `NativeToken` | release of native tokens and the conservation law |
| `McReference` | the main-chain block a partner-chain block refers to, and the cache of stable blocks |
| `StableEpochs`, `Registrations`, `TokenUtxos`, `Chains` | chain switches, stable epochs, the cache of candidate data, and the registrations and parameters in it |
| `Utxos` | the query for unspent outputs against a replay of the ledger |
| `Collateral`, `Config`, `Candidates`, `Upsert` | collateral selection, configuration fields in JSON, upserts of on-chain values |
| `Slots`, `Sequences`, `Widths`, `Wrappers` | slot arithmetic, searching and sorting, integer widths, failure-carrying values |

State that the system updates in place is a class whose methods are proved against functions on values; the run theorems
are about those functions, and `Runtime.ExecuteAll`, `NativeToken.ReleaseAll`, `TransferData.GetTotals`,
`McReference.LookupAll`, `StableEpochs.AnswerAll` and `Session.RotateAll` carry them back to the objects.

Conventions and premises of the model:

- The main chain is a sequence of blocks numbered by position. A chain switch keeps all blocks but the last `k` (the
  security parameter), always keeps block zero, and never shortens the chain; this is the rollback bound the code relies on.
- A block's inherent calls are checked one by one in the state of the parent, a required inherent is looked for in that
  state too, and the calls dispatch after the hooks of the new block. This is how Substrate drives the pallets.
- At most one block per slot, so slots increase strictly along a chain.
- Selection of authorities is any deterministic function that may fail. Hashes, addresses, keys and datums are opaque
  values with equality. Token amounts and epochs are unbounded numbers except where the code's width is the point: the
  32-bit reward counts (`Rewards`), 64-bit epochs (`Committees.EpochsFit`), the widths of configuration fields.
- The provider count of an account is the framework's; that taking a provider from an account without one is the failure
  the code's panic message rules out is this model's reading of a framework call whose source is not part of the repository.
- A panic is the value `Panicked`, an error returned to the caller is `Err`.

Where the code differs from its comments or from what one would hope, the model follows the code and the exact condition
is proved:

- The comment on the committee hook says that the session ends at block one. The hook sets the committee's epoch to that
  block's epoch, and the session manager ends a session only in a later epoch with a next committee stored, so it does
  not (`Committees.RunInvariant`: the epoch of the first block plus the number of rotations).
- A next committee is documented to be defined after the first block of each epoch. Verification looks at the parent
  state, so an accepted block that rotates may omit the call (`Committees.NextCommitteeCanBeMissing`); the next committee
  is missing exactly then, never twice in a row, and never in honest runs (`Committees.RunInvariant`,
  `NeverMissingTwice`, `HonestRunAccepted`).
- For block one the off-chain provider selects for the slot's epoch and the runtime for the one after it
  (`Committees.FirstBlockTargets`).
- Rotating the validators overwrites the list before reading it back as the old one, so no provider count ever changes,
  and there is one provider per listed validator if and only if none is listed (`Session.RotateAll`,
  `Session.RotationToOne`, and for whole runs `Runtime.ExecuteAll`).
- The per-block transfer query filters the asset in a left join, so it counts other assets sent to the address; the query
  for the total does not (`TransferQueries.TotalsAgree`, and for whole runs `NativeToken.ReleasedMatchesLocked`).
- The cache of transfer amounts is searched by block hashes alone, although a request also names an asset and an address.
  After a change of the scripts it serves the old ones' amounts for the blocks it holds; an answer is right exactly when
  the amounts agree (`TransferData.TransferSource.GetTotal`, `TransferData.StaleAnswer`). The cache of candidate data is
  keyed by address and policies and has no such case.
- A change of scripts leaves the pallet initialized, so what the new asset had locked before is never released
  (`NativeToken.ReleasedSinceMatchesLocked`).
- Selection inputs are said to be always there. They are, the first main-chain epochs apart, if two partner-chain epochs,
  less a slot, and three times the minimal reference age fit into a main-chain epoch; otherwise main-chain epochs can
  start so that a block is without them (`Ariadne.InputsAlwaysThere`, `Ariadne.InputsCanBeMissing`).
- The proposer's stability offset saturates at block zero (`McReference.ProposalIsStable`).
- An unspent output of a transaction without inputs makes the whole query fail (`Utxos.QueryFailsIff`).
- A coefficient that is not finite is saved as null, and then no parameters are read back (`Config.ReadAfterSave`).

## Model

| member | source | states |
|---|---|---|
| `Committees.CommitteePallet.constructor` | toolkit/pallets/session-validator-management/src/lib.rs:132-139 | genesis: the initial authorities, or their first 32, as the committee of epoch zero, and no next committee |
| `Committees.Truncated` | toolkit/pallets/session-validator-management/src/lib.rs:134-136 | a prefix of the authorities: all of them, or exactly as many as the bound |
| `Committees.CommitteePallet.OnInitialize` | toolkit/pallets/session-validator-management/src/lib.rs:150-159 | block one, and no other, gives the genesis committee the epoch of its slot |
| `Committees.CommitteePallet.SetNext` | toolkit/pallets/session-validator-management/src/lib.rs:240-255 | a call for the epoch after the current one is stored as the next committee, any other is refused and changes nothing |
| `Committees.CommitteePallet.RotateCommittee` | toolkit/pallets/session-validator-management/src/lib.rs:340-356 | the next committee becomes current and is taken away; validator by validator, the account and the keys of the authority in its place are returned; without one nothing changes |
| `Committees.ToValidators` | toolkit/primitives/session-manager/src/lib.rs:26-31 | validator i has the account of authority i and its keys |
| `Committees.HonestBlockAccepted` | toolkit/pallets/session-validator-management/src/lib.rs:169-213 | whatever a proposer creates in the state after rotation is for the epoch after the current one, with the committee selected for it or else the current one, passes the check made in the parent state before rotation and dispatches; when exactly it creates nothing, and when it panics |
| `Committees.OnlyTheCreatedCall` | toolkit/pallets/session-validator-management/src/lib.rs:189-255 | without a next committee after rotation, a call passes the parent-state check and dispatches if and only if it is the created one |
| `Committees.SetAgain` | toolkit/pallets/session-validator-management/src/lib.rs:197-254 | with a next committee stored, the one call that passes and dispatches, and exactly when it leaves the stored committee alone |
| `Committees.TargetsAgree` | toolkit/primitives/authority-selection-inherents/src/ariadne_inherent_data_provider.rs:127-138 | after block one rotation keeps the next unset epoch, so proposer and off-chain provider target the same epoch |
| `Committees.TargetsAgreeInRuns` | toolkit/primitives/authority-selection-inherents/src/ariadne_inherent_data_provider.rs:127-138 | the same for every block but the first of every run of accepted blocks |
| `Committees.FirstBlockTargets` | toolkit/primitives/authority-selection-inherents/src/ariadne_inherent_data_provider.rs:130-134 | for block one the runtime targets one epoch later than the off-chain provider |
| `Ariadne.HasInputsIs` | toolkit/primitives/authority-selection-inherents/src/ariadne_inherent_data_provider.rs:74-87 | the provider fails exactly when the reference or the target epoch lies before the first main-chain epoch or the target before main-chain epoch two; otherwise there are inputs if and only if the target starts before the end of the epoch after the reference's |
| `Ariadne.InputsAlwaysThere` | toolkit/primitives/authority-selection-inherents/src/ariadne_inherent_data_provider.rs:66-88 | if two partner-chain epochs less a slot and three times the minimal reference age fit into a main-chain epoch, every block of every run has selection inputs, unless it is too early |
| `Ariadne.ProposerDoesNotPanic` | toolkit/primitives/authority-selection-inherents/src/ariadne_inherent_data_provider.rs:73-87 | so the provider fails exactly when it is too early, and otherwise the proposer gets its inputs and does not panic |
| `Ariadne.InputsCanBeMissing` | toolkit/primitives/authority-selection-inherents/src/ariadne_inherent_data_provider.rs:73-87 | if they do not fit, main-chain epochs can start so that the second block of a run finds no inputs, for every selection and genesis committee |
| `Committees.SetAllEffect` | toolkit/pallets/session-validator-management/src/lib.rs:240-255 | several calls in one block have the effect of the last; none touches the current committee |
| `Committees.RunInvariant` | toolkit/pallets/session-validator-management/src/lib.rs:240-253 | in every reachable state: a next committee is for the epoch after the current one, the committee epoch is the first block's epoch plus the number of rotations and never ahead of the slot, and a next committee is missing exactly after a block that rotated without setting one |
| `Committees.NeverMissingTwice` | toolkit/pallets/session-validator-management/src/lib.rs:219-225 | no two successive blocks of a run leave the next committee unset |
| `Committees.OmittedCallIsAccepted` | toolkit/pallets/session-validator-management/src/lib.rs:219-225 | whatever the run so far, a block of a later epoch that omits the call is accepted and leaves the next committee missing |
| `Committees.NextCommitteeCanBeMissing` | toolkit/pallets/session-validator-management/src/lib.rs:305-314 | a run of two blocks from genesis, for every selection and genesis committee, after which the next committee is missing |
| `Committees.EpochsFit` | toolkit/pallets/session-validator-management/src/lib.rs:280-284 | the next unset epoch is at most two past the slot's epoch, and so within 64 bits while slots are; with one slot per epoch, while two more slots are |
| `Committees.HonestIsAccepted` | toolkit/pallets/session-validator-management/src/lib.rs:169-225 | an honest block is accepted and leaves a next committee |
| `Committees.HonestRunAccepted` | toolkit/pallets/session-validator-management/src/lib.rs:305-314 | every run of honest blocks is accepted, with a next committee after every block |
| `Committees.CatchUp` | toolkit/pallets/session-validator-management/src/tests.rs:190-269 | a chain g epochs behind is g rotations behind: after j blocks of the slot's epoch the committee is min(g, j) epochs further |
| `Committees.StaleBlockProgresses` | toolkit/pallets/session-validator-management/src/lib.rs:219-253 | an accepted block of a stale chain rotates, or stores the committee that the next one rotates to |
| `Committees.CatchUpAccepted` | toolkit/pallets/session-validator-management/src/lib.rs:219-253 | any accepted run of a stale chain moves at least one epoch per two blocks and at most one per block until it is at the slot's epoch |
| `Session.SearchFindsGap` | toolkit/pallets/partner-chains-session/src/lib.rs:425-426 | a failed binary search in a sorted vector returns the one position that keeps it sorted |
| `Session.SearchDecides` | toolkit/pallets/partner-chains-session/src/lib.rs:518-520 | binary search in a sorted vector decides membership, both ways |
| `Session.InsertedSorted` | toolkit/pallets/partner-chains-session/src/lib.rs:424-432 | inserting at the searched position keeps the vector strictly sorted and adds exactly that element |
| `Session.SessionPallet.constructor` | toolkit/pallets/partner-chains-session/src/lib.rs:312-326 | genesis: validator by validator the account and keys of the genesis committee, session zero, nothing disabled, provider counts as before |
| `Session.SessionPallet.ChangeAccountProviders` | toolkit/pallets/partner-chains-session/src/lib.rs:459-470 | accounts only in the new list gain a provider, accounts only in the old one lose one, and the call panics exactly when one of the latter has none |
| `Session.SessionPallet.RotateValidators` | toolkit/pallets/partner-chains-session/src/lib.rs:472-486 | the validator list is replaced and the disabled vector emptied; no provider count changes |
| `Session.SessionPallet.RotateSession` | toolkit/pallets/partner-chains-session/src/lib.rs:395-416 | the session index grows by one, the committee rotates, the validators become, one by one, those of the next committee; it panics exactly when there is none |
| `Session.SessionPallet.OnInitialize` | toolkit/pallets/partner-chains-session/src/lib.rs:360-371 | a session ends exactly when the slot's epoch is past the committee's and a next committee is stored, so the rotation never panics |
| `Session.SessionPallet.DisableIndex` | toolkit/pallets/partner-chains-session/src/lib.rs:419-433 | the index is inserted and true returned if and only if it is in range and not disabled yet |
| `Session.SessionPallet.Disable` | toolkit/pallets/partner-chains-session/src/lib.rs:440-446 | the first position of the account is disabled, and true returned, if and only if there is one, it is in range and not disabled yet |
| `Session.DisabledVector` | toolkit/pallets/partner-chains-session/src/lib.rs:419-486 | with the Polkadot.js list, in every reachable state the disabled vector is strictly sorted and in range, and binary search holds of exactly the positions disabled since the validators last changed |
| `Session.NothingDisabledWithoutList` | toolkit/pallets/partner-chains-session/src/lib.rs:420-422 | without that list nothing is ever disabled |
| `Session.ProvidersFollowLists` | toolkit/pallets/partner-chains-session/src/lib.rs:459-470 | along any sequence of lists, duplicates included, every count is its base plus one exactly while the account is listed |
| `Session.NextListSucceeds` | toolkit/pallets/partner-chains-session/src/lib.rs:467-469 | after any such sequence no list that comes next takes a provider from an account without one; only the steps before are premises |
| `Session.ReplaceAll` | toolkit/pallets/partner-chains-session/src/lib.rs:459-470 | calling the method for one list after another, from the empty list on, never panics and ends with one provider more per listed account |
| `Session.RotateAll` | toolkit/pallets/partner-chains-session/src/lib.rs:472-486 | from genesis through any rotations every count stays its base, so there is one provider per listed validator if and only if none is listed |
| `Session.RotationToOne` | toolkit/pallets/partner-chains-session/src/lib.rs:472-486 | one rotation to a list of one validator, after which that validator has no provider |
| `Runtime.MirrorsStep` | node/runtime/src/lib.rs:470-493 | one block keeps the session validators equal to the current committee and advances the index exactly when it rotates |
| `Runtime.SessionMirrorsCommittee` | toolkit/primitives/session-manager/src/lib.rs:23-75 | after every block of every run session validator i has the account and the keys of committee member i, as many as there are, within the bound, and the index is the number of rotations |
| `Runtime.IndexIsEpochDistance` | toolkit/primitives/session-manager/src/lib.rs:37-47 | the session index is the number of epochs the committee has moved since block one |
| `Runtime.Node.constructor` | node/runtime/src/lib.rs:470-493 | the pallets start in their genesis states |
| `Runtime.Node.DispatchSets` | toolkit/pallets/session-validator-management/src/lib.rs:240-255 | dispatching the calls of a block one by one; one failure fails the block |
| `Runtime.Node.ExecuteBlock` | node/runtime/src/lib.rs:470-493 | the pallets in runtime order compute the value-level block step, token release included; the block is valid exactly when its calls dispatch and its reward is counted; provider counts stay |
| `Runtime.ExecuteAll` | node/runtime/src/lib.rs:463-493 | executing any run of accepted blocks on the pallets never aborts and ends in the state, with the reward maps and the released tokens, of the run theorems; the release equals the locked total if and only if the run is clean; no account has gained a provider |
| `Rewards.RewardPallets.constructor` | toolkit/pallets/sidechain/src/lib.rs:62-68 | no epoch, no points, no drains |
| `Rewards.RewardPallets.OnInitialize` | toolkit/pallets/sidechain/src/lib.rs:72-89 | a changed epoch is stored and drains the pending points under the old epoch's number; the first block only stores it |
| `Rewards.RewardPallets.GetRewardsAndClear` | toolkit/pallets/block-rewards/src/lib.rs:116-118 | the pending map is handed over and emptied |
| `Rewards.RewardPallets.SetBeneficiaries` | toolkit/pallets/block-rewards/src/lib.rs:87-94 | the last beneficiary named in a block stays |
| `Rewards.RewardPallets.OnFinalize` | toolkit/pallets/block-rewards/src/lib.rs:99-112 | one point for the beneficiary; panics exactly without a beneficiary or when the 32-bit count would overflow |
| `Rewards.RewardPallets.FinishBlock` | toolkit/pallets/block-rewards/src/lib.rs:87-112 | the inherents and the end of a block, against the value-level step |
| `Rewards.EarnedCounts` | toolkit/pallets/block-rewards/src/lib.rs:99-109 | the points of an epoch are, per beneficiary, the number of blocks in it |
| `Rewards.PointsOfRun` | toolkit/pallets/block-rewards/src/lib.rs:99-118 | no run with increasing slots aborts; pending points are exactly those of the current epoch, at most one per slot of it so far; drained plus pending is one per block |
| `Rewards.DrainsOfRun` | node/runtime/src/lib.rs:445-452 | the drains are those of the earlier epochs that have a block, each once, in order, each with exactly the points of its blocks |
| `Rewards.PendingWithinEpoch` | toolkit/pallets/block-rewards/src/lib.rs:104-108 | no pending count exceeds the slots per epoch, so the 32-bit addition never overflows |
| `TransferData.CacheHit` | toolkit/mainchain-follower/db-sync-follower/src/native_token/mod.rs:211-216 | for the scripts the rows were fetched for, a sum served from the cache is the sum over the blocks asked about |
| `TransferData.RowsGiveSum` | toolkit/mainchain-follower/db-sync-follower/src/native_token/mod.rs:53-58 | skipping the first row and summing through the last asked block gives the same sum from fetched rows |
| `TransferData.TransferSource.Fetch` | toolkit/mainchain-follower/db-sync-follower/src/native_token/mod.rs:105-131 | what is due for the request, the error for a missing block included; the cache then holds, for the request's scripts, the blocks from the first asked one as far as asked or the cache size, whichever is more, and never beyond the last stable block |
| `TransferData.LastToFetch` | toolkit/mainchain-follower/db-sync-follower/src/native_token/mod.rs:118-125 | the last block to read reaches as far as asked, is stable, and stops short of the wanted reach only at the last stable block |
| `TransferData.SwitchKeepsRows` | toolkit/mainchain-follower/db-sync-follower/src/native_token/mod.rs:201-221 | a chain switch leaves the cache correct |
| `TransferData.TransferSource.GetTotal` | toolkit/mainchain-follower/db-sync-follower/src/native_token/mod.rs:29-73 | the answer is what is due for the request, or for the scripts the cache was filled for if the two blocks are found in it; it is what is due for the request if and only if, on a hit, the address received the same by both scripts in the blocks asked about |
| `TransferData.HitIsDueIff` | toolkit/mainchain-follower/db-sync-follower/src/native_token/mod.rs:211-216 | a hit serves what is due for the scripts the rows were fetched for, and what is due for the request if and only if the amounts received agree |
| `TransferData.GetTotals` | toolkit/mainchain-follower/db-sync-follower/src/native_token/mod.rs:29-73 | over any run of chain switches and requests every answer is what is due for the request or for the scripts of the last fetch, and the cache never shows in an answer while the scripts stay the same |
| `TransferData.SameScriptsServedRight` | toolkit/mainchain-follower/db-sync-follower/src/native_token/mod.rs:29-73 | a request is served what is due while all requests so far were about its scripts |
| `TransferData.FetchMakesHit` | toolkit/mainchain-follower/db-sync-follower/src/native_token/mod.rs:94-101 | right after a fetch the same question is served from the cache, whatever scripts it names |
| `TransferData.StaleAnswer` | toolkit/mainchain-follower/db-sync-follower/src/native_token/mod.rs:29-46 | a run of two requests about the same two blocks by different scripts: the second gets the first one's amount although nothing is due |
| `TransferData.SeenIsObserved` | toolkit/mainchain-follower/db-sync-follower/src/db_model.rs:573-636 | the chain the data source works on is, for any scripts, the one the tables hold |
| `TransferData.TotalsComeFromQuery` | toolkit/mainchain-follower/db-sync-follower/src/db_model.rs:573-600 | the answer since genesis is what the total query returns on the tables |
| `TransferData.AmountsComeFromQuery` | toolkit/mainchain-follower/db-sync-follower/src/db_model.rs:607-636 | the answer since a block is the sum of the per-block query's rows on the tables |
| `NativeToken.ProvideTokenAmount` | toolkit/primitives/native-token-management/src/lib.rs:158-194 | nothing without scripts; before the first transfer the amount since genesis, afterwards since the parent's reference, for the scripts asked about or those of the cache on a hit; zero is no data |
| `NativeToken.InherentViewsAgree` | toolkit/pallets/native-token-management/src/lib.rs:86-123 | a call passes the check exactly when it is the one created, and one is created exactly when it is required and the amount is positive; which error is raised otherwise |
| `NativeToken.ZeroIsIgnored` | toolkit/pallets/native-token-management/src/lib.rs:86-123 | data that holds zero creates no call and requires none |
| `NativeToken.NativeTokenPallet.TransferTokens` | toolkit/pallets/native-token-management/src/lib.rs:139-155 | marks the pallet initialized and hands the amount over; panics exactly without scripts |
| `NativeToken.NativeTokenPallet.TransferAll` | toolkit/pallets/native-token-management/src/lib.rs:139-155 | the calls of a block one after another; panics exactly when there is one and no scripts |
| `NativeToken.NativeTokenPallet.SetMainChainScripts` | toolkit/pallets/native-token-management/src/lib.rs:162-176 | changes the scripts and nothing else: a pallet that has released tokens stays initialized |
| `NativeToken.EqualCalls` | toolkit/pallets/native-token-management/src/lib.rs:92-113 | the accepted calls of a block release at least the observed amount, and exactly it if and only if the call is not repeated |
| `NativeToken.UninitializedReleasesNothing` | toolkit/pallets/native-token-management/src/lib.rs:148-153 | nothing is released before the first transfer |
| `NativeToken.ObservedBetween` | toolkit/primitives/native-token-management/src/lib.rs:174-191 | once initialized, a block observes what reached the address between its parent's reference and its own, whatever switches lie between |
| `NativeToken.LockedBetween` | toolkit/mainchain-follower/db-sync-follower/src/db_model.rs:607-636 | that amount telescopes: locked at the parent plus it is locked now plus other assets |
| `NativeToken.ReleasedMatchesLocked` | toolkit/pallets/native-token-management/src/lib.rs:86-155 | over every run of accepted blocks the released total is never below what is locked up to the last reference, equals it if and only if no block repeats its call and no other asset reached the address since the first transfer, and both are zero until then |
| `NativeToken.VerifyBlock` | toolkit/primitives/native-token-management/src/lib.rs:158-194 | with a cache that holds nothing for other scripts, the provider observes for every block of a run what the uncached answer says, and the block's calls are accepted on it |
| `NativeToken.ReleaseAll` | toolkit/pallets/native-token-management/src/lib.rs:92-155 | driving provider, cache and pallet over any run observes for every block what the run says, and the amounts handed over add up to what the conservation law is about |
| `NativeToken.StepReleases` | toolkit/pallets/native-token-management/src/lib.rs:86-155 | a block of an initialized pallet releases at least what was locked since its parent, exactly that if and only if it is clean |
| `NativeToken.ReleasedSinceMatchesLocked` | toolkit/pallets/native-token-management/src/lib.rs:148-176 | after a change of scripts the released amount grows by at least what the new scripts lock from then on, and by exactly that in clean runs only, so what they had locked before is never released |
| `NativeToken.RepeatedCallIsUnclean` | toolkit/pallets/native-token-management/src/lib.rs:92-113 | a run that repeats a call releases more than is locked |
| `NativeToken.OtherAssetIsUnclean` | toolkit/mainchain-follower/db-sync-follower/src/db_model.rs:617-622 | a run in which another asset reaches the address releases more than is locked |
| `TransferQueries.BlockQueryCountsBoth` | toolkit/mainchain-follower/db-sync-follower/src/db_model.rs:614-627 | a row of the per-block query is the block's configured token plus every other asset sent to the address |
| `TransferQueries.MatchesIff` | toolkit/mainchain-follower/db-sync-follower/src/db_model.rs:588-591 | a row counts as the configured token if and only if its asset has both the policy and the name of the scripts |
| `TransferQueries.AssetDecides` | toolkit/mainchain-follower/db-sync-follower/src/db_model.rs:622-622 | of the asset a row refers to, policy and name together decide |
| `TransferQueries.QuantitiesAre` | toolkit/mainchain-follower/db-sync-follower/src/db_model.rs:584-591 | what counts of an output is the sum of exactly its rows of that asset, and what is foreign the sum of all its others |
| `TransferQueries.TotalQueryIs` | toolkit/mainchain-follower/db-sync-follower/src/db_model.rs:579-597 | the total query adds up the rows of the configured asset at the address up to the bound |
| `TransferQueries.BlockAmountsAre` | toolkit/mainchain-follower/db-sync-follower/src/db_model.rs:614-627 | what a block adds of the configured token and of all other assets |
| `TransferQueries.TotalQueryCountsLocked` | toolkit/mainchain-follower/db-sync-follower/src/db_model.rs:579-597 | the total query counts the configured token of the blocks up to the bound and nothing else |
| `TransferQueries.RowsAreObserved` | toolkit/mainchain-follower/db-sync-follower/src/db_model.rs:614-635 | the per-block query returns the blocks of the range, in order, one row each |
| `TransferQueries.TransfersAreObserved` | toolkit/mainchain-follower/db-sync-follower/src/db_model.rs:614-635 | the whole query: exactly the observed blocks of the range, in order |
| `TransferQueries.TotalsAgree` | toolkit/mainchain-follower/db-sync-follower/src/db_model.rs:573-636 | total(n) is total(m) plus the per-block amounts of m+1..n if and only if no other asset was sent to the address in those blocks |
| `TransferQueries.OtherAssetBreaksAgreement` | toolkit/mainchain-follower/db-sync-follower/src/db_model.rs:621-622 | tables with an asset of another policy, or of the same policy and another name: the total stays, the per-block amount does not |
| `McReference.ProposalIsStable` | toolkit/mainchain-follower/db-sync-follower/src/block/mod.rs:48-58 | the proposer's choice is one the verifier's lookup finds on the same chain if and only if the chain is longer than the security parameter |
| `McReference.ProposalOnShortChain` | toolkit/mainchain-follower/db-sync-follower/src/block/mod.rs:54-56 | a short chain whose block zero is proposed and then not found |
| `McReference.ProposalsAdvance` | toolkit/primitives/sidechain-mc-hash/src/lib.rs:138-147 | as time passes and chains switch, proposed references never go back |
| `McReference.ProposalStaysFound` | toolkit/mainchain-follower/db-sync-follower/src/block/mod.rs:193-207 | a proposed reference is found on every chain switched to later |
| `McReference.HonestReferenceAccepted` | toolkit/primitives/sidechain-mc-hash/src/lib.rs:92-148 | an honest reference on an honest parent is accepted in every later view of the chain |
| `McReference.LookupIff` | toolkit/mainchain-follower/db-sync-follower/src/block/mod.rs:193-207 | the lookup finds a block if and only if it is in the chain by that hash, at least the security parameter below the tip, and between one and three times the minimal age old |
| `McReference.VerifyIff` | toolkit/primitives/sidechain-mc-hash/src/lib.rs:119-147 | a reference is accepted if and only if it is such a block and, given a parent, the parent's reference is one for the parent's slot and not a later block |
| `McReference.RegressionRefused` | toolkit/primitives/sidechain-mc-hash/src/lib.rs:138-144 | a reference before the parent's is refused, however well it would do on its own |
| `McReference.ProposeIs` | toolkit/mainchain-follower/db-sync-follower/src/block/mod.rs:52-57 | the proposal is the highest block of allowed age that is the security parameter and the margin below the tip, or block zero on a chain too short for that |
| `McReference.ReferencesNeverDecrease` | toolkit/primitives/sidechain-mc-hash/src/lib.rs:138-147 | over every run of accepted blocks, while chains are being switched, references are stable and never decrease |
| `McReference.BlockSource.FillCache` | toolkit/mainchain-follower/db-sync-follower/src/block/mod.rs:210-237 | the cache is replaced by the stable blocks from the one found on, as many as the cache size allows or up to the last stable one |
| `McReference.BlockSource.SwitchKeepsValid` | toolkit/mainchain-follower/db-sync-follower/src/block/mod.rs:267-287 | a chain switch leaves the cache correct |
| `McReference.BlockSource.GetStableBlock` | toolkit/mainchain-follower/db-sync-follower/src/block/mod.rs:155-207 | the cached lookup answers exactly as the uncached one on the present chain |
| `McReference.LookupAll` | toolkit/mainchain-follower/db-sync-follower/src/block/mod.rs:155-207 | over any run of chain switches and lookups every answer is the uncached one |
| `StableEpochs.StableEpochIsFinal` | toolkit/mainchain-follower/db-sync-follower/src/db_model.rs:421-440 | over every run of chain switches the blocks of all epochs up to a reported stable epoch never change, and later reports are not smaller |
| `StableEpochs.NextEpochIsNotFinal` | toolkit/mainchain-follower/db-sync-follower/src/db_model.rs:423-425 | the epoch of the highest stable block itself can still change, for every chain, to another with epochs in order and distinct hashes: one less is the best possible |
| `StableEpochs.CandidateCache.SwitchKeepsValid` | toolkit/mainchain-follower/db-sync-follower/src/candidates/cached.rs:174-196 | a chain switch leaves the cache and the highest seen stable epoch correct |
| `StableEpochs.CandidateCache.CanUseCaching` | toolkit/mainchain-follower/db-sync-follower/src/candidates/cached.rs:174-196 | caching is allowed if and only if the data epoch is final; errors exactly for epochs below two or an undecodable stable epoch |
| `StableEpochs.CandidateCache.Get` | toolkit/mainchain-follower/db-sync-follower/src/candidates/cached.rs:125-172 | the cached answer is the uncached one on the present chain; an answer for a final data epoch is remembered as the most recent entry, and nothing else is |
| `StableEpochs.Used` | toolkit/mainchain-follower/db-sync-follower/src/candidates/cached.rs:132-143 | the entry becomes the most recent one, replaces the one of its key, and others drop out only when the capacity is reached |
| `StableEpochs.AnswerAll` | toolkit/mainchain-follower/db-sync-follower/src/candidates/cached.rs:35-65 | over any run of chain switches and requests, with any eviction, caching never shows in an answer |
| `Registrations.UpToIsPrefix` | toolkit/mainchain-follower/db-sync-follower/src/db_model.rs:407-419 | with epochs in order the blocks up to an epoch are a prefix that ends at the block the latest-block query returns |
| `Registrations.BlockTxs` | toolkit/mainchain-follower/db-sync-follower/src/db_model.rs:517-526 | the transactions of a block, each with its own inputs and outputs, its block number and its place |
| `Registrations.LedgerHolds` | toolkit/mainchain-follower/db-sync-follower/src/db_model.rs:517-526 | the ledger of a chain holds the transactions of all its blocks and nothing else |
| `Registrations.LedgerInOrder` | toolkit/mainchain-follower/db-sync-follower/src/db_model.rs:517-526 | in block order |
| `Registrations.RegisteredReadsDataEpoch` | toolkit/mainchain-follower/db-sync-follower/src/candidates/mod.rs:147-159 | the registration query, asked of the whole chain, answers from the blocks up to the data epoch alone, which is what makes caching it safe |
| `Registrations.RegisteredAll` | toolkit/mainchain-follower/db-sync-follower/src/candidates/mod.rs:94-100 | over any run of chain switches and requests the cached registrations are those the query returns on the present chain |
| `TokenUtxos.QueryIsLatest` | toolkit/mainchain-follower/db-sync-follower/src/db_model.rs:456-488 | the token query returns an output of the asset, of an epoch up to the bound, than which no other such output is in a later block or a later transaction of its block, and nothing exactly if there is none |
| `TokenUtxos.RowsAre` | toolkit/mainchain-follower/db-sync-follower/src/db_model.rs:471-476 | the joined rows are exactly the token outputs of the transactions of the blocks of the chain, each with its place |
| `TokenUtxos.QueryOfPrefix` | toolkit/mainchain-follower/db-sync-follower/src/db_model.rs:477-481 | blocks of later epochs never change its answer |
| `TokenUtxos.ParametersReadDataEpoch` | toolkit/mainchain-follower/db-sync-follower/src/candidates/mod.rs:61-92 | the Ariadne parameters are decoded from the D-parameter output and the candidates output, in that order, both read off the blocks up to the data epoch alone; an epoch below two is an error |
| `TokenUtxos.ParametersAll` | toolkit/mainchain-follower/db-sync-follower/src/candidates/cached.rs:35-53 | over any run of chain switches and requests the cached parameters are those the queries give on the present chain |
| `Utxos.UnspentIff` | toolkit/mainchain-follower/db-sync-follower/src/db_model.rs:502-549 | after replaying a valid ledger an output is unspent exactly when created and not spent by then |
| `Utxos.ConsumedOnce` | toolkit/mainchain-follower/db-sync-follower/src/db_model.rs:520-522 | in a valid ledger the consuming join has at most one row per output, and its block tells when the output was spent |
| `Utxos.GroupsAreLive` | toolkit/mainchain-follower/db-sync-follower/src/db_model.rs:517-539 | the groups of the query are exactly the outputs at the address that are unspent after replay |
| `Utxos.GroupsDistinct` | toolkit/mainchain-follower/db-sync-follower/src/db_model.rs:530-539 | no output has two groups |
| `Utxos.LiveGroup` | toolkit/mainchain-follower/db-sync-follower/src/db_model.rs:158-178 | the inputs column parses exactly when the origin transaction has inputs, and then holds each of them once |
| `Utxos.QueryFailsIff` | toolkit/mainchain-follower/db-sync-follower/src/db_model.rs:546-548 | the query fails if and only if a live output at the address comes from a transaction without inputs |
| `Utxos.OutputWithoutInputsFails` | toolkit/primitives/domain/src/lib.rs:381-393 | a ledger of one transaction without inputs for which the query fails |
| `Utxos.QueryIsReplay` | toolkit/mainchain-follower/db-sync-follower/src/db_model.rs:502-549 | otherwise the rows, as a multiset, are exactly the unspent outputs at the address after replaying blocks up to the bound, once each, with the multiset of the origin transaction's inputs |
| `Utxos.LaterBlocksDoNotMatter` | toolkit/mainchain-follower/db-sync-follower/src/db_model.rs:527-529 | transactions above the bound, appended or replaced, never change the multiset of rows or the failure |
| `Collateral.LargestAreWorthMost` | toolkit/offchain/src/collateral_selection.rs:17-28 | no choice of n inputs is worth more than the n largest |
| `Collateral.TakeLargest` | toolkit/offchain/src/collateral_selection.rs:21-28 | the loop ends with the fewest largest inputs that cover the amount |
| `Collateral.FewestCover` | toolkit/offchain/src/collateral_selection.rs:21-33 | what the loop pops is a choice that covers the amount, and no choice that does is smaller |
| `Collateral.LargestFirst` | toolkit/offchain/src/collateral_selection.rs:6-34 | succeeds if and only if some choice of at most the allowed number of inputs covers both the required amount and the minimum, and then no choice that covers them is smaller |
| `Config.Extract` | toolkit/partner-chains-cli/src/config.rs:143-156 | the loop computes the value at the path, none as soon as a field is missing |
| `Config.Descend` | toolkit/partner-chains-cli/src/config.rs:117-125 | the way down panics exactly on a root that cannot be indexed, and loses nothing of the objects passed |
| `Config.WriteBack` | toolkit/partner-chains-cli/src/config.rs:126-127 | the write at the cursor, seen from the root |
| `Config.SaveToFile` | toolkit/partner-chains-cli/src/config.rs:111-128 | saving into a missing or present file, against the path-update function; it panics exactly on a file whose root is neither an object nor null, for a path that is not empty |
| `Config.LoadAfterSave` | toolkit/partner-chains-cli/src/config.rs:111-156 | for all pairs of paths: at or below the saved path a load finds the value or its part, above it the updated object, and elsewhere what was there |
| `Config.SaveTwice` | toolkit/partner-chains-cli/src/config.rs:111-128 | a second save at the same path wins |
| `Config.SaveLoaded` | toolkit/partner-chains-cli/src/config.rs:111-156 | saving what is already there changes nothing |
| `Config.SavesCommute` | toolkit/partner-chains-cli/src/config.rs:111-128 | saves at paths neither of which contains the other commute |
| `Config.EntriesAreFound` | toolkit/partner-chains-cli/src/config.rs:282-291 | every field of a sequence of saves is found afterwards |
| `Config.FieldPaths` | toolkit/partner-chains-cli/src/config.rs:452-619 | the paths of the fields in the file |
| `Config.ReadIff` | toolkit/partner-chains-cli/src/config.rs:293-304 | parameters are read if and only if every field is found in its place with the right kind of value; nothing is read from a missing file |
| `Config.ReadAfterSave` | toolkit/partner-chains-cli/src/config.rs:281-305 | the Cardano parameters read after a save are those saved, over any prior file that can be updated, if and only if the coefficient is finite; otherwise nothing is read |
| `Candidates.CompareIsOrder` | toolkit/primitives/domain/src/lib.rs:626-631 | the derived comparison of candidates is a total order |
| `Candidates.CompareIs` | toolkit/primitives/domain/src/lib.rs:626-631 | dictionary order of the bytes, by sidechain key, then Aura key, then Grandpa key |
| `Candidates.SortedEqualIff` | toolkit/offchain/src/permissioned_candidates.rs:39-45 | two candidate lists sort to the same list if and only if they are permutations of one another |
| `Upsert.SingleUtxo` | toolkit/offchain/src/permissioned_candidates.rs:28-102 | after any run of upserts from an empty address there is exactly one UTXO, with the one token ever minted and the last requested value |
| `Upsert.QuietIff` | toolkit/offchain/src/permissioned_candidates.rs:42-48 | a further upsert submits nothing if and only if it asks for the same value again |
| `Upsert.FailsIff` | toolkit/offchain/src/permissioned_candidates.rs:81-102 | an upsert fails, and submits nothing, exactly when the first UTXO has no datum or one that does not decode |
| `Upsert.UpsertedIs` | toolkit/offchain/src/permissioned_candidates.rs:42-78 | whatever is at the address, an upsert mints only if nothing is there, otherwise replaces the first UTXO if its value differs and leaves the others and the supply |
| `Upsert.CandidatesQuietIff` | toolkit/offchain/src/permissioned_candidates.rs:39-48 | a candidate upsert submits nothing if and only if the request is a permutation of the list on chain, whatever that list |
| `Upsert.CandidatesSingleUtxo` | toolkit/offchain/src/permissioned_candidates.rs:196-239 | the run theorem for permissioned candidates, which are stored sorted |
| `Upsert.DParameterSingleUtxo` | toolkit/offchain/src/d_param.rs:25-75 | the run theorem for the D-parameter |

## Left out

- Cryptography, SCALE, CBOR and Plutus encodings, script hashing and address formats: library code; values are opaque.
- Authority selection, candidate filtering and stake: any deterministic function stands in for them.
- What the selection inputs hold; a block of a run carries them as an optional value, and `Ariadne` says when they are there. The 32-bit limits of main-chain epoch numbers are not modelled.
- The conservation law covers a first configuration from genesis, and each later one from its change on; one run theorem across several changes is not stated. Runs of blocks take the uncached observation, which a node with rows cached for other scripts does not make.
- FRAME storage, weights, events, origins, runtime API, RPC and node service: framework wiring.
- Other pallets' work in a block, and the stub session index that the session manager mirrors.
- SQL execution, connection handling, indices and metrics; blocks with null numbers; the slot bounds that the highest-block query repeats beside its time bounds.
- Failing locks of the caches, which only turn a cached answer into an uncached one.
- Transaction balancing, fees, execution units and witness scripts of upserts: only which UTXO is spent, minted and created is kept; the surrounding builders, which are mutated in place, are modelled on values.
- Command-line wizards, prompts, the choice between saving and keeping a value, files that are not JSON, and the bootnode printer and parser: user interface, or string handling without much to prove.
- Python end-to-end code, chain specifications, mocks and benchmarks.
- Collateral.LargestFirst: assumes that the lovelace of all inputs adds up within 64 bits and that there are fewer than 2^32 inputs, as the sum and the cast in the code do.
- Config.ReadAfterSave: a finite active slots coefficient is a real number; rounding of 64-bit floats and their decimal printing is not modelled.
- Config.SaveToFile: the mutable cursor into the JSON value is modelled as a way down that remembers the objects passed and a way back up.
- Session.SessionPallet.RotateSession: the 32-bit width of the session index is not modelled, nor the session handler's notifications.
- NativeToken.ReleasedMatchesLocked: amounts are unbounded, so the 128-bit width of the sums is not modelled.
- McReference.TimeValid: the age bounds are whole numbers; the rounding of the security parameter over the active slots coefficient is not modelled.
- Session.SessionPallet.ChangeAccountProviders: consumers of an account, which can make the framework refuse to take its last provider, are not modelled.
- StableEpochs.CandidateCache.Get: the cached query is a parameter that reads only blocks up to the data epoch; `Registrations` and `TokenUtxos` prove this of the registrations and the Ariadne parameters, while for the stake distribution it stays a premise.
- TokenUtxos.QueryIsLatest: of several outputs of one transaction that carry the token, the model takes the last; the query's order leaves it open.
