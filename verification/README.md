# Verified models of a Tendermint node

A Dafny model of the hardest parts of this Tendermint fork, and proofs about it:

- **Consensus** (`consensus/state.go`). One node is a state machine over height, round, step, locked and valid block,
  proposal and votes; its inputs are proposals, block parts, votes, peer claims and timeouts. `ConsensusRules` gives what
  each input does as functions, `ConsensusNode.State` performs the same steps in place, `ConsensusInvariant` and
  `ConsensusSteps` prove what every step keeps, `ConsensusRuns` states lock justification and step discipline over whole
  runs, and `ConsensusAgreement` composes any number of nodes, which may restart, with faulty signers and proves agreement. Vote counting
  (`types/vote_set.go`) is in `VoteSets`, the counting facts about power in `Validators`.
- **Signer** (`privval/file.go`): signing, the last-sign state on disk, crashes at any point and reloads.
- **State store, rollback** (`state/store.go`, `state/rollback.go`): the compressed map of validator sets and parameters
  against the full map it stands for, under saving, bootstrapping and pruning; rollback as the inverse of one block, and
  what loads after it.
- **Crash recovery** (`finalizeCommit`, `ApplyBlock`, the handshake, the stand-in application): every disk an operation
  leaves on its way is recorded, and a crash may leave any of them.
- **Light client** (`light/client.go`, `light/verifier.go`): bisection with its cache, the trust theorem, and that theorem
  instantiated with the consensus network above.
- **Evidence pool, chunk queue, snapshot pool, block store, write-ahead log**: cross-map invariants and round trips over
  whole histories of operations.

Where the source changes objects in place the model has a class whose methods are proved against functions on values;
the theorems are about those functions and hold for every input and every history.

Conventions. Hashes are identified with what they hash where only their injectivity matters. Voting power is the sum over
the validator list; a quorum is `sum >= total*2/3 + 1` in integer division, as the vote set computes it. Signatures cannot
be forged: a valid signature names its signer. The application is a deterministic machine. Database, file and network
operations do not fail unless the failure is modelled. Panics are outcomes, not preconditions.

Where documentation and code disagree the model follows the code, and gives failing inputs and the exact condition:

- The snapshot key is documented to tell all fields apart, but nothing separates the chunk count, the hash and the metadata
  (`KeysCollide`). Two snapshots share a key exactly if `KeysEqual` says so, and only a snapshot with a one-digit chunk count
  and nothing else has its key for itself (`HasTwinExactly`); a fixed hash length and number of chunk digits suffice to keep
  snapshots apart (`KeyDecides`).
- Rollback clamps the recorded change height. Afterwards any number of heights may fail to load their validators
  (`RollbackLosesHeights`) or load the wrong ones (`RollbackLoadsWrongSet`), until the next change or checkpoint, or a
  pruning that happens to fill the entry they point at. `LoadsAfterRollback` says exactly which.
- The handshake cannot recover a first block above height 1, nor start on a genesis hash the application does not repeat;
  `NoRecoveryOtherwise` shows that these are the only obstacles.
- The handshake applies stored blocks without telling the evidence pool, so evidence may get onto the chain again
  (`OnChainTwice`). The next block can repeat evidence exactly if some piece was replayed and never committed, and is pending
  duplicate vote evidence or still valid (`NextRepeatsExactly`).
- A precommit from before the first height stops a node at step NewHeight of its first height, and no other vote does for
  lack of a last commit (`PrecommitStopsNewNode`, `NoLastCommitExactly`).

The signer's file prevents double signing but keeps no lock (`FileKeepsNoLock`). Agreement with restarts is therefore proved
for nodes that come back, by replaying their log, with all their own votes and decisions; any state since the last of these
will do (`EarlierStateRestarts`).

`ConsensusSteps` also spells out the guards of the late polka, of finalizing and of the part set header panic, as
documentation (`PolkaMeaning`, `CommitMeaning`, `PartsMismatchExactly`).

## Model

| member | source | states |
|---|---|---|
| `Validators.QuorumsShareCorrect` | types/vote_set.go:262-303 | two groups past the vote set's quorum test share a validator outside any group with less than a third of the power |
| `Validators.QuorumHasCorrect` | types/vote_set.go:262-303 | a group past the quorum test includes somebody outside any group with less than a third of the power |
| `VoteSets.AddVoteCounts` | types/vote_set.go:156-304 | adding a vote keeps all tallies equal to the power of the voters recorded, loses nothing, counts exactly the votes reported as added, never replaces a majority, and always counts a signed vote of a validator that has none yet |
| `VoteSets.SetPeerMaj23Counts` | types/vote_set.go:311-344 | a peer's claim of a majority counts no vote and keeps the vote set consistent |
| `VoteSets.NewVoteSetValid` | types/vote_set.go:78-96 | a new vote set is consistent and faithful to the empty history |
| `VoteSets.RunFaithful` | types/vote_set.go:145-344 | over any history of votes and claims, tallies are right, only grow, the first majority stays, and only votes that were handed in with a good signature are counted |
| `VoteSets.HonestVoteCounts` | types/vote_set.go:156-218 | a validator that votes for one block only has its vote counted, whatever others send |
| `VoteSets.MajorityIsReal` | types/vote_set.go:449-459 | a reported majority was cast by more than two thirds of the power |
| `VoteSets.MajorityIsNotMissed` | types/vote_set.go:285-303 | once more than two thirds of the power, each voting for one block only, cast a vote, a majority is reported |
| `ConsensusNode.State.constructor` | consensus/state.go:149-195 | a new node is at its first height with the initial round state, which satisfies the node invariant when the parameters are in order |
| `ConsensusNode.State.Receive` | consensus/state.go:802-890 | every input leaves the state the rules give, keeps the node invariant and moves forward |
| `ConsensusSteps.HandleOk` | consensus/state.go:802-967 | every deliverable input keeps the node invariant (votes counted right, lock and valid block justified, one vote per slot, decisions backed), moves height, round and step forward, and changes a lock only on a newer polka |
| `ConsensusSteps.StartOk` | consensus/state.go:149-195 | the initial round state satisfies the node invariant |
| `ConsensusSteps.EnterPrevoteOk` | consensus/state.go:1231-1288 | entering prevote in the current round keeps the invariant and prevotes at most once |
| `ConsensusSteps.EnterPrecommitOk` | consensus/state.go:1327-1446 | entering precommit in the current round keeps the invariant; a precommit for a block rests on that round's polka |
| `ConsensusSteps.OnPolkaOk` | consensus/state.go:2064-2115 | unlocking on a late polka and updating the valid block keep the invariant |
| `ConsensusSteps.FinalizeCommitOk` | consensus/state.go:1572-1690 | finalizing keeps the invariant: what is decided has more than two thirds of precommits and is valid |
| `ConsensusSteps.EnterNewRoundOk` | consensus/state.go:980-1041 | entering a round keeps the node invariant and every vote set, and leaves a running node of that height in that round or above |
| `ConsensusSteps.EnterCommitOk` | consensus/state.go:1481-1541 | entering commit on a precommit majority keeps the node invariant, whether the block is the locked one, at hand or missing |
| `ConsensusSteps.TryFinalizeCommitOk` | consensus/state.go:1544-1569 | trying to finalize, at any moment, keeps the node invariant |
| `ConsensusSteps.UpdateToStateOk` | consensus/state.go:577-681 | going to the next height with a valid block that has a precommit majority keeps the node invariant; that block joins the chain and the precommits become the last commit |
| `ConsensusSteps.HandleCompleteProposalOk` | consensus/state.go:1916-1949 | a completed proposal, whatever step it finds the node in, keeps the node invariant |
| `ConsensusSteps.AddBlockPartOk` | consensus/state.go:1855-1914 | a block part in any state keeps the node invariant |
| `ConsensusSteps.AddVoteMsgOk` | consensus/state.go:2000-2172 | a vote of any height, round, kind and sender, counted or not, keeps the node invariant with all it sets off |
| `ConsensusSteps.LastCommitVoteOk` | consensus/state.go:2012-2038 | a late precommit joins the last commit and keeps the node invariant |
| `ConsensusSteps.OnTimeoutOk` | consensus/state.go:893-941 | a scheduled timeout, firing at any later moment, keeps the node invariant |
| `ConsensusSteps.PrevoteMeaning` | consensus/state.go:1231-1288 | the prevote is for the locked block if there is one, else for a valid block or nil, is at most one, and leaves the lock alone |
| `ConsensusSteps.PrecommitMeaning` | consensus/state.go:1327-1446 | at most one precommit is signed; one for a block is for the polka of this very round and leaves that block locked in this round; without a polka the lock stays, and with one no other block stays locked |
| `ConsensusSteps.NoLastCommitExactly` | consensus/state.go:2012-2019 | a vote stops the node for lack of a last commit exactly if it is a precommit from before the first height, at step NewHeight of the first height |
| `ConsensusSteps.PrecommitStopsNewNode` | consensus/state.go:2012-2019 | any precommit from before the first height, signed or not, stops a node that has just started |
| `ConsensusRuns.LockIsJustified` | consensus/state.go:1346-1439 | in every reachable state a block is locked iff the locked round is not -1, that round is not above the current one and the node saw its polka; likewise the valid block |
| `ConsensusRuns.LockChangesOnNewerPolka` | consensus/state.go:2070-2095 | within a height a lock is dropped or replaced only on a polka of a round strictly above it |
| `ConsensusRuns.StepsInOrder` | consensus/state.go:893-941 | height, round and step never go back and at most one prevote and one precommit is requested per height and round |
| `ConsensusRuns.PrecommitsRestOnPolka` | consensus/state.go:1346-1446 | the polka behind a precommit for a block is of the precommit's own round and seen before signing |
| `ConsensusAgreement.RunOk` | consensus/state.go:710-890 | in every reachable state of the network, restarts included, every node satisfies its invariant and every correct vote was signed on votes signed before it |
| `ConsensusAgreement.RestartStepOk` | consensus/replay.go:38-171 | a node that comes back in any state it can reach with its own votes and decisions, and any votes of others signed so far, keeps the network invariant |
| `ConsensusAgreement.EarlierStateRestarts` | consensus/replay.go:38-171 | in every run a node may restart in any earlier state of its own with the same votes and decisions, so replaying its log up to the last of them is enough |
| `ConsensusAgreement.ChainsGrow` | consensus/state.go:577-681 | decisions are never taken back |
| `ConsensusAgreement.OnePolkaPerRound` | consensus/state.go:1257-1288 | a round has at most one polka |
| `ConsensusAgreement.CommitHasPolka` | consensus/state.go:1346-1439 | precommits of more than two thirds for a block imply a polka for it in that round |
| `ConsensusAgreement.DepartureNeedsPolka` | consensus/state.go:1257-1275 | a correct validator that prevotes away from its precommit had seen a newer polka for something else |
| `ConsensusAgreement.NoPolkaAgainstCommit` | consensus/state.go:1257-1446 | once more than two thirds precommit a block, no polka for anything else, nil included, arises in that round or a later one |
| `ConsensusAgreement.CommitsAgree` | consensus/state.go:1544-1596 | two commits at one height, in whatever rounds, are for one hash |
| `ConsensusAgreement.ChainsAgree` | consensus/state.go:1544-1596 | two nodes' decided chains agree as far as both go |
| `ConsensusAgreement.Agreement` | consensus/state.go:1544-1596 | in every run, with nodes restarting with their own votes and decisions and faulty power below a third at the heights reached, blocks decided at one height by two nodes, at any two moments, are the same |
| `ConsensusAgreement.NoPolkaAgainstDecision` | consensus/state.go:1327-1446 | over every run: no polka against a committed block in its round or later |
| `ConsensusAgreement.PolkaIsForValidBlock` | consensus/state.go:1275-1288 | a polka is for a block that is valid after the agreed chain |
| `ConsensusAgreement.NoQuorumForInvalidBlock` | consensus/state.go:1402-1413 | the panics on a quorum for an invalid block never happen; a node stops only holding a block that more than two thirds committed under another part set header, or at the start of the first height for lack of a last commit |
| `Signer.CheckHRS` | privval/file.go:92-124 | regression is refused, the same place asks for a comparison, and only a later place may sign anew |
| `Signer.OnlyDifferByTimestamp` | privval/file.go:401-437 | sign bytes differ only by timestamp exactly if replacing the timestamp makes them equal, and then the stored timestamp is returned |
| `Signer.ApplySound` | privval/file.go:304-395 | one signing, with a crash at any point, keeps the file's signature over the file's sign bytes and never moves the file back |
| `Signer.FileMovesForward` | privval/file.go:386-395 | over any run the stored place never goes back |
| `Signer.ReleasedCoverReturned` | privval/file.go:304-341 | every released signature covers the message as returned, the rewritten timestamp included |
| `Signer.NoDoubleSigning` | privval/file.go:304-395 | over any run of signings, crashes and reloads, signatures released for one height, round and step cover the same sign bytes |
| `Signer.FreshSignaturesIncrease` | privval/file.go:304-395 | freshly made and released signatures are for strictly increasing places |
| `Signer.ReleasedWasAsked` | privval/file.go:304-341 | a released message is the one asked for, up to its timestamp |
| `Signer.RepeatAfterCrash` | privval/file.go:312-331 | after a crash between saving and releasing, asking again with another timestamp releases the saved signature |
| `Signer.FileKeepsNoLock` | privval/file.go:92-124 | after a precommit and a restart from the file alone, any prevote of a later round is signed |
| `Signer.FilePV.SaveSigned` | privval/file.go:386-395 | the file holds the new place, sign bytes and signature unless the process stops before the write |
| `Signer.FilePV.SignMessage` | privval/file.go:304-383 | the signer object does what the run model does, updating message and file in place |
| `StateStore.LoadIsTruth` | state/store.go:421-463 | where the compressed map stands for a full map, every covered height loads what was in force, reconstructing with 1 to 99999 increments |
| `StateStore.LoadParamsIsTruth` | state/store.go:529-551 | the same for consensus parameters |
| `StateStore.SaveValsExtends` | state/store.go:494-522 | saving the next height's set, new or unchanged, extends the covered heights |
| `StateStore.SaveParamsExtends` | state/store.go:578-597 | the same for parameters |
| `StateStore.GenesisWorldOk` | state/store.go:161-186 | saving a genesis state succeeds and covers its first two heights |
| `StateStore.BootstrapWorldOk` | state/store.go:190-215 | bootstrapping a state shaped as the state provider builds it covers three heights |
| `StateStore.ApplyBlockOk` | state/execution.go:403-465 | saving the updated state always succeeds and keeps the store standing for the full map |
| `StateStore.PruneValsInvisible` | state/store.go:226-348 | at every stage of pruning each height from the cut on loads exactly as before |
| `StateStore.PruneParamsInvisible` | state/store.go:226-348 | the same for parameters |
| `StateStore.PruneOk` | state/store.go:226-348 | pruning from the previous cut succeeds and leaves every height from the new cut on covered |
| `StateStore.StoreRefinesFullMap` | state/store.go:161-463 | over any history of applied blocks and prunings, from genesis or bootstrap, every height from the last cut on loads what was in force, with 1 to 99999 increments when reconstructed |
| `StateStore.TruthKept` | state/store.go:161-186 | no step rewrites what was in force at an earlier height |
| `StateStore.DbStore.SaveValidatorsInfo` | state/store.go:494-522 | an entry is refused when it points above itself, and full only at its change height or a checkpoint |
| `StateStore.DbStore.SaveState` | state/store.go:161-186 | saving writes the next height's entries and the state |
| `StateStore.DbStore.BootstrapState` | state/store.go:190-215 | bootstrapping writes full entries around the state's height |
| `StateStore.DbStore.PruneValsAt` | state/store.go:260-292 | a height that is kept is rewritten with its full set, failing if it cannot be loaded |
| `StateStore.DbStore.PruneParamsAt` | state/store.go:293-325 | the same for parameters |
| `StateStore.DbStore.PruneStates` | state/store.go:226-348 | the downward, batched loop succeeds exactly if everything kept can be loaded, and leaves the pruned store |
| `Rollback.Roll` | state/rollback.go:15-110 | the early return, the error cases and the overwriting save |
| `Rollback.RollbackInvertsApplyBlock` | state/rollback.go:41-102 | after applying a validated block, rollback restores height, block ID, time, the three validator sets, parameters, app hash and results hash |
| `Rollback.FirstBlockStays` | state/rollback.go:42-46 | the first block cannot be rolled back: the error, and the state stays |
| `Rollback.LoadsAfterRollback` | state/rollback.go:41-102 | after block n is rolled back and any blocks are applied and states pruned, every height up to n and all parameters load what was in force, and a height above n does exactly if its change or a checkpoint is above n, the last change was older than n, or nothing changed from n to n + 1 and the entry at n was full or has been filled in by a pruning past n |
| `Rollback.PrunesAfterRollback` | state/store.go:226-348 | after a rollback and any history since, pruning never fails for want of a set it must keep |
| `Rollback.LoadExactly` | state/store.go:421-463 | the same for one height of a store whose recorded change height was clamped |
| `Rollback.RollbackLosesHeights` | state/rollback.go:63-67 | after a chain of two blocks is rolled back by one, no height from 3 on loads its validators, whatever follows, until a change, a checkpoint or a pruning past height 2 |
| `Rollback.RollbackLoadsWrongSet` | state/rollback.go:63-67 | a chain of three blocks after whose rollback other validators load than were in force |
| `Recovery.Node.ExecBlock` | state/execution.go:259-335 | BeginBlock, one DeliverTx per transaction and EndBlock, on the real application or the stand-in |
| `Recovery.Node.ApplyBlock` | state/execution.go:131-196 | validation, then responses, application commit and state are made durable in that order |
| `Recovery.Node.FinalizeCommit` | consensus/state.go:1598-1671 | the block is stored before it is applied, unless it is stored already |
| `Recovery.Node.ReplayOne` | consensus/replay.go:495-513 | one block goes through ApplyBlock on the given connection |
| `Recovery.Node.ExecRange` | consensus/replay.go:462-479 | the replay loop executes and commits a range of blocks, checking app hashes |
| `Recovery.Node.ReplayMany` | consensus/replay.go:439-491 | the loop, then the last block through ApplyBlock when the state must change |
| `Recovery.Node.ReplayFrom` | consensus/replay.go:360-437 | the case analysis over the three heights, in the source's order |
| `Recovery.Node.Recover` | consensus/replay.go:241-437 | InitChain at height zero, then the replay |
| `CrashRecovery.StateFacts` | state/execution.go:403-465 | along a good chain heights count up and the app hash is that of the application |
| `CrashRecovery.OneResultPerTx` | state/execution.go:259-335 | executing a block gives one result per transaction |
| `CrashRecovery.ApplyReal` | state/execution.go:131-196 | applying the next block on the real application can stop anywhere recoverably and ends in sync |
| `CrashRecovery.ApplyMock` | consensus/replay_stubs.go:74-90 | playing saved responses back gives the same state and leaves the application alone |
| `CrashRecovery.FinalizeRecoverable` | consensus/state.go:1612-1671 | finalizing can stop anywhere recoverably and ends in sync |
| `CrashRecovery.HeightsAfterCrash` | consensus/replay.go:371-388 | after a crash the store is at the state's height or one above, and neither application nor state is above the store |
| `CrashRecovery.LoopReplays` | consensus/replay.go:462-479 | the loop takes the application from its block to the last one, block by block |
| `CrashRecovery.InitializedOk` | consensus/replay.go:303-357 | InitChain, repeated any number of times, leaves the initial application and state |
| `CrashRecovery.HandshakeRecovers` | consensus/replay.go:390-433 | the handshake ends with store, state and application at the store's block, equal to the uninterrupted run, having sent exactly the missing blocks; stopping it again is recoverable |
| `CrashRecovery.NoRecoveryOtherwise` | consensus/replay.go:360-388 | otherwise, that is on a first block above height 1 or an unrepeated genesis hash, no handshake completes |
| `CrashRecovery.AlwaysRecovers` | consensus/replay.go:360-437 | over any history of blocks, crashes, interrupted handshakes and applications that fall back, a handshake left to run reaches the uninterrupted run's state and application at the store's height |
| `CrashRecovery.NewNodeAlwaysRecovers` | consensus/replay.go:241-437 | the same for every history that starts from an empty store, the genesis state and an application that has seen nothing |
| `CrashRecovery.LoopInOrder` | consensus/replay.go:462-479 | the loop sends the heights of its range once each and in order |
| `CrashRecovery.ReplayIsExact` | consensus/replay.go:360-491 | for any three heights the uncovered case is unreachable, and a handshake that completes sent the real application exactly the heights above its own up to the store's, or none |
| `LightVerifier.VerifyCommitLight` | types/validator_set.go:724-767 | the counting loop with its early exit and error cases |
| `LightVerifier.VerifyCommitLightTrusting` | types/validator_set.go:777-828 | the counting loop by address, with double votes refused |
| `LightVerifier.CommitLightIsQuorum` | types/validator_set.go:724-767 | a commit that passes carries signatures of more than two thirds of the power |
| `LightVerifier.CommitTrustingIsThird` | types/validator_set.go:777-828 | with a trust level in [1/3, 1] a commit that passes carries signatures of more than a third of the power |
| `LightClient.ValidIsLater` | light/verifier.go:135-190 | a verified header is higher and later; only a non-adjacent one can fail for lack of trust |
| `LightClient.PivotBetween` | light/client.go:749-750 | the pivot is strictly between the verified and the failing height |
| `LightClient.VerifySkipping` | light/client.go:706-773 | it terminates; every height is asked for at most once, strictly between trusted and target, so at most target - trusted - 1 times; on success the trace leads from trusted to target, each pair verified; errors name their cause |
| `LightClient.HeightsIncrease` | light/client.go:713-744 | along a trace heights and times strictly increase |
| `LightClient.VerifiedValsCanonical` | light/verifier.go:32-132 | a block verified against a canonical one carries the canonical validators |
| `LightClient.VerifiedIsCanonical` | light/verifier.go:32-132 | trust is passed on: a genuine block verified against a canonical one is canonical |
| `LightClient.TraceIsCanonical` | light/client.go:721-744 | every block of a trace from a canonical block is canonical |
| `LightConsensus.CanonChained` | state/validation.go:46-72 | decided headers announce the next validators, increase in time, and have few faulty validators |
| `LightConsensus.CorrectPrecommitFits` | consensus/state.go:1346-1439 | a correct validator precommits only headers with the canonical validators of their height |
| `LightConsensus.CommitIsDecided` | consensus/state.go:1544-1596 | a header with a commit at a decided height is the decided one |
| `LightConsensus.LightClientFollowsConsensus` | light/client.go:721-744 | in every run of the network with few faults, a light client that starts from a decided block accepts only decided blocks |
| `Evidence.EvidencePool.Reopen` | evidence/pool.go:54-84 | a pool opened on an existing database prunes what expired and lists the rest |
| `Evidence.EvidencePool.AddEvidence` | evidence/pool.go:134-168 | known evidence is ignored, invalid evidence refused, other evidence becomes pending and listed |
| `Evidence.EvidencePool.CheckEvidence` | evidence/pool.go:192-230 | the loop over a block's evidence with its inner duplicate search |
| `Evidence.EvidencePool.MarkEvidenceAsCommitted` | evidence/pool.go:328-356 | evidence leaves pending and list and becomes committed |
| `Evidence.EvidencePool.ProcessConsensusBuffer` | evidence/pool.go:459-529 | evidence is formed from the buffered votes unless known, and the buffer emptied |
| `Evidence.EvidencePool.RemoveExpiredPendingEvidence` | evidence/pool.go:403-434 | an initial, expired part of the pending evidence goes, the counter falls by as many, modulo 2^32, and the first piece left says when to look again |
| `Evidence.EvidencePool.RemoveEvidenceFromList` | evidence/pool.go:436-447 | exactly the pieces with a given hash leave the list |
| `Evidence.EvidencePool.Update` | evidence/pool.go:105-131 | a state that is not newer is refused; otherwise buffer, marking and pruning in order |
| `Evidence.AddOk` | evidence/pool.go:134-168 | adding keeps pending and committed apart |
| `Evidence.FlushOk` | evidence/pool.go:459-529 | flushing the buffer keeps pending and committed apart |
| `Evidence.MarkOk` | evidence/pool.go:328-356 | marking commits exactly the list's keys, none of which stays pending |
| `Evidence.UpdatedOk` | evidence/pool.go:105-131 | an update keeps the pool's invariant and commits exactly the block's evidence |
| `Evidence.CheckEvidenceExact` | evidence/pool.go:192-230 | a list passes exactly if it repeats nothing, holds nothing committed, and every piece not verified before is valid; what passes ends up pending |
| `Evidence.CheckedIsClean` | evidence/pool.go:192-230 | a list that passes has no key twice and none committed |
| `Evidence.CommittedOnce` | evidence/pool.go:105-230 | over every run of a new node receiving, reporting, checking, committing checked lists and restarting, no evidence is marked twice and nothing is pending and committed |
| `Evidence.OnChainOnce` | evidence/pool.go:192-230 | all runs of a new node, across restarts, have each piece of evidence on the chain at most once exactly if none reaches a piece at risk: replayed by the handshake, never committed, and pending duplicate vote evidence or valid |
| `Evidence.NextRepeatsExactly` | evidence/pool.go:192-230 | after any run, a block that passes the check and is committed next can repeat evidence of the chain exactly if some piece is at risk |
| `Evidence.AtRiskRepeats` | evidence/pool.go:192-230 | after any run, a block with a piece at risk does pass the check and can be committed, which puts the piece onto the chain again |
| `Evidence.OnceWhileSafe` | evidence/pool.go:192-230 | a run that meets no piece at risk has each piece of evidence on the chain at most once |
| `Evidence.AppliedExactly` | consensus/replay.go:495-513 | over every run, exactly the evidence of committed blocks is marked, and exactly that of committed and replayed blocks is on the chain |
| `Evidence.PassesAgainExactly` | evidence/pool.go:192-230 | on any pool, a list that passes repeats evidence of the chain exactly if some such piece passes alone |
| `Evidence.MarkedIfNoneReplayed` | evidence/pool.go:105-131 | if no block applied by the handshake held evidence, marked and applied evidence are the same, each once |
| `Evidence.OnChainTwice` | consensus/replay.go:495-513 | a run of a new node in which the same evidence is applied twice |
| `Chunks.ChunkQueue.AddChunk` | statesync/chunks.go:64-102 | a chunk is refused, ignored or stored |
| `Chunks.ChunkQueue.AllocateChunk` | statesync/chunks.go:106-122 | the loop for the lowest chunk not allocated |
| `Chunks.ChunkQueue.DiscardChunk` | statesync/chunks.go:148-171 | a stored chunk is thrown away and becomes available again |
| `Chunks.ChunkQueue.DiscardFrom` | statesync/chunks.go:175-189 | exactly the unreturned chunks of a sender are thrown away |
| `Chunks.ChunkQueue.Next` | statesync/chunks.go:227-273 | the lowest unreturned index is marked and handed out, or to be waited for |
| `Chunks.AllocatedAgainAfterDiscard` | statesync/chunks.go:106-171 | between two allocations of one index it was discarded |
| `Chunks.AllocateLowest` | statesync/chunks.go:106-122 | allocation gives the lowest free index and ends exactly when none is left |
| `Chunks.NextLowest` | statesync/chunks.go:227-273 | Next gives the lowest unreturned index with its data and is done exactly when all are returned |
| `Chunks.RestoredMeansAllApplied` | statesync/syncer.go:354-407 | however peers, fetchers and the application interleave, applyChunks succeeds on an open queue only if every chunk not returned before was applied and neither refetched nor retried afterwards |
| `Chunks.ApplyChunks` | statesync/syncer.go:354-407 | the loop over the queue object in any state: success on an open queue means every index not returned before was applied with no later refetch or retry by the answers given |
| `Snapshots.SnapshotPool.constructor` | statesync/snapshots.go:59-70 | an empty pool, consistent |
| `Snapshots.SnapshotPool.AddSnapshot` | statesync/snapshots.go:75-118 | blacklisted and excess offers are refused, others recorded in all indexes |
| `Snapshots.SnapshotPool.Forget` | statesync/snapshots.go:242-255 | a snapshot leaves all five maps |
| `Snapshots.SnapshotPool.Reject` | statesync/snapshots.go:191-198 | the snapshot is blacklisted and gone, nothing else changes |
| `Snapshots.SnapshotPool.RejectFormat` | statesync/snapshots.go:201-209 | exactly the snapshots of the format are gone |
| `Snapshots.SnapshotPool.RemovePeer` | statesync/snapshots.go:224-239 | exactly the peer's offers are gone, with the snapshots nobody else offers |
| `Snapshots.SnapshotPool.RejectPeer` | statesync/snapshots.go:212-221 | the same, and the peer is blacklisted; an empty ID does nothing |
| `Snapshots.AddOk` | statesync/snapshots.go:75-118 | adding keeps peer index and snapshot peers converse, the indexes exact, every snapshot offered, at most ten per peer, and nothing blacklisted |
| `Snapshots.RemoveSnapshotOk` | statesync/snapshots.go:242-255 | removing a snapshot keeps them so and withdraws exactly its offers |
| `Snapshots.DetachOk` | statesync/snapshots.go:231-239 | one turn of removing a peer keeps them so but for the keys already taken |
| `Snapshots.RejectFormatOk` | statesync/snapshots.go:201-209 | in whatever order the index is iterated, rejecting a format keeps the pool consistent and drops exactly its snapshots |
| `Snapshots.RemovePeerOk` | statesync/snapshots.go:224-239 | in whatever order the index is iterated, removing a peer keeps the pool consistent and drops exactly its offers |
| `Snapshots.RejectPeerOk` | statesync/snapshots.go:212-221 | the same for rejecting a peer |
| `Snapshots.RunOk` | statesync/snapshots.go:75-255 | after any history of operations on an empty pool, peer index and snapshot peers are converse, indexes equal those computed from the snapshots, every snapshot has a peer, no peer has more than ten, and nothing blacklisted is present |
| `Snapshots.NeverAgain` | statesync/snapshots.go:191-221 | over any history, a rejected snapshot, format or peer never appears again |
| `Snapshots.KeysEqual` | statesync/snapshots.go:30-39 | two snapshots share a key exactly if height and format are equal and chunk digits, hash and metadata read the same on end |
| `Snapshots.HeightAndFormatDecide` | statesync/snapshots.go:30-39 | snapshots of different heights or formats never share a key |
| `Snapshots.KeyDecides` | statesync/snapshots.go:30-39 | among snapshots with as many chunk digits and as long a hash, equal keys mean equal snapshots |
| `Snapshots.KeysCollide` | statesync/snapshots.go:27-39 | moving a byte between metadata and hash, or a digit between hash and chunk count, gives another snapshot with the same key |
| `Snapshots.HasTwinExactly` | statesync/snapshots.go:30-39 | another snapshot has the same key exactly if the chunk count has two digits or more, or hash or metadata is not empty |
| `BlockStore.BlockDb.SaveBlock` | store/store.go:332-395 | only the next height is taken; parts, meta, hash index and commits are written |
| `BlockStore.BlockDb.LoadBlock` | store/store.go:93-123 | parts are joined and decoded; a missing meta or part is a missing block |
| `BlockStore.BlockDb.LoadBlockByHash` | store/store.go:128-144 | the hash index leads to the block |
| `BlockStore.BlockDb.PruneBlocks` | store/store.go:248-323 | the batched loop succeeds exactly for heights between base and height, deletes everything below and counts newBase - oldBase |
| `BlockStore.StoredLoads` | store/store.go:93-144 | a stored block loads by height and by hash |
| `BlockStore.SaveOk` | store/store.go:332-395 | saving keeps everything stored loadable and adds the new block |
| `BlockStore.PruneOk` | store/store.go:248-323 | pruning leaves exactly the blocks from the new base on |
| `BlockStore.StoreRoundTrip` | store/store.go:93-395 | over any history of saves and completed prunings, from base to height blocks, hashes, seen commits and successors' last commits load as saved, and no other height and no other hash loads |
| `BlockStore.PruneCounts` | store/store.go:248-323 | every height a successful pruning passes holds a block, so the count is the difference of the bases |
| `Wal.WordRoundTrip` | consensus/wal.go:323-324 | four big-endian bytes give a 32-bit word back |
| `Wal.WriteMessage` | consensus/wal.go:300-329 | the buffer is filled with checksum, length and data, or the message is refused as too big |
| `Wal.Decoder.ReadBytes` | consensus/wal.go:368-399 | a read at the end of the file may fill its buffer only in part |
| `Wal.Decoder.Next` | consensus/wal.go:365-419 | end of file, the corruption cases and the decoded message |
| `Wal.DecodeEncoded` | consensus/wal.go:300-419 | an encoded message followed by any bytes decodes to the message and those bytes |
| `Wal.DecodeAllEncoded` | consensus/wal.go:300-419 | encoded messages followed by any bytes decode to those messages first, then as the bytes do |
| `Wal.RepairWalFile` | consensus/state.go:2349-2381 | decoding until the first error and encoding what was decoded |
| `Wal.RepairIsClean` | consensus/state.go:2349-2381 | a repair that succeeds decodes to its end without corruption to exactly the messages before the source's first error |
| `Wal.RepairTwice` | consensus/state.go:2349-2381 | repairing again changes nothing |

## Left out

- Networking, goroutines, channels, metrics, events, RPC, configuration and the mempool: plumbing around the modelled steps; each operation is atomic.
- Proposer selection, proposal creation and proposer priorities: proposals are arbitrary inputs, and validator sets are compared by membership and power.
- Timeout durations and clocks: a scheduled timeout may fire at any time.
- Consensus catch-up from the write-ahead log: a restart is a return to a reachable state with all the node's own votes and decisions; how the log's messages rebuild it is not modelled.
- 32-bit round and 64-bit height overflow: rounds and heights are unbounded integers.
- `types/vote_set.go` and `consensus/types/height_vote_set.go` update in place; they are modelled on values.
- `VerifyBackwards`, sequential light verification, witness comparison and primary replacement.
- `Reset` of the signer, and the key file.
- `SaveBlockWOParts`, the state of the block store in the middle of pruning, and raw seen commits saved without a block.
- The evidence pool's size counter when light client evidence is added again, and the exact time evidence expires.
- Ranking of snapshots and choosing among peers: easy next to the index invariants.
- Block validation's evidence check inside consensus: it consults the node's own pool, while `validAfter` depends on the chain only.
- Replay across a pruned block or state store, and BeginBlock's validator information.
- Chunks.ApplyChunks: lets chunks arrive while it waits only, and nobody closes the queue meanwhile; `RestoredMeansAllApplied` covers every interleaving and closing.
- ConsensusAgreement.Agreement: nodes restart with their own votes and decisions; with the signer's file alone a lock is lost, as `FileKeepsNoLock` shows.
- Snapshots.KeyDecides: asks for equal lengths, a condition known before comparing; `KeysEqual` is exact and asks for nothing.
- LightClient.VerifySkipping: asks that a provider answers with the height it was asked for, as the HTTP provider checks.
- StateStore.StoreRefinesFullMap: asks that new validator sets are not empty, which updating a set refuses.
- BlockStore.StoreRoundTrip: asks that the parts handed in are those of the block, as saving a block demands.
- Wal.DecodeEncoded: asks that marshalled messages are shorter than 4 GiB, which protocol buffers guarantee.
