# Damocles: verified models of its schedulers, pipelines and allocators

Damocles runs the daily work of a Filecoin storage miner: proving deadlines, sending
pre-commit and commit messages, placing sectors in object stores and limiting what its
workers do at once. This project models the parts of it that are state machines and
proves what they keep over whole runs. Chain calls, provers, clocks, network constants
and stores are parameters or recorded answers; Go's random map order is left open by
picking any remaining key.

| files | what they model |
|---|---|
| `Deadline`, `Poster`, `PosterRuns`, `PosterLoop` | Window PoSt scheduling: one runner per miner and proving deadline, over head changes with reverts, and the loop that feeds them |
| `PartitionBatches`, `Recoveries`, `PoStAttempts`, `PoStRuns`, `PoStHistory`, `PoStRunner`, `Bitfields` | what a runner does: batches, recovery declarations, attempts with a growing skip set, the hand-over of proofs |
| `Commitments`, `CommitmentRuns`, `CommitmentSteps`, `CommitmentStranded`, `CommitmentExclusive`, `CommitmentWorkers`, `CommitmentBatches`, `CommitmentBatchRuns`, `CommitmentMgr` | the durable NeedSend protocol, with crashes and restarts |
| `Batching`, `Expiration` | the batcher's pending list with its in-place filter; sector expiration |
| `SealCalc`, `SealCalcRuns`, `SealCalcReports` | the five-stage sealing simulator |
| `Reservations`, `ReservationRuns` | space reservations of the object store manager |
| `Limits`, `LimitPool` | channel-based concurrency and staggering limits |
| `SlotLeases`, `SlotLeaseRuns`, `Format` | slot leases with a time to live; decimal numbers and separators in strings |
| `HotConfig`, `Ranges`, `PrefixStore`, `EventBus` | hot-reloaded configuration, range printing, the prefix-wrapped store, callbacks at heights |
| `Common` | shared types and facts |

Imperative sources are classes and methods with loops, each proved against a specification
function or predicate; the theorems about runs are lemmas about those specifications.

## What the proofs found

- A revert below the challenge of an active deadline drops its runner, and none takes its place
  although the deadline is fetched in the same head change: it was struck from the fetched list
  before the abort (poster.go:337-346). The next good fetch builds a new runner.
  `PosterRuns.RevertGap` is such a run for every deadline, height and config;
  `PosterRuns.MapIsActiveWindowsIff` is the exact condition.
- A submission that is taken before the restart scan is queued twice
  (`CommitmentExclusive.EarlySubmissionIsDoubled`). When the second copy of a pre-commit is
  written back after the proof was submitted, the proof is polled as failed while it is still on
  its way: `CommitmentExclusive.RaceHidesProof` is such a run, in which every selection and update
  succeeds, for every sector. `CommitmentExclusive.WriteBackIsOwnIff`, `WriteBackHidesIff` and
  `FalseAlarmIff` say exactly which write-backs lose something. A sector has exactly one copy while
  it needs sending (`CommitmentExclusive.NeedSendIsOneCopy`), and is never reported failed with a
  copy in flight (`CommitmentExclusive.GuardedFailureIsReal`), if no submission is taken before the
  scan, there is no hard reset, sender selections and updates succeed, and no proof is submitted
  before the pre-commit id is stored.
- A prover that reports sectors it was not given can be retried without end
  (`PoStRuns.MisreportsRetryForever`, with an instance in `PoStRuns.MisreportExists`); reports that name a sector being proved are bounded for any
  prover (`PoStRuns.NamedRetriesBounded`).
- Proofs taken by a submit without commit randomness are never published
  (`PoStHistory.PublishedIff`).
- A failed sender selection or store update loses track of a sector exactly when it hits the only
  copy at the stage the sector waits for, and a proof that is submitted without a stored pre-commit
  id exactly when no pre-commit copy is in flight (`CommitmentStranded.StepTrackedIff`). From every
  fresh store there are such runs (`LostSelectionStrands`, `LostUpdateStrands`,
  `EarlyProofStrands`); after a failed update the message is out while the sector is polled as
  pending. A sector without a copy stays so, with its record, until a crash or a submission for it
  that is taken (`CommitmentStranded.StrandedStaysIff`): submitting the same again is accepted and
  queues nothing, a hard reset queues it again (`CommitmentStranded.RepeatingDoesNotHelp`), and the
  scan after a crash always does (`CommitmentRuns.RestartHeals`).
- A notification that comes while no miner is enabled, or no deadline can be fetched, is dropped
  with the revert in it: a runner survives exactly when no handled notification ends it
  (`PosterLoop.SurvivesIff`; a run for every deadline in `PosterLoop.LostRevert`).
- Re-reserving another size at the same store leaks the first size for good
  (`ReservationRuns.ReReservingLeaks`, and as calls in `ReservationRuns.ReReserve`); the reserved total is exact if and only if that never
  happened (`ReservationRuns.ExactIffNothingReplaced`).
- `Extend` accepts any text before the dash (`SlotLeases.ChecksIff`), so a client that makes a slot
  up exceeds the limit (`SlotLeaseRuns.ImproperExtendRun`); exactly the slots the limiter hands out
  are safe (`SlotLeaseRuns.ExtendIsSafeIff`).
- A configuration file that could not be read is not read again until its modification time
  changes (`HotConfig.FailedReadIsNotRetried`).
- A stage of the simulator that takes zero minutes never finishes anything
  (`SealCalcRuns.FinishesOnTime`).
- The wrapped iterator reports the bare prefix for the empty key (`PrefixStore.ScanCommutes`).
- The lifetime computed for a sector without deals can fall below the network minimum;
  `Expiration.CcLifetimeBelowMinimumIff` says exactly when. The caller's floor repairs it.

## Model

| member | source | states |
|---|---|---|
| Deadline.NextTilesIff | damocles-manager/modules/poster/deadline.go:55-73 | the next deadline opens where this one closes, if and only if it is in the same period or the windows fill the period |
| Deadline.NextKeepsSchedule | damocles-manager/modules/poster/deadline.go:55-73 | across period wraps the successor is again a well-formed deadline with the same window and lookback |
| Deadline.LaterOpens | damocles-manager/modules/poster/deadline.go:55-73 | the k-th successor opens k windows later, with challenge and close in place |
| Deadline.EveryEpochOpensOnce | damocles-manager/modules/poster/deadline.go:55-73 | every epoch from an opening on lies in the open window of exactly one successor |
| Deadline.ActiveOpensAre | damocles-manager/modules/poster/poster.go:302-303 | with a lookback of at most one window, the active deadlines are the open one and, from its challenge on, the next |
| Deadline.OneOrTwoActive | damocles-manager/modules/poster/poster.go:302-303 | every epoch lies in one or two active windows |
| Poster.Fetch | damocles-manager/modules/poster/poster.go:277-287 | the fetched deadlines are keyed by their opening |
| Poster.NextFiled | damocles-manager/modules/poster/poster.go:319-413 | after a head change every runner is filed under its own miner and opening |
| Poster.CallsMean | damocles-manager/modules/poster/poster.go:319-413 | the calls both passes gather are exactly those of the declarative description of a head change |
| Poster.PoSter.Drive | damocles-manager/modules/poster/poster.go:342-359 | one runner is aborted, or started and then submitted, exactly as its deadline, the revert and the config say |
| Poster.PoSter.Cleanup | damocles-manager/modules/poster/poster.go:333-360 | in any order of the map: the survivors, the deadlines left and the calls of one miner |
| Poster.PoSter.CleanupAll | damocles-manager/modules/poster/poster.go:319-361 | in any order: the survivors of every miner, the deadlines left, the configs found, the calls |
| Poster.PoSter.Create | damocles-manager/modules/poster/poster.go:387-412 | one runner per remaining deadline; none overwrites a held one |
| Poster.PoSter.CreateMiner | damocles-manager/modules/poster/poster.go:363-412 | the runners of a miner after the second pass, or none when a service fails |
| Poster.PoSter.CreateAll | damocles-manager/modules/poster/poster.go:363-413 | in any order of the map: the whole runner map after the head change |
| Poster.PoSter.HandleHeadChange | damocles-manager/modules/poster/poster.go:296-414 | the new runner map and exactly the calls made, each once and a start before the submit of its runner, whatever order the maps are walked in |
| PosterRuns.InMapNext | damocles-manager/modules/poster/poster.go:319-413 | a runner is in the map exactly when it was there and not aborted, or was just built |
| PosterRuns.FateStep | damocles-manager/modules/poster/poster.go:319-413 | held plus built before is held plus aborted after |
| PosterRuns.RunnerFate | damocles-manager/modules/poster/poster.go:296-414 | over every run, reverts included: aborts plus presence in the map is one for a runner ever built and zero otherwise |
| PosterRuns.CallsOnBuiltRunners | damocles-manager/modules/poster/poster.go:296-414 | every call is made on a runner that is in the map or just built, and was built once |
| PosterRuns.NoCallAfterAbort | damocles-manager/modules/poster/poster.go:343-348 | an aborted runner is never started, submitted or aborted again |
| PosterRuns.NoStaleSurvivor | damocles-manager/modules/poster/scheduler.go:52-58 | no runner survives a head change at or past its close or after a revert below its challenge, and it is aborted |
| PosterRuns.CallsInsideWindows | damocles-manager/modules/poster/scheduler.go:23-50 | over every run starts fall on [challenge + confidence, close) and submits on [open + confidence, close), with the confidence of the runner's own miner |
| PosterRuns.HeldRunnerIsDriven | damocles-manager/modules/poster/poster.go:342-359 | over every run a held runner is aborted, started and submitted exactly when the heights and its own miner's config say so |
| PosterRuns.BuiltIff | damocles-manager/modules/poster/poster.go:363-412 | a runner is built exactly for a fetched deadline no runner was held for, if the miner's address, info and config are available |
| PosterRuns.BuiltRunnerIsStarted | damocles-manager/modules/poster/poster.go:387-412 | a runner is started when it is built exactly if the heights and the config found for its miner say so, and never submitted or aborted then |
| PosterRuns.FetchIsActiveWindows | damocles-manager/modules/poster/poster.go:277-287 | the fetch yields exactly the deadlines active at the height |
| PosterRuns.MapIsActiveWindowsIff | damocles-manager/modules/poster/poster.go:296-414 | the runner map equals the active windows if and only if no held active runner was reverted below its challenge and every held later one was |
| PosterRuns.RevertDropsActive | damocles-manager/modules/poster/poster.go:337-348 | a held active runner that is reverted below its challenge is dropped and not replaced, although its deadline is fetched |
| PosterRuns.MissingIsRebuilt | damocles-manager/modules/poster/poster.go:363-412 | an active deadline without a runner gets one at the next good fetch |
| PosterRuns.RevertGap | damocles-manager/modules/poster/poster.go:296-414 | for every deadline, height and config a legal run builds, loses and rebuilds the runner |
| PosterRuns.RunnersAreActiveWindows | damocles-manager/modules/poster/poster.go:296-414 | over every revert-free run with non-decreasing heights the map holds exactly the active deadlines, one or two |
| PosterLoop.Bounds | damocles-manager/modules/poster/poster.go:173-190 | by index: the last revert and the last applied tipset of a notification, none exactly if there is none; or its current head |
| PosterLoop.LastRevertIsLowest | damocles-manager/modules/poster/poster.go:177-190 | reverts that go down the chain leave the lowest one |
| PosterLoop.HeadIsLatest | damocles-manager/modules/poster/poster.go:173-207 | a head change is at the last tipset its notification applies, by index, and carries the last one it reverts |
| PosterLoop.HandlesIff | damocles-manager/modules/poster/poster.go:192-207 | a notification is handled exactly if it has a current or applied tipset and the deadline of some enabled miner; the head change has the deadlines of exactly these miners |
| PosterLoop.OnNotify | damocles-manager/modules/poster/poster.go:164-208 | a notification is one head change, or nothing if no miner is enabled or no deadline was fetched |
| PosterLoop.LoopIsRun | damocles-manager/modules/poster/poster.go:121-210 | every sequence of notifications is a run of the PoSter over the head changes in it |
| PosterLoop.SurvivesIff | damocles-manager/modules/poster/poster.go:192-207 | a held runner survives a stretch of notifications exactly when no handled one in it ends it |
| PosterLoop.LostRevert | damocles-manager/modules/poster/poster.go:192-207 | for every deadline, height and revert below its challenge a run drops the revert and keeps the runner |
| PartitionBatches.BatchPartitions | damocles-manager/modules/poster/runner.go:514-552 | the batches concatenate to the partitions; all but the last are full; the size is the least cap |
| PartitionBatches.CutShape | damocles-manager/modules/poster/runner.go:532-549 | element k of batch b is partition b * size + k |
| PartitionBatches.BatchCount | damocles-manager/modules/poster/runner.go:532-549 | the number of batches is the rounded-up quotient |
| PartitionBatches.Jobs | damocles-manager/modules/poster/runner.go:251-262 | start index plus local index is the global partition index in every batch |
| Recoveries.Select | damocles-manager/modules/poster/runner.go:625-691 | one partition's declaration: the first sectors of its walk, as many as the limit leaves room for |
| Recoveries.CheckRecoveries | damocles-manager/modules/poster/runner.go:620-726 | what is declared are the least (partition, sector) pairs that are faulty, not recovering and checked: all of them, or `limit` if that is less, none before an undeclared one; one non-empty declaration per partition, in order; all messages but the last are full; the "accepted more" branch is dead |
| Recoveries.WalkIs | damocles-manager/modules/poster/runner.go:628-660 | a sector can be declared exactly if it is faulty, not recovering, and its partition's check succeeded and found it |
| Recoveries.DeclarationsLeastFirst | damocles-manager/modules/poster/runner.go:625-715 | for every limit the declarations are the least pairs that can be declared, counted by a comprehension |
| PoStAttempts.SectorsForProof | damocles-manager/modules/poster/runner.go:481-511 | the sector list of a partition, by position |
| PoStAttempts.BlockShape | damocles-manager/modules/poster/runner.go:481-511 | one entry per sector of the partition: good sectors in their own place, the least good one elsewhere |
| PoStAttempts.ContributeOne | damocles-manager/modules/poster/runner.go:284-331 | what one partition adds to the proof, or that it fails the attempt |
| PoStAttempts.GatherAll | damocles-manager/modules/poster/runner.go:284-337 | the sectors and partition entries of an attempt, in order |
| PoStAttempts.ProveAttempt | damocles-manager/modules/poster/runner.go:281-449 | an attempt files its proof, gives up or asks for another with the reported sectors skipped, each exactly when the checks, the version, the prover, the head randomness and the verifier say so |
| PoStAttempts.AttemptEnds | damocles-manager/modules/poster/runner.go:333-449 | the three ends of an attempt as if-and-only-ifs on the answers it meets |
| PoStAttempts.GatherOkIff | damocles-manager/modules/poster/runner.go:284-331 | an attempt has its sectors exactly if every partition's checks were answered |
| PoStAttempts.EntryIff | damocles-manager/modules/poster/runner.go:284-331 | a partition has an entry exactly if it has sectors and one of them is to prove, on chain, checked and unreported |
| PoStAttempts.ContributionFaithful | damocles-manager/modules/poster/runner.go:284-331 | skipped and kept partition (Live - Faulty) + Recovering; the kept are on chain, checked and unreported |
| PoStAttempts.GatherMatchesEntries | damocles-manager/modules/poster/runner.go:284-337 | the proved sector list is the one derived from the submitted entries alone; entries are faithful, in order, one per partition |
| PoStRuns.SkippedGrows | damocles-manager/modules/poster/runner.go:423-448 | only the prover's reports enlarge the skip set |
| PoStRuns.ReportedNeverReturns | damocles-manager/modules/poster/runner.go:281-449 | a sector the prover reported bad is in no later attempt's proof |
| PoStRuns.NamedRetriesBounded | damocles-manager/modules/poster/runner.go:423-448 | for any prover, retries whose report names a sector being proved are at most the sectors to prove |
| PoStRuns.SkipRetriesBounded | damocles-manager/modules/poster/runner.go:423-448 | all retries a prover forces are at most the sectors to prove plus its reports that name no sector being proved |
| PoStRuns.RetryShrinksIff | damocles-manager/modules/poster/runner.go:423-448 | a retry has less left to prove exactly when the report names a sector that was left |
| PoStRuns.LeftIsProved | damocles-manager/modules/poster/runner.go:284-337 | what is left is what the prover is given |
| PoStRuns.MisreportsRetryForever | damocles-manager/modules/poster/runner.go:423-448 | reports that name no sector to prove are retried any number of times |
| PoStRuns.MisreportExists | damocles-manager/modules/poster/runner.go:423-448 | such a batch and prover, for any two sectors |
| PoStRuns.FinalVerified | damocles-manager/modules/poster/runner.go:372-421 | a filed proof was verified against the batch's randomness, re-read at head, for exactly the sectors its entries call for |
| PoStRuns.MadeIff | damocles-manager/modules/poster/runner.go:456-479 | attempt k is made exactly if all before it ask for another, told by their answers, and skips exactly what their reports name |
| PoStRuns.GoodAttemptIsFiled | damocles-manager/modules/poster/runner.go:372-421 | a good attempt that is made is what the batch files: its entries and its proofs |
| PoStRuns.FiledIff | damocles-manager/modules/poster/runner.go:281-479 | a batch files a proof exactly if some attempt is made and succeeds, and files that one |
| PoStRuns.UsefulIffProved | damocles-manager/modules/poster/runner.go:177-187 | submit leaves out exactly the batches that ended without a proof |
| PoStHistory.ProofRunner.Retry | damocles-manager/modules/poster/runner.go:456-479 | the loop ends with the parameters of the first attempt that does not ask for another |
| PoStHistory.ProofRunner.GeneratePoStForPartitionBatch | damocles-manager/modules/poster/runner.go:451-479 | the outcome of a batch is filed under that batch |
| PoStHistory.ProofRunner.Submit | damocles-manager/modules/poster/runner.go:126-188 | takes all finished proofs; publishes one post for each batch that ended with one, dated with the challenge from network version 4 on and with the opening otherwise |
| PoStHistory.HandedOnce | damocles-manager/modules/poster/runner.go:126-138 | in every interleaving, handed over plus waiting is finished: each batch once, in order |
| PoStHistory.PublishedIff | damocles-manager/modules/poster/runner.go:126-188 | published are exactly the proofs of batches that ended with one and whose first submit had its commit randomness |
| PoStHistory.SucceededIsPublishedIff | damocles-manager/modules/poster/runner.go:126-479 | published are exactly the batches with an attempt that was made and succeeded, by its answers, and whose first submit had its commit randomness |
| PoStHistory.PublishedIsVerified | damocles-manager/modules/poster/runner.go:372-479 | a published proof was verified for the batch it was filed for, against the randomness re-read at head |
| PoStHistory.PostIsVerified | damocles-manager/modules/poster/runner.go:177-187 | so was the content of every post a submit sends |
| PoStHistory.PublishedOnce | damocles-manager/modules/poster/runner.go:126-188 | no finished batch is published twice; proofs go out in the order of completion |
| PoStRunner.PostRunner.Split | damocles-manager/modules/poster/runner.go:221-263 | the jobs of a runner are its partitions in order, each at its index, in disjoint ranges of the least cap, for the randomness and sectors of the start; none if something is missing |
| PoStRunner.PostRunner.Start | damocles-manager/modules/poster/runner.go:114-124 | only the first start makes jobs |
| PoStRunner.PostRunner.Prove | damocles-manager/modules/poster/runner.go:265-479 | each job is proved and filed once |
| PoStRunner.PostRunner.Submit | damocles-manager/modules/poster/runner.go:126-188 | one post for each batch that ended with a proof, dated by the network version |
| PoStRunner.PartitionPublishedOnce | damocles-manager/modules/poster/runner.go:114-263 | over the life of a runner each partition is in at most one entry of all its posts |
| Batching.Batcher.Append | damocles-manager/modules/impl/commitmgr/batcher.go:64-65 | the pending list grows by one at the end, in place or in a larger buffer |
| Batching.Batcher.FilterInPlace | damocles-manager/modules/impl/commitmgr/batcher.go:86-98 | the filter that writes into the list it reads equals the pure partition by expired id |
| Batching.Batcher.Handle | damocles-manager/modules/impl/commitmgr/batcher.go:52-129 | a turn sends the whole list when the threshold is reached or by hand, exactly the expired sectors on a tick, as one new list; every other turn sends nothing |
| Batching.StepTurns | damocles-manager/modules/impl/commitmgr/batcher.go:69-121 | the same for every state and event, by the pending and dispatched lists alone |
| Batching.WaitsUntilReleased | damocles-manager/modules/impl/commitmgr/batcher.go:52-129 | over every run a pending sector waits exactly until the first turn that finds the threshold reached, a manual signal, or the sector expired |
| Batching.FilterSplits | damocles-manager/modules/impl/commitmgr/batcher.go:86-98 | expired and remaining are the pending sectors, as multisets |
| Batching.FilterMembers | damocles-manager/modules/impl/commitmgr/batcher.go:86-98 | a sector is taken exactly when its id is expired |
| Batching.FilterKeepsOrder | damocles-manager/modules/impl/commitmgr/batcher.go:86-98 | both parts keep the order of arrival |
| Batching.RunConserves | damocles-manager/modules/impl/commitmgr/batcher.go:36-130 | after every run received is dispatched plus pending, as multisets |
| Batching.DispatchedAtMostOnce | damocles-manager/modules/impl/commitmgr/batcher.go:36-130 | nothing is dispatched twice, nor dispatched and still pending |
| Batching.RunOrdered | damocles-manager/modules/impl/commitmgr/batcher.go:36-130 | pending and every dispatched list keep the order of arrival; no dispatched list is empty |
| Batching.BelowThreshold | damocles-manager/modules/impl/commitmgr/batcher.go:69-99 | after each turn pending is empty or shorter than the threshold |
| CommitmentRuns.RunFiled | damocles-manager/modules/impl/commitmgr/commitmgr.go:112-129 | in every run records are filed under their ids and copies are of stored sectors |
| CommitmentRuns.StepTracked | damocles-manager/modules/impl/commitmgr/commitmgr.go:112-129 | every step keeps: a stored NeedSend has a copy in flight at its stage or a scan to come |
| CommitmentRuns.NeedSendIsTracked | damocles-manager/modules/impl/commitmgr/commitmgr.go:287-319 | in every interleaving with crashes and restarts a stored NeedSend is in flight at the right stage or will be requeued |
| CommitmentRuns.RestartHeals | damocles-manager/modules/impl/commitmgr/commitmgr.go:440-457 | whatever failed before, a crash and the scan after it track every sector again |
| CommitmentStranded.StepTrackedIff | damocles-manager/modules/impl/commitmgr/commitmgr.go:287-319 | an enabled step keeps every sector tracked exactly when it does not drop the only copy at its stage and is no proof submitted too early |
| CommitmentStranded.TrackedThroughoutIff | damocles-manager/modules/impl/commitmgr/commitmgr.go:287-355 | a run tracks every sector throughout exactly when none of its steps strands one |
| CommitmentStranded.StrandedStaysIff | damocles-manager/modules/impl/commitmgr/commitmgr.go:112-129 | a sector that needs sending and has no copy stays so, with its record, exactly through the steps that are no crash and no taken submission for it |
| CommitmentStranded.StrandedUntil | damocles-manager/modules/impl/commitmgr/commitmgr.go:554-715 | meanwhile it is polled as pending |
| CommitmentStranded.RepeatingDoesNotHelp | damocles-manager/modules/impl/commitmgr/commitmgr.go:500-550 | the same submission is accepted and queues nothing; a hard reset that passes its checks queues it again |
| CommitmentStranded.RepeatingProofDoesNotHelp | damocles-manager/modules/impl/commitmgr/commitmgr.go:629-670 | the same for a proof |
| CommitmentStranded.LostSelectionStrands | damocles-manager/modules/impl/commitmgr/commitmgr.go:302-306 | from every fresh store a run with a failed selection ends with the sector pending and nothing in flight |
| CommitmentStranded.LostUpdateStrands | damocles-manager/modules/impl/commitmgr/commitmgr.go:118-126 | ... and one with a failed update, although the message was pushed |
| CommitmentStranded.EarlyProofStrands | damocles-manager/modules/impl/commitmgr/commitmgr.go:603-670 | ... and one with an early proof, whose record asks for the pre-commit stage |
| CommitmentRuns.PendingIsLive | damocles-manager/modules/impl/commitmgr/commitmgr.go:566-572 | without a message id, polls say pending exactly while NeedSend holds, and then something is on its way |
| CommitmentRuns.StoredIdsAreGenuine | damocles-manager/modules/impl/commitmgr/precommit_processor.go:98-117 | a stored message id was pushed for that stage and sector |
| CommitmentRuns.LandedIsOwnMessage | damocles-manager/modules/impl/commitmgr/commitmgr.go:554-601 | in every run a sector polled as landed has its own message on chain: the one reported was pushed for this stage and sector |
| CommitmentRuns.SubmissionsAreFinal | damocles-manager/modules/impl/commitmgr/commitmgr.go:500-550 | only a hard reset replaces a stored pre-commit or proof |
| CommitmentRuns.FirstPreCommitWins | damocles-manager/modules/impl/commitmgr/commitmgr.go:500-511 | over every run without resets, once a pre-commit is stored a submission is accepted if it is the same and mismatched otherwise, whatever its check would find, and changes nothing |
| CommitmentRuns.FirstProofWins | damocles-manager/modules/impl/commitmgr/commitmgr.go:630-638 | the same for proofs |
| CommitmentSteps.ProcessMeans | damocles-manager/modules/impl/commitmgr/precommit_processor.go:33-118 | exactly the built copies of a batch with a pushed message get its id, at their stage; every other part of every copy stays |
| CommitmentSteps.UpdateAllMeans | damocles-manager/modules/impl/commitmgr/commitmgr.go:112-129 | after a write-back each record has the message info of the last copy written for it, with NeedSend cleared, or is as it was; the copies are gone |
| CommitmentSteps.ScanMeans | damocles-manager/modules/impl/commitmgr/commitmgr.go:440-457 | the scan queues one copy of each stored sector that needs sending, in order, at the stage its pre-commit id says, and nothing else |
| CommitmentSteps.SentIsStored | damocles-manager/modules/impl/commitmgr/commitmgr.go:112-129 | over every run, a sector built into a pushed message has that message's id and no NeedSend once its copy is written back |
| CommitmentRuns.SubmissionsNeverChange | damocles-manager/modules/impl/commitmgr/commitmgr.go:629-670 | without hard resets a stored pre-commit or proof never changes in any run |
| CommitmentExclusive.RunExclusive | damocles-manager/modules/impl/commitmgr/commitmgr.go:440-550 | when submissions wait for the scan, copies agree with their records and no sector has two |
| CommitmentExclusive.NeedSendIsOneCopy | damocles-manager/modules/impl/commitmgr/commitmgr.go:440-550 | then a sector needs sending exactly while one copy of it is in flight, and only one |
| CommitmentExclusive.WriteBackLosesNothing | damocles-manager/modules/impl/commitmgr/commitmgr.go:112-129 | then a write-back changes only NeedSend and the message id of its stage |
| CommitmentExclusive.PreCommitIdStays | damocles-manager/modules/impl/commitmgr/commitmgr.go:112-129 | then a stored pre-commit id never changes: a proof builds on what was polled as landed |
| CommitmentExclusive.WriteBackIsOwnIff | damocles-manager/modules/impl/commitmgr/commitmgr.go:112-129 | in any state a write-back changes only NeedSend and its own stage's id exactly when the copy carries the record's id of the other stage |
| CommitmentExclusive.WriteBackHidesIff | damocles-manager/modules/impl/commitmgr/commitmgr.go:112-129 | a write-back makes a waiting submission look failed exactly when the copy has no id for the stage it waits at |
| CommitmentExclusive.FalseAlarmIff | damocles-manager/modules/impl/commitmgr/commitmgr.go:112-129 | that is a false alarm exactly when another copy is in flight at that stage |
| CommitmentExclusive.GuardedFailureIsReal | damocles-manager/modules/impl/commitmgr/commitmgr.go:566-572 | without a race a sector polled as failed for want of an id has no copy in flight |
| CommitmentExclusive.EarlySubmissionIsDoubled | damocles-manager/modules/impl/commitmgr/commitmgr.go:440-457 | a submission taken before the scan is always doubled by it |
| CommitmentExclusive.RaceHidesProof | damocles-manager/modules/impl/commitmgr/commitmgr.go:440-457 | for every sector, submission and message a run in which everything succeeds ends with the proof polled as failed while it is on its way |
| CommitmentWorkers.OnlyInOne | damocles-manager/modules/impl/commitmgr/batcher.go:69-99 | a ticket in one dispatched list is not pending and in no other list |
| CommitmentWorkers.TurnHolds | damocles-manager/modules/impl/commitmgr/batcher.go:52-99 | a turn of a batcher keeps every ticket it holds and adds the one that arrives |
| CommitmentBatches.MoveJoined | damocles-manager/modules/impl/commitmgr/batcher.go:52-129 | every move of pipeline and batchers keeps: a batcher holds exactly the pending copies of its stage and miner |
| CommitmentBatchRuns.RunJoined | damocles-manager/modules/impl/commitmgr/batcher.go:52-129 | so over every run, with crashes |
| CommitmentBatchRuns.MachineIsPipeline | damocles-manager/modules/impl/commitmgr/commitmgr.go:287-355 | every run with batchers is a run of the pipeline: what they dispatch is a batch it allows |
| CommitmentBatchRuns.ProcessedOnce | damocles-manager/modules/impl/commitmgr/batcher.go:101-122 | every copy is in at most one processed batch, over the whole run and all batchers |
| CommitmentBatchRuns.NothingForgotten | damocles-manager/modules/impl/commitmgr/batcher.go:52-129 | every received, unprocessed copy is at its own batcher, pending or in one dispatched list, in one place only |
| CommitmentMgr.CommitmentManager.SubmitPreCommit | damocles-manager/modules/impl/commitmgr/commitmgr.go:478-552 | a stored pre-commit is only compared: accepted exactly if all four parts agree; any other is answered by its check; only an accepted one with a good check is stored and queued, once |
| CommitmentMgr.CommitmentManager.SubmitProofOf | damocles-manager/modules/impl/commitmgr/commitmgr.go:603-675 | the same for proofs, which are rejected without a stored pre-commit |
| CommitmentMgr.PreSubmission | damocles-manager/modules/impl/commitmgr/commitmgr.go:478-552 | for every state each answer to a pre-commit is an if-and-only-if on the record and the check, and decides what is left behind |
| CommitmentMgr.ProofSubmission | damocles-manager/modules/impl/commitmgr/commitmgr.go:603-675 | the same for proofs |
| CommitmentMgr.CommitmentManager.PreCommitState | damocles-manager/modules/impl/commitmgr/commitmgr.go:554-601 | landed exactly when the stored message succeeded deep enough and the chain has the pre-commit; should-abort exactly when it succeeded and the chain has none; each other answer exactly for its cause |
| CommitmentMgr.CommitmentManager.ProofState | damocles-manager/modules/impl/commitmgr/commitmgr.go:677-715 | the same for the proof message and the sector's info |
| CommitmentMgr.CommitmentManager.ReceiveCopy | damocles-manager/modules/impl/commitmgr/commitmgr.go:287-319 | the copy reaches its batcher, or is dropped without a sender |
| CommitmentMgr.CommitmentManager.ProcessPreCommits | damocles-manager/modules/impl/commitmgr/precommit_processor.go:33-118 | exactly the sectors whose parameters could be built get the message id |
| CommitmentMgr.CommitmentManager.UpdateSector | damocles-manager/modules/impl/commitmgr/commitmgr.go:112-129 | the batch is written back one record after the other, with NeedSend cleared; failed updates are skipped |
| CommitmentMgr.CommitmentManager.RestartSector | damocles-manager/modules/impl/commitmgr/commitmgr.go:440-457 | every stored sector that needs sending is queued once, at the stage its message ids say |
| Expiration.SectorEnd | damocles-manager/modules/impl/commitmgr/policy.go:65-114 | the least epoch not before the floor, any running deal's end or, without one, the configured lifetime; an error exactly without a running deal and a known maximum |
| Expiration.LatestEndIs | damocles-manager/modules/impl/commitmgr/policy.go:72-88 | it is the greatest end among the deals that have not ended, if there is one |
| Expiration.SectorExpiration | damocles-manager/modules/impl/commitmgr/policy.go:16-63 | at most height + delay + maximum; below that cap the earliest epoch late enough for the network, every running deal, the ticket and, without running deals, the configured lifetime |
| Expiration.CcLifetimeIs | damocles-manager/modules/impl/commitmgr/policy.go:116-146 | a lifetime wanted below the minimum or above the maximum is replaced by it, any other loses two periods; none exceeds the maximum |
| Expiration.CcLifetimeBelowMinimumIff | damocles-manager/modules/impl/commitmgr/policy.go:116-146 | the lifetime without deals is below the minimum exactly when the wanted one is less than two periods above it |
| Expiration.DaysAreMeantIff | damocles-manager/modules/impl/commitmgr/policy.go:92-96 | the days are converted as meant exactly below 2^63 epochs |
| Expiration.DaysWrap | damocles-manager/modules/impl/commitmgr/policy.go:92-96 | the days are converted up to a multiple of 2^64 |
| SealCalc.TaskStatus.Retire | damocles-worker-util/src/sealcalc.rs:46-54 | removes exactly the tasks started `required` minutes ago; start minutes lie in the past |
| SealCalc.TaskStatus.Step | damocles-worker-util/src/sealcalc.rs:43-67 | one minute of a stage; no subtraction underflows; the map stands for the last `required` minutes of starts |
| SealCalc.TaskStatus.StepFrom | damocles-worker-util/src/sealcalc.rs:101-104 | a step that takes its tasks from what another stage has finished |
| SealCalc.AdvanceSound | damocles-worker-util/src/sealcalc.rs:43-67 | the running count stays the sum of the started tasks in the window and within the cap |
| SealCalcReports.Calc | damocles-worker-util/src/sealcalc.rs:81-123 | for every report: the finished sectors are all the last stage has finished, each running count the starts of that stage's last minutes, the busy threads these and what waits; within every limit and the throughput bound; one for minute 0 and every step after |
| SealCalcRuns.CapHolds | damocles-worker-util/src/sealcalc.rs:43-75 | in every minute of every run each stage's count is its map sum and within its cap |
| SealCalcRuns.FinishesOnTime | damocles-worker-util/src/sealcalc.rs:46-54 | exactly the tasks started `required` minutes ago finish; with required zero none ever does |
| SealCalcRuns.HistoryStays | damocles-worker-util/src/sealcalc.rs:43-67 | what was started in a minute stays on record |
| SealCalcRuns.Throughput | damocles-worker-util/src/sealcalc.rs:43-67 | a stage has finished at most cap * floor(m / required) by minute m |
| SealCalcRuns.Conservation | damocles-worker-util/src/sealcalc.rs:100-105 | total threads = free + all running + done of the first four stages, in every minute |
| SealCalcRuns.Ledger | damocles-worker-util/src/sealcalc.rs:100-105 | what a stage has begun is what the one before has finished and no longer holds; finished sectors give their threads back |
| SealCalcRuns.FinishedIsCounted | damocles-worker-util/src/sealcalc.rs:100-118 | the reported sectors are all the last stage has finished |
| SealCalcRuns.WorkConserving | damocles-worker-util/src/sealcalc.rs:58-64 | after every minute a stage has nothing left waiting or runs at its cap |
| SealCalcRuns.SeedNeverWaits | damocles-worker-util/src/sealcalc.rs:95-103 | no sector ever waits between pc2 and waiting for the seed |
| SealCalcReports.SummaryReliable | damocles-worker-util/src/sealcalc.rs:107-118 | each report is within every limit and the throughput bound |
| SealCalcReports.SummaryAccurate | damocles-worker-util/src/sealcalc.rs:107-118 | each report counts exactly what the starts of the stages say |
| SealCalcReports.ReportsAre | damocles-worker-util/src/sealcalc.rs:99-123 | one report for minute 0 and every step after |
| Reservations.Allowed | damocles-manager/pkg/objstore/mgr.go:74-94 | not denied, and allowed or nobody is listed |
| Reservations.OffersAre | damocles-manager/pkg/objstore/mgr.go:193-240 | exactly the reachable, writable stores with room are on offer |
| Reservations.StoreManager.Search | damocles-manager/pkg/objstore/mgr.go:193-240 | finds a store with this very record if there is one, else all offers |
| Reservations.StoreManager.ReserveSpace | damocles-manager/pkg/objstore/mgr.go:172-287 | on record: granted, nothing changes; no room: nothing; else exactly one store with room is booked, and nothing if saving fails |
| Reservations.ReleaseAll | damocles-manager/pkg/objstore/mgr.go:294-306 | in any order of the map, every store forgets the sector and only it |
| Reservations.StoreManager.ReleaseReserved | damocles-manager/pkg/objstore/mgr.go:289-314 | released exactly if some record was held and could be saved |
| ReservationRuns.SlackNext | damocles-manager/pkg/objstore/mgr.go:262-275 | a booking adds to the unaccounted space exactly the record it replaces; a release leaves it |
| ReservationRuns.BookingKeepsIff | damocles-manager/pkg/objstore/mgr.go:271 | a booking keeps the total at least the records exactly if the sum does not wrap |
| ReservationRuns.ReservedIsRecordsPlusLeaked | damocles-manager/pkg/objstore/mgr.go:172-314 | in every reachable state ReservedSize is the sum of the records plus all replaced ones |
| ReservationRuns.ExactIffNothingReplaced | damocles-manager/pkg/objstore/mgr.go:172-314 | equality holds exactly if no booking ever replaced a non-empty record |
| ReservationRuns.ReReservingLeaks | damocles-manager/pkg/objstore/mgr.go:264-271 | two requests of one sector for different sizes are both booked, and its release leaves the first size reserved |
| ReservationRuns.ReReserve | damocles-manager/pkg/objstore/mgr.go:172-314 | the leak as calls on a manager |
| ReservationRuns.RecordsAreLatest | damocles-manager/pkg/objstore/mgr.go:172-314 | each record is the latest booking of its sector there that was not released, and vice versa |
| ReservationRuns.OnRecordIff | damocles-manager/pkg/objstore/mgr.go:211-220 | at any time a request is on record exactly when its size is what the sector booked there last and has not released |
| ReservationRuns.RepeatIsOnRecord | damocles-manager/pkg/objstore/mgr.go:211-220 | a granted request stays on record until the sector is released or books another size there, however full the store is |
| ReservationRuns.PromiseFits | damocles-manager/pkg/objstore/mgr.go:223-225 | after a grant the free space covers all that is promised, unless the sum wraps |
| Limits.StepCounted | damocles-worker/src/sealing/resource.rs:25-56 | each channel operation keeps occupancy equal to the live tokens |
| Limits.OccupancyIsLiveTokens | damocles-worker/src/sealing/resource.rs:25-56 | in every interleaving occupancy equals live concurrent tokens, within the size |
| Limits.DropNeverBlocks | damocles-worker/src/sealing/resource.rs:25-29 | whoever holds a token finds an entry to receive |
| Limits.NothingLeaks | damocles-worker/src/sealing/resource.rs:228-254 | with no token out the channel is empty: refused requests leave nothing behind |
| Limits.PacedBetween | damocles-worker/src/sealing/resource.rs:72-136 | between any two moments starts are paid for by tokens, timeouts and drops, and timeouts are an interval apart |
| Limits.StaggeredStarts | damocles-worker/src/sealing/resource.rs:72-136 | starts by time t are at most burst + floor(t / interval) + drops so far |
| Limits.StaggeredStretch | damocles-worker/src/sealing/resource.rs:72-136 | over any stretch starts are at most burst + 1 + floor(length / interval) + drops and tasks already reported done |
| Limits.ChannelsAre | damocles-worker/src/sealing/resource.rs:72-136 | in every interleaving the staggering channels hold exactly the starts no refill has taken out and the reports that found room and were not taken |
| Limits.TimeoutAfterTurn | damocles-worker/src/sealing/resource.rs:85-93 | the filler times out only a whole interval after its last turn of either kind |
| Limits.DoneLetsStart | damocles-worker/src/sealing/resource.rs:85-136 | a finished task lets a waiting client start without waiting for the interval |
| LimitPool.Limit.TryAcquire | damocles-worker/src/sealing/resource.rs:228-254 | succeeds exactly if both limits have room and then takes one place in each; otherwise every channel is as before; a legal sequence of channel operations |
| LimitPool.Limit.Drop | damocles-worker/src/sealing/resource.rs:25-136 | a drop frees one place, reports the work done and is legal |
| LimitPool.Limit.Refill | damocles-worker/src/sealing/resource.rs:77-93 | one turn of the filler takes out at most one token and is legal |
| Format.ParseDecimal | manager-plugin/examples/concurrent-limiter/concurrent_limiter.go:104-105 | printing a number in decimal can be undone |
| Format.SplitJoined | manager-plugin/examples/concurrent-limiter/concurrent_limiter.go:110-117 | splitting at the first separator undoes joining, whatever the second part holds |
| SlotLeases.NameOfSlot | manager-plugin/examples/concurrent-limiter/concurrent_limiter.go:97-117 | checkSlot finds the name that slots put in, even if the name has dashes |
| SlotLeases.ChecksIff | manager-plugin/examples/concurrent-limiter/concurrent_limiter.go:110-117 | checkSlot accepts exactly some text without a dash, a dash and a known name |
| SlotLeases.SlotsDistinct | manager-plugin/examples/concurrent-limiter/concurrent_limiter.go:97-108 | different slots never share a key |
| SlotLeases.ConcurrentLimiter.Slots | manager-plugin/examples/concurrent-limiter/concurrent_limiter.go:97-108 | all slots of a name, in order |
| SlotLeases.ConcurrentLimiter.Acquire | manager-plugin/examples/concurrent-limiter/concurrent_limiter.go:28-54 | leases the first slot nobody holds; none exactly if all are live; an error exactly for an unknown name or a failed transaction |
| SlotLeases.ConcurrentLimiter.Release | manager-plugin/examples/concurrent-limiter/concurrent_limiter.go:56-74 | removes the lease exactly if the caller owns it |
| SlotLeases.ConcurrentLimiter.Extend | manager-plugin/examples/concurrent-limiter/concurrent_limiter.go:76-95 | renews or takes the slot exactly if nobody else holds it |
| SlotLeaseRuns.NeverTooMany | manager-plugin/examples/concurrent-limiter/concurrent_limiter.go:28-95 | over all timed runs where clients extend only slots handed out, a name has at most `concurrent[name]` live slots |
| SlotLeaseRuns.ImproperExtendExceeds | manager-plugin/examples/concurrent-limiter/concurrent_limiter.go:76-95 | extending a made-up slot when all are taken takes a place beyond the limit |
| SlotLeaseRuns.AcquiresFill | manager-plugin/examples/concurrent-limiter/concurrent_limiter.go:28-54 | acquires at one moment take the slots one after the other |
| SlotLeaseRuns.ImproperExtendRun | manager-plugin/examples/concurrent-limiter/concurrent_limiter.go:28-95 | for every accepted slot the limiter does not hand out a run exceeds the limit |
| SlotLeaseRuns.ExtendIsSafeIff | manager-plugin/examples/concurrent-limiter/concurrent_limiter.go:76-95 | an accepted slot is safe to extend from every orderly state exactly if the limiter hands it out |
| SlotLeaseRuns.OwnerKeeps | manager-plugin/examples/concurrent-limiter/concurrent_limiter.go:28-95 | a live slot stays its owner's through every event but its release and expiry |
| SlotLeaseRuns.OwnerChangesOnlyByEnding | manager-plugin/examples/concurrent-limiter/concurrent_limiter.go:28-95 | between two different owners the first one's lease ended by release or expiry |
| HotConfig.Config.TryLoad | damocles-worker/src/sealing/config.rs:318-345 | notes the time before reading; loads, resets or leaves the pending configuration |
| HotConfig.Config.IfModified | damocles-worker/src/sealing/config.rs:248-262 | applies the pending configuration exactly if accepted; the current one changes in no other case |
| HotConfig.NewestIsLastLoaded | damocles-worker/src/sealing/config.rs:248-345 | in every run, whatever fails, the newest configuration is that of the last file loaded |
| HotConfig.NewestIsNotedFile | damocles-worker/src/sealing/config.rs:282-345 | after every call it is that of the file whose time was noted last, which has the present file's time |
| HotConfig.NewestIsPresentFile | damocles-worker/src/sealing/config.rs:282-345 | so it is that of the present file, unless that changed since without changing its time; times may otherwise return |
| HotConfig.FailedLoadLeavesNewest | damocles-worker/src/sealing/config.rs:318-345 | otherwise it is what it was before that load |
| HotConfig.AcceptedIsPresentFile | damocles-worker/src/sealing/config.rs:248-262 | an accepted update puts the present file, or the default without one, into force; a refused one stays on offer |
| HotConfig.OnlyGenuineConfigs | damocles-worker/src/sealing/config.rs:248-345 | only the default or a merge of content once on disk is ever in force or on offer |
| HotConfig.FailedReadIsNotRetried | damocles-worker/src/sealing/config.rs:318-345 | content that could not be read is not loaded while the file keeps its time |
| Ranges.SortSlice | damocles-manager/cmd/damocles-manager/internal/util_sealer_sectors.go:687-689 | the array is sorted in place, with the same numbers |
| Ranges.Compress | damocles-manager/cmd/damocles-manager/internal/util_sealer_sectors.go:691-711 | the loop over strings yields the texts of the ranges |
| Ranges.RangesDescribe | damocles-manager/cmd/damocles-manager/internal/util_sealer_sectors.go:694-707 | the ranges are ascending, disjoint and maximal and cover exactly the numbers |
| Ranges.ReadJoined | damocles-manager/cmd/damocles-manager/internal/util_sealer_sectors.go:713 | any list of ranges can be read back from its text |
| Ranges.ArrayToString | damocles-manager/cmd/damocles-manager/internal/util_sealer_sectors.go:685-714 | the text reads back as canonical ranges that cover exactly the input, for every unsorted, duplicated array |
| Ranges.OneTextPerSet | damocles-manager/cmd/damocles-manager/internal/util_sealer_sectors.go:685-714 | two texts are equal exactly if the sets are |
| PrefixStore.PutDelCommute | damocles-manager/pkg/kvstore/prefix_wrapper.go:90-96 | putting and deleting through a wrapper commute with restricting to the prefix and stripping it |
| PrefixStore.ScanCommutes | damocles-manager/pkg/kvstore/prefix_wrapper.go:98-108 | a wrapped scan is the scan of the stripped store; only the empty key is reported wrong |
| PrefixStore.NormalizeIs | damocles-manager/pkg/kvstore/prefix_wrapper.go:14-32 | a prefix gets one slash if it does not end in one; only the empty prefix is refused |
| PrefixStore.UnseenIffApart | damocles-manager/pkg/kvstore/prefix_wrapper.go:14-51 | two wrappers never see each other's writes exactly if neither prefix extends the other |
| PrefixStore.NamesAreApart | damocles-manager/pkg/kvstore/prefix_wrapper.go:14-38 | prefixes made from different names without slashes do not extend each other |
| PrefixStore.WrappersAreIndependent | damocles-manager/pkg/kvstore/prefix_wrapper.go:82-96 | over any interleaving each wrapper is a store of its own with only its own operations |
| PrefixStore.NestingComposes | damocles-manager/pkg/kvstore/prefix_wrapper.go:46-51 | wrapping a wrapper is wrapping once with both prefixes |
| PrefixStore.WrappedStore.Get | damocles-manager/pkg/kvstore/prefix_wrapper.go:82-84 | the value of the stripped store, or an error without one |
| PrefixStore.WrappedStore.Put | damocles-manager/pkg/kvstore/prefix_wrapper.go:90-92 | the stripped store with the key set |
| PrefixStore.WrappedStore.Del | damocles-manager/pkg/kvstore/prefix_wrapper.go:94-96 | the stripped store without the key |
| EventBus.WaitsUntilReached | damocles-manager/pkg/chain/eventbus.go:75-132 | a callback waits exactly from its registration to the first head that reaches it |
| EventBus.FiresWhenFirstReached | damocles-manager/pkg/chain/eventbus.go:100-132 | an event fires a callback exactly if it is the first head with height at least its target |
| EventBus.FiresAtMostOnce | damocles-manager/pkg/chain/eventbus.go:100-132 | no callback fires twice |
| EventBus.RegisteredIsFiredOrWaiting | damocles-manager/pkg/chain/eventbus.go:75-132 | registered is fired or waiting, never both, and nothing else is |
| EventBus.CutIsExact | damocles-manager/pkg/chain/eventbus.go:111-130 | in a list sorted downwards the suffix cut takes exactly what is due |
| EventBus.Bus.Register | damocles-manager/pkg/chain/eventbus.go:75-98 | the list stays sorted downwards and holds each waiting callback once |
| EventBus.Bus.Trigger | damocles-manager/pkg/chain/eventbus.go:100-132 | fires each due callback once and keeps the others |

## Left out

- Blocking `acquire` of a limit is the pair of channel operations Admit and Start of `Limits`, which happen when there is room; it is not a method.
- LimitPool.Limit.Refill: the filler thread is modelled turn by turn; that it is scheduled at all is not promised.
- The merge of hot and default configuration fields (config.rs:127-196) is a parameter, as it is for `HotConfig` itself; the merge functions only pick a field or its default.
- PoStHistory.ProofRunner.Submit: sending a post and waiting for its message are not modelled.
- CommitmentMgr.CommitmentManager.SubmitPreCommit: load, check and store are one step; two submissions for one sector at the same time are not modelled. A store update that fails is answered like an ErrAPI, and changes nothing.
- CommitmentRuns.StoredIdsAreGenuine: at the proof stage the id is of a message sent for the sector; which sectors the commit message carries is not modelled, because the commit processor also gives the id to sectors with deal ids that are not in the message.
- CommitmentSteps.SentIsStored: at the proof stage, as for StoredIdsAreGenuine, a copy that gets the id counts as built.
- CommitmentRuns.LandedIsOwnMessage: at the proof stage, as for StoredIdsAreGenuine, the message is one sent for the sector.
- CommitmentBatchRuns.ProcessedOnce: batchers know copies by their tickets, so a tick expires any set of them; which sectors the processor reports as expired is left open.
- PosterLoop.OnNotify: a notification with a revert and no applied tipset is only allowed while no miner is enabled.
- The commit processor's own batching: proof batches are handled as a whole and written back afterwards, for interactive sectors only.
- Terminations, and the checks before a submission, which are one recorded outcome.
- Proof generation and verification, CBOR and CID encoding, bitfield encoding, gas and chain queries: abstract functions, finite sets and recorded answers.
- `dline.NewInfo` is library code; it is reconstructed from its field arithmetic as sampled in deadline.go:8-52.
- SealCalcReports.Calc: the count of finished sectors is unbounded here; a count beyond the machine word is not modelled.
- Reservations.StoreManager.ReserveSpace: sectors are identified by miner and number instead of the string made from them, and the weighted draw is any index.
- SlotLeases.ConcurrentLimiter.Acquire: the slot returned after a transaction is retried is not modelled; a failed transaction changes nothing.
- EventBus.Bus.Register: the order of callbacks with equal heights is not promised, as sort.Slice does not promise it.
- Expiration.SectorExpiration: the pre-commit and commit versions have the same text and are one method; the minimum lifetime is one constant.
- RPC, wiring, metrics, logging, CLI commands other than the range printer.
