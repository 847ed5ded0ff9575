# Verified model of the Ganymede coordinator and trainer

Ganymede trains an adapter over rounds. A coordinator leases shards of a dataset to whatever
machines turn up, gates what they submit, closes a round by aggregating the accepted work into the
next base, and survives crashes, retries and the loss of its disk. Its state is five tables and an
object store. Workers derive their rows from a shared partition and train for a budgeted number of
steps.

This project models that system in Dafny and proves what it relies on.

* **Tables and steps.** `Tables` holds the rows and the store as maps. `Rounds` gives each
  immediate transaction as a function on the tables; `Closer` gives a close as a sequence of steps,
  one transaction or one store request each. `System` interleaves them freely: creating runs,
  claiming, heartbeats, uploads, submissions whose gating is a separate read and write, any number
  of callers closing, exceptions and crashes at every point of a close, and garbage collection
  planned at one moment and carried out at another. A run is any sequence of such steps.
* **Safety over every run.** `CloseSafety` (chain and close protocol), `LeaseSafety` (leases and
  submissions), `BucketLedger` (the least-trained-first scheduler), `RefSafety`, `RefSteps` and
  `RefCloses` (references, fit, garbage collection). `TaskStories` tells every task's row from the
  actions alone, and `RunConstants` what a run and its rounds keep from their first moment.
* **Diagnostics.** `Checks`, `Coverage` and `LateWork` say of each runtime check what it reports in a
  reachable state; `Coverage` also carries the promise from a claim to the rows trained on.
* **Closing.** `CloseRun` gives an undisturbed close in closed form. `Attempts` describes an attempt
  cut off anywhere, `Leftovers` a close over what one left behind, `Momentum` a combine done twice,
  and `Retry` puts them together: exactly when a failed close can be retried. `CloseRule` says what
  the close rule counts, `Polling` what a poll achieves, `PublishedCells` what it publishes, cell by
  cell, `Requests` which run answers a request for work, `Stranding` how a run ends up without an
  open round, `TidyClose`, `Reaching` and `ReachableCloses` what follows in reachable states,
  `Disaster` what a backup and a restore give back.
* **Failing inputs.** `Scenarios` brings any cohort of fitting adapters into an open round by actions
  alone, `FailingInputs` uses it to reach inputs on which promises about closing and about the
  diagnostics fail, and `Overwrites` adds artifacts overwritten after their gate.
* **Aggregation.** `Tensors`, `NormGate`, `GateSurvival`, `DominanceCap`, `FairShares`,
  `Broadcasting`, `OuterStep`, `OuterRun`, `Contributions`, `Divergence` over exact reals
  (`RealSeqs` holds sums and medians).
* **Sizing and training.** `Budget`, `Partition`, `Shuffles`, `BatchStream`, `SinglePass`, `Encoding`,
  `Evaluation`.
* **Text.** `Text`, `Timestamps`, `ObjectKeys`: stored timestamps and object keys as strings;
  `Collection` reads garbage collection over key texts.
* **The program.** `Coordinators.Coordinator` is the coordinator as a class over its tables and
  store; its methods are proved to do what the transitions say.

Where the code and its documentation disagree the model follows the code. These documented or
apparent promises are false; each is stated with its exact condition and fails on inputs the system
reaches.

* Retrying a failed close is safe (`ganymede/coordinator/closer.py:179-184`): exactly when gate 4 and
  the momentum agree, `Retry.RetryExactlyWhen`.
* A close publishes what the close rule counted (`ganymede/coordinator/rounds.py:148-182`): exactly
  when some accepted work loads and passes gate 4, `Polling.ClosePublishesExactlyWhen`.
* A close that publishes goes on to the next round (`ganymede/coordinator/closer.py:309-328`): exactly
  when everybody who passes gate 4 has metrics that can be read,
  `ReachableCloses.PollPublishesExactlyWhen`.
* Aggregating gated work keeps the seed's shapes (`ganymede/coordinator/aggregate.py:304-323`): exactly
  when all that is combined stretches into them, `OuterStep.CombinedKeepsManifest`; always if workers
  upload before they submit, `RefCloses.BasesMatchSeed`.
* A failure gives the round back (`ganymede/coordinator/closer.py:171-178`): exactly before the commit,
  `Stranding.FailureGivesBackExactlyWhen`; after it the run is stranded, and a crash before it wedges
  the round.
* The cohort gate leaves somebody (`ganymede/coordinator/aggregate.py:159-198`): exactly when the
  tensors are few for the cohort, `GateSurvival.LeavesSomebodyExactlyWhen`.
* The dominance cap holds of the final shares (`ganymede/coordinator/aggregate.py:223-233`): exactly
  for caps of at least two or odd cohorts, `DominanceCap.CapHoldsExactlyWhen`.
* A backup holds every current base (`scripts/backup.py:155-160`): exactly from round 1 on,
  `Disaster.RestoreIsResumableExactlyWhen`.
* Only faults raise an alarm (`ganymede/coordinator/invariants.py:1-25`):
  `Coverage.LiveCheckFiresExactlyWhen`, `LateWork.NoResultExactlyWhen` and
  `Checks.FreshCloseIsReportedExactlyWhen` say what else does.

The comment at `ganymede/coordinator/invariants.py:259-260` allows submissions on expired tasks; no
step of the system produces one.

A *tidy* run is one whose workers upload before they submit and not after, whose seeds hold a tensor,
whose combine modes are known and whose cap on shares, if any, is positive.

Inputs from outside are parameters: the clock, fresh task ids, eligibility and the offered plan, the
order of rows that tie, whether a store request succeeded, the generator's draws, the norm, the
model's per-token loss and its optimizer step.

## Model

| member | source | states |
|---|---|---|
| `CloseSafety.CloseProtocolIsSafe` | ganymede/coordinator/closer.py:159-166 | in every state any interleaving reaches, no two callers are closing the same round, a round being closed is its run's current one, and a run's rounds are exactly 0 to current, below the target, each closed on the base of the next |
| `CloseSafety.ActionKeepsSound` | ganymede/coordinator/closer.py:284-328 | each single step of the system, a failing or crashing close included, keeps the adapter chain and the close protocol |
| `CloseSafety.ClosedForEver` | ganymede/coordinator/closer.py:294-301 | a closed round keeps its status, base and result in every continuation of the run: a round is closed at most once |
| `CloseSafety.AdvanceKeeps` | ganymede/coordinator/closer.py:317-328 | opening the next round never meets an existing row, and only the closer that committed a round advances its run |
| `CloseSafety.OpenKeepsChain` | ganymede/coordinator/rounds.py:93-111 | a round opened first of its run, or after a closed current one, extends the chain by one link |
| `RunConstants.EveryRunKeepsTerms` | ganymede/coordinator/closer.py:318-325 | in every reachable state every round of a run has the target and the two time bounds of its first round, and every close works from the terms its round and run still have |
| `RunConstants.TermsForEver` | ganymede/coordinator/closer.py:317-328 | whatever happens, a run keeps its target, mode, step size, momentum decay and bucket count, and a round its target and bounds |
| `RunConstants.RunStartsAsGiven` | scripts/newrun.py:408-437 | a new run has the row it was given, is active in round 0 without momentum, has its buckets untrained, and its first round has the target, bounds and clock asked for |
| `Checks.ChecksHold` | ganymede/coordinator/invariants.py:73-103 | in every reachable state: no double lease, every submission's task is still submitted (stronger than the check, which also tolerates expired), no broken link in the chain, and an active run without its current round is still being created |
| `Checks.EveryRunPoints` | ganymede/coordinator/invariants.py:225-243 | a run's current round exists, except between the two transactions that create the run |
| `LateWork.NoResultExactlyWhen` | ganymede/coordinator/invariants.py:199-222 | no_result_adapter: a round closed without a result has accepted work exactly when that work was accepted after its close had asked for accepted work; its accepted submissions are those late ones and no others |
| `LateWork.EveryRunIsTracked` | ganymede/coordinator/closer.py:213-250 | over all runs: whatever is accepted in a round being closed is in its close's hands or came late, and late work is never withdrawn |
| `FailingInputs.VerdictCanComeLate` | ganymede/coordinator/invariants.py:199-222 | a run from nothing on which no_result_adapter fires: a close asks between the gating of a submission and the recording of its verdict |
| `Checks.StuckLeaseExactlyWhen` | ganymede/coordinator/invariants.py:152-170 | stuck_lease: after leases were reclaimed the check reports exactly the ones that ran out since, more than the grace period ago |
| `Checks.ReclaimedLeasesAreNotStuck` | ganymede/coordinator/invariants.py:152-170 | whatever happens after a reclaim, nothing is reported before the grace period has passed without another |
| `Checks.WedgedIsReported` | ganymede/coordinator/invariants.py:173-196 | stuck_close: a round whose closer is gone is reported in every later state, from the grace period after its opening on |
| `Checks.FreshCloseIsReportedExactlyWhen` | ganymede/coordinator/invariants.py:183-187 | but a close that has only just been claimed is reported exactly when its round was opened more than the grace period ago, as every round is that the close rule closes with both time bounds above it |
| `LeaseSafety.EveryRunKeepsLeases` | ganymede/coordinator/rounds.py:315-321 | over all runs: one live lease per worker per round, a submission exactly for submitted tasks stored under the key derived from its task, no live lease on a closed round, no acceptance without a plausible step count |
| `LeaseSafety.ActionKeepsWork` | ganymede/coordinator/rounds.py:491-590 | every single step keeps those four facts |
| `LeaseSafety.ClaimKeeps` | ganymede/coordinator/rounds.py:412-440 | a granted claim adds one lease and breaks none of them |
| `LeaseSafety.CommitEndsLeases` | ganymede/coordinator/closer.py:302-307 | the commit of a close leaves no lease on the round and moves no other task |
| `LeaseSafety.AcceptedCoversHeartbeats` | ganymede/coordinator/rounds.py:510-516 | in every run an accepted submission counts at least the figure of every heartbeat its task was granted |
| `TaskStories.EveryTaskFollowsItsStory` | ganymede/coordinator/rounds.py:399-541 | over all runs a task's row is what its actions tell: leased to the claiming worker with the offered budget, its deadline that of the last granted heartbeat, its progress figure the largest granted report or zero, until its holder submits or gives up, a reclaim finds the deadline passed, or its round is committed |
| `TaskStories.HonestStepsPass` | ganymede/coordinator/aggregate.py:135-155 | in every run a submission's step count passes exactly when it is positive and, once a heartbeat was granted, is at least every granted report and within 3 times one of them plus 100, or at most 100 |
| `TaskStories.RequestsGoToHolders` | ganymede/coordinator/rounds.py:491-508 | in every run a heartbeat or submission is taken exactly from the task's living holder while the round is open; a holder whose round is not open is told so, anybody else that the lease is lost |
| `TaskStories.BeatingKeepsLease` | ganymede/coordinator/rounds.py:219-233 | a worker whose heartbeats keep its deadline ahead of every reclaim keeps its lease until it lets go or the round is committed |
| `Tensors.GateIsExact` | ganymede/coordinator/aggregate.py:96-156 | the structural gate accepts exactly the artifacts with the expected tensors, all finite, and a plausible step count |
| `Tensors.FirstFailureIsReported` | ganymede/coordinator/aggregate.py:96-156 | each reason for a rejection is given exactly when its gate is the first to fail |
| `LeaseSafety.GateReadDecides` | ganymede/coordinator/closer.py:74-107 | a gating request decides acceptance exactly when the artifact can be had, has the tensors of its round's base, all finite, and comes with a plausible step count, and decides nothing when that base does not load |
| `LeaseSafety.GateReadKeeps` | ganymede/coordinator/closer.py:88-107 | the step count half of a verdict computed on an earlier read is still right when it is written |
| `RefSteps.GateReadRefs` | ganymede/coordinator/closer.py:88-107 | the artifact half, for workers that upload before they submit |
| `BucketOrder.PickIsLeastTrained` | ganymede/coordinator/rounds.py:236-255 | a claim gets the asked number of distinct buckets, or all, and every bucket left out ranks behind every one taken |
| `BucketOrder.PickPrefers` | ganymede/coordinator/rounds.py:245-250 | no bucket left out has been trained less often than one taken; among equals a fresh one goes first, then the one touched in the earlier round, then the lower index |
| `BucketOrder.PickIsDistinct` | ganymede/coordinator/rounds.py:251-255 | no claim gets a bucket twice, the unseeded fallback included |
| `BucketLedger.TrainingKeepsCounters` | ganymede/coordinator/rounds.py:429-434 | raising the picked counters keeps the spread at one and keeps touched buckets at least level with untouched ones |
| `BucketLedger.RepeatCoversAll` | ganymede/coordinator/rounds.py:245-250 | a bucket touched in the round is taken again only if that leaves none untouched |
| `BucketLedger.EveryRunKeepsLedger` | ganymede/coordinator/invariants.py:105-123 | for claims of any sizes over any run: max minus min of the counters is at most one, each counter is the number of tasks ever given the bucket, and no bucket repeats in a round before all are covered, whatever became of the tasks |
| `BucketLedger.ClaimKeepsLedger` | ganymede/coordinator/rounds.py:412-434 | one claim keeps all of that |
| `Coverage.LiveCheckFiresExactlyWhen` | ganymede/coordinator/invariants.py:123-148 | the runtime check, which counts live tasks only, fires exactly when a bucket has two live holders and another's holders have all dropped out |
| `Coverage.HealthyRunTripsAlarm` | ganymede/coordinator/invariants.py:124-126 | three claims, a heartbeat and one expired lease: the check fires on any fresh two-bucket run where nothing went wrong |
| `FailingInputs.CoverageAlarmCanFire` | ganymede/coordinator/invariants.py:124-126 | the same as a run of eight actions from nothing |
| `Coverage.NoDropoutsNoAlarm` | ganymede/coordinator/invariants.py:140 | it never fires on a round none of whose tasks has expired or been abandoned |
| `Coverage.ClaimedTaskTrainsInOnePass` | ganymede/coordinator/rounds.py:339-368 | a claim granted with the offered plan, with at most one target pass and agreed batch shape, trains entirely in epoch 0, no row twice, no held-out row |
| `RefCloses.EveryRunKeepsRefs` | scripts/newrun.py:396-437 | no reference dangles in any reachable state: every base, result and momentum the tables name is in the store, each base with the tensors and dtypes of its run's seed in shapes that the seed's stretch to; in tidy runs the shapes are the seed's, and bases and momentum are finite and fit |
| `RefCloses.PutSeedRefs` | scripts/newrun.py:396-406 | a seed put under a run id not yet in the tables disturbs no reference |
| `RefSteps.OpenFirstRefs` | scripts/newrun.py:428-437 | round 0 opens on an object already in the store |
| `RefCloses.PublishRefs` | ganymede/coordinator/closer.py:284-285 | publishing overwrites nothing any row or other close relies on |
| `RefCloses.SaveMomentumRefs` | ganymede/coordinator/closer.py:286-292 | momentum is in the store before the run row names it |
| `RefCloses.BasesMatchSeed` | ganymede/coordinator/closer.py:210-285 | in every state of a tidy run each round's base has exactly the manifest of its run's seed |
| `RefCloses.BasesGrowFromSeed` | ganymede/coordinator/closer.py:210-285 | in every reachable state each round's base is in the store, with the tensors and dtypes of its run's seed in shapes that the seed's stretch to |
| `Overwrites.OverwriteCanReshape` | ganymede/coordinator/closer.py:221-224 | a run from nothing, outside tidy runs, after which a round's base has another shape than the seed: the only accepted artifact is overwritten by a wider tensor after its gate |
| `RefCloses.AggregationCannotFail` | ganymede/coordinator/closer.py:218-282 | if workers upload before they submit: the base loads, gate 4 finds every tensor it looks up, weighting and combining accepted work neither divide by zero nor miss a tensor, and the divergence of the survivors can be computed |
| `RefCloses.CollectionIsSafe` | scripts/gc.py:74-88 | whatever interleaves between listing and deleting, no object marked for deletion is a base, a result, momentum or an artifact of a round not yet closed |
| `Collection.ListsCandidates` | scripts/gc.py:50-88 | on a sound adapter chain and without slashes in run ids, listing the store by prefix and leaving out the protected texts finds exactly the texts of the candidates |
| `Collection.CollectionIsSafeInText` | scripts/gc.py:123-134 | in every reachable state of runs without a slash in their ids, no object still needed has the key text of one marked for deletion |
| `Collection.SlashesAreCollected` | scripts/gc.py:82-86 | why the slash matters: once a round is stale, every stored object of a run whose id continues the prefix of its submissions is listed for deletion, the protected set notwithstanding |
| `RefSteps.PlanGcRefs` | scripts/gc.py:60-84 | candidates are submissions of closed rounds and nothing else |
| `Collection.CollectsExactly` | scripts/gc.py:50-88 | in every reachable state the candidates are all stored submissions of a run's closed rounds but those of the newest keep_rounds, and nothing else |
| `CloseRun.CloseAllIs` | ganymede/coordinator/closer.py:194-334 | an undisturbed close in closed form: the verdicts of artifacts that no longer load are withdrawn, the rest is judged, the survivors' work is combined and compared, published, committed, its reported rates folded and the run moved on, or the round is given back; and exactly where in this it raises |
| `Retry.GoesThroughExactlyWhen` | ganymede/coordinator/closer.py:166-191 | it goes through to its commit exactly when the base loads, gate 4 can judge the cohort, and the survivors, if any, combine and have a divergence that can be computed; otherwise every round's row is as before |
| `Divergence.MeasureDivergence` | ganymede/coordinator/aggregate.py:328-362 | the loops over the flattened adapters and their pairs fail exactly when, among two or more, somebody lacks a tensor of the first or the first has none, or two non-zero adapters differ in length |
| `Divergence.FlatIs` | ganymede/coordinator/aggregate.py:345-352 | in whatever order the tensors are concatenated, the flattened adapter has the length compared, and norm zero exactly when the model counts it as zero |
| `Divergence.FittingAreComparable` | ganymede/coordinator/closer.py:282 | adapters that fit one base with a tensor in it have a divergence that can be computed |
| `Overwrites.OverwriteCanFailClose` | ganymede/coordinator/closer.py:282 | a run from nothing, outside tidy runs, on which only the divergence fails: one of two accepted artifacts is overwritten with a tensor too many after its gate; gate 4 rejects nobody and the work combines, yet the poll raises and leaves its round overdue |
| `TidyClose.TidyCloseGoesThrough` | ganymede/coordinator/closer.py:218-307 | if workers upload before they submit, it always goes through to its commit |
| `ReachableCloses.CloseIsOrderFree` | ganymede/coordinator/closer.py:210-216 | in every such state the rows may be queried in any order that ties allow: the closed round is the same, rows and objects alike |
| `TidyClose.CloseIgnoresOrder` | ganymede/coordinator/closer.py:210-216 | the same for any state that keeps the invariants |
| `PublishedCells.CloseMovesBase` | ganymede/coordinator/closer.py:210-292 | in every state of a tidy run, cell by cell: the next base is the one found less lr times (g + beta * m), where g is the base less the mean of the passing submissions' own adapters weighted by their own rows' step counts up to the cap's bound, m is beta times the stored momentum plus g, and m is what the run's momentum becomes |
| `PublishedCells.CohortRows` | ganymede/coordinator/closer.py:210-232 | the cohort is exactly the accepted submissions whose artifacts load, each with its own row's steps and its own object's adapter |
| `Retry.RetryExactlyWhen` | ganymede/coordinator/closer.py:171-191 | for any momentum decay, any cut before the commit and any pattern of failed store requests until then: the retried close ends in the very rows and objects of the uninterrupted one, when that goes through, if and only if gate 4 on what is left of the cohort agrees with gate 4 on all of it, and the survivors' work cannot tell the momentum now found from the original (the store being untouched if nobody survives) |
| `Retry.SteadyRetryExactlyWhen` | ganymede/coordinator/closer.py:171-191 | with a store that answered until the failure, the second condition is: the attempt had not put momentum that the row names by then, or on every cell the base less the weighted mean is (1 - beta) times the momentum the round started from |
| `Retry.RetryJudgesSurvivors` | ganymede/coordinator/closer.py:234-250 | an attempt that failed before gate 4 leaves the cohort as it was; one cut off between two of its verdicts leaves the cohort without those rejected so far, and gate 4 then agrees exactly when it now rejects those it had still to reject; one that failed after it leaves exactly the survivors, and gate 4 agrees exactly when none of them stands out among the survivors |
| `Retry.KeepsAllExactlyWhen` | ganymede/coordinator/aggregate.py:176-193 | gate 4 keeps a whole cohort exactly when it is smaller than three, or in every tensor the median is zero or no norm exceeds k times it |
| `Retry.RetryReadsMomentum` | ganymede/coordinator/closer.py:271-292 | the retry reads the momentum the attempt put if the row names it by then, and otherwise what the attempt read |
| `Retry.RetryIsSafe` | ganymede/coordinator/closer.py:179-184 | until gate 4 has rejected somebody or the put momentum is named, a retry ends where the uninterrupted close ends, whether that goes through or not |
| `ReachableCloses.ReachableRetryIsSafe` | ganymede/coordinator/closer.py:179-184 | the same in every reachable state |
| `ReachableCloses.TidyRetryExactlyWhen` | ganymede/coordinator/closer.py:171-191 | the exact condition in every state of a tidy run, where the uninterrupted close always goes through |
| `Leftovers.LeftoverExactlyWhen` | ganymede/coordinator/closer.py:179-184 | the same for whatever verdicts, result object and momentum an earlier attempt may have left |
| `Leftovers.LeftoverCohort` | ganymede/coordinator/closer.py:210-232 | a close over leftovers fetches exactly the work whose verdict has not been turned, in the same order |
| `Momentum.CombinedAgainExactlyWhen` | ganymede/coordinator/aggregate.py:308-323 | a combine from another momentum yields the same adapter and momentum exactly when the two hold the same cells wherever the step is finite |
| `Momentum.AgreesExactlyAtRest` | ganymede/coordinator/aggregate.py:314-318 | the momentum a combine leaves is as good as the one it started from exactly when on every finite cell base - mean == (1 - beta) * m |
| `Momentum.PublishedMomentum` | ganymede/coordinator/closer.py:286-292 | what a close saves as momentum loads again and has the base's tensors |
| `FailingInputs.RetriedGateCanDiffer` | ganymede/coordinator/closer.py:179-184 | a run from nothing on which the retry ends elsewhere: five accepted workers of norms 1, 1, 2, 9 and 100, an attempt cut off behind gate 4 |
| `FailingInputs.RetriedMomentumCanDiffer` | ganymede/coordinator/closer.py:179-184 | another, for every non-zero decay: one accepted worker, an attempt cut off right before its commit |
| `Polling.OverdueSurvivesExactlyWhen` | ganymede/coordinator/closer.py:338-364 | a poll leaves its round overdue exactly when it was overdue, had counted work, and its close has not what it needs |
| `ReachableCloses.PollClearsOverdue` | ganymede/coordinator/closer.py:338-364 | in a tidy run no overdue round survives a poll |
| `Polling.OverdueIsHandled` | ganymede/coordinator/rounds.py:148-182 | past the backstop a round is closed exactly when it has counted work and restarted exactly when it has none |
| `Polling.CloseNeedsWork` | ganymede/coordinator/rounds.py:178-181 | a close needs at least one counted submission, and min_round_sec or max_round_sec elapsed |
| `CloseRule.RuleCountsAcceptedAndUngated` | ganymede/coordinator/rounds.py:131-182 | the close rule for any round: the steps of the accepted submissions, which its close aggregates, plus those of the ungated reach the target after min_round_sec, or there is any such submission after max_round_sec |
| `CloseRule.TargetCloses` | ganymede/coordinator/rounds.py:178-179 | once everybody is gated, a round that holds its target in accepted steps is closed by the rule after min_round_sec |
| `CloseRule.RecordingCounts` | ganymede/coordinator/rounds.py:131-141 | recording a submission raises its round's total by its steps, and no other round's |
| `CloseRule.VerdictCounts` | ganymede/coordinator/rounds.py:126-141 | accepting it changes no total, rejecting it takes exactly its steps off its round's |
| `CloseRule.OthersKeepProgress` | ganymede/coordinator/rounds.py:131-141 | steps that touch no submission change no total |
| `CloseRule.RestartsExactlyWhen` | ganymede/coordinator/rounds.py:185-211 | a round's clock is restarted exactly when it is open, past max_round_sec, and holds neither accepted nor ungated work |
| `CloseRule.PollTouchesNothingElse` | ganymede/coordinator/closer.py:356-364 | a poll that does not close restarts the clock or changes nothing at all |
| `Polling.ClosePublishesExactlyWhen` | ganymede/coordinator/closer.py:221-328 | a close that goes through to its commit has a result exactly when some accepted submission's artifact loads and gate 4 does not condemn it among those that do; with a result, if everybody who so passes has metrics that can be read, the next round opens on it at that moment with this round's target and bounds, or the run is done, and otherwise the run stays where it was; without one neither runs nor store change |
| `Polling.CloseRaisesExactlyWhen` | ganymede/coordinator/closer.py:309-315 | a close raises exactly when it has not what it needs, or somebody who passes gate 4 has metrics that cannot be read |
| `ReachableCloses.PollPublishesExactlyWhen` | ganymede/coordinator/closer.py:338-364 | a poll that closes, in any state of a tidy run: there is a result exactly when somebody passes, the run is stranded exactly when nobody passes or somebody who does has metrics that cannot be read, and in the latter case alone the poll raises |
| `FailingInputs.MetricsCanStrand` | ganymede/coordinator/closer.py:309-315 | a run from nothing: one accepted submission whose metrics hold a rate that cannot be read; the close commits its result, raises, and strands the run |
| `Polling.NothingAcceptedNothingPublished` | ganymede/coordinator/closer.py:213-215 | a close that finds nothing accepted commits without a result and touches no run, no object and no verdict |
| `Polling.UngatedWorkCloses` | ganymede/coordinator/rounds.py:123-182 | with nothing accepted the close rule goes by ungated work alone, none of which passes into a result |
| `ReachableCloses.UngatedWorkStrands` | ganymede/coordinator/closer.py:338-364 | so in every state of a tidy run with nothing accepted, a poll that closes strands the run |
| `FailingInputs.UngatedCanStrand` | ganymede/coordinator/rounds.py:138 | a run from nothing: one submission not yet gated, past the backstop |
| `FailingInputs.GateCanStrand` | ganymede/coordinator/closer.py:234-264 | a run from nothing for every cohort size and enough tensors: all work accepted, gate 4 rejects everybody, the run is stranded |
| `Stranding.StrandedForEver` | ganymede/coordinator/rounds.py:305-310 | a run left at a closed round stays there whatever anyone does, and no worker is ever given work on it |
| `Stranding.FailureGivesBackExactlyWhen` | ganymede/coordinator/closer.py:167-191 | an exception in a close leaves the round open exactly when it comes before the commit |
| `Stranding.FailureAfterCommitStrands` | ganymede/coordinator/closer.py:171-191 | an exception or crash after the commit strands the run |
| `Stranding.CrashWedgesExactlyWhen` | ganymede/coordinator/invariants.py:173-181 | a crash leaves a round closing with no closer exactly when the round has not yet been committed or given back |
| `Stranding.WedgedForEver` | ganymede/coordinator/invariants.py:173-181 | such a round is never opened, closed or claimed again, and its run gives out no more work, whatever anyone does |
| `FailingInputs.CrashCanWedge` | ganymede/coordinator/invariants.py:173-181 | a run from nothing that ends so |
| `Polling.OneLeasePerRequest` | ganymede/coordinator/app.py:222-251 | however many runs a request for work goes through, it leases at most one fresh task |
| `Requests.FirstAnswers` | ganymede/coordinator/app.py:222-251 | the answer to a request is that of the first candidate whose poll raises or whose claim is neither no work nor a refusal; every candidate before it has been polled and then asked, and none after it |
| `Requests.UnansweredExactlyWhen` | ganymede/coordinator/app.py:222-257 | there is no answer exactly when every candidate was polled without raising and had no work or refused |
| `Requests.AnswerExactly` | ganymede/coordinator/rounds.py:280-364 | what a run answers: a refusal exactly to a worker an active run does not take, the lease held already whatever the offer, a fresh lease held by the worker, and no work exactly without an open round or, for a worker holding nothing, without an offer |
| `Disaster.BackupThenRestore` | scripts/restore.py:118-166 | from any reachable state with round k >= 1 in flight: the latest result is the current base, and after restoring into an empty store the round is open on the same object, with no leased or submitted task and no submission in it, and the check is clean |
| `Disaster.RestoreIsResumableExactlyWhen` | scripts/restore.py:249-270 | the check is clean for an active run exactly when the snapshot's current round was not closed and was not round 0 |
| `Disaster.LatestResultIsCurrentBase` | scripts/backup.py:77-84 | the newest result reference equals the base of the round in flight |
| `Disaster.SeedIsNeverBackedUp` | scripts/backup.py:155-160 | no backup of a sound table holds round 0's base |
| `Disaster.RestoredIsSound` | scripts/restore.py:213-228 | the chain, lease and bucket invariants all hold of the restored tables |
| `Disaster.RestoreRewindsUnclosedRounds` | scripts/restore.py:118-166 | of sound tables a restore reopens exactly the rounds that are not closed, from now on and otherwise as they were, drops their submissions and releases their leased and submitted tasks; closed rounds with their tasks and submissions, runs and buckets are untouched |
| `Disaster.RestoreFetchesOnlyNamed` | scripts/restore.py:231-246 | the primary store loses and changes nothing and gains only current bases and momentum |
| `Disaster.MomentumRestored` | scripts/restore.py:100-115 | momentum that a run names comes back from its backup byte for byte |
| `Disaster.BackupRefreshesNamed` | scripts/backup.py:143-174 | a backup holds exactly what it held and the named objects the store has, the latter as the store has them |
| `Disaster.CleanExactlyWhen` | scripts/restore.py:249-270 | the check is clean for a run exactly when it is not active, or its current round exists, is open and has its base in the store |
| `ObjectKeys.KeyTextIsInjective` | ganymede/coordinator/store.py:61-73 | with slash-free run ids different objects have different keys |
| `ObjectKeys.ListingIsExact` | scripts/gc.py:32 | the prefix listing of a round's submissions finds those submissions and nothing else |
| `ObjectKeys.SlashesLeakIntoListing` | scripts/gc.py:82-83 | why the slash matters: a run id that continues the prefix has every one of its objects listed |
| `ObjectKeys.ListingOrder` | ganymede/coordinator/store.py:52-58 | bases sort as text in round order while round numbers have five digits |
| `Timestamps.ParseUndoesIso` | ganymede/coordinator/rounds.py:37-43 | parsing a stored timestamp, zone or no zone, gives back the moment stored |
| `Timestamps.TextOrderIsTimeOrder` | ganymede/coordinator/rounds.py:37-38 | comparing two stored timestamps as text is comparing the instants, also when one omits its fraction |
| `Timestamps.ExpirySelectsOverdue` | ganymede/coordinator/rounds.py:225-233 | the text comparison selects exactly the leases whose deadline has passed |
| `NormGate.CheckNorms` | ganymede/coordinator/aggregate.py:159-198 | verdict i rejects exactly when some tensor's norm exceeds k times a non-zero median, cohorts below three excepted; it fails exactly when a tensor is missing |
| `NormGate.MinorityPerTensor` | ganymede/coordinator/aggregate.py:181-198 | for n >= 3 and k >= 2, or odd n and k >= 1, one tensor condemns at most floor((n-1)/2) adapters |
| `NormGate.VerdictIgnoresScale` | ganymede/coordinator/aggregate.py:185-192 | scaling every norm of a cohort by one factor changes no verdict |
| `NormGate.VerdictFollowsAdapter` | ganymede/coordinator/aggregate.py:176-198 | verdicts permute with the cohort |
| `GateSurvival.FewTensorsLeaveSomebody` | ganymede/coordinator/aggregate.py:184-193 | T shared tensors condemn at most T * floor((n-1)/2) adapters of n, so fewer than that many leave somebody |
| `GateSurvival.BlocksCondemnEverybody` | ganymede/coordinator/aggregate.py:191-193 | as soon as T * floor((n-1)/2) reaches n, a cohort in which every worker is condemned |
| `GateSurvival.LeavesSomebodyExactlyWhen` | ganymede/coordinator/aggregate.py:181-193 | gate 4 leaves somebody of every cohort of n >= 3 over T tensors if and only if T * floor((n-1)/2) < n, for k >= 2, or odd n and k >= 1 |
| `DominanceCap.CapHoldsFinally` | ganymede/coordinator/aggregate.py:223-249 | for n >= 3 and cap >= 2, or odd n and cap >= 1: shares stay positive, sum to one and keep their order, none exceeds cap times the median of the resulting shares, and passes after the first change nothing |
| `DominanceCap.CapBelowTwoFails` | ganymede/coordinator/aggregate.py:223-249 | for every even cohort of four or more and every cap in [1, 2) there are positive step counts whose final shares exceed the cap |
| `DominanceCap.CapHoldsExactlyWhen` | ganymede/coordinator/aggregate.py:223-249 | for n >= 3 and cap >= 1 the cap holds of every cohort's final shares if and only if cap >= 2 or n is odd |
| `DominanceCap.FinalSharesSumToOne` | ganymede/coordinator/aggregate.py:213-245 | whatever the step counts, shares that can be computed sum to one |
| `DominanceCap.DenseWeights` | ganymede/coordinator/aggregate.py:201-251 | the loop computes the final shares and gives each worker's share to every tensor, and fails exactly when it does |
| `FairShares.SharesAreProportional` | ganymede/coordinator/aggregate.py:213-223 | with no cap or fewer than three workers, a share times the total steps is the worker's steps |
| `FairShares.CappedSharesAreCredited` | ganymede/coordinator/aggregate.py:223-249 | for n >= 3 and cap >= 2, or odd n and cap >= 1, a share is the worker's steps, at most cap times the cohort's median of them, over the sum of these |
| `FairShares.CapKeepsRatios` | ganymede/coordinator/aggregate.py:223-249 | under such a cap two workers not over cap times the median keep the ratio of their steps, and all over it get one share, no smaller than anybody's |
| `FairShares.SharesFollowSteps` | ganymede/coordinator/aggregate.py:223-249 | whatever the cap: some bound on the steps that count, and every share is the worker's steps up to it over everybody's |
| `DominanceCap.SharesNeverFail` | ganymede/coordinator/aggregate.py:213-245 | positive steps and any positive cap: no division by zero, every share positive |
| `OuterStep.Combine` | ganymede/coordinator/aggregate.py:286-325 | the loops compute the outer step with broadcasting between unequal shapes, and fail exactly when it does |
| `OuterStep.CombineTensor` | ganymede/coordinator/aggregate.py:290-323 | one tensor: passed through if nobody trained it, else the Nesterov step on its weighted mean, each operand stretched to the others' shape |
| `OuterStep.CombinedKeepsManifest` | ganymede/coordinator/aggregate.py:304-323 | a combine that succeeds has the base's manifest exactly when, for every tensor somebody trained, the momentum's shape and the shape of everybody's tensor that has weight stretch to the base's |
| `OuterStep.CombinedGrows` | ganymede/coordinator/aggregate.py:304-323 | whatever was submitted, a combine that succeeds has the base's tensors and dtypes, in shapes that the base's stretch to |
| `OuterStep.StretchedCell` | ganymede/coordinator/aggregate.py:306-311 | adding tensor by tensor, each stretched to what has been summed so far, gives on every cell the weighted sum of the tensors stretched at once |
| `Broadcasting.BroadcastIsLeast` | ganymede/coordinator/aggregate.py:311 | the shape of an elementwise operation is the least one both operands stretch to |
| `Broadcasting.IntoExactlyWhen` | ganymede/coordinator/aggregate.py:311 | an operand leaves the other's shape alone exactly when it stretches to it |
| `Broadcasting.RepeatedTwice` | ganymede/coordinator/aggregate.py:311-322 | stretching in two steps is stretching in one |
| `OuterStep.CombineCannotFail` | ganymede/coordinator/aggregate.py:276-323 | with fitting inputs every lookup succeeds, every shape agrees and the result fits the next round |
| `OuterRun.CombinedCell` | ganymede/coordinator/aggregate.py:314-323 | one combine, one cell: the Nesterov step on the cell's weighted mean |
| `OuterRun.RunUnrolls` | ganymede/coordinator/aggregate.py:289-325 | K rounds give A_K = A_0 - lr * sum over i < K of (1 + beta + ... + beta^(K-i)) g_i, and the momentum is the decayed sum |
| `OuterRun.OneRoundReaches` | ganymede/coordinator/aggregate.py:316-322 | replacing one round's gradient moves the adapter by lr times its geometric factor |
| `OuterRun.ReachIsBounded` | ganymede/coordinator/aggregate.py:322 | for 0 <= beta < 1 that factor lies between lr and lr / (1 - beta) |
| `Contributions.OrderDoesNotMatter` | ganymede/coordinator/closer.py:210-216 | the order submissions are returned in changes neither shares, nor adapter, nor momentum, nor whether publishing fails |
| `Contributions.PlainMeanIsBetween` | ganymede/coordinator/aggregate.py:269-274 | with lr 1 and beta 0 a cell becomes the weighted mean and lies between the submitted extremes |
| `Budget.PlanIsExact` | ganymede/coordinator/budget.py:167-243 | an offered plan fits the time left after all overheads and its shard, is the largest that does, uses the least bucket count that supports it or every bucket, and reports the data limit exactly when it bites |
| `Budget.NoPlanExactlyWhen` | ganymede/coordinator/budget.py:195-234 | no plan is offered exactly when the time is too short or not one step fits |
| `Budget.StepBudgetIsExact` | ganymede/coordinator/budget.py:93-100 | the step budget is the most steps that fit the time |
| `Budget.StepsForBucketsIsExact` | ganymede/coordinator/budget.py:133-147 | the most steps n buckets support |
| `Budget.PlanUsesBestFigure` | ganymede/coordinator/budget.py:68-90 | a plan goes by the measured throughput whenever it is positive, else by the calibrated one if that is, else by the cold start, and by nothing that comes after it |
| `Budget.PlanFailsExactlyWhen` | ganymede/coordinator/budget.py:84-147 | planning raises exactly when there is time to plan for and no figure is positive, or a step fits the time and the run's shape is not positive |
| `Partition.PlanPartition` | ganymede/trainer/data.py:126-162 | the in-place shuffle and the checks compute the planned split |
| `Partition.PlanIsValid` | ganymede/trainer/data.py:138-159 | it succeeds exactly when there is a row per bucket; buckets are equal and non-empty, fewer rows dropped than buckets, each row once in the order |
| `Partition.AssignmentIsExact` | ganymede/trainer/data.py:108-113 | distinct buckets give their rows without duplicates, none of the eval_size held-out rows |
| `Partition.BucketsDisjoint` | ganymede/trainer/data.py:102-106 | different buckets share no row |
| `Partition.BucketAvoidsEval` | ganymede/trainer/data.py:99-106 | no bucket holds one of the eval_size held-out rows |
| `Partition.EveryRowHasItsPlace` | ganymede/trainer/data.py:87-113 | eval_size held-out rows, the rows of all buckets and the dropped rows together hold each row of the dataset exactly once |
| `Partition.PlanErrors` | ganymede/trainer/data.py:138-150 | a plan that cannot be made gets the first complaint that applies |
| `Shuffles.ShuffleReachesEveryOrder` | ganymede/trainer/data.py:152-153 | every order of the rows is what some draws of the generator shuffle them to |
| `Shuffles.DrawsAreTold` | ganymede/trainer/data.py:152-153 | different draws shuffle the rows to different orders |
| `BatchStream.OpenStream` | ganymede/trainer/data.py:306-319 | the generator's checks and their errors |
| `BatchStream.Stream.Next` | ganymede/trainer/data.py:321-331 | the k-th batch drawn is batch k mod per-epoch of pass k / per-epoch, freshly shuffled per pass |
| `BatchStream.TrainLoop` | ganymede/trainer/train.py:198-243 | the loop takes exactly the steps before the first stop, drawing grad_accum batches each, and its counters say so |
| `BatchStream.OneStepTrains` | ganymede/trainer/train.py:209-236 | a step updates the model once, on the next grad_accum batches in order, and reports their loss at the model before it |
| `BatchStream.MeanLossIsMean` | ganymede/trainer/train.py:222-227 | the reported loss times grad_accum is the sum of the batches' losses |
| `BatchStream.SegmentsJoin` | ganymede/trainer/baseline.py:125-135 | training a steps and then b more, from where the stream then stands, is training a + b steps: the same model and the same losses |
| `BatchStream.DrawnAt` | ganymede/trainer/train.py:212-213 | the batches of a step are the stream's next ones in order |
| `BatchStream.PassIsItsShuffle` | ganymede/trainer/data.py:321-331 | batch i of pass e is slice i of the rows as that pass's own draws shuffle them |
| `SinglePass.TaskTrainsInOnePass` | ganymede/coordinator/budget.py:203-243 | a planned task's full run stays in epoch 0, repeats no row, touches no held-out row and never meets the shard-too-small error |
| `Encoding.EncodeExample` | ganymede/trainer/data.py:209-257 | the branches compute the encoding; the only error is seq_len < 1 |
| `Encoding.EncodingKeepsCompletion` | ganymede/trainer/data.py:242-255 | an encoding fits seq_len and ends with as much of the completion as fits, exactly that supervised |
| `Encoding.EncodingCutsPromptLeft` | ganymede/trainer/data.py:246-251 | what is cut is cut from the left of the prompt |
| `Encoding.SpecialTokensStand` | ganymede/trainer/data.py:235-251 | the start token leads and the end token closes the example whenever the tokenizer has them and the completion leaves room; with neither, what fits is the prompt and the completion |
| `Encoding.MaskingChangesLabelsOnly` | ganymede/trainer/data.py:252-255 | masking changes labels alone, and only to the ignored one; without it every token is its own label |
| `Encoding.CollationPadsRight` | ganymede/trainer/data.py:260-282 | a batch is padded on the right to its longest member and no further, with the pad id and the ignored label |
| `Evaluation.SummedNll` | ganymede/trainer/evaluate.py:40-57 | summing in chunks of any size is summing at once |
| `Evaluation.HeldOutLoss` | ganymede/trainer/evaluate.py:77-150 | the loss is the total over all supervised tokens divided by their number, whatever micro_batch and chunk |
| `Evaluation.ExampleScoresItsLabels` | ganymede/trainer/evaluate.py:129-137 | an example adds the loss of each of its labels but a first one, given all the ids before it, and one token each |
| `Evaluation.LimitTakesTheFirst` | ganymede/trainer/evaluate.py:105 | a limit takes the first so many held-out rows; none, zero or one past their number takes all |
| `Coordinators.Coordinator.NewRun` | scripts/newrun.py:363-437 | refuses a known id; else seed put, run and buckets inserted, round 0 opened, in that order |
| `Coordinators.Coordinator.OpenRound` | ganymede/coordinator/rounds.py:93-111 | inserts the round and moves current, or fails leaving everything as it was |
| `Coordinators.Coordinator.ExpireLeases` | ganymede/coordinator/rounds.py:219-233 | expires exactly the overdue leases and returns their number |
| `Coordinators.Coordinator.ClaimTask` | ganymede/coordinator/rounds.py:258-440 | answers and changes the tables as the claim transition says; a resumed worker gets a task it holds |
| `Coordinators.Coordinator.Heartbeat` | ganymede/coordinator/rounds.py:481-523 | extends a held lease, never lowers the progress figure, or fails unchanged |
| `Coordinators.Coordinator.Abandon` | ganymede/coordinator/rounds.py:534-541 | releases only the worker's own live lease |
| `Coordinators.Coordinator.RecordSubmission` | ganymede/coordinator/rounds.py:544-590 | records the submission and ends the lease together, or fails unchanged |
| `Coordinators.Coordinator.GateSubmission` | ganymede/coordinator/closer.py:74-107 | records the gate's verdict, rejects an unreadable artifact as missing, and changes nothing where there is no submission |
| `Coordinators.Coordinator.RoundProgress` | ganymede/coordinator/rounds.py:123-145 | sums the steps and counts the submissions not rejected |
| `Coordinators.Coordinator.ShouldClose` | ganymede/coordinator/rounds.py:148-182 | decides the close rule |
| `Coordinators.Coordinator.ReopenEmptyRound` | ganymede/coordinator/rounds.py:185-211 | restarts exactly an open, overdue, empty round |
| `Coordinators.Coordinator.CloseRound` | ganymede/coordinator/closer.py:133-192 | the whole close, undisturbed, reaches the state its steps reach, on the accepted submissions in order of receipt, and raises exactly when they do; on an exception before the commit the round is given back |
| `Coordinators.Coordinator.CloseClaimed` | ganymede/coordinator/closer.py:194-334 | the body after the claim, its exceptions included |
| `Coordinators.Coordinator.FetchKept` | ganymede/coordinator/closer.py:221-232 | fetches in order and withdraws the verdict of what is gone |
| `Coordinators.Coordinator.KeepAccepted` | ganymede/coordinator/closer.py:236-250 | records the rejections and keeps the rest in order |
| `Coordinators.Coordinator.CombineAndPublish` | ganymede/coordinator/closer.py:264-292 | combines and compares the survivors, publishes the result and the momentum, commits and moves on, or raises before anything is put |
| `Coordinators.Coordinator.CommitAndAdvance` | ganymede/coordinator/closer.py:294-328 | closes with the result, expires leases, folds the rates, opens the next round or finishes the run; raises on a rate that cannot be read |
| `Coordinators.Coordinator.MaybeClose` | ganymede/coordinator/closer.py:338-364 | one poll, and whether it raises |
| `Coordinators.Coordinator.PollForWork` | ganymede/coordinator/app.py:211-258 | a request for work: expire leases, then poll each candidate run and ask it for a lease, up to the first that answers; a close that raises ends the request |
| `Coordinators.Coordinator.Submit` | ganymede/coordinator/app.py:332-349 | a submit request: record, gate, poll, in that order, and an error if the poll raises |
| `Coordinators.Coordinator.CollectGarbage` | scripts/gc.py:123-134 | deletes exactly the candidates |
| `Coordinators.Coordinator.GcCandidates` | scripts/gc.py:50-88 | the submissions of all but the newest keep_rounds closed rounds |
| `Coordinators.Coordinator.LatestResultRef` | scripts/backup.py:77-84 | the newest result of a run, if any |
| `Coordinators.Coordinator.Backup` | scripts/backup.py:143-174 | copies each run's latest result and momentum, skipping what is missing |
| `Coordinators.Coordinator.Reconcile` | scripts/restore.py:118-166 | rewinds exactly the rounds in flight |
| `Coordinators.Coordinator.CopyAdapters` | scripts/restore.py:231-246 | fetches every referenced object the primary store lacks and reports those nobody has |
| `Coordinators.Coordinator.Verify` | scripts/restore.py:249-270 | reports exactly the active runs whose current round is missing, unreadable or not open |
| `Coordinators.Coordinator.Restore` | scripts/restore.py:169-228 | fetch, rewind, check, in that order |

## Left out

- Floating point: the `1e-9` test, bf16 and fp32 casts and infinities are read over exact reals, and a tensor with any non-finite value is known only as such, also where stretching it leaves it no cells.
- The Frobenius norm and the safetensors format: a norm is any function of a tensor, stored bytes either parse to an adapter or do not.
- Mersenne Twister and blake2b: a shuffle is any permutation given by its draws, a task seed any number.
- Building the seed adapter: it is taken to be well formed and finite, and in tidy runs to hold a tensor.
- Concurrent creation of one run id: the existence check and the put of the seed are one step, so two creators racing on the same id are not modelled.
- Reads that the code makes one after another are one step where nothing between them can matter: the run, round and submission rows at the start of a close, and the row reads and listings of one garbage collection plan.
- `Coordinators.Coordinator`: its methods run undisturbed with a store that answers; interleaving and failing requests are the business of `System`.
- `Disaster.BackupThenRestore`: the references are read from the same tables as the snapshot, so a close between the snapshot and the copying is not modelled.
- Restored stores: after a restore into an empty store only the current base and momentum are promised, so `RefCloses.EveryRunKeepsRefs` is not carried past a restore; the invariants of `Disaster.RestoredIsSound` are.
- `Timestamps.ParseUndoesIso`: only the shapes the coordinator writes are parsed; other ISO 8601 forms that the library accepts are not.
- `RefCloses.AggregationCannotFail`: assumes no upload after the submission of the same task; the code hands out a fresh upload URL at any time, whatever the task's status (`ganymede/coordinator/app.py:310-317`).
- `LeaseSafety.GateReadKeeps`: the artifact of a gated submission can be overwritten until the close reads it, by its worker, who can get an upload URL at any time; the artifact half of the verdict is kept for workers that upload before they submit, `RefSteps.GateReadRefs`.
- `Retry.RetryExactlyWhen`: nothing else happens between the failed attempt and its retry; work accepted in between joins the retried cohort.
- `GateSurvival.LeavesSomebodyExactlyWhen`: factors below two for even cohorts and below one for odd ones are not covered.
- Duplicate runs of one gate: a task is submitted once, so each submission is gated by one request.
- Eligibility, clearance, image tags, the throughput floor, and calibration: single decisions, folded into the offer of a claim.
- Throughput estimates: a submission's metrics report no rate, a rate, or something that cannot be folded into the estimates; the estimates themselves are not kept, and whether a rate can be folded does not depend on what was folded before. The fold is one step with the advance that follows it, since it touches none of the modelled tables.
- The value of the divergence: only whether it can be computed is modelled.
- Workers, contributors, audit, evaluation loss, perplexity, closing time and the other metrics columns: nothing in the lifecycle reads them.
- The expected-manifest cache, the CLI layers, HTTP, authentication, presigning, S3 and SQLite themselves.
- Clock liveness: that rounds eventually close depends on machines turning up.
