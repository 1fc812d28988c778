# Netband, modelled and proved

A Dafny model of the parts of Netband that decide, remember and record: the durable scheduler, the rotating
results journal, the run hierarchy, the NDT7 upload loop, the health window, the interface selector and the
redaction of messages.

* **The recovery set** (`AccountingLog`, `Recovery`, `CrashRuns`, `CrashRefinement`, `CrashRecovery`,
  `CrashLimits`, `Persistence`). A hash-chained ledger, a marker, a backup and a snapshot, each file with its
  visible content and what a power loss may bring back. Opening and saving are plans of file actions; a run is
  any sequence of starts, saves, process kills and power losses, each plan cut short anywhere. `attempted` is the
  set of states saved, or tried, since the last acknowledged save.
* **Admission** (`SlotPlanner`, `Admission`, `AdmissionRuns`, `StartLimits`, `CooldownRuns`, `OfferedRuns`,
  `TriggerRuns`, `ValidRuns`, `OfferLaws`, `PlanLaws`, `OperationLaws`, `Scheduler`). What each scheduler operation does to
  its provider's state and which states it saves on the way; what each answers and leaves, told field by field from what
  it found; runs of those with crashes between saves and restarts from what recovery may hand back; and the scheduler
  object, proved operation by operation against those functions.
* **Both together** (`SchedulerOnDisk`, `SchedulerRecovery`). The scheduler saving through the crash protocol refines
  the abstract admission runs, so the limits on starts hold with interruptions at any file action; its saves are never
  turned down, and its crashes are recoverable whenever its starts were calm.
* **The rotating journal** (`CsvFraming`, `RotatingJournal`, `RotatingRuns`, `Journal`): a second crash protocol,
  with a staged header, a hard link, an active marker and recovery of exactly one segment, over rows whose cells may
  hold line breaks within quotes.
* **The rest**: `RunCoordinator`, `UploadDriver`, `HealthWindow`, `FairSelector`, `Redaction`.

Times are UTC milliseconds and a day is `t / 86400000`. The JSON encoding and the digest are parameters of which
only this is used: decoding undoes encoding, a ledger record is one line and, for the results about histories,
neither bodies nor digests collide. A `Codec` value packs them. A CSV cell that holds a comma, a quote or a line
break is written within quotes, its own quotes doubled, as section 2 of RFC 4180 has it; the library that does so is
not part of this model. File actions fail by running out of a budget, so every prefix of a plan is a possible outcome.

## What turned out to need a condition

* **A crash can make later starts impossible although the ledger is whole.** A start or save can be cut short
  anywhere, and stay recoverable, if and only if it is calm: `CrashLimits.StartIsCrashSafeIffCalm`,
  `CrashLimits.SaveIsCrashSafeIffCalm`. There are three ways not to be. (1) While no snapshot exists a second accounting
  record is refused at the next start, as is a first one that accounts for something;
  `SchedulerRecovery.MidnightDuringInstallation` is a run: installation stopped before its snapshot, then again on the
  next day. (2) A start does not sync a ledger it finds, but writes a marker for it;
  `CrashLimits.UnsyncedStartStrandsTheMarker` is a run: a process killed between writing and syncing a record, a start
  stopped after its marker, a power loss. (3) A first marker or snapshot whose directory was not synced may be lost
  after later files already rely on it. `SchedulerRecovery.CalmBegin` says the same of a scheduler's start in terms of
  the disk, the clock and the policy. Nothing acknowledged is lost in any of them: later starts are refused.
* **A batch cut right after a line break within quotes is never recovered.** The torn row then looks terminated and has
  too few cells, so its directory is refused from then on. `RotatingRuns.OpeningSucceedsUnlessBroken` states the exact
  condition, on the text of the marked segment; `RotatingRuns.CutInQuotesIsNeverOpenedAgain` is a run.
* **The daily cap needs a clock that does not return to a day already left.** A reservation does not reject a clock
  that ran back, and a day once left is forgotten. `StartLimits.DailyCapHolds` needs only that no start is reserved
  for an earlier day than the state's; `StartLimits.RollbackExceedsTheCap` is a run that admits two tests
  under a policy of one.
* **A deferred opportunity survives a crash between reservation and report.** It is offered again although it may
  no longer start: `OfferedRuns.CrashBeforeReportStrandsTheDeferral`; when it may is
  `OfferedRuns.DeferredOfferAcceptedIff`. Without such a crash every offer is good.
* **Planning the rest of a day may put a slot at the present instant**, which planning a whole day never does:
  `PlanLaws.ReplansNowIff` has the exact condition, and `PlanLaws.LastMillisecondReplansNow` a case where it always does.
* **Starting under a policy that newly allows no tests forgets every trigger latch**:
  `TriggerRuns.StartForgetsLatchIff`. In all other runs one degradation arms one trigger.

## Model

| member | source | states |
|---|---|---|
| AccountingLog.ReadLog | src/scheduler/persistence.rs:353-407 | reading the ledger byte by line accepts or refuses exactly as the specification of a chained log does, and returns its checkpoints and states |
| AccountingLog.AcceptedLinesAreChained | src/scheduler/persistence.rs:353-407 | every accepted log is a chain: checkpoint k carries the digest of the first k states, and every state is one the scheduler can write |
| AccountingLog.EqualDigestsEqualHistories | src/scheduler/persistence.rs:43-57 | with collision-free digests, two chains that end in the same digest are the same chain |
| AccountingLog.CheckpointPinsHistory | src/scheduler/persistence.rs:409-422 | one checkpoint that validates against two accepted logs forces the same header and the same states up to its sequence number |
| AccountingLog.LedgerReads | src/scheduler/persistence.rs:353-407 | the ledger that saving writes for any history is accepted and read back as that history |
| AccountingLog.LedgerRoundTrip | src/scheduler/persistence.rs:291-321 | a history is accepted when written exactly if each of its states is one that may be written |
| AccountingLog.TornLineRefused | src/scheduler/persistence.rs:353-359 | a ledger whose last line was written in part, at any byte, is refused |
| AccountingLog.TornAppend | src/scheduler/persistence.rs:353-359 | after an append cut at any byte the ledger is accepted only if nothing or everything was written, and reads as the old or the new history |
| Recovery.RecordPlanOutcome | src/scheduler/persistence.rs:291-321 | after the record part of a save the ledger is extended and synced, the marker names it, the snapshot is untouched |
| Recovery.SaveOutcome | src/scheduler/persistence.rs:265-336 | after a complete save nothing is pending: the snapshot holds the state with its checkpoint, the backup exactly the snapshot found, or what it held if there was none, and ledger and marker one record more if the accounting changed |
| Recovery.BackupBeforeSnapshot | src/scheduler/persistence.rs:324-332 | at every cut of a save over a snapshot the backup is as found or already a copy of that snapshot, and once the snapshot is another one the copy is there and durable; a first save leaves the backup alone |
| Recovery.BackupSurvives | src/scheduler/persistence.rs:324-332 | so a power loss at any cut after that finds the previous snapshot in the backup |
| CrashRefinement.GoodOpensToAttempts | src/scheduler/persistence.rs:106-259 | a start that is accepted hands back a merge of two attempted states whose accounting is that of the last record |
| CrashRefinement.StepKeepsGood | src/scheduler/persistence.rs:106-336 | every start, save, kill and power loss, cut short at any action, keeps the recovery set in a shape that can only open to attempted states |
| CrashRefinement.PowerLossKeepsGood | src/scheduler/persistence.rs:555-595 | so does a power loss, with any mixture of synced and unsynced contents coming back |
| CrashRefinement.CrashRefinement | src/scheduler/persistence.rs:106-336 | over every run from an empty directory, whatever a start accepts is a merge of states attempted since the last acknowledged save, with the accounting of the last record |
| CrashRefinement.AcknowledgedStateReturns | src/scheduler/persistence.rs:229-242 | after an acknowledged save, and until another is tried, a start hands back exactly the saved state |
| CrashRefinement.AcceptedAccounting | src/scheduler/persistence.rs:229-242 | on any disk at all, an accepted start agrees with the last complete record on day, starts, latest start, cooldown, backoff and deferral of every recorded provider |
| CrashRefinement.RecoveredProviderIs | src/scheduler/persistence.rs:229-241 | field by field, what a start that finds newer records takes from the last of them and what from the snapshot, for providers known to one or both |
| CrashRefinement.UnrecoveredStoreIs | src/scheduler/persistence.rs:229-242 | any other accepted start takes the snapshot as it is, with the checkpoint of the last record |
| CrashRefinement.FailedSaveWritesNoMore | src/scheduler/persistence.rs:265-274 | after a save that failed in any way no later save changes the disk |
| CrashRecovery.AcceptedIffUsable | src/scheduler/persistence.rs:124-227 | on every reachable disk, a start is accepted exactly if the ledger ends in a whole line, a snapshot comes with a marker, and without a snapshot at most one record exists that accounts for nothing |
| CrashRecovery.EveryCalmCrashRecovers | src/scheduler/persistence.rs:124-162 | over every run whose starts and saves are calm, over unsynced files too and with any kills and power losses, a later start is accepted exactly if the ledger does not end in an incomplete line |
| CrashLimits.SecondRecordBeforeSnapshotRefused | src/scheduler/persistence.rs:141-158 | stopping after a second record and before the first snapshot leaves a disk that no start accepts |
| CrashLimits.StartIsCrashSafeIffCalm | src/scheduler/persistence.rs:124-259 | on every disk such runs leave, synced or not, a start can be cut short anywhere and remain recoverable if and only if it is calm: the ledger it marks is synced, and what it saves it saves calmly |
| CrashLimits.SaveIsCrashSafeIffCalm | src/scheduler/persistence.rs:265-336 | so can a save: the marker cannot be lost, and a snapshot that can is not there yet and is not needed for the record that is written |
| CrashLimits.CalmAfterASave | src/scheduler/persistence.rs:324-334 | after an acknowledged save every later save is calm |
| CrashLimits.StartNeedsSyncedRecords | src/scheduler/persistence.rs:243-246 | with marker and snapshot in place, a start is safe to cut short exactly if every record of the ledger is synced |
| CrashLimits.UnsyncedStartStrandsTheMarker | src/scheduler/persistence.rs:243-246 | a run from an empty directory: a record written and not synced, a kill, a start stopped after its marker, a power loss; the ledger is whole and no start is ever accepted |
| Persistence.FileSystem.AtomicWrite | src/scheduler/persistence.rs:574-595 | an atomic write that stops anywhere leaves its two-step plan cut short there |
| Persistence.FileSystem.AppendSynced | src/scheduler/persistence.rs:555-572 | so does an append with its sync, a partial line included |
| Persistence.Persistence.Persist | src/scheduler/persistence.rs:265-336 | saving follows its plan up to the first action that fails, updates its memory only on success, and is otherwise poisoned |
| Persistence.Persistence.WriteRecord | src/scheduler/persistence.rs:291-321 | the record part: ledger line, then marker, then the fields |
| SlotPlanner.CandidateWithin | src/scheduler.rs:1109-1124 | every candidate lies in the interval, for every number drawn |
| SlotPlanner.CandidateReaches | src/scheduler.rs:1111-1123 | a candidate lies in the middle of its stratum and may be any instant of the jittered part |
| SlotPlanner.CandidateGap | src/scheduler.rs:1111-1124 | neighbouring candidates are at least the average stratum less its jittered part apart, for all numbers drawn |
| SlotPlanner.PlannedSlots | src/scheduler.rs:1109-1133 | every planned slot lies in the interval and neighbours keep the minimum spacing |
| SlotPlanner.EveryStratumGetsASlot | src/scheduler.rs:1109-1133 | when the spacing fits in that gap, exactly as many slots as asked for are planned, for every random stream |
| SlotPlanner.ProductsFit | src/scheduler.rs:1110-1124 | for an interval within a day and any 32-bit count no product leaves the 64-bit range |
| SlotPlanner.NextRandom | src/scheduler.rs:1145-1152 | the random state never becomes zero |
| SlotPlanner.PlanInterval | src/scheduler.rs:1089-1133 | the planner's loop yields the specified slots and random state |
| StartLimits.DailyCapHolds | src/scheduler.rs:574-595 | over all operations, crashes, restarts and policy changes no day admits more starts than the cap, if none is reserved for a day already left |
| StartLimits.DailyCapHoldsForward | src/scheduler.rs:830-849 | the same with a clock that never runs back: four a day for M-Lab even when forced, the daily maximum when not |
| StartLimits.RollbackForgetsTheDay | src/scheduler.rs:794-807 | once the clock visited a later day and went back, the earlier day admits again however many starts it had |
| StartLimits.RollbackExceedsTheCap | src/scheduler.rs:574-595 | a run under a policy of one test a day that admits two on one day, by a clock that was seen on the next day and went back |
| StartLimits.SpacingHolds | src/scheduler.rs:864-876 | in every run, whatever the clock does, every unforced start keeps the spacing from all earlier ones |
| StartLimits.AdmissionsSurvive | src/scheduler.rs:583-594 | whatever recovery may hand back has a latest start no earlier than any acknowledged one, and holds each acknowledged start of its own day or later as often as it was acknowledged |
| StartLimits.RememberedStart | src/scheduler.rs:583-594 | in particular each such start is itself among the starts |
| CooldownRuns.DeadlinesAreHonoured | src/scheduler.rs:607-621 | in unforced runs with a forward clock nothing starts before the deadline of an earlier rate limit, across crashes |
| OfferedRuns.OffersAreAccepted | src/scheduler.rs:425-461 | through any cycles of polling, reserving, reporting and reopening, an offer is still accepted when taken up, a deferred one and a later day included |
| OfferedRuns.CrashBeforeReportStrandsTheDeferral | src/scheduler.rs:690-691 | a deferred opportunity reserved but never reported is offered again and rejected |
| OfferedRuns.DeferredOfferAcceptedIff | src/scheduler.rs:447-461 | a deferred opportunity that polling offers is accepted exactly if the day's allowance is unspent and the spacing has elapsed |
| OfferLaws.OffersAreDue | src/scheduler.rs:425-548 | an offer is a deferred opportunity still in time after its cooldown, with its own reason, interface and times, or else the oldest live trigger with its reason, interface and time, or else the first due slot, and but for the deferred one nothing blocks a start |
| OfferLaws.DueIsOffered | src/scheduler.rs:464-548 | with a slot due or a live trigger, and nothing blocking a start, something is offered |
| OfferLaws.OffersUseSlots | src/scheduler.rs:516-524 | an offer that is not a deferred one uses up all due slots; a triggered one takes the next slot to come as well, and no other |
| OfferLaws.BackoffIsDrawn | src/scheduler.rs:1135-1143 | which wait it is the random number decides, as its remainder among all waits within a fifth; no number is drawn when that leaves no choice |
| OfferLaws.BackoffWithinAFifth | src/scheduler.rs:817-828 | whatever is drawn, a wait is within a fifth of its ramp, and the step moves up by one to at most four |
| OfferLaws.RampGrows | src/scheduler.rs:817-828 | the ramp starts at the initial cooldown, never shrinks as failures go on and stays within the maximum |
| PlanLaws.CountsStarts | src/scheduler.rs:1164-1172 | the count of a day's starts is the number of recorded starts that lie on it |
| PlanLaws.FullDayPlansTheDay | src/scheduler.rs:1071-1133 | a day's plan runs from the first instant of the day at which spacing since the last start and cooldown are over; it has slots for at most the daily maximum, at least one, spaced, and one in each equal part if the spacing fits; exactly those not after now are dropped |
| PlanLaws.DayIsDue | src/scheduler.rs:1071-1107 | so each of its slots is later than now, within the day, after the spacing since the last start and after the cooldown |
| PlanLaws.ReplanPlansTheRest | src/scheduler.rs:809-815 | planning the rest of a day is such a plan from now on, for exactly the allowance that recorded starts leave, and changes slots and random state only |
| PlanLaws.RestIsDue | src/scheduler.rs:1089-1133 | so each of its slots is not before now, within the day, after the spacing since the last start and after the cooldown |
| PlanLaws.ReplansNowIff | src/scheduler.rs:1089-1133 | such a plan has a slot at now exactly if a start may be now and the first part and draw leave no delay |
| PlanLaws.LastMillisecondReplansNow | src/scheduler.rs:1089-1133 | in the last millisecond of a day with allowance left it always has |
| PlanLaws.NewDayIs | src/scheduler.rs:794-807 | a new day keeps its own starts as often as they were recorded and a cooldown still in force, forgets deferral and triggers, and is planned in full |
| PlanLaws.NewProviderIs | src/scheduler.rs:711-734 | a provider not known before starts with nothing but a plan for the day |
| PlanLaws.SameDayStartupIs | src/scheduler.rs:735-762 | on the day and under the policy it knew, a start drops exactly the slots that have passed |
| PlanLaws.NewDayStartupIs | src/scheduler.rs:735-762 | on a new day under the policy it knew, it is planned in full |
| PlanLaws.NewPolicyStartupIs | src/scheduler.rs:737-762 | under another policy that allows tests the rest of the day is planned for that one |
| PlanLaws.NoTestsStartupIs | src/scheduler.rs:748-752 | under another policy that allows none, no slot, deferral or trigger remains |
| PlanLaws.RecoveredStartupIs | src/scheduler.rs:221-226 | after recovery the rest of the day is planned, whatever else starting did, and nothing else changes |
| PlanLaws.FinishReplans | src/scheduler.rs:643-699 | after a rate limit and after any test that was not scheduled the rest of the day is planned |
| PlanLaws.ScheduledFinishKeepsSlots | src/scheduler.rs:698-703 | after a scheduled test exactly the slots within the spacing from now go, and none if nothing was reserved |
| OperationLaws.AdmittedIff | src/scheduler.rs:830-877 | a reservation is admitted, and on a clock that did not run back a manual test is allowed, exactly if the cap is not reached and the policy is forced or spacing and cooldown are over |
| OperationLaws.ForcedAdmittedIff | src/scheduler.rs:833-852 | forced: exactly if the provider is not M-Lab or has fewer than four starts on that day, whatever the cooldown and the last start |
| OperationLaws.UnforcedAdmittedIff | src/scheduler.rs:830-877 | unforced: exactly if that day has fewer starts than the maximum, the spacing since the last start is over and no cooldown is in force |
| OperationLaws.ReserveIs | src/scheduler.rs:574-595 | an admitted start is added once, in order, and becomes the latest unless a later one is known; a rejected one changes nothing but the day and saves nothing |
| OperationLaws.ClockIs | src/scheduler.rs:764-792 | the clock seen moves on with the day and is saved; a clock that ran back changes and saves nothing |
| OperationLaws.PollIs | src/scheduler.rs:373-385 | with a clock that ran back polling does nothing; otherwise it goes on from the advanced clock |
| OperationLaws.ReadyDeferralIsOffered | src/scheduler.rs:425-461 | a deferral in time and after its cooldown is offered with its own reason, interface and times, using up nothing of the plan |
| OperationLaws.IdlePollIs | src/scheduler.rs:464-482 | with nothing due nothing is offered, and exactly deferrals and pending triggers past their time go |
| OperationLaws.BlockedPollIs | src/scheduler.rs:484-514 | a blocked poll offers nothing, drops exactly the due slots, forgets the chosen trigger exactly if the cap is reached or no spaced start fits today, and changes nothing else |
| OperationLaws.OfferedIff | src/scheduler.rs:425-548 | something is offered exactly if a deferral is ready, or a slot or live trigger is due and nothing blocks a start |
| OperationLaws.OfferKeepsTheRest | src/scheduler.rs:516-548 | an offer changes nothing but slots and what is stale; its trigger stays pending |
| OperationLaws.DegradationIs | src/scheduler.rs:280-332 | the first degradation of an episode latches the interface and leaves a trigger with its reason, creation and expiry, or hands reason and interface to a waiting deferral; a latched one changes nothing |
| OperationLaws.RecoveryIs | src/scheduler.rs:333-359 | a recovery leaves nothing pending and no latch, and saves only if there was one |
| OperationLaws.LimitIs | src/scheduler.rs:607-621 | a rate limit's deadline, its own or within a fifth of the ramp from now, never shortens one in force, and moves the backoff up by one to at most four |
| OperationLaws.DeferralIs | src/scheduler.rs:622-639 | a deferral is kept exactly after a rate limit of an unreserved attempt with fewer than four earlier ones and a deadline before the day's end; it carries the opportunity's reason, interface and times, expires with the day and counts one try more |
| OperationLaws.UnlimitedIs | src/scheduler.rs:683-695 | without a rate limit a success ends cooldown and backoff, and any other report leaves both |
| OperationLaws.FinishKeeps | src/scheduler.rs:597-709 | whatever is reported, the interface has nothing pending afterwards and keeps its latch, and all that no report is about stays as it was |
| TriggerRuns.OneTriggerPerEpisode | src/scheduler.rs:280-360 | on each day an interface arms at most once more than it was seen to recover, over all interleavings and crashes |
| TriggerRuns.LatchesAfterOp | src/scheduler.rs:400-407 | no operation but a health decision touches a latch, and a new day starts with none |
| TriggerRuns.ForgottenLatchArmsAgain | src/scheduler.rs:751-758 | starting under a policy that newly allows no tests forgets the latch, and the next degradation arms again |
| TriggerRuns.StartForgetsLatchIff | src/scheduler.rs:711-758 | a start lets a latched interface arm again exactly if a new day began or the policy newly allows no tests |
| ValidRuns.SavesAreValid | src/scheduler/persistence.rs:433-453 | every state saved or kept in any run passes the store's validation, its slots keep the spacing of the policy it names, and the running state names the policy in force |
| ValidRuns.StartupWellFormed | src/scheduler.rs:711-762 | starting from any valid state, under any policy, ends in a valid state planned for that policy |
| SchedulerOnDisk.Refinement | src/scheduler.rs:208-230 | every run of the scheduler over its files has an abstract run with the same state, history and clock, whose recovery set covers every state a start may find |
| SchedulerOnDisk.AdmissionsSurviveOnDisk | src/scheduler.rs:574-595 | after any run, interrupted anywhere, an accepted start finds a provider that holds every acknowledged start of its own day or later and knows the latest of all |
| SchedulerOnDisk.SpacingHoldsOnDisk | src/scheduler.rs:864-876 | spacing, with interruptions at any file action and power losses |
| SchedulerOnDisk.DailyCapHoldsOnDisk | src/scheduler.rs:830-849 | the daily cap, likewise, with a forward clock |
| SchedulerOnDisk.DeadlinesAreHonouredOnDisk | src/scheduler.rs:607-621 | rate-limit deadlines, likewise |
| SchedulerOnDisk.OneTriggerPerEpisodeOnDisk | src/scheduler.rs:280-360 | one trigger per episode, likewise, under policies that allow some test |
| SchedulerRecovery.SavesAreNeverRejected | src/scheduler/persistence.rs:274-296 | after any run over the files, every save of every operation is of a valid store and is carried out, unless record numbers have run out |
| SchedulerRecovery.StartsAreNeverRejected | src/scheduler.rs:208-230 | so is the save of every start |
| SchedulerRecovery.BeginIsCalmIff | src/scheduler.rs:208-230 | whether a start is calm, from what it finds: disk, clock and policy; for a start that saves, exactly |
| SchedulerRecovery.EveryCalmCrashRecoversOnDisk | src/scheduler/persistence.rs:124-162 | in every run of the scheduler whose starts were calm, cut short at any file action, a later start is accepted exactly if the ledger does not end in an incomplete line |
| SchedulerRecovery.MidnightDuringInstallation | src/scheduler/persistence.rs:141-158 | a run of two starts on two days, each stopped before its snapshot: no test was started and every later start is refused |
| Scheduler.OldestEligiblePendingTrigger | src/scheduler.rs:904-923 | the loop finds an eligible pending trigger that is oldest, the first name among equals, or none exactly if there is none |
| Scheduler.Scheduler.Start | src/scheduler.rs:208-230 | the provider becomes what starting specifies and is saved unless nothing changed and the snapshot is current |
| Scheduler.Scheduler.Reconcile | src/scheduler.rs:711-762 | reconciling makes of any found state, or none, what the specification says, and reports whether that differs |
| Scheduler.Scheduler.ReconcileDay | src/scheduler.rs:794-807 | moving to a new day |
| Scheduler.Scheduler.AdvanceClock | src/scheduler.rs:764-792 | a clock that ran back changes and saves nothing |
| Scheduler.Scheduler.ObserveInterfaceHealth | src/scheduler.rs:272-361 | a health decision with its saves, or the first failed one and a poisoned store |
| Scheduler.Scheduler.PollInterfaces | src/scheduler.rs:373-548 | polling with its saves and its opportunity, or the first failed save |
| Scheduler.Scheduler.PreflightManual | src/scheduler.rs:550-572 | a manual test is allowed exactly if nothing blocks it and the clock did not run back |
| Scheduler.Scheduler.ReserveRun | src/scheduler.rs:574-595 | a reservation is admitted exactly if nothing blocks it on its day, counts only once saved, and returns the day's number of starts |
| Scheduler.Scheduler.FinishAttempt | src/scheduler.rs:597-709 | a report with its save |
| Scheduler.Scheduler.NextBackoff | src/scheduler.rs:817-828 | the jittered exponential backoff, with the step and random state it moves on |
| CsvFraming.RecoverTrailingRecord | src/journal.rs:298-359 | the scan keeps, cuts or refuses a segment's text as specified |
| CsvFraming.EncodedIsRow | src/journal.rs:173-189 | any cells, line breaks and quotes included, are written as one row of so many cells, if the last holds no line break |
| CsvFraming.WholeIsKept | src/journal.rs:316-341 | a text of whole rows is kept as it is |
| CsvFraming.TornRowIsCut | src/journal.rs:334-352 | part of a row after whole ones is cut, unless it ends in a line break, and the line break before it stays |
| CsvFraming.BrokenRowIsRefused | src/journal.rs:330-341 | part of a row that ends in a line break within quotes is refused |
| CsvFraming.LineFeedMayLack | src/journal.rs:306-309 | a row that lacks only its line feed counts and is kept |
| CsvFraming.RecoveryKeepsWholeRows | src/journal.rs:298-359 | after an append cut anywhere, recovery keeps all earlier rows and whole rows of the batch and only cuts, or refuses exactly if the text ends in a line break within quotes |
| CsvFraming.SettledIsKept | src/journal.rs:298-359 | what recovery leaves, recovery would leave again |
| RotatingRuns.OnlyTheMarkedSegmentIsTorn | src/journal/output.rs:217-278 | at every point of every run all segments but the marked one are whole and durable, and the marker names an existing segment with the header |
| RotatingRuns.RecoveryIsSafe | src/journal/output.rs:181-207 | on every reachable directory recovery refuses exactly if the marked segment ends in a line break within quotes; otherwise it may be cut short anywhere and leaves nothing torn |
| RotatingRuns.OpeningSucceedsUnlessBroken | src/journal/output.rs:39-97 | after any run opening is refused, changing nothing, exactly if the marked segment ends in a line break within quotes, and goes through otherwise |
| RotatingRuns.BrokenSegmentIsTorn | src/journal.rs:330-341 | what is refused holds its acknowledged batches and part of one failed batch |
| RotatingRuns.CutInQuotesIsNeverOpenedAgain | src/journal.rs:330-341 | for any batch and any cut right after a line break within quotes, a run that leaves the directory refused |
| RotatingRuns.StuckForever | src/journal/output.rs:181-207 | and whatever happens then, it stays refused and the segment as it is |
| RotatingRuns.OneLineBreakIsEnough | src/journal.rs:330-341 | such a batch and cut exist: a cell of one line break |
| RotatingRuns.StagingNeverHoldsEvents | src/journal/output.rs:254-258 | at no point of any run is the staging file another name of a segment that was given a batch, so cutting it loses nothing |
| RotatingRuns.OneAppendOnlyLog | src/journal/output.rs:115-154 | segments in order hold exactly the acknowledged batches, each in one segment with one header, and at most whole rows of one failed batch at the end of a session that failed |
| RotatingRuns.LargeSegmentsHoldOneBatch | src/journal/output.rs:130-135 | a segment longer than the limit was given one batch at most |
| RotatingRuns.SegmentsShareADate | src/journal/output.rs:129-143 | with a forward clock all batches of a segment share one UTC date |
| RotatingRuns.RotatesIffDue | src/journal/output.rs:130-135 | what the object remembers decides rotation as its directory does: exactly if the date is later or a segment that was given a batch has no room |
| RotatingRuns.RoomIsUsed | src/journal/output.rs:146-153 | after any run, a segment with room on its own date is kept: the batch is added to it, durably, and no other file is touched |
| RotatingRuns.DueRotates | src/journal/output.rs:135-153 | otherwise the batch is the first of a new, marked segment, and every other segment stays as it is |
| Journal.RotatingWriter.Recover | src/journal/output.rs:181-207 | recovery follows its plan up to the first action that fails; a missing or foreign marked segment is refused and nothing is created |
| Journal.RotatingWriter.FreshName | src/journal/output.rs:238-253 | the retry loop ends with the first name of the millisecond that is not taken |
| Journal.RotatingWriter.CreateSegment | src/journal/output.rs:217-278 | a segment is created under such a name, following the publication plan up to the first failure |
| Journal.RotatingWriter.OpenAt | src/journal/output.rs:39-97 | recovery, then a new segment |
| Journal.RotatingWriter.AppendBatchAt | src/journal/output.rs:104-154 | rotation if due, then the batch and its sync; any failure poisons the object, and a poisoned one writes nothing |
| RunCoordinator.StoriesAreTrees | src/journal.rs:491-564 | in every journal the coordinator can have written, the active runs are an acyclic tree under one session with every parent active |
| RunCoordinator.NumbersHaveNoGaps | src/journal.rs:427-439 | events of a session are numbered 1, 2, 3, ... without gaps |
| RunCoordinator.ChildrenFinishFirst | src/journal.rs:539-564 | a child started before its parent finished has finished before it |
| RunCoordinator.OutputCoordinator.PublishBatch | src/journal.rs:421-449 | a batch is appended whole, numbered and annotated, or not at all; a failed append ends publication for good, exhausted numbers do not |
| RunCoordinator.OutputCoordinator.StartSession | src/journal.rs:451-465 | a session starts only when no run is active, and its first event is number 1 |
| RunCoordinator.OutputCoordinator.StartRun | src/journal.rs:467-537 | a run starts only below an active parent and under its root |
| RunCoordinator.OutputCoordinator.FinishRun | src/journal.rs:539-564 | a run ends only when active and without active children, and fails for no other reason than a failed write or exhausted numbers |
| RunCoordinator.OutputCoordinator.FinishSession | src/journal.rs:566-583 | with an error the drain ends, finishes only runs that were active, and leaves none unless a write failed or numbers ran out |
| RunCoordinator.FirstLeaf | src/journal.rs:573-578 | the least active run below the session without active children, or none exactly if there is none |
| UploadDriver.EndsInTwelveSeconds | src/bandwidth.rs:873-902 | nothing happens later than twelve seconds after the start, but for the timer's own delay at the two deadlines |
| UploadDriver.SilenceEndsIt | src/bandwidth.rs:892-902 | from any point the timer alone ends the transfer by then, with a close timeout |
| UploadDriver.UploadTakesTenSeconds | src/bandwidth.rs:873-902 | the timer begins the closing no sooner than ten seconds after the start, and does not end the transfer then |
| UploadDriver.ClosingBegins | src/bandwidth.rs:894-930 | only the timer or the peer's close begins the closing; it is reported once and gets two seconds |
| UploadDriver.ClosingTakesTwoSeconds | src/bandwidth.rs:892-902 | however the closing began, the timer ends it no sooner than two seconds later, with a close timeout |
| UploadDriver.BytesAreCounted | src/bandwidth.rs:941-957 | sent bytes are the accepted bulk frames' sum up to saturation, every frame is a power of two within bounds, the size beyond the first is at most an eighth of what was sent, and one close frame is sent at most |
| UploadDriver.NextSizeFits | src/bandwidth.rs:1519-1528 | the next size stays a power of two within bounds and in proportion |
| UploadDriver.SizeDoublesIff | src/bandwidth.rs:1519-1528 | a size doubles exactly if it is below the largest and at least sixteen times one byte more than it was sent |
| UploadDriver.NoBulkAfterClosing | src/bandwidth.rs:885-891 | once closing began no bulk frame is taken, and once the peer closed no frame at all |
| UploadDriver.OneFrameUnflushed | src/bandwidth.rs:842-864 | between two frames that are taken there is a flush |
| UploadDriver.MeasurementsAdvance | src/bandwidth.rs:906-924 | reported measurements strictly advance in time and never lose bytes, and clean-up once reported is final |
| UploadDriver.TextIsRetained | src/bandwidth.rs:906-924 | a text's measurement is retained exactly if it is one of the server's about the upload, with a later time and no fewer bytes than the last; every text is reported |
| UploadDriver.SuccessNeedsAClose | src/bandwidth.rs:925-940 | the transfer succeeds exactly if the peer sent a close and then ended the stream |
| UploadDriver.TransferUpload | src/bandwidth.rs:866-966 | the loop over its flags ends as the event-by-event specification does, with the same measurement, error and reports |
| HealthWindow.SnapshotIsRight | src/health.rs:153-180 | a snapshot counts attempts, successes and loss, and its percentile is the least round-trip time that at least 95 percent do not exceed |
| HealthWindow.P95IsUnique | src/health.rs:166-172 | there is only one such value |
| HealthWindow.SnapshotIsUnique | src/health.rs:153-180 | a snapshot is determined by its samples |
| HealthWindow.ReasonIs | src/health.rs:182-197 | with enough samples a window degrades exactly if its loss or its round-trip times reach their threshold, and the reason names which |
| HealthWindow.RecoveringIs | src/health.rs:199-207 | a round counts towards recovery exactly if it has samples, loses less than the recovery threshold and, where round-trip times matter, was measured and is fast enough |
| HealthWindow.HealthWindow.ObserveRound | src/health.rs:104-146 | from the retained rounds and counters alone, each decision is what the whole history says; a degraded window always has its reason |
| HealthWindow.HealthWindow.Push | src/health.rs:106-109 | the retained rounds are exactly the last of the history, as many as the window holds |
| HealthWindow.RecoveryEndsADegradation | src/health.rs:127-138 | a recovery follows a degradation, in force ever since, and enough recovery rounds in a row after it |
| HealthWindow.RecoveryIsPrompt | src/health.rs:133-137 | no earlier round already had enough of them |
| HealthWindow.RecoveriesAlternate | src/health.rs:114-138 | between two recoveries a degradation begins |
| FairSelector.BestIsLeast | src/interfaces.rs:125-139 | the choice is eligible and comes before every other eligible interface; there is none exactly if none is eligible |
| FairSelector.SpreadNeverGrows | src/interfaces.rs:125-147 | repeated selection keeps the spread of attempts within its start, or one |
| FairSelector.SpreadReachesOne | src/interfaces.rs:125-147 | after as many selections as attempts are missing the spread is at most one, for good |
| FairSelector.RoundRobin | src/interfaces.rs:113-147 | from fresh with all eligible, selection k is interface k modulo their number, in configuration order |
| FairSelector.FairInterfaceSelector.Choose | src/interfaces.rs:125-139 | the selected name is the least by attempts, last turn and position |
| FairSelector.FairInterfaceSelector.RecordAttempt | src/interfaces.rs:141-147 | one attempt of one interface is counted, saturating; turns wrap; unknown names change nothing |
| Redaction.Sanitize | src/model.rs:413-449 | the nested loops end, and compute the specified text |
| Redaction.SanitizeKey | src/model.rs:422-447 | one key's loop, which edits the text in place, ends and computes that key's pass |
| Redaction.SanitizedIsRedacted | src/model.rs:413-449 | in the result every key not led by an alphanumeric is followed by exactly the marker up to a delimiter or the end, for every key |
| Redaction.SanitizedKeepsTheRest | src/model.rs:413-449 | nothing but what follows a key up to the next delimiter or the end is ever replaced; all else stays in place |
| Redaction.PassKeepsRedacted | src/model.rs:422-447 | a later key's pass never undoes an earlier key's |
| Redaction.UnchangedIffRedacted | src/model.rs:413-449 | a text is left alone exactly if every key in it is already redacted |
| Redaction.Idempotent | src/model.rs:413-449 | a second application changes nothing |

## Left out

- SchedulerOnDisk.Refinement: follows one provider through the store; a state file shared by several provider names, each with its own policy, is not followed.
- SchedulerRecovery.EveryCalmCrashRecoversOnDisk: asks of a start that finds nothing to save that its snapshot be synced too, because the next save relies on it.
- Persistence.FileSystem.AtomicWrite: writing and syncing the temporary file is one step with its rename, because no start reads that file.
- Scheduler.Scheduler.ObserveInterfaceHealth: the event records it returns beside its effect.
- Scheduler.Scheduler.PollInterfaces: likewise.
- Scheduler.Scheduler.PreflightManual: likewise, the record of why a test is blocked.
- Scheduler.Scheduler.FinishAttempt: likewise, and the timing it adds to its report.
- SchedulerOnDisk.AdmissionsSurviveOnDisk: an operation whose save fails ends its process, as the commands do; a poisoned scheduler used further is covered by FailedSaveWritesNoMore alone.
- SlotPlanner.PlanInterval: durations are whole milliseconds; policies with sub-millisecond spacing are not modelled.
- ValidRuns.SavesAreValid: clocks within the last day of the calendar are excluded, because there adding a duration saturates.
- FairSelector.RoundRobin: up to the 2^64 - 1 selections after which the turn counter wraps.
- CsvFraming.RecoverTrailingRecord: characters stand for bytes and every row is valid UTF-8, as all that is written is; the last cell of a row, an operating system error code, holds no line break.
- RotatingRuns.OneAppendOnlyLog: the size limit is fixed for a run; the fixed-file journal is not modelled.
- HealthWindow.SnapshotIsRight: round-trip times and loss are real numbers, so floating-point rounding is not modelled.
- UploadDriver.TransferUpload: the socket and the timer are a script of events; no frame is lost or reordered by the library below.
- RunCoordinator.OutputCoordinator.Publish: callers publish measurements only; nothing in the source stops one from publishing a run's start or end by hand.
- Redaction.Sanitize: characters stand for bytes, which agree on ASCII keys and delimiters; the Unicode alphabet is a parameter.
- File locks, symbolic links and other processes: a single owner is assumed.
- The bytes of JSON and of SHA-256: replaced by the laws stated above.
- Messages and console output.
- Network code, asynchronous orchestration, signals, configuration parsing and release scripts.
- Counters that saturate at 64 bits beyond those named above, and 32-bit saturation of the number of starts in a day.
