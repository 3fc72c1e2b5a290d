# TicketDesk lifecycle campaign: a verified model

The TicketDesk lifecycle campaign drives seven faults against one monotonic clock. Fenced
state machines sample the server, keep resource accounts, back up and restore it, and write
evidence streams. A second set of checkers, written independently, must later accept those
streams. This project models both sides in Dafny and proves, for every sequence of calls and
every answer of the outside world, what the machines keep and exactly when the checkers
accept what they wrote. It also covers the repository's ownership globs, its reverse
dependency closure, and the generated client's ticket codec.

`dafny verify dfyconfig.toml` verifies the whole project.

## How it is built

- Every state machine has a value model (a `State`, one function per call that returns
  `None` on refusal, and `Run` over a call sequence) and a class with the source's fields.
  Each method of the class is proved to take exactly the model's step, to fail on a refusal,
  and to refuse everything once failed. Whole-run results are lemmas about the model.
- A `Story` module says of a machine which call sequences it comes through unfailed, without
  naming its state, and proves that description exact (`UnfailedIff`). A `Record` module traces
  every stored value to the call that brought it.
- Every offline checker that loops over a stream is a method with the source's loops, proved
  to accept exactly what a declarative predicate describes; a check of one record is a
  predicate. Agreement results then compare that predicate with what the producer's runs
  leave behind.
- Files, replies, process readings and clock instants are inputs; a run ranges over all of them.

## Modules

- `Prelude`, `Windows`: shared vocabulary and the 255 s against 300 s argument.
- `LogTail`, `NativeSampler`, `EpochModel`, `EpochHistory`, `EpochInvariant`, `EpochCheckers`,
  `EpochAcceptance`, `EpochStory`, `EpochController`, `EpochTail`, `EpochRuns`, `EpochProgress`:
  native epochs, the checkers of their streams, and whole runs that pass or fail them.
- `Maintenance`, `MaintenanceStory`, `RestoreClock`, `RestoreStory`, `RestoreEvidence`,
  `Quiescence`, `HandoverRecord`, `HandoverStory`, `Handover`, `RestoreRun`, `RestoreScript`,
  `RestoreFault`, `RestoreExamples`, `Releases`, `Campaigns`: the restore protocol, worker
  handovers, their evidence, and the campaign of seven faults.
- `Interference`, `InterferenceStory`, `DiskWalk`, `DiskSamples`, `DiskStory`, `Roster`,
  `RosterRuns`, `RosterRecord`, `RosterStory`, `RosterOwner`, `Progress`, `ProgressExamples`,
  `ObserverSamples`, `ObserverStory`, `LoadWindows`: samplers, resource accounts, progress and
  load windows.
- `Prefix`: the acknowledged prefix and its digest.
- `Globs`, `Dependents`: ownership globs and reverse dependents.
- `WireUuid`, `WireTicket`: the ticket codec.

## Where producers and checkers differ

These are properties of the code, each proved with the exact condition under which the two
sides agree.

- The epoch controller lets two transitions share an instant, keeps up to 86400 native rows
  and does not insist on a component sample after the last transition. The checkers want
  strictly later transitions, at most 4096 native rows and such a sample
  (`EpochAcceptance.CutsAcceptedIff`). For every campaign length there is a finished run that
  fails in each of the three alone (`EpochRuns.TiedTransitions`, `EpochRuns.ManyNatives`,
  `EpochRuns.LateRestore`), and one that passes (`EpochRuns.AcceptedRun`).
- Nor does that controller mind a native sampler that falls silent, or a deployment that brings
  another projection. The progress check takes neither, so it accepts a finished run's native
  rows exactly when they are at most 4096, never silent for longer than 255 s, and all of one
  projection (`EpochProgress.NativesAccepted`, `EpochProgress.SilentRunRefused`,
  `EpochProgress.RenamedRunRefused`).
- The restore clock takes a backup operation begun before the acknowledgements were bound,
  and with a planned loss inside a second it takes a loss before its own plan. The receipt
  checker takes neither (`RestoreEvidence.ReceiptAcceptedIff`, `RestoreEvidence.ClockIsWeaker`).
  The controller's own order of calls avoids both (`RestoreFault.OutcomeJudged`).
- Nothing in the handover makes the sight of reads strictly earlier than the loss, which the
  read-admission checker wants (`RestoreRun.AdmissionAcceptedIff`,
  `RestoreExamples.LateReadingRefused`). On the controller's path only an equal clock reading is
  left of that gap (`RestoreFault.OutcomeJudged`, `RestoreExamples.TiedReadingRefused`).
- The first-write checker wants generation 6, and the reconciler asks the read-admission checker
  for the generation before the campaign's last. The timeline takes the faults in any order, but
  both checks can only pass when no releasing fault is planned after the restore
  (`Releases.RestoreReleasesLastIff`, `Campaigns.Campaign`). Every other plan has a campaign that
  comes through and fails both (`Campaigns.EarlyRestoreRefused`).
- The observer's samples may share an instant and may fall silent. The progress check takes
  neither (`ObserverSamples.RunAcceptedIff`, `ObserverSamples.SharedInstantRefused`,
  `ObserverSamples.SilenceRefused`).
- The disk sampler takes an ordinary sample at or after the campaign's end, and then
  completes; the reconciler refuses such rows (`DiskSamples.CompletedAcceptedIff`,
  `DiskSamples.LateSampleRefused`).
- The generated client accepts identifier texts that are not canonical: dashes elsewhere,
  capital digits, a plus sign for a leading zero. Decoding returns the canonical text
  (`WireUuid.FormatParseIff`, `WireUuid.PlusAccepted`).

## Assumptions stated in contracts

- A child's lifetime address-space bound is at least the ceiling enforced on it
  (`RosterRuns.BornUnderCeiling`), as the launcher computes it, and a child once gone never runs again.
- Backup inventories are dictionaries, so names do not repeat
  (`RestoreClock.NamesDiffer`).
- SHA-256 is an arbitrary function of the concatenated bytes (`sha` in `Prefix`), and an
  opaque text elsewhere.
- A maintenance operation shown to the restore clock was produced by some sequence of its own
  calls (`RestoreClock.RealOperation`); a disk account by some tree (`DiskSamples.Real`).
- The file-name matcher of one path segment is an arbitrary relation (`Globs.Fits`).

## Model

| member | source | states |
|---|---|---|
| `Windows.DenseCovers` | scripts/lib/ticketdesk_lifecycle_campaign_resource_reconciliation.py:160-173 | instants with no silence over 255 s, up to the end of the last window, put a sample in every 300 s window; shared by all samplers and reconcilers |
| `Interference.Census` | scripts/lib/ticketdesk_lifecycle_campaign_interference.py:32-69 | the directory scan answers exactly when owners, scan bound and competitor bound admit it, and its second bound never refuses |
| `Interference.CensusWithinInventory` | scripts/lib/ticketdesk_lifecycle_campaign_interference.py:139-140 | every census that answers meets the inventory bounds the reconciler demands |
| `Interference.QuietCensus` | scripts/lib/ticketdesk_lifecycle_campaign_interference.py:59-66 | a census reports no competitor exactly when it saw no heavy process outside the owners |
| `Interference.CompetitorsMeant` | scripts/lib/ticketdesk_lifecycle_campaign_interference.py:55-64 | exactly the heavy processes outside the owners are reported, each as it was last seen |
| `Interference.CensusCounts` | scripts/lib/ticketdesk_lifecycle_campaign_interference.py:59-69 | the counts are those of the distinct processes running, of the owners, all of them running, and of the entries found gone |
| `Interference.Sampler.PollOnce` | scripts/lib/ticketdesk_lifecycle_campaign_interference.py:91-119 | a due poll adds one quiet census of the same boot, or fails the sampler for good; a written row is never lost |
| `Interference.Reconcile` | scripts/lib/ticketdesk_lifecycle_campaign_interference.py:122-151 | the offline loop accepts exactly the declared row sequences and counts the samples of every window |
| `Interference.RowBoundUnreachable` | scripts/lib/ticketdesk_lifecycle_campaign_interference.py:98-100 | 5 s spacing makes the 17281 row bound unreachable |
| `Interference.CompletedRunAccepted` | scripts/lib/ticketdesk_lifecycle_campaign_interference.py:91-151 | every unfailed sampling polled to or past the end yields rows the reconciler accepts |
| `InterferenceStory.UnfailedIff` | scripts/lib/ticketdesk_lifecycle_campaign_interference.py:91-119 | the sampler comes through unfailed exactly on the polls described without its state, and then holds one row for each sample taken |
| `Interference.QuietHostPasses` | scripts/lib/ticketdesk_lifecycle_campaign_interference.py:91-151 | for every campaign length and every host without heavy outsiders, however many ordinary processes it runs, a campaign that completes and is accepted |
| `Interference.NoisyHostRefused` | scripts/lib/ticketdesk_lifecycle_campaign_interference.py:108-116 | one heavy process outside the owners, and the first sample already refuses |
| `LogTail.ReadLine` | scripts/lib/ticketdesk_lifecycle_campaign_native_epochs.py:329-330 | a bounded read returns a prefix of what is left, no longer than the bound |
| `LogTail.FamilyIff` | scripts/lib/ticketdesk_lifecycle_campaign_native_epochs.py:342-345 | a line is of a component exactly when its bytes begin with that component's prefix written out, and of none when they begin with none of the four |
| `LogTail.LinesUnique` | scripts/lib/ticketdesk_lifecycle_campaign_native_epochs.py:327-349 | a text has at most one reading as newline-terminated lines |
| `LogTail.ScanIsExact` | scripts/lib/ticketdesk_lifecycle_campaign_native_epochs.py:327-349 | one poll consumes whole lines that are exactly the bytes passed over, at most one record per family, and its end says what is left |
| `LogTail.TailIsExactlyOnce` | scripts/lib/ticketdesk_lifecycle_campaign_native_epochs.py:305-349 | over any interleaving of appends and polls the consumed lines are precisely the complete lines since the bind offset: none lost, repeated or reordered |
| `LogTail.Drain` | scripts/lib/ticketdesk_lifecycle_campaign_native_epochs.py:305-349 | draining a file that no longer grows ends: with nothing left but a tail that holds no newline, at a line longer than 4096 bytes, or after a poll of 64 lines with more behind them |
| `EpochInvariant.InitialInv` | scripts/lib/ticketdesk_lifecycle_campaign_native_epochs.py:65-96 | a fresh controller satisfies the invariant every call keeps |
| `EpochInvariant.StepInv` | scripts/lib/ticketdesk_lifecycle_campaign_native_epochs.py:160-410 | every accepted call keeps counts, floors, cuts, peaks, attempts, log custody and clock consistent |
| `EpochInvariant.RunInv` | scripts/lib/ticketdesk_lifecycle_campaign_native_epochs.py:160-410 | so does every unfailed call sequence |
| `EpochInvariant.TransitionInv` | scripts/lib/ticketdesk_lifecycle_campaign_native_epochs.py:160-213 | a transition records exact prefix counts and sums, carries the floors over and opens the next epoch |
| `EpochHistory.HistoryRow` | scripts/lib/ticketdesk_lifecycle_campaign_native_epochs.py:221-231 | a row admitted above its floor keeps the whole component history in its epochs and above its cuts |
| `EpochHistory.NativeEpoch` | scripts/lib/ticketdesk_lifecycle_campaign_native_epochs.py:196-213 | opening an epoch at the current native count and attempt sum keeps every native cut exact |
| `EpochCheckers.CheckTransitions` | scripts/lib/ticketdesk_lifecycle_campaign_reconciliation.py:47-82 | the mixed-stream loop accepts exactly the twelve-row streams in plan order with bounded custody, and returns their transitions |
| `EpochCheckers.CheckProviderEpochs` | scripts/lib/ticketdesk_lifecycle_campaign_reconciliation.py:141-207 | accepts exactly the transitions and provider rows with matching cuts, peaks, gaps and coverage, and returns the true peak |
| `EpochCheckers.CheckHistory` | scripts/lib/ticketdesk_lifecycle_campaign_reconciliation.py:111-138 | accepts exactly the component rows that stay in their epoch and fall below no floor or prior cursor |
| `EpochCheckers.CheckNative` | scripts/lib/ticketdesk_lifecycle_campaign_reconciliation.py:92-110 | accepts exactly the native rows that fall in their epoch with exact prefix attempts at every cut |
| `EpochCheckers.CheckCuts` | scripts/lib/ticketdesk_lifecycle_campaign_reconciliation.py:85-138 | the whole join accepts exactly when all four streams do |
| `EpochAcceptance.StreamAccepted` | scripts/lib/ticketdesk_lifecycle_campaign_native_epochs.py:123-213 | a state reached with deploy, restart, kill and restore and its log bound has written a stream the transition checker accepts |
| `EpochAcceptance.CutsAcceptedIff` | scripts/lib/ticketdesk_lifecycle_campaign_reconciliation.py:85-207 | provider and cut checkers accept a finished controller's rows exactly when transitions are strictly later, native rows are at most 4096, and every component was observed after the last transition |
| `EpochAcceptance.EarlyRestoreObservesAll` | scripts/lib/ticketdesk_lifecycle_campaign_native_epochs.py:392-413 | the last of those facts follows when the last transition is more than 275 s before the end |
| `EpochAcceptance.FinishedRunAccepted` | scripts/lib/ticketdesk_lifecycle_campaign_native_epochs.py:160-413 | both results for every unfailed call sequence from a fresh controller to its finish |
| `EpochAcceptance.CursorFallIsDeclared` | scripts/lib/ticketdesk_lifecycle_campaign_native_epochs.py:195-201 | cursor by cursor over the whole history: the logical head never falls, the other durable cursors fall only at a restore, what belongs to the process only where a server was replaced, and always at the very first row of that epoch |
| `EpochAcceptance.SilenceBounded` | scripts/lib/ticketdesk_lifecycle_campaign_native_epochs.py:392-413 | no component is silent for longer than its own gap from the origin on, nor to the end once finished |
| `EpochStory.ReadingIff` | scripts/lib/ticketdesk_lifecycle_campaign_native_epochs.py:221-231 | a reading is taken exactly when the rows and the opening transition so far let it be that component's next row; it then is, and no other component gains one |
| `EpochStory.NativeIff` | scripts/lib/ticketdesk_lifecycle_campaign_native_epochs.py:372-390 | a native sample is taken exactly from the current owners, in time, when the native rows and the opening transition so far let it be the next row |
| `EpochAcceptance.LinesBecomeRows` | scripts/lib/ticketdesk_lifecycle_campaign_native_epochs.py:342-349 | before the end, a poll's lines become exactly the rows of their readings, for each component those of the lines whose bytes begin with its prefix, in order, none dropped or doubled |
| `EpochTail.RowsAreLogLines` | scripts/lib/ticketdesk_lifecycle_campaign_native_epochs.py:253-349 | over every run from a binding on, with a log that only grows: the rows each component gained are exactly the readings of the log's lines, between the bound offset and the reader's place, that begin with its prefix; that text can be cut into lines in no other way |
| `EpochRuns.AcceptedRun` | scripts/lib/ticketdesk_lifecycle_campaign_native_epochs.py:160-413 | for every campaign length and every projection deployed some call sequence finishes on the planned epochs and all three checkers accept it |
| `EpochRuns.TiedTransitions` | scripts/lib/ticketdesk_lifecycle_campaign_native_epochs.py:98-102 | for every campaign length a finished run, accepted by the transition checker, is refused by the other two because deployment and restart share an instant, and for nothing else |
| `EpochRuns.ManyNatives` | scripts/lib/ticketdesk_lifecycle_campaign_native_epochs.py:373-378 | likewise refused only because more than 4096 native rows were written |
| `EpochRuns.LateRestore` | scripts/lib/ticketdesk_lifecycle_campaign_native_epochs.py:161-213 | likewise refused only because no component was observed after the restore |
| `EpochProgress.RunTraced` | scripts/lib/ticketdesk_lifecycle_campaign_native_epochs.py:372-390 | over every call sequence each native row continues its own sampler's life, rows of the first release name the first projection, and later ones the deployed one |
| `EpochProgress.NativesAccepted` | scripts/lib/ticketdesk_lifecycle_campaign_progress_reconciliation.py:72-97 | the native loop of the progress check accepts a finished controller's rows exactly when they are at most 4096, no silence from the origin to the end exceeds 255 s, and the projection asked for is both the first and the deployed one |
| `EpochProgress.SteadyRunAccepted` | scripts/lib/ticketdesk_lifecycle_campaign_progress_reconciliation.py:72-97 | for every campaign length a finished run that the epoch checkers and the native loop all accept |
| `EpochProgress.SilentRunRefused` | scripts/lib/ticketdesk_lifecycle_campaign_native_epochs.py:404-413 | for every campaign length a finished run, accepted by all epoch checkers, that the native loop refuses only for the sampler's silence at the end |
| `EpochProgress.RenamedRunRefused` | scripts/lib/ticketdesk_lifecycle_campaign_native_epochs.py:160-213 | for every campaign length and every other projection deployed a finished run, accepted by all epoch checkers and never silent, that the native loop refuses whichever projection it is asked for |
| `EpochController.Controller.ObserveComponent` | scripts/lib/ticketdesk_lifecycle_campaign_native_epochs.py:221-231 | a reading is appended exactly when it meets its floor and its collector admits it |
| `EpochController.Controller.Observe` | scripts/lib/ticketdesk_lifecycle_campaign_native_epochs.py:215-219 | a component line counts only from the current owners on a clock that never goes back; any refusal fails the controller for good |
| `EpochController.Controller.ObserveNative` | scripts/lib/ticketdesk_lifecycle_campaign_native_epochs.py:372-390 | a native sample is written exactly when it is strictly later, continues its sampler, fits the release and meets the carried floors; any refusal fails the controller for good |
| `EpochController.Controller.MakeTransition` | scripts/lib/ticketdesk_lifecycle_campaign_native_epochs.py:160-213 | an epoch closes exactly when every component and the sampler were observed in it and the owners were replaced as its kind demands; any refusal fails the controller for good |
| `EpochController.Controller.BindLog` | scripts/lib/ticketdesk_lifecycle_campaign_native_epochs.py:253-287 | a log is bound once per server, the first at its end and every successor at byte zero; any refusal fails the controller for good |
| `EpochController.Controller.PollLog` | scripts/lib/ticketdesk_lifecycle_campaign_native_epochs.py:305-349 | takes the specified step, reporting whether the log was drained, or fails for good |
| `EpochController.Controller.AfterRead` | scripts/lib/ticketdesk_lifecycle_campaign_native_epochs.py:289-303 | a retired log is closed exactly when nothing is left or a killed server left a partial tail |
| `EpochController.Controller.CheckGaps` | scripts/lib/ticketdesk_lifecycle_campaign_native_epochs.py:392-402 | polls an open log first and then holds every component to its gap |
| `EpochController.Controller.Finish` | scripts/lib/ticketdesk_lifecycle_campaign_native_epochs.py:404-413 | completes exactly when every collector finishes and the last epoch has native rows |
| `LogTail.ReadLines` | scripts/lib/ticketdesk_lifecycle_campaign_native_epochs.py:327-349 | the bounded read loop returns exactly the scan of the poll, from any point of it |
| `EpochController.ObserveRead` | scripts/lib/ticketdesk_lifecycle_campaign_native_epochs.py:347-349 | the lines of a poll are observed in order, refusing at the first that is refused |
| `Maintenance.RunKeeps` | scripts/lib/ticketdesk_lifecycle_campaign_maintenance.py:26-109 | over every reply sequence: one mutation first and alone, at most 16 polls of one operation, identity and hash fixed once known, phases never back, complete exactly on success |
| `Maintenance.OneMutation` | scripts/lib/ticketdesk_lifecycle_campaign_maintenance.py:84-109 | of the commands issued exactly the first is a mutation, and at most 16 follow |
| `MaintenanceStory.UnfailedIff` | scripts/lib/ticketdesk_lifecycle_campaign_maintenance.py:26-109 | an operation comes through unfailed exactly on the reply histories described without its state: order of calls, clock, agreement of identities, hashes and phases; and then holds what they say |
| `Maintenance.Operation.StartOnce` | scripts/lib/ticketdesk_lifecycle_campaign_maintenance.py:84-95 | the one mutation is sent at most once and before the deadline, and an unclear answer names the operation without completing it |
| `Maintenance.Operation.PollOnce` | scripts/lib/ticketdesk_lifecycle_campaign_maintenance.py:97-109 | a poll is spent only on a started, named, unfinished operation, and an unavailable answer changes nothing but the clock and the count |
| `Maintenance.Share` | scripts/lib/ticketdesk_lifecycle_campaign_actions.py:272-275 | parts times the share fits the budget, parts times one nanosecond more does not, and the share never takes all of it |
| `Maintenance.PollDueInTime` | scripts/lib/ticketdesk_lifecycle_campaign_actions.py:264-278 | the next poll is always due strictly before the deadline, and exactly one even share of what is left later |
| `Maintenance.BudgetSharedEvenly` | scripts/lib/ticketdesk_lifecycle_campaign_actions.py:272-275 | after k prompt polls at least (17-k) seventeenths of the budget remain, and at most that plus the rounding of k polls |
| `Maintenance.TurnOkIff` | scripts/lib/ticketdesk_lifecycle_campaign_actions.py:269-278 | a turn is taken exactly when it wakes before the deadline and has waited at least one even share of the time left |
| `Maintenance.NoPollTooMany` | scripts/lib/ticketdesk_lifecycle_campaign_actions.py:269-278 | every poll the driver makes is of a started, named, unfinished operation with polls left, and wakes no sooner than its even share of the time then left |
| `Maintenance.Drive` | scripts/lib/ticketdesk_lifecycle_campaign_actions.py:264-280 | the driver leaves exactly the operation its mutation and scheduled polls lead to, makes no poll that is not admitted, none that wakes before one (17-k)th of the time then left has passed, and succeeds exactly on a completed, unfailed one, before the deadline |
| `RestoreClock.BindArtifacts` | scripts/lib/ticketdesk_lifecycle_campaign_restore_clock.py:55-75 | accepts exactly the inventories with every fixed file, only sealed extents besides, a bounded total and the right manifest; returns the true total |
| `RestoreClock.RunKeeps` | scripts/lib/ticketdesk_lifecycle_campaign_restore_clock.py:78-197 | every unfailed call sequence keeps one deadline fixed at the loss, a durable backup before it, an unchanged prefix and ordered phases inside it |
| `RestoreStory.UnfailedIff` | scripts/lib/ticketdesk_lifecycle_campaign_restore_clock.py:78-184 | the clock comes through unfailed exactly on the call sequences described without its state, by their order, their instants and what each repeats of the others; and then holds what they said |
| `RestoreStory.ReceiptTold` | scripts/lib/ticketdesk_lifecycle_campaign_restore_clock.py:186-197 | the receipt handed out repeats the calls: preparation, binding, backup, loss and phases each from the call that brought it, and a deadline 240 s after the loss |
| `RestoreClock.FinishedReceipt` | scripts/lib/ticketdesk_lifecycle_campaign_restore_clock.py:186-197 | every receipt handed out is sound |
| `RestoreClock.HandedOutIff` | scripts/lib/ticketdesk_lifecycle_campaign_restore_clock.py:107-197 | the receipts some call sequence hands out are exactly the sound ones |
| `RestoreClock.RecoveryClock.Begin` | scripts/lib/ticketdesk_lifecycle_campaign_restore_clock.py:107-114 | preparation begins once, within the 120 s before the planned loss; any refusal fails the clock for good |
| `RestoreClock.RecoveryClock.Bind` | scripts/lib/ticketdesk_lifecycle_campaign_restore_clock.py:116-128 | the acknowledged prefix is bound once, before the planned loss and within its bounds; any refusal fails the clock for good |
| `RestoreClock.RecoveryClock.Durable` | scripts/lib/ticketdesk_lifecycle_campaign_restore_clock.py:130-149 | a backup is durable exactly when its finished operation lies between preparation and plan and its inventory binds; any refusal fails the clock for good |
| `RestoreClock.RecoveryClock.Lose` | scripts/lib/ticketdesk_lifecycle_campaign_restore_clock.py:151-168 | the loss is taken exactly in the planned second with the bound prefix and manifest unchanged, and fixes the deadline; any refusal fails the clock for good |
| `RestoreClock.RecoveryClock.Watch` | scripts/lib/ticketdesk_lifecycle_campaign_restore_clock.py:170-175 | an unknown poll only consumes the deadline, and says what is left of it |
| `RestoreClock.RecoveryClock.Advance` | scripts/lib/ticketdesk_lifecycle_campaign_restore_clock.py:177-184 | a phase is taken exactly when it continues one of the two admitted orders in time |
| `RestoreClock.RecoveryClock.Conclude` | scripts/lib/ticketdesk_lifecycle_campaign_restore_clock.py:186-197 | hands out the receipt of the state it completes |
| `RestoreEvidence.ValidateClock` | scripts/lib/ticketdesk_lifecycle_campaign_restore_evidence.py:93-153 | the receipt check accepts exactly the declared receipts |
| `RestoreEvidence.ReceiptAcceptedIff` | scripts/lib/ticketdesk_lifecycle_campaign_restore_evidence.py:93-153 | a sound receipt is accepted exactly when the nine facts only the check demands hold: whole-second plan, covering action, bounded commands, named backup begun after binding and answered by the durable instant, writes last and on time |
| `RestoreEvidence.ClockIsWeaker` | scripts/lib/ticketdesk_lifecycle_campaign_restore_clock.py:135-157 | two of those facts do fail on receipts some call sequence hands out: a backup begun before the prefix was bound, refused on its own plan, and a loss before its own plan, refused on every plan |
| `Quiescence.StepKeeps` | scripts/lib/ticketdesk_lifecycle_campaign_quiescence.py:109-310 | every accepted call keeps the handover invariant and takes nothing captured back |
| `Quiescence.RunKeeps` | scripts/lib/ticketdesk_lifecycle_campaign_quiescence.py:109-310 | so does every unfailed call sequence, whatever the control files hold |
| `HandoverRecord.RunTold` | scripts/lib/ticketdesk_lifecycle_campaign_quiescence.py:109-310 | over every unfailed handover each item on record has the contents and the instant of the first call that could bring it |
| `HandoverRecord.WitnessRecorded` | scripts/lib/ticketdesk_lifecycle_campaign_quiescence.py:139-210 | a witness names, by their places among the calls, the first stop, admission, sight of reads, pause and quiesced acknowledgement, in that order, and carries their own contents and instants |
| `HandoverStory.UnfailedIff` | scripts/lib/ticketdesk_lifecycle_campaign_quiescence.py:109-310 | a handover comes through unfailed exactly on the call sequences described without its state, from the first calls that brought something and the restore clock |
| `Quiescence.SnapshotNeverChanges` | scripts/lib/ticketdesk_lifecycle_campaign_quiescence.py:228-251 | what any prefix of a handover captured is what its end still holds |
| `Quiescence.CompletedHandover` | scripts/lib/ticketdesk_lifecycle_campaign_quiescence.py:253-310 | a completed handover published exactly one phase: next generation, next incarnation exactly for a restore, and strictly more commands acknowledged since |
| `Handover.QuiescentRelease.Start` | scripts/lib/ticketdesk_lifecycle_campaign_quiescence.py:110-129 | a handover begins once, and with a restore clock exactly at the instant that clock began; any refusal fails the release for good |
| `Handover.QuiescentRelease.PollOnce` | scripts/lib/ticketdesk_lifecycle_campaign_quiescence.py:228-251 | takes the specified step or fails for good; ready exactly when both workers have stopped |
| `Handover.QuiescentRelease.StopLoad` | scripts/lib/ticketdesk_lifecycle_campaign_quiescence.py:131-137 | load is paused late only after the observer has stopped; any refusal fails the release for good |
| `Handover.QuiescentRelease.AdmitReads` | scripts/lib/ticketdesk_lifecycle_campaign_quiescence.py:139-153 | reads are admitted once, over a durable backup of exactly the snapshot's commands; any refusal fails the release for good |
| `Handover.QuiescentRelease.SeeReadsStart` | scripts/lib/ticketdesk_lifecycle_campaign_quiescence.py:155-178 | the first acknowledgement with more reads and no further command is kept, and a different later one refused |
| `Handover.QuiescentRelease.StopReads` | scripts/lib/ticketdesk_lifecycle_campaign_quiescence.py:180-192 | reads are paused once, only while recovering and only over this release's own marker; any refusal fails the release for good |
| `Handover.QuiescentRelease.SeeReadsStop` | scripts/lib/ticketdesk_lifecycle_campaign_quiescence.py:194-210 | the quiesced acknowledgement never has fewer reads, is kept once with the instant it was seen at, and completes the witness (`HandoverRecord.RunTold`) |
| `Handover.QuiescentRelease.Release` | scripts/lib/ticketdesk_lifecycle_campaign_quiescence.py:253-278 | the successor phase is published exactly when both workers have stopped, admitted reads were witnessed, and version and incarnation follow; any refusal fails the release for good |
| `Handover.QuiescentRelease.LetGo` | scripts/lib/ticketdesk_lifecycle_campaign_quiescence.py:280-288 | workers are let go only after publication; any refusal fails the release for good |
| `Handover.QuiescentRelease.SeeResumed` | scripts/lib/ticketdesk_lifecycle_campaign_quiescence.py:290-310 | the handover completes exactly on an acknowledgement of the published identity with more commands and no fewer reads; any refusal fails the release for good |
| `RestoreRun.RunKeeps` | scripts/lib/ticketdesk_lifecycle_campaign_quiescence.py:90-104 | clock and handover on one non-decreasing clock keep both invariants and their link |
| `RestoreRun.JointWitness` | scripts/lib/ticketdesk_lifecycle_campaign_quiescence.py:139-210 | any read-admission witness has one identity and one command count at three points, strictly then weakly growing reads, instants in protocol order, and the loss not after the pause; each of its items is that of a named call of the handover, the first of its kind |
| `RestoreRun.AdmissionAcceptedIff` | scripts/lib/ticketdesk_lifecycle_campaign_restore_evidence.py:265-297 | its check accepts exactly when the release is of a known generation and the first incarnation, reads were seen before the loss and stopped before target setup, within 400 a second |
| `RestoreScript.Prepare` | scripts/lib/ticketdesk_lifecycle_campaign_actions.py:42-97 | the preparation succeeds exactly when its waits and comparisons hold and both machines accept its calls in order, and leaves the state they lead to |
| `RestoreScript.Replace` | scripts/lib/ticketdesk_lifecycle_campaign_actions.py:282-316 | the replacement succeeds exactly when the source stands, the readers stop, the restore operation driven on the recovery's deadline completes between admission and its phase, and both machines accept the calls in order; it leaves the state they lead to |
| `RestoreScript.LetGo` | scripts/lib/ticketdesk_lifecycle_campaign_actions.py:184-204 | the release succeeds exactly when publication falls inside the hold, the release in the very second after it, and both machines accept its calls in order |
| `RestoreFault.PrepareMeans` | scripts/lib/ticketdesk_lifecycle_campaign_actions.py:42-97 | a preparation that succeeds has begun its backup after the binding, ended it before calling it durable, and seen the readers |
| `RestoreFault.ReplaceMeans` | scripts/lib/ticketdesk_lifecycle_campaign_actions.py:282-316 | a replacement that succeeds saw the readers by the loss, stopped them before target setup, and did all phases but the first write |
| `RestoreFault.OutcomeJudged` | scripts/lib/ticketdesk_lifecycle_campaign_actions.py:328-394 | every outcome of the fault: the receipt passes exactly on bounded commands; the admission, for every generation and version asked for, exactly when the fault had them, its readers were the original ones within the offered rate and were seen strictly before the loss (they are seen by the loss); the first write exactly for the fifth release within the offered rates; the workers go on under the next identity |
| `RestoreFault.Execute` | scripts/lib/ticketdesk_lifecycle_campaign_actions.py:328-394 | the whole restore fault comes to an outcome exactly when its guards hold, its two maintenance operations complete as driven and both machines accept the whole script, and the outcome is that of the script's end, judged as above |
| `RestoreExamples.ResultJudged` | scripts/lib/ticketdesk_lifecycle_campaign_actions.py:328-394 | from every admitted identity with room for a successor some fault reaches an outcome: its receipt passes, its admission exactly for the identity it had in the first incarnation with readers seen before the loss, its first write exactly for the fifth release |
| `RestoreExamples.FaultPasses` | scripts/lib/ticketdesk_lifecycle_campaign_actions.py:328-394 | for every loss in its planned second and every earlier sight of the readers some fifth release reaches an outcome that passes all three checks |
| `RestoreExamples.TiedReadingRefused` | scripts/lib/ticketdesk_lifecycle_campaign_restore_evidence.py:292-297 | readers of the fifth release seen at the very instant of the loss: the fault ends, and only the read admission is refused |
| `RestoreExamples.LateReadingRefused` | scripts/lib/ticketdesk_lifecycle_campaign_quiescence.py:155-178 | from every such identity the two machines by themselves finish with readers seen after the loss, which the admission check refuses |
| `RestoreFault.WritePart` | scripts/lib/ticketdesk_lifecycle_campaign_restore_evidence.py:241-262 | the first-write check accepts exactly when this was the fifth release, of version 2 and incarnation 1, within the offered rates |
| `Releases.CampaignEnds` | scripts/lib/ticketdesk_lifecycle_campaign_actions.py:184-204 | seven distinct faults in any order take generation, version and incarnation from 1, 1, 1 to 6, 2, 2 |
| `Releases.RestoreReleasesLastIff` | scripts/lib/ticketdesk_lifecycle_campaign_restore_evidence.py:255-257 | the restore's release carries that final identity exactly when no releasing fault is planned after it |
| `Campaigns.Campaign` | scripts/lib/ticketdesk_lifecycle_campaign_actions.py:328-394 | the campaign comes through exactly when every fault does from the identity the ones before it lead to, the restore as a whole fault on its clock; it then ends at 6, 2, 2 with one publication per handover and the restore's outcome, whose first write passes exactly when no releasing fault followed and the rates held, and whose read admission passes against the campaign's end exactly when none followed and the readers were seen in time within their rate |
| `Campaigns.CampaignComesThrough` | scripts/lib/ticketdesk_lifecycle_campaign_actions.py:328-394 | for every plan, in any order, some campaign comes through with its receipt accepted and all rates and instants kept |
| `Campaigns.EarlyRestoreRefused` | scripts/lib/ticketdesk_lifecycle_campaign_reconciliation.py:244-250 | for every plan with a releasing fault after the restore some campaign comes through with its receipt accepted and all rates kept, and both its first write and its read admission are refused |
| `DiskWalk.Snapshot` | scripts/lib/ticketdesk_lifecycle_campaign_disk.py:92-125 | the explicit-stack walk accepts exactly the trees whose recursive account is within the depth, directory, entry and byte limits, and returns that account: what the listed entries add up to, each file charged in full to the category of its path |
| `DiskWalk.TotalConserves` | scripts/lib/ticketdesk_lifecycle_campaign_disk.py:107-124 | the categories sum to what all files outside the archive directory are charged: each at least its length, at least its allocated blocks, and exactly one of the two; directories entered never exceed entries listed by more than the root |
| `DiskWalk.ChargedByPath` | scripts/lib/ticketdesk_lifecycle_campaign_disk.py:29-123 | each category's total is exactly what the files whose path says so are charged, the greater of length and blocks: the first segment decides, and a journal name under the data directory |
| `DiskWalk.OrderIrrelevant` | scripts/lib/ticketdesk_lifecycle_campaign_disk.py:101-119 | listings in any order, at every level, give the same account |
| `DiskWalk.WalkedCounts` | scripts/lib/ticketdesk_lifecycle_campaign_resource_reconciliation.py:134-136 | every walk's counts meet the offline inventory rule |
| `DiskSamples.Sampler.PollOnce` | scripts/lib/ticketdesk_lifecycle_campaign_disk.py:127-158 | exactly the specified step on the poll that the instant, the flags, the tree and the archive's bytes amount to: a due poll walks the tree and adds one row that tells the instant, the archive and the balanced shares of the tree's files, a window maximum and a coverage count, or fails the sampler for good; a written row is never lost |
| `DiskSamples.RowBoundUnreachable` | scripts/lib/ticketdesk_lifecycle_campaign_disk.py:135-137 | 30 s spacing makes the 4096 row bound unreachable |
| `DiskSamples.TerminalCovered` | scripts/lib/ticketdesk_lifecycle_campaign_disk.py:151-154 | once the gap checks held, the terminal coverage check cannot fail |
| `DiskSamples.PeakIsTop` | scripts/lib/ticketdesk_lifecycle_campaign_resource_reconciliation.py:160-170 | resource by resource a window's maximum bounds every row in it and is attained by one, or is zero where there is none |
| `DiskStory.UnfailedIff` | scripts/lib/ticketdesk_lifecycle_campaign_disk.py:127-158 | the sampler comes through unfailed exactly on the polls described without its state, and then holds one row for each sample taken, with their maxima and coverage |
| `DiskSamples.Reconcile` | scripts/lib/ticketdesk_lifecycle_campaign_resource_reconciliation.py:153-174 | the offline disk pass accepts exactly the declared rows and recomputes every window's maxima, each of which bounds every row of the window and is reached by one |
| `DiskSamples.CompletedAcceptedIff` | scripts/lib/ticketdesk_lifecycle_campaign_disk.py:127-158 | a completed sampler's rows are accepted exactly when its last ordinary sample precedes the end; its incremental windows are the recomputed ones, greatest and attained |
| `DiskSamples.LateSampleRefused` | scripts/lib/ticketdesk_lifecycle_campaign_disk.py:130-154 | for every duration and host within limits, a poll sequence that completes and whose rows are refused |
| `RosterRuns.RunKeeps` | scripts/lib/ticketdesk_lifecycle_campaign_process_roster.py:94-205 | every reachable roster has as many incarnations as its roles sum to and as one plus live plus retired, and never takes a peak back |
| `RosterRuns.InitialInv` | scripts/lib/ticketdesk_lifecycle_campaign_process_roster.py:42-75 | a roster that starts has its controller and four required workers |
| `RosterRuns.CeilingHolds` | scripts/lib/ticketdesk_lifecycle_campaign_process_roster.py:67-73 | live ceilings, with a child being launched charged at the controller's, never exceed the frozen allocator bound |
| `RosterRuns.MemoryHolds` | scripts/lib/ticketdesk_lifecycle_resources.py:256-289 | two readings around the census give a process row whose sizes are the first reading's, whose reported and later peaks are the high waters read, and whose peaks are the greatest of those and the earlier one, all in the checked order |
| `RosterRecord.RowIsTold` | scripts/lib/ticketdesk_lifecycle_campaign_process_roster.py:179-205 | every row given out: sizes of the first reading, peaks the greatest reported, and each total the sum over the processes or the roles |
| `RosterRecord.RunTold` | scripts/lib/ticketdesk_lifecycle_campaign_process_roster.py:94-205 | over every run a role's resident peak is the greatest of everything reported of it, through every replacement, its address-space peak that of every lifetime bound, and its incarnations count its adoptions |
| `RosterRecord.BoundReached` | scripts/lib/ticketdesk_lifecycle_campaign_process_roster.py:67-73 | the frozen allocator bound is exact: with everyone live but one child being born, the live ceilings sum to all of it |
| `RosterStory.UnfailedIff` | scripts/lib/ticketdesk_lifecycle_campaign_process_roster.py:94-205 | from any roster exactly the call sequences described without its state are come through unfailed: who is adopted and not retired, whose launch is open, how high each address space was seen |
| `RosterRuns.SamplesAccepted` | scripts/lib/ticketdesk_lifecycle_campaign_resource_reconciliation.py:83-125 | any two samples of a started roster are accepted offline and the later never rewinds a role |
| `RosterOwner.ProcessRoster.TakeIn` | scripts/lib/ticketdesk_lifecycle_campaign_process_roster.py:94-128 | adopts exactly what the specification admits, or fails for good |
| `RosterOwner.ProcessRoster.Start` | scripts/lib/ticketdesk_lifecycle_campaign_process_roster.py:133-153 | a launch that may not begin leaves the roster usable; one that began and failed does not |
| `RosterOwner.ProcessRoster.End` | scripts/lib/ticketdesk_lifecycle_campaign_process_roster.py:155-177 | retires exactly an expected exit with a bounded peak, or fails for good |
| `RosterOwner.ProcessRoster.TakeSample` | scripts/lib/ticketdesk_lifecycle_campaign_process_roster.py:179-205 | a sample is given exactly when no launch is open and every child is running within its ceiling, and raises the peaks it saw; its row has the sizes of the first reading, the peaks reported and the sums of both; any refusal fails the roster for good |
| `RosterOwner.RaisePeaks` | scripts/lib/ticketdesk_lifecycle_campaign_process_roster.py:189-193 | the loop over sampled processes raises every role's peak and nothing else |
| `RosterOwner.CheckChildren` | scripts/lib/ticketdesk_lifecycle_campaign_process_roster.py:185-190 | the loop over children accepts exactly when all are running within their ceilings |
| `Progress.EventsCounts` | scripts/lib/ticketdesk_lifecycle_campaign_progress_reconciliation.py:65-66 | the closed form is 1024 plus the number of ordinals below c with residue under 1024 |
| `Progress.EventsMonotone` | scripts/lib/ticketdesk_lifecycle_campaign_finalization.py:58 | it is monotone and grows by at most one per command |
| `Progress.CheckObservers` | scripts/lib/ticketdesk_lifecycle_campaign_progress_reconciliation.py:47-62 | the observer loop accepts exactly the declared rows and keeps every window's last observation |
| `Progress.CheckNatives` | scripts/lib/ticketdesk_lifecycle_campaign_progress_reconciliation.py:72-97 | the native loop accepts exactly the declared rows and keeps every window's last sample |
| `Progress.Reconcile` | scripts/lib/ticketdesk_lifecycle_campaign_progress_reconciliation.py:39-117 | accepts exactly the declared campaigns |
| `Progress.CoverageImplied` | scripts/lib/ticketdesk_lifecycle_campaign_progress_reconciliation.py:110-111 | the coverage requirement never is what refuses: the gap checks imply it |
| `Progress.ProgressPerWindow` | scripts/lib/ticketdesk_lifecycle_campaign_progress_reconciliation.py:112-114 | in an accepted campaign the sampled head, the applied position, the live updates and the renewals each grow at least once per window |
| `ProgressExamples.TerminalIsEnd` | scripts/lib/ticketdesk_lifecycle_campaign_progress_reconciliation.py:65-71 | an accepted terminal observation names exactly the generation and incarnation every plan of seven faults ends at |
| `ProgressExamples.SteadyAccepted` | scripts/lib/ticketdesk_lifecycle_campaign_progress_reconciliation.py:39-117 | for every campaign length a campaign whose progress is accepted |
| `ObserverSamples.CampaignObserver.Take` | scripts/lib/ticketdesk_lifecycle_campaign_observer_samples.py:65-92 | a message is refused when stale, changed, earlier or going back, kept while the campaign lasts and otherwise only noted; any refusal fails the observer for good |
| `ObserverSamples.RunKeeps` | scripts/lib/ticketdesk_lifecycle_campaign_observer_samples.py:65-92 | every unfailed message sequence keeps fresh, well-formed rows that never go back, and takes none back |
| `ObserverStory.UnfailedIff` | scripts/lib/ticketdesk_lifecycle_campaign_observer_samples.py:65-92 | the observer comes through unfailed exactly on the messages described without its state, and then holds the kept ones as rows |
| `ObserverSamples.RunAcceptedIff` | scripts/lib/ticketdesk_lifecycle_campaign_progress_reconciliation.py:47-62 | the progress check accepts the rows of a run exactly when no two share an instant and no silence from the origin to the end exceeds 255 s |
| `ObserverSamples.SharedInstantRefused` | scripts/lib/ticketdesk_lifecycle_campaign_observer_samples.py:72-74 | for every campaign length a run with all gaps in order that the check refuses for one shared instant |
| `ObserverSamples.SilenceRefused` | scripts/lib/ticketdesk_lifecycle_campaign_observer_samples.py:65-92 | for every campaign length a run without shared instants that the check refuses only because the observer fell silent at the end |
| `LoadWindows.Maxima` | scripts/lib/ticketdesk_lifecycle_campaign_reconciliation.py:319-325 | the loop keeps every window's largest history amount, which bounds the window's and is one of them, and refuses exactly when one has none |
| `LoadWindows.LargestIsGreatest` | scripts/lib/ticketdesk_lifecycle_campaign_reconciliation.py:319-325 | what is called a window's largest amount bounds all of the window's and is one of them, and is absent exactly when there is none |
| `LoadWindows.Observe` | scripts/lib/ticketdesk_lifecycle_campaign_reconciliation.py:312-346 | accepts exactly the balanced loads and reports each window's running balance and backlog |
| `LoadWindows.BalanceHolds` | scripts/lib/ticketdesk_lifecycle_campaign_reconciliation.py:332-345 | backlog and unresolved commands are never negative; unresolved is the running offered-minus-completed balance and ends at zero; bounds, counts and history are those of the window |
| `LoadWindows.EvenLoadAccepted` | scripts/lib/ticketdesk_lifecycle_campaign_reconciliation.py:312-346 | for every campaign length, completing exactly what is offered is accepted and reported with nothing ever open |
| `Prefix.Bind` | scripts/lib/ticketdesk_lifecycle_campaign_restore_inputs.py:110-147 | accepts exactly the well-formed prefixes and digests exactly their bytes, with the true maximum sequence |
| `Prefix.HashPrefix` | scripts/lib/ticketdesk_lifecycle_campaign_restore_inputs.py:97-104 | one-mebibyte chunks digest exactly the first bytes of the file, refusing a short read |
| `Prefix.AcknowledgedPrefix.constructor` | scripts/lib/ticketdesk_lifecycle_campaign_restore_inputs.py:110-147 | a prefix is bound exactly when its file opens, is well formed and is found untouched at the end; anything else fails it |
| `Prefix.AcknowledgedPrefix.VerifyPrefix` | scripts/lib/ticketdesk_lifecycle_campaign_restore_inputs.py:149-161 | a prefix that has not failed verifies exactly when both looks find the pinned file, the count is the same and its first bytes have the bound digest; any refusal fails it for good |
| `Prefix.BindThenVerify` | scripts/lib/ticketdesk_lifecycle_campaign_restore_inputs.py:107-161 | different chunks, same digest: after binding, the check passes exactly when both looks find the very file and the bytes digest as they did, so the untouched file passes and an appended, replaced or linked one never does |
| `Prefix.AcceptedMeans` | scripts/lib/ticketdesk_lifecycle_campaign_restore_inputs.py:133-143 | ordinals are 0..n-1 and the recorded maximum is attained, bounds every sequence and stays within the frontier |
| `Prefix.DistinctWithinFrontier` | scripts/lib/ticketdesk_lifecycle_campaign_restore_evidence.py:118-119 | if no sequence acknowledged two commands, the commands do not exceed the frontier |
| `Prefix.EncodedNumber` | scripts/lib/ticketdesk_lifecycle_campaign_restore_inputs.py:123 | the header's count survives its big-endian encoding |
| `Prefix.NumberFromFirst` | scripts/lib/ticketdesk_lifecycle_campaign_restore_inputs.py:133-136 | the most significant byte of a stored number comes first |
| `Prefix.ReadBack` | scripts/lib/ticketdesk_lifecycle_campaign_restore_inputs.py:121-136 | every record of a file laid out as written is the record read back at its place |
| `Prefix.WrittenAcceptedIff` | scripts/lib/ticketdesk_lifecycle_campaign_restore_inputs.py:110-147 | a file so written is accepted exactly when its first records have their ordinals and admitted sequences, versions and incarnations |
| `Globs.Walk` | scripts/lib/riffdb_governance.rb:171-194 | the loop that recurses at every double star ends and selects exactly when some leading run matches |
| `Globs.Match` | scripts/lib/riffdb_governance.rb:148-156 | matches exactly when, besides, neither pattern nor path is empty |
| `Globs.FirstMatch` | scripts/lib/riffdb_governance.rb:159-161 | finds the first matching pattern, or none exactly when none matches |
| `Globs.MatchSurvivesExtension` | scripts/lib/riffdb_governance.rb:191-193 | a match survives any extension of the path |
| `Globs.TrailingAnyRedundant` | scripts/lib/riffdb_governance.rb:174-176 | after a non-empty pattern a trailing double star changes nothing |
| `Globs.LoneAnyMatches` | scripts/lib/riffdb_governance.rb:149-153 | alone it matches every path, while the empty pattern matches none |
| `Dependents.ReverseDependents` | scripts/lib/riffdb_governance.rb:400-415 | ends on every finite graph with exactly the crates that reach a named one by one or more edges, less the named |
| `Dependents.Expand` | scripts/lib/riffdb_governance.rb:405-410 | one round finds exactly the unreached crates that depend on the frontier |
| `WireUuid.WireBytes` | fixtures/query-modules/ticketdesk.rs:4489-4499 | the two loops accept exactly 36 bytes whose 32 non-dashes pair up as numbers, and return their values |
| `WireUuid.FormatText` | crates/riffdb-client-rust/src/application.rs:3485-3496 | formats sixteen bytes as the 36-byte grouped text |
| `WireUuid.ParseFormat` | fixtures/query-modules/ticketdesk.rs:4489-4525 | what is formatted parses back to the same bytes |
| `WireUuid.FormatParseIff` | fixtures/query-modules/ticketdesk.rs:4489-4525 | an accepted text survives the trip exactly when it is canonical (section 4 of RFC 9562) |
| `WireUuid.PlusAccepted` | fixtures/query-modules/ticketdesk.rs:4494-4497 | a plus sign for a leading zero is accepted and does not survive |
| `WireTicket.Encode` | fixtures/query-modules/ticketdesk.rs:2042-2055 | encodes exactly tickets with readable identifiers and nanoseconds below a second, as nine numbered fields |
| `WireTicket.RecordFields` | fixtures/query-modules/ticketdesk.rs:4504-4512 | fills a table exactly from records whose fields are numbered, present and not repeated |
| `WireTicket.TakeAll` | fixtures/query-modules/ticketdesk.rs:2058-2070 | removing fields 1 to 9 succeeds with nothing left exactly when the table holds just those, each of its kind |
| `WireTicket.Decode` | fixtures/query-modules/ticketdesk.rs:2057-2072 | accepts exactly records numbered 1 to 9 without repeats with well-formed values, and builds the ticket they carry |
| `WireTicket.RoundTrip` | fixtures/query-modules/ticketdesk.rs:2042-2072 | any permutation of an encoded ticket's fields decodes exactly when its status is not empty, to the canonized ticket; unchanged exactly when all identifiers were canonical |

## Left out

- Fields of a machine after a refused call: a refused object keeps its earlier field values here, while the source may already have updated some before refusing; the object is failed for good either way.
- File descriptors, ownership, modes, links and inode identity: only their yes or no enters, as `ok`, `io` or similar inputs, except for the pinned file of `Prefix`.
- JSON, regular expressions, schema strings and key sets: records are typed from the start, so refusals for shape alone do not appear.
- Protocol digests and identifier text forms of a restore receipt, beyond equality of the digests carried along.
- `public_operation_witnesses`: the journal join of operator calls is not modelled.
- Process table parsing and the descendant census of the roster: its verdict is an input, and the roster holds the six roles the reconciler demands, not the optional TypeScript driver.
- The memory stream's own clock rules in the resource reconciler: only its per-row inventory and the comparison of successive rows are modelled.
- Latency, retry and other columns that `window_observations` copies unchanged.
- The outage faults' own control loops, capability rotation and deployment calls: only their effect on generation, version and incarnation is modelled.
- Timeline plan admission, apart from the second of the restore's release and the recovery seconds it records.
- Segment normalization and the segment-level matcher of the globs, ownership tiers and classification.
- The other generated entities and scalar kinds of the client; the ticket uses strings, enums, identifiers and timestamps.
- Qualification arithmetic, host policy, entry points, threads, subprocess handling and the asynchronous client calls.
- The clock between faults: `Campaigns.Campaign` runs each fault on its own and does not order one after the other in time.
- `SelectedBackup`: the pinned files of the backup; its inventory rules are those of `RestoreClock.BindArtifacts`.
- RestoreFault.Execute: takes the prefix digest and the backup manifest as inputs instead of recomputing them through `Prefix`.
- EpochController.Controller.PollLog: reads all lines of a poll before observing them, while the source observes each line as it reads it; the two differ only in what a failed controller had already taken in.
