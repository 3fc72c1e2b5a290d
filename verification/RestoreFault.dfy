/**
 * What the restore fault leaves when it comes to an end. The controller's own order of calls
 * discharges every timing rule that the checkers add to the machines' guarantees.
 */
module RestoreFault {
  import opened Prelude
  import opened RestoreRun
  import opened RestoreScript
  import C = RestoreClock
  import E = RestoreEvidence
  import M = Maintenance
  import Q = Quiescence

  // --- what the waits leave ------------------------------------------------

  lemma {:induction false} PollKeeps(s: State, sight: Sight)
    requires Inv(s) && Step(s, PollCall(sight)).Some?
    ensures var next := Step(s, PollCall(sight)).value;
            && Inv(next) && next.clock == s.clock && Q.Keeps(s.release, next.release)
            && next.release.admission == s.release.admission
            && (Q.Ready(sight.load, sight.observer) ==>
                  next.release.snapshot == Some(Q.Snapshot(sight.load.value, sight.observer.value)))
  {
    StepKeeps(s, PollCall(sight));
  }

  lemma {:induction false} PollsKeep(s: State, sights: seq<Sight>)
    requires Inv(s) && Run(s, PollCalls(sights)).Some?
    requires |sights| > 0 && Q.Ready(sights[|sights| - 1].load, sights[|sights| - 1].observer)
    ensures var next, last := Run(s, PollCalls(sights)).value, sights[|sights| - 1];
            && Inv(next) && next.clock == s.clock && Q.Keeps(s.release, next.release)
            && next.release.admission == s.release.admission
            && next.release.snapshot == Some(Q.Snapshot(last.load.value, last.observer.value))
    decreases |sights|
  {
    var calls := PollCalls(sights);
    PollKeeps(s, sights[0]);
    if |sights| > 1 {
      assert calls[1..] == PollCalls(sights[1..]);
      PollsKeep(Step(s, calls[0]).value, sights[1..]);
    } else {
      assert |calls[1..]| == 0;
    }
  }

  lemma {:induction false} SightKeeps(s: State, sight: AckSight, stopped: bool)
    requires Inv(s) && Step(s, SightCall(sight, stopped)).Some?
    ensures var next := Step(s, SightCall(sight, stopped)).value;
            && Inv(next) && next.clock == s.clock && Q.Keeps(s.release, next.release)
            && (sight.ack.Holds? && !stopped ==>
                next.release.admission.Some? && next.release.admission.value.reading.Some?)
            && (sight.ack.Holds? && stopped ==>
                next.release.witnessed.Some? && next.release.witnessed.value.quiesced.ns <= next.nowNs)
  {
    StepKeeps(s, SightCall(sight, stopped));
  }

  lemma {:induction false} SightsKeep(s: State, sights: seq<AckSight>, stopped: bool)
    requires Inv(s) && Run(s, SightCalls(sights, stopped)).Some? && |sights| > 0 && sights[|sights| - 1].ack.Holds?
    ensures var next := Run(s, SightCalls(sights, stopped)).value;
            && Inv(next) && next.clock == s.clock && Q.Keeps(s.release, next.release)
            && (!stopped ==> next.release.admission.Some? && next.release.admission.value.reading.Some?)
            && (stopped ==> next.release.witnessed.Some? && next.release.witnessed.value.quiesced.ns <= next.nowNs)
    decreases |sights|
  {
    var calls := SightCalls(sights, stopped);
    SightKeeps(s, sights[0], stopped);
    if |sights| > 1 {
      assert calls[1..] == SightCalls(sights[1..], stopped);
      SightsKeep(Step(s, calls[0]).value, sights[1..], stopped);
    } else {
      assert |calls[1..]| == 0;
    }
  }

  // --- what a preparation leaves -------------------------------------------

  /** The snapshot the binding takes its count from is the one both workers acknowledged. */
  lemma {:induction false} WorkersSnapshot(planned: nat, id: Q.Identity, p: Preparation, begun: State, paused: State)
    requires C.ScheduleAdmits(planned) && Q.IdentityAdmits(id) && WorkersStop(p.polls)
    requires Step(Fresh(planned, id), OnClock(C.CallBegin(p.begin))) == Some(begun)
    requires Step(begun, OnRelease(Q.CallBegin(p.begin, true, true))) == Some(paused)
    requires Run(paused, WorkerCalls(p.polls)).Some?
    ensures var still := Run(paused, WorkerCalls(p.polls)).value;
            && Inv(still) && still.clock == begun.clock && still.release.id == id && still.release.admission.None?
            && still.release.snapshot == Some(Q.Snapshot(Stopped(p.polls).load.value, Stopped(p.polls).observer.value))
  {
    StepKeeps(Fresh(planned, id), OnClock(C.CallBegin(p.begin)));
    StepKeeps(begun, OnRelease(Q.CallBegin(p.begin, true, true)));
    PollsKeep(paused, p.polls[..FirstReady(p.polls, 0) + 1]);
  }

  lemma {:induction false} BoundMeans(s: State, p: Preparation)
    requires Inv(s) && WorkersStop(p.polls)
    requires Step(s, BindCall(p)).Some?
    ensures var t := Step(s, BindCall(p)).value;
            && Inv(t) && t.clock.planned == s.clock.planned && t.release == s.release && t.clock.stage == C.Preparing
            && t.clock.acknowledged.value.boundNs == p.bind
  {
    StepKeeps(s, BindCall(p));
  }

  lemma {:induction false} BindMeans(planned: nat, id: Q.Identity, p: Preparation)
    requires C.ScheduleAdmits(planned) && Q.IdentityAdmits(id)
    requires BindGuards(planned, p) && Run(Fresh(planned, id), BindCalls(p)).Some?
    ensures var t := Run(Fresh(planned, id), BindCalls(p)).value;
            && Inv(t) && t.clock.planned == planned && t.release.id == id && t.clock.stage == C.Preparing
            && t.release.admission.None? && t.clock.acknowledged.value.boundNs == p.bind
  {
    var s := Fresh(planned, id);
    BindRuns(s, p);
    var begun := Step(s, OnClock(C.CallBegin(p.begin))).value;
    var paused := Step(begun, OnRelease(Q.CallBegin(p.begin, true, true))).value;
    var still := Run(paused, WorkerCalls(p.polls)).value;
    WorkersSnapshot(planned, id, p, begun, paused);
    BoundMeans(still, p);
  }

  /** The backup operation was started once the prefix was bound and answered before it was called durable. */
  ghost predicate BackedUp(s: State, planned: nat, id: Q.Identity) {
    && Inv(s) && s.clock.planned == planned && s.release.id == id && s.clock.stage == C.BackupDurable
    && s.clock.backup.value.name == E.BACKUP_NAME
    && s.clock.acknowledged.value.boundNs <= s.clock.backup.value.operationStarted
    && s.clock.backup.value.operationCompleted <= s.clock.backup.value.durableNs
  }

  lemma {:induction false} OperationReal(planned: nat, p: Preparation)
    requires M.ClockAdmits(p.create, planned)
    ensures var op := Operation(planned, p);
            M.Reachable(op) && op.name == E.BACKUP_NAME && op.startedNs == p.create
  {
    M.CarriedReachable(M.Create, E.BACKUP_NAME, p.create, planned, p.backup);
  }

  lemma {:induction false} DurableMeans(s: State, planned: nat, p: Preparation)
    requires Inv(s) && s.clock.planned == planned && s.clock.acknowledged.Some?
             && s.clock.acknowledged.value.boundNs <= p.create
    requires s.nowNs == p.confirm.now && BackGuards(planned, p)
    requires var op := Operation(planned, p); M.Reachable(op) && op.name == E.BACKUP_NAME && op.startedNs == p.create
    requires Step(s, DurableCall(planned, p)).Some?
    ensures BackedUp(Step(s, DurableCall(planned, p)).value, planned, s.release.id)
  {
    StepKeeps(s, DurableCall(planned, p));
  }

  lemma {:induction false} BackMeans(s: State, planned: nat, p: Preparation)
    requires Inv(s) && s.clock.planned == planned && s.clock.stage == C.Preparing
             && s.clock.acknowledged.value.boundNs == p.bind
    requires BackGuards(planned, p) && Run(s, [PollCall(p.confirm)] + [DurableCall(planned, p)]).Some?
    ensures BackedUp(Run(s, [PollCall(p.confirm)] + [DurableCall(planned, p)]).value, planned, s.release.id)
  {
    RunTwo(s, PollCall(p.confirm), DurableCall(planned, p));
    PollKeeps(s, p.confirm);
    OperationReal(planned, p);
    DurableMeans(Step(s, PollCall(p.confirm)).value, planned, p);
  }

  /** The source is backed up and its readers have been seen. */
  ghost predicate Prepared(s: State, planned: nat, id: Q.Identity) {
    BackedUp(s, planned, id) && s.release.admission.Some? && s.release.admission.value.reading.Some?
  }

  lemma {:induction false} ReadMeans(s: State, planned: nat, id: Q.Identity, p: Preparation)
    requires BackedUp(s, planned, id) && Acknowledged(p.reading)
    requires Step(s, AllowCall(p)).Some? && Run(Step(s, AllowCall(p)).value, ReaderCalls(p.reading, false)).Some?
    ensures Prepared(Run(Step(s, AllowCall(p)).value, ReaderCalls(p.reading, false)).value, planned, id)
  {
    StepKeeps(s, AllowCall(p));
    SightsKeep(Step(s, AllowCall(p)).value, p.reading[..FirstHeld(p.reading, 0) + 1], false);
  }

  lemma {:induction false} PrepareMeans(planned: nat, id: Q.Identity, p: Preparation)
    requires C.ScheduleAdmits(planned) && Q.IdentityAdmits(id)
    requires PrepareGuards(planned, p) && Run(Fresh(planned, id), PrepareCalls(planned, p)).Some?
    ensures Prepared(Run(Fresh(planned, id), PrepareCalls(planned, p)).value, planned, id)
  {
    PrepareRuns(Fresh(planned, id), planned, p);
    BindMeans(planned, id, p);
    var bound := Run(Fresh(planned, id), BindCalls(p)).value;
    BackMeans(bound, planned, p);
    ReadMeans(Run(bound, [PollCall(p.confirm)] + [DurableCall(planned, p)]).value, planned, id, p);
  }

  // --- what a replacement leaves -------------------------------------------

  /** The primary is gone; its readers were seen by then. */
  ghost predicate Lost(s: State, was: State, loss: int) {
    && Inv(s) && s.clock.planned == was.clock.planned && s.release.id == was.release.id && s.clock.stage == C.Recovering
    && s.clock.acknowledged == was.clock.acknowledged && s.clock.backup == was.clock.backup
    && s.clock.lossNs == Some(loss)
    && s.release.admission.Some? && s.release.admission.value.reading.Some?
    && s.release.admission.value.reading.value.ns <= loss
  }

  lemma {:induction false} LostMeans(s: State, p: Replacement)
    requires Inv(s) && s.release.admission.Some? && s.release.admission.value.reading.Some?
    requires Q.Ready(p.confirm.load, p.confirm.observer) && Step(s, LossCall(p)).Some?
    ensures var t := Step(s, LossCall(p)).value; Lost(t, s, p.loss) && |t.clock.phases| == 0
  {
    StepKeeps(s, LossCall(p));
  }

  lemma {:induction false} LossMeans(s: State, planned: nat, id: Q.Identity, p: Replacement)
    requires Prepared(s, planned, id) && Q.Ready(p.confirm.load, p.confirm.observer)
    requires Run(s, [PollCall(p.confirm)] + [LossCall(p)]).Some?
    ensures var t := Run(s, [PollCall(p.confirm)] + [LossCall(p)]).value; Lost(t, s, p.loss) && |t.clock.phases| == 0
  {
    RunTwo(s, PollCall(p.confirm), LossCall(p));
    PollKeeps(s, p.confirm);
    LostMeans(Step(s, PollCall(p.confirm)).value, p);
  }

  lemma {:induction false} StopMeans(s: State, was: State, p: Replacement)
    requires Lost(s, was, p.loss) && |s.clock.phases| == 0 && Acknowledged(p.quiescing)
    requires Step(s, PauseCall(p)).Some? && Run(Step(s, PauseCall(p)).value, ReaderCalls(p.quiescing, true)).Some?
    ensures var t := Run(Step(s, PauseCall(p)).value, ReaderCalls(p.quiescing, true)).value;
            && Lost(t, was, p.loss) && t.clock == s.clock
            && t.release.witnessed.Some? && t.release.witnessed.value.quiesced.ns <= t.nowNs
  {
    StepKeeps(s, PauseCall(p));
    SightsKeep(Step(s, PauseCall(p)).value, p.quiescing[..FirstHeld(p.quiescing, 0) + 1], true);
  }

  /** Its readers stopped before the target was set up, and all but the first write is done. */
  ghost predicate Replaced(s: State, was: State, loss: int) {
    && Lost(s, was, loss) && C.Names(s.clock.phases) == BEFORE_WRITES
    && s.release.witnessed.Some? && s.release.witnessed.value.quiesced.ns <= s.clock.phases[0].ns
  }

  /** Along the phases only the clock moves. */
  lemma {:induction false} PhaseMeans(s: State, was: State, loss: int, phase: C.Phase, now: int)
    requires Lost(s, was, loss) && Step(s, OnClock(C.CallPhase(phase, now))).Some?
    ensures var t := Step(s, OnClock(C.CallPhase(phase, now))).value;
            && Lost(t, was, loss) && t.release == s.release && t.nowNs == now && s.nowNs <= now
            && t.clock.phases == s.clock.phases + [C.PhaseDone(phase, now)]
  {
    StepKeeps(s, OnClock(C.CallPhase(phase, now)));
  }

  lemma {:induction false} RebuildMeans(s: State, was: State, loss: int, p: Replacement, k: nat)
    requires k <= 6 && Lost(s, was, loss) && C.Names(s.clock.phases) == BEFORE_WRITES[..k]
    requires s.release.witnessed.Some?
    requires s.release.witnessed.value.quiesced.ns <= if k == 0 then s.nowNs else s.clock.phases[0].ns
    requires Run(s, PhaseCalls(p)[k..]).Some?
    ensures Replaced(Run(s, PhaseCalls(p)[k..]).value, was, loss)
    decreases 6 - k
  {
    var calls := PhaseCalls(p)[k..];
    if k < 6 {
      assert calls[0] == OnClock(C.CallPhase(BEFORE_WRITES[k], Instants(p)[k])) && calls[1..] == PhaseCalls(p)[k + 1..];
      PhaseMeans(s, was, loss, BEFORE_WRITES[k], Instants(p)[k]);
      var next := Step(s, calls[0]).value;
      assert C.Names(next.clock.phases) == BEFORE_WRITES[..k + 1];
      RebuildMeans(next, was, loss, p, k + 1);
    } else {
      assert BEFORE_WRITES[..6] == BEFORE_WRITES && |calls| == 0;
    }
  }

  lemma {:induction false} ReplaceMeans(s: State, planned: nat, id: Q.Identity, p: Replacement)
    requires Prepared(s, planned, id) && ReplaceGuards(p) && Run(s, ReplaceCalls(p)).Some?
    ensures Replaced(Run(s, ReplaceCalls(p)).value, s, p.loss)
  {
    ReplaceRuns(s, p);
    LossMeans(s, planned, id, p);
    var lost := Run(s, [PollCall(p.confirm)] + [LossCall(p)]).value;
    StopMeans(lost, s, p);
    var stopped := Run(Step(lost, PauseCall(p)).value, ReaderCalls(p.quiescing, true)).value;
    assert PhaseCalls(p)[0..] == PhaseCalls(p);
    assert C.Names(stopped.clock.phases) == BEFORE_WRITES[..0];
    RebuildMeans(stopped, s, p.loss, p, 0);
  }

  // --- what the release leaves ---------------------------------------------

  /** What the released workers acknowledged, and when that was written down. */
  datatype FirstWrite = FirstWrite(ns: nat, ack: Q.Resumed)

  datatype Outcome = Outcome(receipt: C.Receipt, admission: Q.Witness, firstWrite: FirstWrite, action: E.Action)

  function FirstWriteNs(phases: seq<C.PhaseDone>): Option<nat>
    decreases |phases|
  {
    if |phases| == 0 then None
    else if phases[0].phase == C.FirstWrite then Some(phases[0].ns)
    else FirstWriteNs(phases[1..])
  }

  /** The independent check of the first write after the restore. */
  predicate FirstWriteAccepted(f: FirstWrite, r: C.Receipt) {
    && U64(f.ns) && U64(f.ack.commands) && U64(f.ack.readCount)
    && FirstWriteNs(r.phases).Some? && r.lossNs <= f.ns <= FirstWriteNs(r.phases).value <= r.deadline
    && f.ack.generation == 6 && f.ack.version == 2 && f.ack.incarnation == 2
    && r.acknowledged.commands < f.ack.commands <= (f.ns / SECOND + 1) * 100
    && f.ack.readCount <= (f.ns / SECOND + 1) * 400
  }

  /** The fault was the fifth release, of the deployed version, and the workers did no more than was offered. */
  predicate WritersBounded(f: FirstWrite, id: Q.Identity) {
    && id == Q.Identity(5, 2, 1)
    && f.ack.commands <= (f.ns / SECOND + 1) * 100 && f.ack.readCount <= (f.ns / SECOND + 1) * 400
  }

  /** What remains for the outside world to have done: no more commands than were offered or committed. */
  predicate CommandsBounded(r: C.Receipt) {
    && r.acknowledged.commands <= (r.acknowledged.boundNs / SECOND + 1) * 100
    && r.acknowledged.commands <= r.acknowledged.frontier
  }

  predicate ReadersBounded(w: Q.Witness, r: C.Receipt, id: Q.Identity) {
    && id.generation <= 16 && id.incarnation == 1
    && w.reading.ns < r.lossNs && w.quiesced.ack.readCount <= (w.quiesced.ns / SECOND + 1) * 400
  }

  /** The checker's caller expects this identity, or does not say. */
  predicate Expected(id: Q.Identity, generation: Option<nat>, version: Option<nat>) {
    (generation.Some? ==> id.generation == generation.value) && (version.Some? ==> id.version == version.value)
  }

  lemma {:induction false} RecoveryCounts(c: C.Clock, startS: nat, after: Letting)
    requires C.Inv(c) && c.planned == startS * SECOND && c.lossNs.Some? && c.lossNs.value + HELD <= after.firstWrite
    requires Since(c.lastNs) == after.firstWrite <= after.finish <= after.finished
    ensures RecoveryS(after.finished, startS) >= 0
  {
    E.WholeSecond(c.planned, startS, c.lossNs.value);
  }

  // --- what the whole fault leaves -----------------------------------------

  ghost function FirstWritten(c: C.Clock, at: nat): C.Clock {
    c.(lastNs := Some(at), phases := c.phases + [C.PhaseDone(C.FirstWrite, at)])
  }

  lemma {:induction false} PublishMeans(s: State, p: Letting)
    requires Inv(s) && Step(s, PublishCall(s.release.id, p)).Some?
    ensures var t := Step(s, PublishCall(s.release.id, p)).value;
            && Inv(t) && t.clock == s.clock && Q.Keeps(s.release, t.release) && s.nowNs <= t.nowNs == p.publish.now
            && t.release.published == Some(Successor(s.release.id))
  {
    StepKeeps(s, PublishCall(s.release.id, p));
  }

  lemma {:induction false} HoldMeans(s: State, loss: int, p: Letting)
    requires Inv(s) && LetGoGuards(loss, p) && Run(s, [PublishCall(s.release.id, p)] + [ResumeCall(p)]).Some?
    ensures var t := Run(s, [PublishCall(s.release.id, p)] + [ResumeCall(p)]).value;
            && Inv(t) && t.clock == s.clock && Q.Keeps(s.release, t.release) && s.nowNs < loss + HELD <= t.nowNs
            && t.release.published == Some(Successor(s.release.id))
  {
    var publish := PublishCall(s.release.id, p);
    RunTwo(s, publish, ResumeCall(p));
    PublishMeans(s, p);
    StepKeeps(Step(s, publish).value, ResumeCall(p));
  }

  lemma {:induction false} ResumedStep(s: State, id: Q.Identity, p: Letting)
    requires Inv(s) && s.release.id == id && s.release.published.Some? && Step(s, ResumedCall(id, p)).Some?
    ensures var t := Step(s, ResumedCall(id, p)).value;
            && Inv(t) && t.clock == s.clock && Q.Keeps(s.release, t.release) && t.release.stage == Q.Complete
            && s.nowNs <= t.nowNs == p.resumed
  {
    StepKeeps(s, ResumedCall(id, p));
  }

  lemma {:induction false} WriteMeans(s: State, p: Letting)
    requires Inv(s) && Step(s, WriteCall(p)).Some?
    ensures var t := Step(s, WriteCall(p)).value;
            Inv(t) && t.clock == FirstWritten(s.clock, p.firstWrite) && t.release == s.release
  {
    StepKeeps(s, WriteCall(p));
  }

  /** The workers went on under the successor's identity, and wrote only after the hold. */
  ghost predicate Gone(done: State, s: State, loss: int, p: Letting) {
    && Inv(done) && done.clock == FirstWritten(s.clock, p.firstWrite)
    && done.release.witnessed == s.release.witnessed && done.release.id == s.release.id
    && done.release.stage == Q.Complete && done.release.published == Some(Successor(s.release.id))
    && s.nowNs < loss + HELD <= p.written <= p.firstWrite
  }

  lemma {:induction false} LetGoMeans(s: State, loss: int, p: Letting)
    requires Inv(s) && s.release.witnessed.Some? && LetGoGuards(loss, p) && Run(s, LetGoCalls(s.release.id, p)).Some?
    ensures Gone(Run(s, LetGoCalls(s.release.id, p)).value, s, loss, p)
  {
    var id := s.release.id;
    LetGoRuns(s, id, p);
    HoldMeans(s, loss, p);
    var held := Run(s, [PublishCall(id, p)] + [ResumeCall(p)]).value;
    ResumedStep(held, id, p);
    WriteMeans(Step(held, ResumedCall(id, p)).value, p);
  }

  /** How the three stages fit together. */
  ghost predicate Chain(prepared: State, replaced: State, done: State, startS: nat, id: Q.Identity, loss: nat,
                        after: Letting) {
    && Prepared(prepared, startS * SECOND, id) && Replaced(replaced, prepared, loss)
    && Gone(done, replaced, loss, after)
    && C.MayFinish(done.clock, after.finish)
  }

  lemma {:induction false} Covers(finished: nat, startS: nat)
    ensures finished <= (startS + HELD_S + RecoveryS(finished, startS)) * SECOND
  {
  }

  lemma {:induction false} Reduce(r: C.Receipt, startS: nat, action: E.Action, finished: nat)
    requires C.Sound(r) && r.planned == startS * SECOND && r.completedNs <= finished
    requires RecoveryS(finished, startS) >= 0 && action == E.Action(startS, HELD_S, RecoveryS(finished, startS))
    requires r.backup.name == E.BACKUP_NAME && r.acknowledged.boundNs <= r.backup.operationStarted
    requires r.backup.operationCompleted <= r.backup.durableNs
    requires forall i :: 0 <= i < |r.phases| ==> E.Timely(r, E.Plan(startS, HELD_S), i)
    requires C.Names(r.phases) == C.REPLAY_FIRST
    ensures E.ClockAccepted(r, E.Plan(startS, HELD_S), action) <==> CommandsBounded(r)
  {
    E.ReceiptAcceptedIff(r, E.Plan(startS, HELD_S), action);
    Covers(finished, startS);
  }

  lemma {:induction false} TimelyPhases(replaced: State, r: C.Receipt, startS: nat, loss: nat, firstWrite: nat)
    requires Inv(replaced) && replaced.clock.lossNs == Some(loss) && C.Names(replaced.clock.phases) == BEFORE_WRITES
    requires r.phases == replaced.clock.phases + [C.PhaseDone(C.FirstWrite, firstWrite)] && r.lossNs == loss
    requires replaced.nowNs < loss + HELD <= firstWrite
    ensures forall i :: 0 <= i < |r.phases| ==> E.Timely(r, E.Plan(startS, HELD_S), i)
    ensures C.Names(r.phases) == C.REPLAY_FIRST
  {
    assert |C.Names(replaced.clock.phases)| == 6;
    forall i | 0 <= i < |r.phases|
      ensures E.Timely(r, E.Plan(startS, HELD_S), i) && C.Names(r.phases)[i] == C.REPLAY_FIRST[i]
    {
      if i < 6 {
        assert C.InOrder(replaced.clock.phases, i, loss, Since(replaced.clock.lastNs));
        assert replaced.clock.phases[i].phase == BEFORE_WRITES[i];
      }
    }
  }

  lemma {:induction false} ClockPart(prepared: State, replaced: State, done: State, startS: nat, id: Q.Identity,
                                     loss: nat, after: Letting, action: E.Action)
    requires Chain(prepared, replaced, done, startS, id, loss, after) && after.finish <= after.finished
    requires RecoveryS(after.finished, startS) >= 0
    requires action == E.Action(startS, HELD_S, RecoveryS(after.finished, startS))
    ensures var r := C.ReceiptAt(done.clock, after.finish);
            E.ClockAccepted(r, E.Plan(startS, HELD_S), action) <==> CommandsBounded(r)
  {
    var r := C.ReceiptAt(done.clock, after.finish);
    C.ReceiptIsSound(done.clock, after.finish);
    TimelyPhases(replaced, r, startS, loss, after.firstWrite);
    Reduce(r, startS, action, after.finished);
  }

  lemma {:induction false} AdmissionPart(prepared: State, replaced: State, done: State, startS: nat, id: Q.Identity,
                                         loss: nat, after: Letting, generation: Option<nat>, version: Option<nat>)
    requires Chain(prepared, replaced, done, startS, id, loss, after) && Q.IdentityAdmits(id)
    ensures var r, w := C.ReceiptAt(done.clock, after.finish), done.release.witnessed.value;
            AdmissionAccepted(w, r, generation, version)
            <==> ReadersBounded(w, r, id) && Expected(id, generation, version)
  {
    var r, w := C.ReceiptAt(done.clock, after.finish), done.release.witnessed.value;
    C.ReceiptIsSound(done.clock, after.finish);
    WitnessFromInv(done);
    AcceptedIff(w, r, done.clock, id, generation, version);
    assert r.phases[0] == replaced.clock.phases[0];
  }

  /** The acknowledgement that completed the handover: of the published identity, with at least one more command. */
  lemma {:induction false} ResumedMeans(s: State, id: Q.Identity)
    requires Inv(s) && s.release.stage == Q.Complete && s.release.published == Some(Successor(id))
    requires s.release.witnessed.Some?
    ensures s.release.resumed.Some? && s.clock.acknowledged.Some?
    ensures var a := s.release.resumed.value;
            && a.generation == id.generation + 1 && a.version == id.version && a.incarnation == id.incarnation + 1
            && a.commands > s.clock.acknowledged.value.commands && U64(a.commands) && U64(a.readCount)
  {
  }

  lemma {:induction false} LastIsFirstWrite(phases: seq<C.PhaseDone>, k: nat)
    requires k <= 6 && C.Names(phases) == C.REPLAY_FIRST[k..]
    ensures |phases| == 7 - k && FirstWriteNs(phases) == Some(phases[6 - k].ns)
    decreases 7 - k
  {
    assert |C.Names(phases)| == 7 - k && phases[0].phase == C.REPLAY_FIRST[k];
    if k < 6 {
      assert C.Names(phases[1..]) == C.REPLAY_FIRST[k + 1..];
      LastIsFirstWrite(phases[1..], k + 1);
    }
  }

  lemma {:induction false} WritePart(prepared: State, replaced: State, done: State, startS: nat, id: Q.Identity,
                                     loss: nat, after: Letting)
    requires Chain(prepared, replaced, done, startS, id, loss, after)
    ensures done.release.resumed.Some?
    ensures var r, f := C.ReceiptAt(done.clock, after.finish), FirstWrite(after.written, done.release.resumed.value);
            FirstWriteAccepted(f, r) <==> WritersBounded(f, id)
  {
    var r := C.ReceiptAt(done.clock, after.finish);
    ResumedMeans(done, id);
    C.ReceiptIsSound(done.clock, after.finish);
    TimelyPhases(replaced, r, startS, loss, after.firstWrite);
    LastIsFirstWrite(r.phases, 0);
    assert C.InOrder(r.phases, 6, r.lossNs, r.completedNs);
  }

  /** The readers' witness carries the reading that was seen by the loss. */
  lemma {:induction false} SeenByLoss(s: State, was: State, loss: int)
    requires Replaced(s, was, loss)
    ensures s.release.witnessed.value.reading.ns <= loss
  {
    assert s.release.witnessed.value == Q.WitnessOf(s.release.snapshot.value.load, s.release.admission.value);
  }

  // --- the whole fault -----------------------------------------------------

  /** Finished within the deadline, in no more recovery seconds than the timeline allows. */
  predicate EndGuards(startS: nat, during: Replacement, after: Letting) {
    && after.finish <= after.finished <= during.loss + C.RECOVERY_LIMIT
    && RecoveryS(after.finished, startS) <= 240 - HELD_S
  }

  /** The controller's own waits and comparisons, all of them about its inputs. */
  predicate Guards(startS: nat, before: Preparation, during: Replacement, after: Letting) {
    && PrepareGuards(startS * SECOND, before) && ReplaceGuards(during) && LetGoGuards(during.loss, after)
    && EndGuards(startS, during, after)
  }

  function FinishCall(after: Letting): Call {
    OnClock(C.CallFinish(after.finish))
  }

  /** Every call the fault makes on the two machines, in order. */
  function Script(startS: nat, id: Q.Identity, before: Preparation, during: Replacement, after: Letting): seq<Call>
    requires Guards(startS, before, during, after)
  {
    PrepareCalls(startS * SECOND, before) + ReplaceCalls(during) + LetGoCalls(id, after) + [FinishCall(after)]
  }

  /** The fault comes to an end: its guards hold and both machines accept the whole script. */
  predicate Reached(startS: nat, id: Q.Identity, before: Preparation, during: Replacement, after: Letting) {
    && Guards(startS, before, during, after)
    && Run(Fresh(startS * SECOND, id), Script(startS, id, before, during, after)).Some?
  }

  /** The states between the stages, and the last. */
  datatype Stages = Stages(prepared: State, replaced: State, done: State, end: State)

  ghost predicate Passes(g: Stages, startS: nat, id: Q.Identity, before: Preparation, during: Replacement,
                         after: Letting)
    requires Guards(startS, before, during, after)
  {
    && Run(Fresh(startS * SECOND, id), PrepareCalls(startS * SECOND, before)) == Some(g.prepared)
    && Run(g.prepared, ReplaceCalls(during)) == Some(g.replaced)
    && Run(g.replaced, LetGoCalls(id, after)) == Some(g.done)
    && Step(g.done, FinishCall(after)) == Some(g.end)
  }

  function End(startS: nat, id: Q.Identity, before: Preparation, during: Replacement, after: Letting): State
    requires Reached(startS, id, before, during, after)
  {
    Run(Fresh(startS * SECOND, id), Script(startS, id, before, during, after)).value
  }

  predicate Concluded(s: State, startS: nat, after: Letting) {
    && s.clock.preparationNs.Some? && s.clock.acknowledged.Some? && s.clock.backup.Some? && s.clock.lossNs.Some?
    && s.release.witnessed.Some? && s.release.resumed.Some? && RecoveryS(after.finished, startS) >= 0
  }

  function OutcomeOf(s: State, startS: nat, after: Letting): Outcome
    requires Concluded(s, startS, after)
  {
    Outcome(C.ReceiptAt(s.clock, after.finish), s.release.witnessed.value,
            FirstWrite(after.written, s.release.resumed.value),
            E.Action(startS, HELD_S, RecoveryS(after.finished, startS)))
  }

  lemma {:induction false} ScriptRuns(s: State, a: seq<Call>, b: seq<Call>, d: seq<Call>, call: Call)
    ensures var done := Then(Then(Run(s, a), b), d);
            Run(s, a + b + d + [call]) == if done.None? then None else Step(done.value, call)
  {
    RunAppend(s, a, b);
    RunAppend(s, a + b, d);
    RunAppend(s, a + b + d, [call]);
    var done := Then(Then(Run(s, a), b), d);
    if done.Some? {
      RunOne(done.value, call);
    }
  }

  /**
   * What an outcome is worth. The receipt passes its check exactly when the acknowledged
   * commands are bounded. The read admission passes its own exactly when the readers were
   * the original ones, of the identity its caller expects, were seen strictly before the loss,
   * and read no faster than offered; they were seen by the loss at the latest. The first write
   * passes exactly when this was the last of the campaign's five releases and the workers did no
   * more than was offered.
   */
  ghost predicate Judged(o: Outcome, startS: nat, id: Q.Identity) {
    && (E.ClockAccepted(o.receipt, E.Plan(startS, HELD_S), o.action) <==> CommandsBounded(o.receipt))
    && (forall generation, version ::
          AdmissionAccepted(o.admission, o.receipt, generation, version)
          <==> ReadersBounded(o.admission, o.receipt, id) && Expected(id, generation, version))
    && o.admission.reading.ns <= o.receipt.lossNs
    && (FirstWriteAccepted(o.firstWrite, o.receipt) <==> WritersBounded(o.firstWrite, id))
    && Q.Identity(o.firstWrite.ack.generation, o.firstWrite.ack.version, o.firstWrite.ack.incarnation)
       == Q.Identity(id.generation + 1, id.version, id.incarnation + 1)
  }

  lemma {:induction false} ChainJudged(prepared: State, replaced: State, done: State, startS: nat, id: Q.Identity,
                                       loss: nat, after: Letting)
    requires Chain(prepared, replaced, done, startS, id, loss, after) && Q.IdentityAdmits(id)
             && after.finish <= after.finished
    ensures Concluded(done, startS, after) && Judged(OutcomeOf(done, startS, after), startS, id)
  {
    RecoveryCounts(done.clock, startS, after);
    ResumedMeans(done, id);
    ClockPart(prepared, replaced, done, startS, id, loss, after,
              E.Action(startS, HELD_S, RecoveryS(after.finished, startS)));
    var w, r := done.release.witnessed.value, C.ReceiptAt(done.clock, after.finish);
    forall generation, version
      ensures AdmissionAccepted(w, r, generation, version)
              <==> ReadersBounded(w, r, id) && Expected(id, generation, version)
    {
      AdmissionPart(prepared, replaced, done, startS, id, loss, after, generation, version);
    }
    SeenByLoss(replaced, prepared, loss);
    WritePart(prepared, replaced, done, startS, id, loss, after);
  }

  lemma {:induction false} FinishKeeps(s: State, startS: nat, after: Letting)
    requires Step(s, FinishCall(after)).Some? && Concluded(s, startS, after)
    ensures var end := Step(s, FinishCall(after)).value;
            C.MayFinish(s.clock, after.finish) && Concluded(end, startS, after)
            && OutcomeOf(end, startS, after) == OutcomeOf(s, startS, after)
  {
  }

  lemma {:induction false} GoneAfter(s: State, done: State, id: Q.Identity, loss: int, after: Letting)
    requires Inv(s) && s.release.id == id && s.release.witnessed.Some? && LetGoGuards(loss, after)
    requires Run(s, LetGoCalls(id, after)) == Some(done) && Step(done, FinishCall(after)).Some?
    ensures Gone(done, s, loss, after) && C.MayFinish(done.clock, after.finish)
  {
    LetGoMeans(s, loss, after);
  }

  lemma {:induction false} StagesEnd(prepared: State, replaced: State, done: State, startS: nat, id: Q.Identity,
                                     during: Replacement, after: Letting)
    requires Prepared(prepared, startS * SECOND, id) && ReplaceGuards(during) && LetGoGuards(during.loss, after)
    requires Run(prepared, ReplaceCalls(during)) == Some(replaced) && Run(replaced, LetGoCalls(id, after)) == Some(done)
    requires Step(done, FinishCall(after)).Some?
    ensures during.loss >= 0 && Chain(prepared, replaced, done, startS, id, during.loss, after)
  {
    ReplaceMeans(prepared, startS * SECOND, id, during);
    assert replaced.release.id == id;
    GoneAfter(replaced, done, id, during.loss, after);
  }

  lemma {:induction false} StagesMean(g: Stages, startS: nat, id: Q.Identity, before: Preparation, during: Replacement,
                                      after: Letting)
    requires C.ScheduleAdmits(startS * SECOND) && Q.IdentityAdmits(id)
    requires Guards(startS, before, during, after) && Passes(g, startS, id, before, during, after)
    ensures during.loss >= 0 && Chain(g.prepared, g.replaced, g.done, startS, id, during.loss, after)
  {
    PrepareMeans(startS * SECOND, id, before);
    StagesEnd(g.prepared, g.replaced, g.done, startS, id, during, after);
  }

  /** The script's run, stage by stage. */
  lemma {:induction false} ScriptStages(startS: nat, id: Q.Identity, before: Preparation, during: Replacement,
                                        after: Letting)
    requires Guards(startS, before, during, after)
    ensures var prepared := Run(Fresh(startS * SECOND, id), PrepareCalls(startS * SECOND, before));
            var done := Then(Then(prepared, ReplaceCalls(during)), LetGoCalls(id, after));
            Run(Fresh(startS * SECOND, id), Script(startS, id, before, during, after))
            == if done.None? then None else Step(done.value, FinishCall(after))
  {
    ScriptRuns(Fresh(startS * SECOND, id), PrepareCalls(startS * SECOND, before), ReplaceCalls(during),
               LetGoCalls(id, after),
               FinishCall(after));
  }

  lemma {:induction false} StagesOf(startS: nat, id: Q.Identity, before: Preparation, during: Replacement,
                                    after: Letting)
    returns (g: Stages)
    requires Reached(startS, id, before, during, after)
    ensures Passes(g, startS, id, before, during, after) && g.end == End(startS, id, before, during, after)
  {
    ScriptStages(startS, id, before, during, after);
    var prepared := Run(Fresh(startS * SECOND, id), PrepareCalls(startS * SECOND, before)).value;
    var replaced := Run(prepared, ReplaceCalls(during)).value;
    var done := Run(replaced, LetGoCalls(id, after)).value;
    g := Stages(prepared, replaced, done, Step(done, FinishCall(after)).value);
  }

  /** Every outcome of the fault, judged by its three checks. */
  lemma {:induction false} OutcomeJudged(startS: nat, id: Q.Identity, before: Preparation, during: Replacement,
                                         after: Letting)
    requires C.ScheduleAdmits(startS * SECOND) && Q.IdentityAdmits(id) && Reached(startS, id, before, during, after)
    ensures var end := End(startS, id, before, during, after);
            Concluded(end, startS, after) && Judged(OutcomeOf(end, startS, after), startS, id)
  {
    var g := StagesOf(startS, id, before, during, after);
    StagesMean(g, startS, id, before, during, after);
    ChainJudged(g.prepared, g.replaced, g.done, startS, id, during.loss, after);
    FinishKeeps(g.done, startS, after);
  }

  /** The end state, for a controller that takes the stages one after the other. */
  function Final(startS: nat, id: Q.Identity, before: Preparation, during: Replacement, after: Letting): Option<State> {
    var prepared := if PrepareGuards(startS * SECOND, before)
                    then Run(Fresh(startS * SECOND, id), PrepareCalls(startS * SECOND, before)) else None;
    var replaced := if ReplaceGuards(during) then Then(prepared, ReplaceCalls(during)) else None;
    var done := if replaced.None? || !LetGoGuards(during.loss, after) then None
                else Run(replaced.value, LetGoCalls(replaced.value.release.id, after));
    if done.None? || !EndGuards(startS, during, after) then None else Step(done.value, FinishCall(after))
  }

  lemma {:induction false} FinalIsScript(startS: nat, id: Q.Identity, before: Preparation, during: Replacement,
                                         after: Letting)
    ensures Final(startS, id, before, during, after).Some? <==> Reached(startS, id, before, during, after)
    ensures Reached(startS, id, before, during, after) ==>
              Final(startS, id, before, during, after) == Some(End(startS, id, before, during, after))
  {
    if Guards(startS, before, during, after) {
      ScriptStages(startS, id, before, during, after);
      var prepared := Run(Fresh(startS * SECOND, id), PrepareCalls(startS * SECOND, before));
      if prepared.Some? {
        IdentityFixed(Fresh(startS * SECOND, id), PrepareCalls(startS * SECOND, before));
        if Run(prepared.value, ReplaceCalls(during)).Some? {
          IdentityFixed(prepared.value, ReplaceCalls(during));
        }
      }
    }
  }

  method RunStages(startS: nat, id: Q.Identity, before: Preparation, during: Replacement, after: Letting)
    returns (end: Option<State>)
    requires C.ScheduleAdmits(startS * SECOND) && Q.IdentityAdmits(id)
    ensures end == Final(startS, id, before, during, after)
  {
    var prepared := Prepare(startS * SECOND, id, before);
    if prepared.None? {
      return None;
    }
    var replaced := Replace(prepared.value, during);
    if replaced.None? {
      return None;
    }
    var done := LetGo(replaced.value, during.loss, after);
    if done.None? || !EndGuards(startS, during, after) {
      return None;
    }
    end := Step(done.value, FinishCall(after));
  }

  /** The whole fault, with an outcome exactly when the script is accepted under the controller's guards. */
  method Execute(startS: nat, id: Q.Identity, before: Preparation, during: Replacement, after: Letting)
    returns (outcome: Option<Outcome>)
    requires C.ScheduleAdmits(startS * SECOND) && Q.IdentityAdmits(id)
    ensures outcome.Some? <==> Reached(startS, id, before, during, after)
    ensures outcome.Some? ==>
              var end := End(startS, id, before, during, after);
              Concluded(end, startS, after) && outcome.value == OutcomeOf(end, startS, after)
    ensures outcome.Some? ==> Judged(outcome.value, startS, id)
  {
    FinalIsScript(startS, id, before, during, after);
    var end := RunStages(startS, id, before, during, after);
    if end.None? {
      return None;
    }
    OutcomeJudged(startS, id, before, during, after);
    outcome := Some(OutcomeOf(end.value, startS, after));
  }
}
