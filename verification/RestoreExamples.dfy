/**
 * Restore faults that do come to an end: with the readers seen before the loss all three
 * checks pass, and seen at the very instant of the loss, or after it, one of them fails.
 */
module RestoreExamples {
  import opened Prelude
  import opened RestoreRun
  import opened RestoreScript
  import opened RestoreFault
  import C = RestoreClock
  import E = RestoreEvidence
  import M = Maintenance
  import Q = Quiescence

  const START_S := 300
  const PLANNED: nat := 300_000_000_000
  const FIFTH := Q.Identity(5, 2, 1)

  /** The workers can still be released under the next identity. */
  predicate Room(id: Q.Identity) {
    Q.IdentityAdmits(id) && id.generation < MAX_U64 && id.incarnation < MAX_U64
  }

  // --- one world for every identity ----------------------------------------

  function LoadOf(id: Q.Identity): Q.Load {
    Q.Load(id.generation, 1, 0)
  }

  function ObserverOf(id: Q.Identity): Q.Observer {
    Q.Observer(id.generation, id.version, id.incarnation, 0, 0, 0, 0)
  }

  function ReadOf(id: Q.Identity): Q.Resumed {
    Q.Resumed(id.generation, id.version, id.incarnation, 1, 1)
  }

  function WriteOf(id: Q.Identity): Q.Resumed {
    Q.Resumed(id.generation + 1, id.version, id.incarnation + 1, 2, 1)
  }

  function StoppedAt(id: Q.Identity, now: int): Sight {
    Sight(now, Q.Holds(LoadOf(id)), Q.Holds(ObserverOf(id)))
  }

  /** The operation succeeds at once, so no turn is taken. */
  function Prompt(kind: M.Kind, now: int, responded: int): M.Errand {
    M.Errand(now, M.Receipt(M.NewlyAccepted, kind, E.BACKUP_NAME, "", "", M.Succeeded, true), responded,
             seq(M.MAX_POLLS, _ => M.Turn(0, 0, M.Malformed, 0)))
  }

  /** The readers are seen at `reading`. */
  function Before(id: Q.Identity, reading: nat): Preparation {
    Preparation(250_000_000_000, [StoppedAt(id, 251_000_000_000)], 252_000_000_000, 1, "", 260_000_000_000,
                Prompt(M.Create, 260_000_000_000, 261_000_000_000), StoppedAt(id, 262_000_000_000), 263_000_000_000,
                "", E.SOURCE, StoppedAt(id, 264_000_000_000), [AckSight(reading, Q.Holds(ReadOf(id)))])
  }

  /** The readers are paused at the instant of the loss and seen stopped right after it. */
  function During(id: Q.Identity, loss: nat): Replacement {
    var now := loss + 1;
    Replacement(StoppedAt(id, loss), loss, "", "", loss, Q.Holds(id), [AckSight(now, Q.Holds(ReadOf(id)))],
                now, now, Prompt(M.Restore, now, now), now, now, now, now)
  }

  /** The workers go on when the hold ends. */
  function After(id: Q.Identity, loss: nat): Letting {
    var release := loss + HELD;
    Letting(StoppedAt(id, loss + 1), true, loss + 1, release, release, 0, Q.Holds(WriteOf(id)), release, release,
            release, release)
  }

  // --- preparation ---------------------------------------------------------

  const BACKUP := C.Backup(E.BACKUP_NAME, "", "", "", 260_000_000_000, 261_000_000_000, PLANNED, E.SOURCE, 4,
                           263_000_000_000)
  const BOUND := C.Acknowledged(252_000_000_000, 1, 1, "")

  function Clock(stage: C.Stage, last: nat, bound: Option<C.Acknowledged>, backup: Option<C.Backup>, loss: Option<nat>,
                 phases: seq<C.PhaseDone>): C.Clock {
    C.Clock(PLANNED, stage, Some(last), Some(250_000_000_000), bound, backup, loss, phases)
  }

  function Release(id: Q.Identity, last: nat, admission: Option<Q.Reads>, witnessed: Option<Q.Witness>): Q.State {
    Q.State(id, Q.Pausing, Some(250_000_000_000), last, true, Some(ObserverOf(id)),
            Some(Q.Snapshot(LoadOf(id), ObserverOf(id))), admission, witnessed, None, None)
  }

  /** Both workers have stopped. */
  function Paused(id: Q.Identity): State {
    State(251_000_000_000, Clock(C.Quiescing, 250_000_000_000, None, None, None, []),
          Release(id, 251_000_000_000, None, None))
  }

  function BoundState(id: Q.Identity): State {
    State(252_000_000_000, Clock(C.Preparing, 252_000_000_000, Some(BOUND), None, None, []),
          Release(id, 251_000_000_000, None, None))
  }

  function Durable(id: Q.Identity): State {
    State(263_000_000_000, Clock(C.BackupDurable, 263_000_000_000, Some(BOUND), Some(BACKUP), None, []),
          Release(id, 262_000_000_000, None, None))
  }

  /** Reads are allowed from here on. */
  function Allowed(id: Q.Identity): State {
    State(264_000_000_000, Clock(C.BackupDurable, 263_000_000_000, Some(BOUND), Some(BACKUP), None, []),
          Release(id, 264_000_000_000, Some(Q.Reads(264_000_000_000, None, None, None)), None))
  }

  lemma {:induction false} BindExample(id: Q.Identity, reading: nat, p: Preparation)
    requires Room(id) && p == Before(id, reading)
    ensures BindGuards(PLANNED, p) && Run(Fresh(PLANNED, id), BindCalls(p)) == Some(BoundState(id))
  {
    assert FirstReady(p.polls, 0) == 0 && |p.polls| == 1;
    BindRuns(Fresh(PLANNED, id), p);
    var begun := Step(Fresh(PLANNED, id), OnClock(C.CallBegin(p.begin))).value;
    var paused := Step(begun, OnRelease(Q.CallBegin(p.begin, true, true))).value;
    assert WorkerCalls(p.polls) == [PollCall(p.polls[0])];
    RunOne(paused, PollCall(p.polls[0]));
    assert Step(paused, PollCall(p.polls[0])) == Some(Paused(id));
  }

  lemma {:induction false} OperationExample(id: Q.Identity, reading: nat, p: Preparation)
    requires p == Before(id, reading)
    ensures BackGuards(PLANNED, p)
    ensures var op := Operation(PLANNED, p);
            && op.kind == M.Create && op.name == E.BACKUP_NAME && op.started && op.complete && !op.failed
            && op.phase == Some(M.Succeeded) && op.startedNs == 260_000_000_000 && op.lastNs == 261_000_000_000
            && op.deadlineNs == PLANNED && op.operation == Some("") && op.inputHash == Some("")
  {
    var first := M.Initial(M.Create, E.BACKUP_NAME, 260_000_000_000, PLANNED);
    assert M.Start(first, p.backup.now, p.backup.reply, p.backup.responded).complete;
  }

  lemma {:induction false} BackExample(id: Q.Identity, reading: nat, p: Preparation)
    requires Room(id) && p == Before(id, reading)
    ensures Run(BoundState(id), [PollCall(p.confirm)] + [DurableCall(PLANNED, p)]) == Some(Durable(id))
  {
    OperationExample(id, reading, p);
    E.SourceInventory();
    RunTwo(BoundState(id), PollCall(p.confirm), DurableCall(PLANNED, p));
  }

  lemma {:induction false} AllowExample(id: Q.Identity, reading: nat, p: Preparation)
    requires Room(id) && p == Before(id, reading)
    ensures Step(Durable(id), AllowCall(p)) == Some(Allowed(id))
  {
  }

  // --- the readers are seen before the loss, or with it --------------------

  function Reading(id: Q.Identity, reading: nat): State {
    State(reading, Clock(C.BackupDurable, 263_000_000_000, Some(BOUND), Some(BACKUP), None, []),
          Release(id, reading, Some(Q.Reads(264_000_000_000, Some(Q.Seen(ReadOf(id), reading)), None, None)), None))
  }

  lemma {:induction false} ReadExample(id: Q.Identity, reading: nat, p: Preparation)
    requires Room(id) && p == Before(id, reading) && 264_000_000_000 <= reading < PLANNED + SECOND
    ensures Acknowledged(p.reading) && Run(Allowed(id), ReaderCalls(p.reading, false)) == Some(Reading(id, reading))
  {
    assert FirstHeld(p.reading, 0) == 0 && |p.reading| == 1;
    assert ReaderCalls(p.reading, false) == [SightCall(p.reading[0], false)];
    RunOne(Allowed(id), SightCall(p.reading[0], false));
  }

  lemma {:induction false} PrepareExample(id: Q.Identity, reading: nat, p: Preparation)
    requires Room(id) && p == Before(id, reading) && 264_000_000_000 <= reading < PLANNED + SECOND
    ensures PrepareGuards(PLANNED, p)
    ensures Run(Fresh(PLANNED, id), PrepareCalls(PLANNED, p)) == Some(Reading(id, reading))
  {
    BindExample(id, reading, p);
    OperationExample(id, reading, p);
    BackExample(id, reading, p);
    AllowExample(id, reading, p);
    ReadExample(id, reading, p);
    PrepareRuns(Fresh(PLANNED, id), PLANNED, p);
  }

  // --- replacement ---------------------------------------------------------

  function Lost(id: Q.Identity, admission: Q.Reads, loss: nat): State {
    State(loss, Clock(C.Recovering, loss, Some(BOUND), Some(BACKUP), Some(loss), []),
          Release(id, loss, Some(admission), None))
  }

  lemma {:induction false} LoseExample(id: Q.Identity, s: State, admission: Q.Reads, p: Replacement, loss: nat)
    requires Room(id) && p == During(id, loss) && PLANNED <= loss < PLANNED + SECOND
    requires s.nowNs <= loss && s.release.lastNs <= loss
    requires s == State(s.nowNs, Clock(C.BackupDurable, 263_000_000_000, Some(BOUND), Some(BACKUP), None, []),
                        Release(id, s.release.lastNs, Some(admission), None))
    ensures Q.Ready(p.confirm.load, p.confirm.observer)
    ensures Run(s, [PollCall(p.confirm)] + [LossCall(p)]) == Some(Lost(id, admission, loss))
  {
    RunTwo(s, PollCall(p.confirm), LossCall(p));
  }

  function Witnessed(id: Q.Identity, reading: nat, now: nat): Q.Witness
    requires now > 0
  {
    Q.Witness(LoadOf(id), 264_000_000_000, Q.Seen(ReadOf(id), reading), now - 1, Q.Seen(ReadOf(id), now))
  }

  /** The readers, paused a nanosecond before, are seen stopped at `now`. */
  function Stopped(id: Q.Identity, reading: nat, loss: nat, now: nat): State
    requires now > 0
  {
    State(now, Clock(C.Recovering, loss, Some(BOUND), Some(BACKUP), Some(loss), []),
          Release(id, now,
                  Some(Q.Reads(264_000_000_000, Some(Q.Seen(ReadOf(id), reading)), Some(now - 1),
                               Some(Q.Seen(ReadOf(id), now)))),
                  Some(Witnessed(id, reading, now))))
  }

  lemma {:induction false} StopExample(id: Q.Identity, reading: nat, loss: nat, now: nat, s: State)
    requires Room(id)
    requires reading <= s.nowNs < now && loss <= s.nowNs && now < loss + SECOND && PLANNED <= loss < PLANNED + SECOND
    requires var admission := Q.Reads(264_000_000_000, Some(Q.Seen(ReadOf(id), reading)), None, None);
             s == State(s.nowNs, Lost(id, admission, loss).clock, Release(id, s.nowNs, Some(admission), None))
    ensures var paused := Step(s, OnRelease(Q.CallPauseReads(now - 1, Q.Holds(id), true)));
            var sight := SightCall(AckSight(now, Q.Holds(ReadOf(id))), true);
            paused.Some? && Step(paused.value, sight) == Some(Stopped(id, reading, loss, now))
  {
  }

  function Done(n: nat, now: nat): (phases: seq<C.PhaseDone>)
    requires n <= 6
    ensures |phases| == n && forall i :: 0 <= i < n ==> phases[i] == C.PhaseDone(BEFORE_WRITES[i], now)
  {
    seq(n, i requires 0 <= i < n => C.PhaseDone(BEFORE_WRITES[i], now))
  }

  /** Recovering, with the first `k` phases done at `now`. */
  function Phased(loss: nat, last: nat, now: nat, k: nat): C.Clock
    requires k <= 6
  {
    Clock(C.Recovering, last, Some(BOUND), Some(BACKUP), Some(loss), Done(k, now))
  }

  lemma {:induction false} PhaseExample(s: State, loss: nat, last: nat, now: nat, k: nat)
    requires k < 6 && s.clock == Phased(loss, last, now, k)
    requires last <= now && s.nowNs <= now && PLANNED <= loss <= now <= loss + SECOND && loss < PLANNED + SECOND
    ensures Step(s, OnClock(C.CallPhase(BEFORE_WRITES[k], now)))
            == Some(State(now, Phased(loss, now, now, k + 1), s.release))
  {
    assert Done(k, now) + [C.PhaseDone(BEFORE_WRITES[k], now)] == Done(k + 1, now);
    assert C.Names(Done(k, now)) + [BEFORE_WRITES[k]] == C.REPLAY_FIRST[..k + 1];
  }

  lemma {:induction false} PhasesExample(s: State, loss: nat, last: nat, now: nat, p: Replacement, k: nat)
    requires k <= 6 && s.clock == Phased(loss, last, now, k) && (k == 6 ==> last == now == s.nowNs)
    requires last <= now && s.nowNs <= now && PLANNED <= loss <= now <= loss + SECOND && loss < PLANNED + SECOND
    requires forall i :: 0 <= i < 6 ==> Instants(p)[i] == now
    ensures Run(s, PhaseCalls(p)[k..]) == Some(State(now, Phased(loss, now, now, 6), s.release))
    decreases 6 - k
  {
    var calls := PhaseCalls(p)[k..];
    if k < 6 {
      assert calls[0] == OnClock(C.CallPhase(BEFORE_WRITES[k], now)) && calls[1..] == PhaseCalls(p)[k + 1..];
      PhaseExample(s, loss, last, now, k);
      PhasesExample(Step(s, calls[0]).value, loss, now, now, p, k + 1);
    } else {
      assert |calls| == 0;
    }
  }

  /** All but the first write is done. */
  function Rebuilt(id: Q.Identity, reading: nat, loss: nat, now: nat): State
    requires now > 0
  {
    State(now, Phased(loss, now, now, 6), Stopped(id, reading, loss, now).release)
  }

  lemma {:induction false} QuietExample(id: Q.Identity, reading: nat, loss: nat, p: Replacement)
    requires Room(id) && p == During(id, loss)
    requires 264_000_000_000 <= reading <= loss && PLANNED <= loss < PLANNED + SECOND
    ensures Acknowledged(p.quiescing)
    ensures var lost := Lost(id, Q.Reads(264_000_000_000, Some(Q.Seen(ReadOf(id), reading)), None, None), loss);
            var paused := Step(lost, PauseCall(p));
            && paused.Some?
            && Run(paused.value, ReaderCalls(p.quiescing, true)) == Some(Stopped(id, reading, loss, loss + 1))
  {
    var lost := Lost(id, Q.Reads(264_000_000_000, Some(Q.Seen(ReadOf(id), reading)), None, None), loss);
    assert FirstHeld(p.quiescing, 0) == 0 && |p.quiescing| == 1;
    assert ReaderCalls(p.quiescing, true) == [SightCall(p.quiescing[0], true)];
    StopExample(id, reading, loss, loss + 1, lost);
    RunOne(Step(lost, PauseCall(p)).value, SightCall(p.quiescing[0], true));
  }

  lemma {:induction false} RestoreExample(p: Replacement, loss: nat)
    requires p.loss == loss && p.admission == p.restored == loss + 1
    requires p.restore == Prompt(M.Restore, loss + 1, loss + 1)
    ensures RestoreGuards(p)
  {
    var first := M.Initial(M.Restore, E.BACKUP_NAME, loss, loss + C.RECOVERY_LIMIT);
    assert M.Start(first, loss + 1, p.restore.reply, loss + 1).complete;
  }

  lemma {:induction false} RebuildExample(id: Q.Identity, reading: nat, loss: nat, p: Replacement)
    requires PLANNED <= loss < PLANNED + SECOND && forall i :: 0 <= i < 6 ==> Instants(p)[i] == loss + 1
    ensures Run(Stopped(id, reading, loss, loss + 1), PhaseCalls(p)) == Some(Rebuilt(id, reading, loss, loss + 1))
  {
    assert Done(0, loss + 1) == [] && PhaseCalls(p)[0..] == PhaseCalls(p);
    PhasesExample(Stopped(id, reading, loss, loss + 1), loss, loss, loss + 1, p, 0);
  }

  lemma {:induction false} ReplacedBy(s: State, p: Replacement, lost: State, stopped: State, end: State)
    requires ReplaceGuards(p) && Run(s, [PollCall(p.confirm)] + [LossCall(p)]) == Some(lost)
    requires Step(lost, PauseCall(p)).Some?
    requires Run(Step(lost, PauseCall(p)).value, ReaderCalls(p.quiescing, true)) == Some(stopped)
    requires Run(stopped, PhaseCalls(p)) == Some(end)
    ensures Run(s, ReplaceCalls(p)) == Some(end)
  {
    ReplaceRuns(s, p);
  }

  lemma {:induction false} ReplaceExample(id: Q.Identity, reading: nat, loss: nat, p: Replacement)
    requires Room(id) && p == During(id, loss)
    requires 264_000_000_000 <= reading <= loss && PLANNED <= loss < PLANNED + SECOND
    ensures ReplaceGuards(p)
    ensures Run(Reading(id, reading), ReplaceCalls(p)) == Some(Rebuilt(id, reading, loss, loss + 1))
  {
    var admission := Q.Reads(264_000_000_000, Some(Q.Seen(ReadOf(id), reading)), None, None);
    LoseExample(id, Reading(id, reading), admission, p, loss);
    QuietExample(id, reading, loss, p);
    RestoreExample(p, loss);
    RebuildExample(id, reading, loss, p);
    ReplacedBy(Reading(id, reading), p, Lost(id, admission, loss), Stopped(id, reading, loss, loss + 1),
               Rebuilt(id, reading, loss, loss + 1));
  }

  // --- release -------------------------------------------------------------

  function Resumed(id: Q.Identity, reading: nat, loss: nat): State {
    var release := loss + HELD;
    State(release, Phased(loss, loss + 1, loss + 1, 6),
          Rebuilt(id, reading, loss, loss + 1).release.(stage := Q.Complete, lastNs := release,
                                                        resumed := Some(WriteOf(id)), published := Some(Successor(id))))
  }

  lemma {:induction false} ResumeExample(id: Q.Identity, reading: nat, loss: nat, p: Letting)
    requires Room(id) && p == After(id, loss) && PLANNED <= loss < PLANNED + SECOND
    ensures var out := Step(Rebuilt(id, reading, loss, loss + 1), PublishCall(id, p));
            && out.Some?
            && var held := Step(out.value, ResumeCall(p));
            held.Some? && Step(held.value, ResumedCall(id, p)) == Some(Resumed(id, reading, loss))
  {
  }

  function Written(loss: nat): C.Clock {
    Clock(C.Recovering, loss + HELD, Some(BOUND), Some(BACKUP), Some(loss),
          Done(6, loss + 1) + [C.PhaseDone(C.FirstWrite, loss + HELD)])
  }

  lemma {:induction false} WriteExample(s: State, loss: nat, last: nat, now: nat)
    requires s.clock == Phased(loss, last, now, 6) && PLANNED <= loss < PLANNED + SECOND
    requires last <= loss + HELD && s.nowNs <= loss + HELD
    ensures var call := OnClock(C.CallPhase(C.FirstWrite, loss + HELD));
            var write := Step(s, call);
            && write.Some? && write.value.release == s.release && write.value.nowNs == loss + HELD
            && write.value.clock == s.clock.(lastNs := Some(loss + HELD),
                                             phases := Done(6, now) + [C.PhaseDone(C.FirstWrite, loss + HELD)])
            && C.MayFinish(write.value.clock, loss + HELD)
  {
    assert C.Names(Done(6, now)) + [C.FirstWrite] == C.REPLAY_FIRST;
  }

  function Ended(id: Q.Identity, reading: nat, loss: nat): State {
    State(loss + HELD, Written(loss).(stage := C.Complete), Resumed(id, reading, loss).release)
  }

  lemma {:induction false} HoldExample(id: Q.Identity, loss: nat)
    ensures LetGoGuards(loss, After(id, loss))
  {
  }

  lemma {:induction false} LetGoExample(id: Q.Identity, reading: nat, loss: nat, p: Letting)
    requires Room(id) && p == After(id, loss) && PLANNED <= loss < PLANNED + SECOND
    ensures var done := Run(Rebuilt(id, reading, loss, loss + 1), LetGoCalls(id, p));
            done.Some? && Step(done.value, FinishCall(p)) == Some(Ended(id, reading, loss))
  {
    LetGoRuns(Rebuilt(id, reading, loss, loss + 1), id, p);
    ResumeExample(id, reading, loss, p);
    WriteExample(Resumed(id, reading, loss), loss, loss + 1, loss + 1);
  }

  // --- the whole fault -----------------------------------------------------

  /**
   * Any loss in its planned second, with the readers seen at any instant since they were
   * allowed up to the loss itself.
   */
  lemma {:induction false} FaultReaches(id: Q.Identity, reading: nat, loss: nat)
    requires Room(id) && 264_000_000_000 <= reading <= loss && PLANNED <= loss < PLANNED + SECOND
    ensures Reached(START_S, id, Before(id, reading), During(id, loss), After(id, loss))
    ensures End(START_S, id, Before(id, reading), During(id, loss), After(id, loss)) == Ended(id, reading, loss)
  {
    PrepareExample(id, reading, Before(id, reading));
    ReplaceExample(id, reading, loss, During(id, loss));
    HoldExample(id, loss);
    LetGoExample(id, reading, loss, After(id, loss));
    ScriptStages(START_S, id, Before(id, reading), During(id, loss), After(id, loss));
  }

  /** The outcome of that fault. */
  function Result(id: Q.Identity, reading: nat, loss: nat): Outcome
    requires PLANNED <= loss
  {
    OutcomeOf(Ended(id, reading, loss), START_S, After(id, loss))
  }

  /**
   * What the three checks make of it: the receipt passes, the read admission passes exactly
   * for the original readers under the expected identity seen before the loss, and the first
   * write exactly for the fifth release.
   */
  lemma {:induction false} ResultJudged(id: Q.Identity, reading: nat, loss: nat, generation: Option<nat>,
                                        version: Option<nat>)
    requires Room(id) && 264_000_000_000 <= reading <= loss && PLANNED <= loss < PLANNED + SECOND
    ensures var o := Result(id, reading, loss);
            && E.ClockAccepted(o.receipt, E.Plan(START_S, HELD_S), o.action)
            && (AdmissionAccepted(o.admission, o.receipt, generation, version)
                <==> id.generation <= 16 && id.incarnation == 1 && reading < loss && Expected(id, generation, version))
            && (FirstWriteAccepted(o.firstWrite, o.receipt) <==> id == FIFTH)
  {
    FaultReaches(id, reading, loss);
    OutcomeJudged(START_S, id, Before(id, reading), During(id, loss), After(id, loss));
  }

  /** Seen before the loss, the outcome of the fifth release passes all three checks. */
  lemma {:induction false} FaultPasses(reading: nat, loss: nat)
    requires 264_000_000_000 <= reading < loss && PLANNED <= loss < PLANNED + SECOND
    ensures Reached(START_S, FIFTH, Before(FIFTH, reading), During(FIFTH, loss), After(FIFTH, loss))
    ensures var end := End(START_S, FIFTH, Before(FIFTH, reading), During(FIFTH, loss), After(FIFTH, loss));
            && Concluded(end, START_S, After(FIFTH, loss))
            && var o := OutcomeOf(end, START_S, After(FIFTH, loss));
            && E.ClockAccepted(o.receipt, E.Plan(START_S, HELD_S), o.action)
            && AdmissionAccepted(o.admission, o.receipt, Some(5), Some(2))
            && FirstWriteAccepted(o.firstWrite, o.receipt)
  {
    FaultReaches(FIFTH, reading, loss);
    ResultJudged(FIFTH, reading, loss, Some(5), Some(2));
  }

  /** Seen at the instant of the loss, it fails the read admission and nothing else. */
  lemma {:induction false} TiedReadingRefused(loss: nat)
    requires PLANNED <= loss < PLANNED + SECOND
    ensures Reached(START_S, FIFTH, Before(FIFTH, loss), During(FIFTH, loss), After(FIFTH, loss))
    ensures var end := End(START_S, FIFTH, Before(FIFTH, loss), During(FIFTH, loss), After(FIFTH, loss));
            && Concluded(end, START_S, After(FIFTH, loss))
            && var o := OutcomeOf(end, START_S, After(FIFTH, loss));
            && E.ClockAccepted(o.receipt, E.Plan(START_S, HELD_S), o.action)
            && !AdmissionAccepted(o.admission, o.receipt, Some(5), Some(2))
            && FirstWriteAccepted(o.firstWrite, o.receipt)
            && o.admission.reading.ns == o.receipt.lossNs
  {
    FaultReaches(FIFTH, loss, loss);
    ResultJudged(FIFTH, loss, loss, Some(5), Some(2));
  }

  // --- the two machines without the controller -----------------------------

  /** A replacement that takes place two nanoseconds after the loss. */
  function Late(id: Q.Identity, loss: nat): Replacement {
    var now := loss + 2;
    During(id, loss).(setup := now, admission := now, restored := now, ready := now, replayed := now, reconciled := now)
  }

  lemma {:induction false} Joined(first: State, calls: seq<Call>, s: State, more: seq<Call>)
    requires Run(first, calls) == Some(s)
    ensures Run(first, calls + more) == Run(s, more)
  {
    RunAppend(first, calls, more);
  }

  lemma {:induction false} RealJoined(a: seq<Call>, b: seq<Call>)
    requires RealOperations(a) && RealOperations(b)
    ensures RealOperations(a + b)
  {
  }

  lemma {:induction false} RealBacking(id: Q.Identity, p: Preparation)
    requires Room(id) && p == Before(id, 0)
    ensures RealOperations([PollCall(p.confirm)] + [DurableCall(PLANNED, p)]) && RealOperations(BindCalls(p))
  {
    OperationExample(id, 0, p);
    OperationReal(PLANNED, p);
    BindExample(id, 0, p);
  }

  lemma {:induction false} AllowedRun(id: Q.Identity) returns (calls: seq<Call>)
    requires Room(id)
    ensures RealOperations(calls) && Run(Fresh(PLANNED, id), calls) == Some(Allowed(id))
  {
    var p := Before(id, 0);
    var back := [PollCall(p.confirm)] + [DurableCall(PLANNED, p)];
    BindExample(id, 0, p);
    BackExample(id, 0, p);
    AllowExample(id, 0, p);
    RealBacking(id, p);
    calls := BindCalls(p);
    Joined(Fresh(PLANNED, id), calls, BoundState(id), back);
    RealJoined(calls, back);
    calls := calls + back;
    RunOne(Durable(id), AllowCall(p));
    Joined(Fresh(PLANNED, id), calls, Durable(id), [AllowCall(p)]);
    RealJoined(calls, [AllowCall(p)]);
    calls := calls + [AllowCall(p)];
  }

  lemma {:induction false} LateReadingSteps(id: Q.Identity, loss: nat)
    requires Room(id) && PLANNED <= loss < PLANNED + SECOND
    ensures var lost := Lost(id, Q.Reads(264_000_000_000, None, None, None), loss);
            var calls := [SightCall(AckSight(loss + 1, Q.Holds(ReadOf(id))), false)]
                         + [OnRelease(Q.CallPauseReads(loss + 1, Q.Holds(id), true))]
                         + [SightCall(AckSight(loss + 2, Q.Holds(ReadOf(id))), true)];
            Run(lost, calls) == Some(Stopped(id, loss + 1, loss, loss + 2))
  {
    var now := loss + 1;
    var a := SightCall(AckSight(now, Q.Holds(ReadOf(id))), false);
    var d := SightCall(AckSight(now + 1, Q.Holds(ReadOf(id))), true);
    var b := OnRelease(Q.CallPauseReads(now, Q.Holds(id), true));
    var lost := Lost(id, Q.Reads(264_000_000_000, None, None, None), loss);
    var seen := Step(lost, a).value;
    StopExample(id, now, loss, now + 1, seen);
    RunTwo(lost, a, b);
    Joined(lost, [a] + [b], Step(seen, b).value, [d]);
    RunOne(Step(seen, b).value, d);
  }

  lemma {:induction false} LastCalls(id: Q.Identity, loss: nat, p: Replacement)
    requires Room(id) && PLANNED <= loss < PLANNED + SECOND && p == Late(id, loss)
    ensures var stopped := Stopped(id, loss + 1, loss, loss + 2);
            var last := PhaseCalls(p) + [OnClock(C.CallPhase(C.FirstWrite, loss + HELD))];
            var end := Run(stopped, last);
            && RealOperations(last) && end.Some? && end.value.release == stopped.release
            && C.MayFinish(end.value.clock, loss + HELD) && end.value.clock.lossNs == Some(loss)
  {
    var stopped, write := Stopped(id, loss + 1, loss, loss + 2), OnClock(C.CallPhase(C.FirstWrite, loss + HELD));
    assert Done(0, loss + 2) == [] && PhaseCalls(p)[0..] == PhaseCalls(p);
    PhasesExample(stopped, loss, loss, loss + 2, p, 0);
    var rebuilt := State(loss + 2, Phased(loss, loss + 2, loss + 2, 6), stopped.release);
    WriteExample(rebuilt, loss, loss + 2, loss + 2);
    RunOne(rebuilt, write);
    Joined(stopped, PhaseCalls(p), rebuilt, [write]);
  }

  lemma {:induction false} LatePhases(id: Q.Identity, loss: nat, before: seq<Call>, p: Replacement)
    returns (calls: seq<Call>)
    requires Room(id) && PLANNED <= loss < PLANNED + SECOND && p == Late(id, loss) && RealOperations(before)
    requires Run(Fresh(PLANNED, id), before) == Some(Stopped(id, loss + 1, loss, loss + 2))
    ensures RealOperations(calls) && Run(Fresh(PLANNED, id), calls).Some?
    ensures var s := Run(Fresh(PLANNED, id), calls).value;
            && s.release == Stopped(id, loss + 1, loss, loss + 2).release && C.MayFinish(s.clock, loss + HELD)
            && s.clock.lossNs == Some(loss)
  {
    var last := PhaseCalls(p) + [OnClock(C.CallPhase(C.FirstWrite, loss + HELD))];
    LastCalls(id, loss, p);
    Joined(Fresh(PLANNED, id), before, Stopped(id, loss + 1, loss, loss + 2), last);
    RealJoined(before, last);
    calls := before + last;
  }

  /**
   * The machines by themselves let the readers be seen after the loss. The run finishes
   * with a witness, and the read-admission check refuses it.
   */
  lemma {:induction false} LateReadingRefused(id: Q.Identity, loss: nat) returns (calls: seq<Call>)
    requires Room(id) && PLANNED <= loss < PLANNED + SECOND
    ensures RealOperations(calls) && Run(Fresh(PLANNED, id), calls).Some?
    ensures var s := Run(Fresh(PLANNED, id), calls).value;
            && s.release.witnessed.Some? && C.MayFinish(s.clock, loss + HELD)
            && var w, r := s.release.witnessed.value, C.ReceiptAt(s.clock, loss + HELD);
            && w.reading.ns > r.lossNs && !AdmissionAccepted(w, r, None, None)
  {
    var first, p := Fresh(PLANNED, id), Late(id, loss);
    var lose := [PollCall(p.confirm)] + [LossCall(p)];
    var read := [SightCall(AckSight(loss + 1, Q.Holds(ReadOf(id))), false)]
                + [OnRelease(Q.CallPauseReads(loss + 1, Q.Holds(id), true))]
                + [SightCall(AckSight(loss + 2, Q.Holds(ReadOf(id))), true)];
    var admission := Q.Reads(264_000_000_000, None, None, None);
    calls := AllowedRun(id);
    LoseExample(id, Allowed(id), admission, During(id, loss), loss);
    Joined(first, calls, Allowed(id), lose);
    LateReadingSteps(id, loss);
    Joined(first, calls + lose, Lost(id, admission, loss), read);
    calls := calls + lose + read;
    calls := LatePhases(id, loss, calls, p);
  }
}
