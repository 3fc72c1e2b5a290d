/**
 * The controller's restore fault as it drives the restore clock and the handover: its
 * waits and comparisons, and the calls they let through, in the order they are made.
 */
module RestoreScript {
  import opened Prelude
  import opened RestoreRun
  import C = RestoreClock
  import E = RestoreEvidence
  import M = Maintenance
  import Q = Quiescence

  const LEAD: int := 90_000_000_000
  const HELD_S := 180
  const HELD: int := 180_000_000_000

  /** One look at the two worker acknowledgements, and one at a reader acknowledgement. */
  datatype Sight = Sight(now: int, load: Q.File<Q.Load>, observer: Q.File<Q.Observer>)

  datatype AckSight = AckSight(now: int, ack: Q.File<Q.Resumed>)

  /** Everything the outside world answers, and when, in the order the controller asks. */
  datatype Preparation = Preparation(begin: int, polls: seq<Sight>, bind: int, frontier: int, digest: string,
                                     create: nat, backup: M.Errand, confirm: Sight, durable: int, manifest: string,
                                     artifacts: seq<C.Artifact>, allow: Sight, reading: seq<AckSight>)

  datatype Replacement = Replacement(confirm: Sight, loss: int, digest: string, manifest: string, pause: int,
                                     marker: Q.File<Q.Identity>, quiescing: seq<AckSight>, setup: int, admission: int,
                                     restore: M.Errand, restored: int, ready: int, replayed: int, reconciled: int)

  datatype Letting = Letting(publish: Sight, markerGone: bool, before: int, released: int, resumed: int,
                             duplicates: int, ack: Q.File<Q.Resumed>, written: nat, firstWrite: nat, finish: nat,
                             finished: nat)

  // --- waits: the calls up to and including the first answer ---------------

  function PollCall(sight: Sight): Call {
    OnRelease(Q.CallPoll(sight.now, sight.load, sight.observer))
  }

  function PollCalls(sights: seq<Sight>): (calls: seq<Call>)
    ensures |calls| == |sights| && forall i :: 0 <= i < |calls| ==> calls[i] == PollCall(sights[i])
  {
    seq(|sights|, i requires 0 <= i < |sights| => PollCall(sights[i]))
  }

  /** The calls that look for an acknowledgement of the readers: that they read, or that they stopped. */
  function SightCall(sight: AckSight, stopped: bool): Call {
    OnRelease(if stopped then Q.CallReadsQuiesced(sight.now, sight.ack) else Q.CallReadsStarted(sight.now, sight.ack))
  }

  function SightCalls(sights: seq<AckSight>, stopped: bool): (calls: seq<Call>)
    ensures |calls| == |sights| && forall i :: 0 <= i < |calls| ==> calls[i] == SightCall(sights[i], stopped)
  {
    seq(|sights|, i requires 0 <= i < |sights| => SightCall(sights[i], stopped))
  }

  /** The first sight from `i` on of two stopped workers. */
  function FirstReady(sights: seq<Sight>, i: nat): (r: nat)
    requires i <= |sights|
    ensures i <= r <= |sights| && (r < |sights| ==> Q.Ready(sights[r].load, sights[r].observer))
    decreases |sights| - i
  {
    if i == |sights| || Q.Ready(sights[i].load, sights[i].observer) then i else FirstReady(sights, i + 1)
  }

  /** The first sight from `i` on of an acknowledgement. */
  function FirstHeld(sights: seq<AckSight>, i: nat): (r: nat)
    requires i <= |sights|
    ensures i <= r <= |sights| && (r < |sights| ==> sights[r].ack.Holds?)
    decreases |sights| - i
  {
    if i == |sights| || sights[i].ack.Holds? then i else FirstHeld(sights, i + 1)
  }

  lemma {:induction false} RunOn(s: State, calls: seq<Call>, n: nat, current: State)
    requires n < |calls| && Run(s, calls[..n]) == Some(current)
    ensures Run(s, calls[..n + 1]) == Step(current, calls[n])
    ensures Step(current, calls[n]).None? ==> Run(s, calls).None?
  {
    RunOne(current, calls[n]);
    RunAppend(s, calls[..n], [calls[n]]);
    assert calls[..n] + [calls[n]] == calls[..n + 1];
    RunAppend(s, calls[..n + 1], calls[n + 1..]);
    assert calls[..n + 1] + calls[n + 1..] == calls;
  }

  lemma {:induction false} RunThree(s: State, a: Call, b: Call, middle: seq<Call>, d: Call)
    ensures var one := Step(s, a);
            var two := if one.None? then None else Step(one.value, b);
            var three := Then(two, middle);
            Run(s, [a] + [b] + middle + [d]) == if three.None? then None else Step(three.value, d)
  {
    RunOne(s, a);
    RunAppend(s, [a], [b]);
    RunAppend(s, [a] + [b], middle);
    RunAppend(s, [a] + [b] + middle, [d]);
    var one := Step(s, a);
    if one.Some? {
      RunOne(one.value, b);
      var three := Then(Step(one.value, b), middle);
      if three.Some? {
        RunOne(three.value, d);
      }
    }
  }

  lemma {:induction false} RunTwo(s: State, a: Call, b: Call)
    ensures Run(s, [a] + [b]) == if Step(s, a).None? then None else Step(Step(s, a).value, b)
  {
    RunOne(s, a);
    RunAppend(s, [a], [b]);
    if Step(s, a).Some? {
      RunOne(Step(s, a).value, b);
    }
  }

  lemma {:induction false} RunFour(s: State, a: seq<Call>, b: seq<Call>, call: Call, d: seq<Call>)
    ensures var two := Then(Run(s, a), b);
            Run(s, a + b + [call] + d) == Then(if two.None? then None else Step(two.value, call), d)
  {
    RunAppend(s, a, b);
    RunAppend(s, a + b, [call]);
    RunAppend(s, a + b + [call], d);
    var two := Then(Run(s, a), b);
    if two.Some? {
      RunOne(two.value, call);
    }
  }

  lemma {:induction false} RunFive(s: State, a: seq<Call>, call: Call, d: seq<Call>, e: seq<Call>)
    ensures var two := if Run(s, a).None? then None else Step(Run(s, a).value, call);
            Run(s, a + [call] + d + e) == Then(Then(two, d), e)
  {
    RunAppend(s, a, [call]);
    RunAppend(s, a + [call], d);
    RunAppend(s, a + [call] + d, e);
    if Run(s, a).Some? {
      RunOne(Run(s, a).value, call);
    }
  }

  predicate WorkersStop(sights: seq<Sight>) {
    FirstReady(sights, 0) < |sights|
  }

  /** What is asked until both workers have stopped. */
  function WorkerCalls(sights: seq<Sight>): seq<Call>
    requires WorkersStop(sights)
  {
    PollCalls(sights[..FirstReady(sights, 0) + 1])
  }

  function Stopped(sights: seq<Sight>): Sight
    requires WorkersStop(sights)
    ensures Q.Ready(Stopped(sights).load, Stopped(sights).observer)
  {
    sights[FirstReady(sights, 0)]
  }

  predicate Acknowledged(sights: seq<AckSight>) {
    FirstHeld(sights, 0) < |sights|
  }

  /** What is asked until the readers have acknowledged. */
  function ReaderCalls(sights: seq<AckSight>, stopped: bool): seq<Call>
    requires Acknowledged(sights)
  {
    SightCalls(sights[..FirstHeld(sights, 0) + 1], stopped)
  }

  /** Wait for the workers to stop. */
  method AwaitWorkers(s: State, polls: seq<Sight>) returns (t: Option<State>)
    ensures t == if WorkersStop(polls) then Run(s, WorkerCalls(polls)) else None
    ensures t.Some? ==>
              t.value.release.snapshot == Some(Q.Snapshot(Stopped(polls).load.value, Stopped(polls).observer.value))
  {
    var current := s;
    ghost var calls := if WorkersStop(polls) then WorkerCalls(polls) else PollCalls(polls);
    for i := 0 to |polls|
      invariant i <= |calls| && Run(s, calls[..i]) == Some(current) && FirstReady(polls, i) == FirstReady(polls, 0)
    {
      var next := Step(current, PollCall(polls[i]));
      RunOn(s, calls, i, current);
      if next.None? {
        return None;
      }
      current := next.value;
      if Q.Ready(polls[i].load, polls[i].observer) {
        assert calls[..i + 1] == calls;
        return Some(current);
      }
    }
    return None;
  }

  /** Wait until reads are seen, or until they are seen to have stopped. */
  method AwaitReaders(s: State, sights: seq<AckSight>, stopped: bool) returns (t: Option<State>)
    ensures t == if Acknowledged(sights) then Run(s, ReaderCalls(sights, stopped)) else None
  {
    var current := s;
    ghost var calls := if Acknowledged(sights) then ReaderCalls(sights, stopped) else SightCalls(sights, stopped);
    for i := 0 to |sights|
      invariant i <= |calls| && Run(s, calls[..i]) == Some(current) && FirstHeld(sights, i) == FirstHeld(sights, 0)
    {
      var next := Step(current, SightCall(sights[i], stopped));
      RunOn(s, calls, i, current);
      if next.None? {
        return None;
      }
      current := next.value;
      if sights[i].ack.Holds? {
        assert calls[..i + 1] == calls;
        return Some(current);
      }
    }
    return None;
  }

  // --- preparation ---------------------------------------------------------

  predicate BindGuards(planned: nat, p: Preparation) {
    planned - LEAD <= p.begin && WorkersStop(p.polls)
  }

  function BindCall(p: Preparation): Call
    requires WorkersStop(p.polls)
  {
    OnClock(C.CallBind(p.bind, Stopped(p.polls).load.value.commands, p.frontier, p.digest))
  }

  function BindCalls(p: Preparation): seq<Call>
    requires WorkersStop(p.polls)
  {
    [OnClock(C.CallBegin(p.begin))] + [OnRelease(Q.CallBegin(p.begin, true, true))] + WorkerCalls(p.polls)
    + [BindCall(p)]
  }

  /** The script of the binding, one call after the other. */
  lemma {:induction false} BindRuns(s: State, p: Preparation)
    ensures WorkersStop(p.polls) ==>
              var begun := Step(s, OnClock(C.CallBegin(p.begin)));
              var paused := if begun.None? then None
                            else Step(begun.value, OnRelease(Q.CallBegin(p.begin, true, true)));
              var still := Then(paused, WorkerCalls(p.polls));
              Run(s, BindCalls(p)) == if still.None? then None else Step(still.value, BindCall(p))
  {
    if WorkersStop(p.polls) {
      var a, b := OnClock(C.CallBegin(p.begin)), OnRelease(Q.CallBegin(p.begin, true, true));
      RunThree(s, a, b, WorkerCalls(p.polls), BindCall(p));
    }
  }

  /** Announce the preparation, pause the workers and bind what they have acknowledged. */
  method Bind(planned: nat, id: Q.Identity, p: Preparation) returns (t: Option<State>)
    requires C.ScheduleAdmits(planned) && Q.IdentityAdmits(id)
    ensures t == if BindGuards(planned, p) then Run(Fresh(planned, id), BindCalls(p)) else None
  {
    if p.begin < planned - LEAD {
      return None;
    }
    BindRuns(Fresh(planned, id), p);
    var begun := Step(Fresh(planned, id), OnClock(C.CallBegin(p.begin)));
    if begun.None? {
      return None;
    }
    var paused := Step(begun.value, OnRelease(Q.CallBegin(p.begin, true, true)));
    if paused.None? {
      return None;
    }
    var still := AwaitWorkers(paused.value, p.polls);
    if still.None? {
      return None;
    }
    var commands := still.value.release.snapshot.value.load.commands;
    t := Step(still.value, OnClock(C.CallBind(p.bind, commands, p.frontier, p.digest)));
  }

  /** The backup operation as the driver left it. */
  function Operation(planned: nat, p: Preparation): M.State {
    M.Carried(M.Initial(M.Create, E.BACKUP_NAME, p.create, planned), p.backup)
  }

  /** The operation is begun after the binding and has succeeded before the source is confirmed. */
  predicate BackGuards(planned: nat, p: Preparation) {
    && p.bind <= p.create && M.ClockAdmits(p.create, planned)
    && !Operation(planned, p).failed && Operation(planned, p).complete && Operation(planned, p).lastNs <= p.confirm.now
    && Q.Ready(p.confirm.load, p.confirm.observer)
  }

  function DurableCall(planned: nat, p: Preparation): Call {
    OnClock(C.CallDurable(p.durable, Operation(planned, p), p.manifest, p.artifacts))
  }

  /** Take the backup, see that the source has not changed, and call the backup durable. */
  method Back(s: State, planned: nat, p: Preparation) returns (t: Option<State>)
    ensures t == if BackGuards(planned, p) then Run(s, [PollCall(p.confirm)] + [DurableCall(planned, p)]) else None
  {
    if p.create < p.bind || !M.ClockAdmits(p.create, planned) {
      return None;
    }
    var op := Operation(planned, p);
    if op.failed || !op.complete || p.confirm.now < op.lastNs {
      return None;
    }
    RunTwo(s, PollCall(p.confirm), DurableCall(planned, p));
    var confirmed := Step(s, PollCall(p.confirm));
    if confirmed.None? || !Q.Ready(p.confirm.load, p.confirm.observer) {
      return None;
    }
    t := Step(confirmed.value, OnClock(C.CallDurable(p.durable, op, p.manifest, p.artifacts)));
  }

  function AllowCall(p: Preparation): Call {
    OnRelease(Q.CallAllowReads(p.allow.now, p.allow.load, p.allow.observer, true))
  }

  predicate PrepareGuards(planned: nat, p: Preparation) {
    BindGuards(planned, p) && BackGuards(planned, p) && Acknowledged(p.reading)
  }

  function PrepareCalls(planned: nat, p: Preparation): seq<Call>
    requires PrepareGuards(planned, p)
  {
    BindCalls(p) + ([PollCall(p.confirm)] + [DurableCall(planned, p)]) + [AllowCall(p)] + ReaderCalls(p.reading, false)
  }

  lemma {:induction false} PrepareRuns(s: State, planned: nat, p: Preparation)
    ensures PrepareGuards(planned, p) ==>
              var durable := Then(Run(s, BindCalls(p)), [PollCall(p.confirm)] + [DurableCall(planned, p)]);
              var admitted := if durable.None? then None else Step(durable.value, AllowCall(p));
              Run(s, PrepareCalls(planned, p)) == Then(admitted, ReaderCalls(p.reading, false))
  {
    if PrepareGuards(planned, p) {
      RunFour(s, BindCalls(p), [PollCall(p.confirm)] + [DurableCall(planned, p)], AllowCall(p),
              ReaderCalls(p.reading, false));
    }
  }

  method Prepare(planned: nat, id: Q.Identity, p: Preparation) returns (t: Option<State>)
    requires C.ScheduleAdmits(planned) && Q.IdentityAdmits(id)
    ensures t == if PrepareGuards(planned, p) then Run(Fresh(planned, id), PrepareCalls(planned, p)) else None
  {
    PrepareRuns(Fresh(planned, id), planned, p);
    var bound := Bind(planned, id, p);
    if bound.None? {
      return None;
    }
    var durable := Back(bound.value, planned, p);
    if durable.None? {
      return None;
    }
    var admitted := Step(durable.value, AllowCall(p));
    if admitted.None? {
      return None;
    }
    t := AwaitReaders(admitted.value, p.reading, false);
  }

  // --- loss and replacement ------------------------------------------------

  const BEFORE_WRITES: seq<C.Phase> :=
    [C.TargetSetup, C.TargetAdmission, C.RestoreDone, C.Readiness, C.OriginalReplay, C.StateReconciliation]

  function LossCall(p: Replacement): Call
    requires Q.Ready(p.confirm.load, p.confirm.observer)
  {
    OnClock(C.CallLoss(p.loss, p.confirm.load.value.commands, p.digest, p.manifest))
  }

  /** The source still stands as it was; from here on everything belongs to the one recovery deadline. */
  method Lose(s: State, p: Replacement) returns (t: Option<State>)
    ensures t == if Q.Ready(p.confirm.load, p.confirm.observer)
                 then Run(s, [PollCall(p.confirm)] + [LossCall(p)])
                 else None
  {
    var confirmed := Step(s, PollCall(p.confirm));
    if !Q.Ready(p.confirm.load, p.confirm.observer) {
      return None;
    }
    RunTwo(s, PollCall(p.confirm), LossCall(p));
    if confirmed.None? {
      return None;
    }
    var commands := confirmed.value.release.snapshot.value.load.commands;
    t := Step(confirmed.value, OnClock(C.CallLoss(p.loss, commands, p.digest, p.manifest)));
  }

  function Instants(p: Replacement): seq<int> {
    [p.setup, p.admission, p.restored, p.ready, p.replayed, p.reconciled]
  }

  function PhaseCalls(p: Replacement): (calls: seq<Call>)
    ensures |calls| == 6
    ensures forall i :: 0 <= i < 6 ==> calls[i] == OnClock(C.CallPhase(BEFORE_WRITES[i], Instants(p)[i]))
  {
    seq(6, i requires 0 <= i < 6 => OnClock(C.CallPhase(BEFORE_WRITES[i], Instants(p)[i])))
  }

  /** The restore operation, on the recovery's own clock: from the loss to its deadline. */
  function RestoreOperation(p: Replacement): M.State
    requires p.loss >= 0
  {
    M.Carried(M.Initial(M.Restore, E.BACKUP_NAME, p.loss, p.loss + C.RECOVERY_LIMIT), p.restore)
  }

  /** The operation is begun once the target is admitted, and has succeeded before the restore is recorded. */
  predicate RestoreGuards(p: Replacement) {
    && 0 <= p.loss && p.admission <= p.restore.now
    && !RestoreOperation(p).failed && RestoreOperation(p).complete && RestoreOperation(p).lastNs <= p.restored
  }

  /** The six phases up to the reconciled state, in the controller's order. */
  method Rebuild(s: State, p: Replacement) returns (t: Option<State>)
    ensures t == if RestoreGuards(p) then Run(s, PhaseCalls(p)) else None
  {
    var current := s;
    ghost var calls := PhaseCalls(p);
    for i := 0 to 6
      invariant Run(s, calls[..i]) == Some(current) && (i > 2 ==> RestoreGuards(p))
    {
      if BEFORE_WRITES[i] == C.RestoreDone && !RestoreGuards(p) {
        return None;
      }
      var next := Step(current, OnClock(C.CallPhase(BEFORE_WRITES[i], Instants(p)[i])));
      RunOn(s, calls, i, current);
      if next.None? {
        return None;
      }
      current := next.value;
    }
    assert calls[..6] == calls;
    return Some(current);
  }

  function PauseCall(p: Replacement): Call {
    OnRelease(Q.CallPauseReads(p.pause, p.marker, true))
  }

  predicate ReplaceGuards(p: Replacement) {
    Q.Ready(p.confirm.load, p.confirm.observer) && Acknowledged(p.quiescing) && RestoreGuards(p)
  }

  function ReplaceCalls(p: Replacement): seq<Call>
    requires ReplaceGuards(p)
  {
    [PollCall(p.confirm)] + [LossCall(p)] + [PauseCall(p)] + ReaderCalls(p.quiescing, true) + PhaseCalls(p)
  }

  lemma {:induction false} ReplaceRuns(s: State, p: Replacement)
    ensures ReplaceGuards(p) ==>
              var lost := Run(s, [PollCall(p.confirm)] + [LossCall(p)]);
              var paused := if lost.None? then None else Step(lost.value, PauseCall(p));
              Run(s, ReplaceCalls(p)) == Then(Then(paused, ReaderCalls(p.quiescing, true)), PhaseCalls(p))
  {
    if ReplaceGuards(p) {
      RunFive(s, [PollCall(p.confirm)] + [LossCall(p)], PauseCall(p), ReaderCalls(p.quiescing, true), PhaseCalls(p));
    }
  }

  method Replace(s: State, p: Replacement) returns (t: Option<State>)
    ensures t == if ReplaceGuards(p) then Run(s, ReplaceCalls(p)) else None
  {
    ReplaceRuns(s, p);
    var lost := Lose(s, p);
    if lost.None? {
      return None;
    }
    var paused := Step(lost.value, PauseCall(p));
    if paused.None? {
      return None;
    }
    var stopped := AwaitReaders(paused.value, p.quiescing, true);
    if stopped.None? {
      return None;
    }
    t := Rebuild(stopped.value, p);
  }

  // --- release and receipt -------------------------------------------------

  /** The recovery seconds the timeline records: up to the second that covers the finish. */
  function RecoveryS(finished: int, startS: nat): int {
    (finished + SECOND - 1) / SECOND - startS - HELD_S
  }

  /** The phase a restore publishes. */
  function Successor(id: Q.Identity): Q.Published {
    Q.Published(id.generation + 1, id.version, id.incarnation + 1, true)
  }

  function PublishCall(id: Q.Identity, p: Letting): Call {
    OnRelease(Q.CallPublish(p.publish.now, p.publish.load, p.publish.observer, id.version, id.incarnation + 1,
                            true, p.markerGone, true))
  }

  function ResumeCall(p: Letting): Call {
    OnRelease(Q.CallResume(p.released, true))
  }

  function ResumedCall(id: Q.Identity, p: Letting): Call {
    OnRelease(Q.CallResumed(p.resumed, id.generation + 1, id.incarnation + 1, p.duplicates, p.ack, true))
  }

  function WriteCall(p: Letting): Call {
    OnClock(C.CallPhase(C.FirstWrite, p.firstWrite))
  }

  /**
   * Published inside the hold, let go in the very second after it, and the first write
   * recorded after the workers went on.
   */
  predicate LetGoGuards(loss: int, p: Letting) {
    && p.publish.now <= p.before < loss + HELD && (p.released - loss) / SECOND == HELD_S
    && p.resumed <= p.written <= p.firstWrite
  }

  function LetGoCalls(id: Q.Identity, p: Letting): seq<Call> {
    [PublishCall(id, p)] + [ResumeCall(p)] + [ResumedCall(id, p)] + [WriteCall(p)]
  }

  lemma {:induction false} LetGoRuns(s: State, id: Q.Identity, p: Letting)
    ensures var held := Run(s, [PublishCall(id, p)] + [ResumeCall(p)]);
            var out := Step(s, PublishCall(id, p));
            var back := if held.None? then None else Step(held.value, ResumedCall(id, p));
            && held == (if out.None? then None else Step(out.value, ResumeCall(p)))
            && Run(s, LetGoCalls(id, p)) == if back.None? then None else Step(back.value, WriteCall(p))
  {
    var first := [PublishCall(id, p)] + [ResumeCall(p)];
    RunTwo(s, PublishCall(id, p), ResumeCall(p));
    RunAppend(s, first, [ResumedCall(id, p)]);
    RunAppend(s, first + [ResumedCall(id, p)], [WriteCall(p)]);
    var held := Run(s, first);
    if held.Some? {
      RunOne(held.value, ResumedCall(id, p));
      var back := Step(held.value, ResumedCall(id, p));
      if back.Some? {
        RunOne(back.value, WriteCall(p));
      }
    }
  }

  method LetGo(s: State, loss: int, p: Letting) returns (t: Option<State>)
    ensures t == if LetGoGuards(loss, p) then Run(s, LetGoCalls(s.release.id, p)) else None
  {
    var id := s.release.id;
    LetGoRuns(s, id, p);
    var out := Step(s, PublishCall(id, p));
    if out.None? || p.before < out.value.nowNs || p.before >= loss + HELD || p.released < loss + HELD {
      return None;
    }
    var held := Step(out.value, ResumeCall(p));
    if held.None? || (p.released - loss) / SECOND != HELD_S {
      return None;
    }
    var back := Step(held.value, ResumedCall(id, p));
    if back.None? || p.written < back.value.nowNs || p.firstWrite < p.written {
      return None;
    }
    t := Step(back.value, WriteCall(p));
  }
}
