/**
 * The restore clock and the handover of the same fault, run together on one clock that
 * never goes back, and the independent check of the read admission they leave behind.
 */
module RestoreRun {
  import opened Prelude
  import C = RestoreClock
  import Q = Quiescence
  import H = HandoverRecord

  datatype State = State(nowNs: nat, clock: C.Clock, release: Q.State)

  datatype Call = OnClock(clock: C.Call) | OnRelease(release: Q.Call)

  function At(call: Call): int {
    if call.OnClock? then call.clock.now else call.release.now
  }

  function Fresh(planned: nat, id: Q.Identity): State {
    State(0, C.Fresh(planned), Q.Fresh(id))
  }

  /** Both machines accept; calls come in time order. */
  function Step(s: State, call: Call): Option<State> {
    if At(call) < s.nowNs then None
    else
      match call
      case OnClock(c) =>
        var next := C.Step(s.clock, c);
        if next.Some? then Some(State(c.now, next.value, s.release)) else None
      case OnRelease(q) =>
        var next := Q.Step(s.release, Some(Q.Fault(s.clock, false)), q);
        if next.Some? then Some(State(q.now, s.clock, next.value)) else None
  }

  function Run(s: State, calls: seq<Call>): Option<State>
    decreases |calls|
  {
    if |calls| == 0 then Some(s)
    else
      var next := Step(s, calls[0]);
      if next.None? then None else Run(next.value, calls[1..])
  }

  lemma {:induction false} RunOne(s: State, call: Call)
    ensures Run(s, [call]) == Step(s, call)
  {
    var calls := [call];
    assert |calls[1..]| == 0;
  }

  /** The rest of a run, if there is any state to run it from. */
  function Then(s: Option<State>, calls: seq<Call>): Option<State> {
    if s.None? then None else Run(s.value, calls)
  }

  lemma {:induction false} RunAppend(s: State, before: seq<Call>, after: seq<Call>)
    ensures Run(s, before + after) == Then(Run(s, before), after)
    decreases |before|
  {
    if |before| == 0 {
      assert before + after == after;
    } else {
      assert (before + after)[0] == before[0] && (before + after)[1..] == before[1..] + after;
      var next := Step(s, before[0]);
      if next.Some? {
        RunAppend(next.value, before[1..], after);
      }
    }
  }

  ghost predicate RealOperations(calls: seq<Call>) {
    forall i :: 0 <= i < |calls| ==> (calls[i].OnClock? ==> C.RealOperation(calls[i].clock))
  }

  // --- what the joint run keeps --------------------------------------------

  /** Reads are admitted only over the durable backup of the acknowledged prefix, and paused only after the loss. */
  ghost predicate Linked(clock: C.Clock, release: Q.State) {
    release.admission.Some? ==>
      var r := release.admission.value;
      && clock.backup.Some? && clock.backup.value.durableNs <= r.requestedNs
      && clock.acknowledged.Some? && release.snapshot.Some?
      && clock.acknowledged.value.commands == release.snapshot.value.load.commands
      && (r.pausedNs.Some? ==> clock.lossNs.Some? && clock.lossNs.value <= r.pausedNs.value)
  }

  ghost predicate Inv(s: State) {
    && C.Inv(s.clock) && Q.Inv(s.release) && Linked(s.clock, s.release)
    && Since(s.clock.lastNs) <= s.nowNs && s.release.lastNs <= s.nowNs
  }

  lemma {:induction false} ReleaseLinked(s: State, call: Q.Call)
    requires Inv(s) && Step(s, OnRelease(call)).Some?
    ensures Linked(s.clock, Step(s, OnRelease(call)).value.release)
  {
    Q.StepKeeps(s.release, Some(Q.Fault(s.clock, false)), call);
  }

  lemma {:induction false} ClockKeeps(clock: C.Clock, call: C.Call)
    requires C.Inv(clock) && C.Step(clock, call).Some? && C.RealOperation(call)
    ensures C.Inv(C.Step(clock, call).value) && C.Keeps(clock, C.Step(clock, call).value)
    ensures C.Step(clock, call).value.lastNs == Some(call.now)
  {
    C.StepKeeps(clock, call);
  }

  lemma {:induction false} ReleaseKeeps(release: Q.State, fault: Option<Q.Fault>, call: Q.Call)
    requires Q.Inv(release) && Q.Step(release, fault, call).Some?
    ensures var next := Q.Step(release, fault, call).value;
            Q.Inv(next) && Q.Keeps(release, next) && next.lastNs == call.now
  {
    Q.StepKeeps(release, fault, call);
  }

  lemma {:induction false} StepKeeps(s: State, call: Call)
    requires Inv(s) && Step(s, call).Some? && (call.OnClock? ==> C.RealOperation(call.clock))
    ensures var next := Step(s, call).value;
            Inv(next) && C.Keeps(s.clock, next.clock) && Q.Keeps(s.release, next.release)
  {
    match call
    case OnClock(c) => ClockKeeps(s.clock, c);
    case OnRelease(q) =>
      ReleaseLinked(s, q);
      ReleaseKeeps(s.release, Some(Q.Fault(s.clock, false)), q);
  }

  lemma {:induction false} RunKeeps(s: State, calls: seq<Call>)
    requires Inv(s) && Run(s, calls).Some? && RealOperations(calls)
    ensures Inv(Run(s, calls).value)
    decreases |calls|
  {
    if calls != [] {
      StepKeeps(s, calls[0]);
      RunKeeps(Step(s, calls[0]).value, calls[1..]);
    }
  }

  // --- the read admission --------------------------------------------------

  ghost predicate AckNumbers(ack: Q.Resumed) {
    U64(ack.generation) && U64(ack.version) && U64(ack.incarnation) && U64(ack.commands) && U64(ack.readCount)
  }

  /** One identity and one command count at all three points, reads only growing, instants in protocol order. */
  ghost predicate WitnessHolds(w: Q.Witness, id: Q.Identity, clock: C.Clock) {
    && clock.backup.Some? && clock.acknowledged.Some? && clock.lossNs.Some?
    && w.initial.generation == w.reading.ack.generation == w.quiesced.ack.generation == id.generation
    && w.reading.ack.version == w.quiesced.ack.version == id.version
    && w.reading.ack.incarnation == w.quiesced.ack.incarnation == id.incarnation
    && w.initial.commands == w.reading.ack.commands == w.quiesced.ack.commands == clock.acknowledged.value.commands
    && w.initial.readCount < w.reading.ack.readCount <= w.quiesced.ack.readCount
    && clock.backup.value.durableNs <= w.requestedNs <= w.reading.ns <= w.pausedNs <= w.quiesced.ns <= MAX_U64
    && clock.lossNs.value <= w.pausedNs
    && U64(w.initial.generation) && U64(w.initial.commands) && U64(w.initial.readCount)
    && AckNumbers(w.reading.ack) && AckNumbers(w.quiesced.ack)
  }

  lemma {:induction false} WitnessFromInv(s: State)
    requires Inv(s) && s.release.witnessed.Some?
    ensures WitnessHolds(s.release.witnessed.value, s.release.id, s.clock)
  {
    var r := s.release.admission.value;
    assert Q.AckInv(s.release, r.reading.value) && Q.AckInv(s.release, r.quiesced.value);
    assert s.release.witnessed.value == Q.WitnessOf(s.release.snapshot.value.load, r);
  }

  lemma {:induction false} IdentityFixed(s: State, calls: seq<Call>)
    requires Run(s, calls).Some?
    ensures Run(s, calls).value.release.id == s.release.id
    decreases |calls|
  {
    if calls != [] {
      IdentityFixed(Step(s, calls[0]).value, calls[1..]);
    }
  }

  /** The calls on the handover, in order. */
  function ReleaseCalls(calls: seq<Call>): seq<Q.Call>
    decreases |calls|
  {
    if |calls| == 0 then []
    else (if calls[0].OnRelease? then [calls[0].release] else []) + ReleaseCalls(calls[1..])
  }

  lemma {:induction false} EventRuns(s: Q.State, e: Q.Event, rest: seq<Q.Event>)
    requires Q.Step(s, e.fault, e.call).Some?
    ensures Q.Run(s, [e] + rest) == Q.Run(Q.Step(s, e.fault, e.call).value, rest)
    ensures H.CallsOf([e] + rest) == [e.call] + H.CallsOf(rest)
  {
    assert ([e] + rest)[1..] == rest;
  }

  lemma {:induction false} StepSides(s: State, call: Call)
    requires Step(s, call).Some?
    ensures if call.OnRelease?
            then Q.Step(s.release, Some(Q.Fault(s.clock, false)), call.release) == Some(Step(s, call).value.release)
            else Step(s, call).value.release == s.release
  {
  }

  /** The handover's side of a joint run is a run of the handover over its own calls. */
  lemma {:induction false} ReleaseRuns(s: State, calls: seq<Call>) returns (events: seq<Q.Event>)
    requires Run(s, calls).Some?
    ensures H.CallsOf(events) == ReleaseCalls(calls) && Q.Run(s.release, events) == Some(Run(s, calls).value.release)
    decreases |calls|
  {
    events := [];
    if |calls| > 0 {
      var rest := ReleaseRuns(Step(s, calls[0]).value, calls[1..]);
      StepSides(s, calls[0]);
      if calls[0].OnRelease? {
        var e := Q.Event(Some(Q.Fault(s.clock, false)), calls[0].release);
        EventRuns(s.release, e, rest);
        events := [e] + rest;
      } else {
        events := rest;
        assert ReleaseCalls(calls) == ReleaseCalls(calls[1..]);
      }
    }
  }

  /**
   * Any witness left by any joint run: what it holds, and which of the handover's calls each
   * item was taken from.
   */
  lemma {:induction false} JointWitness(planned: nat, id: Q.Identity, calls: seq<Call>) returns (at: H.Places)
    requires C.ScheduleAdmits(planned) && Q.IdentityAdmits(id) && RealOperations(calls)
    requires Run(Fresh(planned, id), calls).Some? && Run(Fresh(planned, id), calls).value.release.witnessed.Some?
    ensures var s := Run(Fresh(planned, id), calls).value;
            && s.release.id == id && WitnessHolds(s.release.witnessed.value, id, s.clock)
            && H.Witnesses(s.release.witnessed.value, ReleaseCalls(calls), at)
  {
    var events := ReleaseRuns(Fresh(planned, id), calls);
    at := H.WitnessRecorded(id, events);
    RunKeeps(Fresh(planned, id), calls);
    IdentityFixed(Fresh(planned, id), calls);
    WitnessFromInv(Run(Fresh(planned, id), calls).value);
  }

  function SetupNs(phases: seq<C.PhaseDone>): Option<nat>
    decreases |phases|
  {
    if |phases| == 0 then None
    else if phases[0].phase == C.TargetSetup then Some(phases[0].ns)
    else SetupNs(phases[1..])
  }

  predicate NumbersOk(w: Q.Witness) {
    && U64(w.initial.generation) && U64(w.initial.commands) && U64(w.initial.readCount)
    && U64(w.reading.ack.generation) && U64(w.reading.ack.version) && U64(w.reading.ack.incarnation)
    && U64(w.reading.ack.commands) && U64(w.reading.ack.readCount)
    && U64(w.quiesced.ack.generation) && U64(w.quiesced.ack.version) && U64(w.quiesced.ack.incarnation)
    && U64(w.quiesced.ack.commands) && U64(w.quiesced.ack.readCount)
    && U64(w.requestedNs) && U64(w.reading.ns) && U64(w.pausedNs) && U64(w.quiesced.ns)
  }

  /** The independent check, against the receipt of the same fault. */
  predicate AdmissionAccepted(w: Q.Witness, r: C.Receipt, generation: Option<nat>, version: Option<nat>) {
    && NumbersOk(w)
    && 1 <= w.initial.generation <= 16
    && w.initial.generation == w.reading.ack.generation == w.quiesced.ack.generation
    && (generation.Some? ==> w.initial.generation == generation.value)
    && 1 <= w.reading.ack.version <= 2 && w.reading.ack.version == w.quiesced.ack.version
    && (version.Some? ==> w.reading.ack.version == version.value)
    && w.reading.ack.incarnation == w.quiesced.ack.incarnation == 1
    && w.initial.commands == w.reading.ack.commands == w.quiesced.ack.commands == r.acknowledged.commands
    && w.initial.readCount < w.reading.ack.readCount <= w.quiesced.ack.readCount
    && r.backup.durableNs <= w.requestedNs <= w.reading.ns < r.lossNs <= w.pausedNs <= w.quiesced.ns
    && SetupNs(r.phases).Some? && w.quiesced.ns <= SetupNs(r.phases).value <= r.deadline
    && w.quiesced.ack.readCount <= (w.quiesced.ns / SECOND + 1) * 400
  }

  /** What the check alone demands of a witness the joint run left. */
  predicate AdmissionOnlyFacts(w: Q.Witness, r: C.Receipt, id: Q.Identity, generation: Option<nat>,
                               version: Option<nat>) {
    && id.generation <= 16 && id.incarnation == 1
    && (generation.Some? ==> id.generation == generation.value) && (version.Some? ==> id.version == version.value)
    && w.reading.ns < r.lossNs
    && |r.phases| > 0 && w.quiesced.ns <= r.phases[0].ns
    && w.quiesced.ack.readCount <= (w.quiesced.ns / SECOND + 1) * 400
  }

  lemma {:induction false} AcceptedIff(w: Q.Witness, r: C.Receipt, clock: C.Clock, id: Q.Identity,
                                       generation: Option<nat>, version: Option<nat>)
    requires Q.IdentityAdmits(id) && WitnessHolds(w, id, clock) && C.Sound(r)
    requires r.acknowledged == clock.acknowledged.value && r.backup == clock.backup.value
             && r.lossNs == clock.lossNs.value
    ensures AdmissionAccepted(w, r, generation, version) <==> AdmissionOnlyFacts(w, r, id, generation, version)
  {
    assert C.Names(r.phases)[0] == C.TargetSetup;
    assert SetupNs(r.phases) == Some(r.phases[0].ns);
    assert C.InOrder(r.phases, 0, r.lossNs, r.completedNs);
  }

  /**
   * A joint run that finishes leaves a witness the check accepts exactly when the release
   * was of the original incarnation and a known generation, its readers were seen reading
   * before the loss and stopped before the target was set up, at no more than 400 reads a second.
   */
  lemma {:induction false} AdmissionAcceptedIff(planned: nat, id: Q.Identity, calls: seq<Call>, now: int,
                                                generation: Option<nat>, version: Option<nat>)
    requires C.ScheduleAdmits(planned) && Q.IdentityAdmits(id) && RealOperations(calls)
    requires Run(Fresh(planned, id), calls).Some?
    requires var s := Run(Fresh(planned, id), calls).value; s.release.witnessed.Some? && C.MayFinish(s.clock, now)
    ensures var s := Run(Fresh(planned, id), calls).value;
            var w, r := s.release.witnessed.value, C.ReceiptAt(s.clock, now);
            AdmissionAccepted(w, r, generation, version) <==> AdmissionOnlyFacts(w, r, id, generation, version)
  {
    var at := JointWitness(planned, id, calls);
    RunKeeps(Fresh(planned, id), calls);
    var s := Run(Fresh(planned, id), calls).value;
    C.ReceiptIsSound(s.clock, now);
    AcceptedIff(s.release.witnessed.value, C.ReceiptAt(s.clock, now), s.clock, id, generation, version);
  }
}
