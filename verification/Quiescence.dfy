/**
 * The worker handover around one fault: pause the workers, hold one snapshot of what they
 * acknowledged, publish one successor phase, and let them go on from there. Control files
 * are inputs: each call sees whatever a file holds at that moment.
 */
module Quiescence {
  import opened Prelude
  import C = RestoreClock

  const HANDOVER_LIMIT: int := 60_000_000_000

  datatype Load = Load(generation: nat, commands: nat, readCount: nat)

  datatype Observer = Observer(generation: nat, version: nat, incarnation: nat, events: nat, duplicates: nat,
                               checkpoint: nat, liveHead: nat)

  datatype Resumed = Resumed(generation: nat, version: nat, incarnation: nat, commands: nat, readCount: nat)

  datatype Identity = Identity(generation: nat, version: nat, incarnation: nat)

  /** A control file: absent, present but not a closed record, or holding one. */
  datatype File<T> = Missing | Unreadable | Holds(value: T)

  /** The restore clock a release may be tied to, as a call finds it. */
  datatype Fault = Fault(clock: C.Clock, failed: bool)

  datatype Snapshot = Snapshot(load: Load, observer: Observer)

  datatype Seen = Seen(ack: Resumed, ns: nat)

  datatype Reads = Reads(requestedNs: nat, reading: Option<Seen>, pausedNs: Option<nat>, quiesced: Option<Seen>)

  datatype Witness = Witness(initial: Load, requestedNs: nat, reading: Seen, pausedNs: nat, quiesced: Seen)

  /** What the phase file says; `restore` is the observer's restore marker beside it. */
  datatype Published = Published(generation: nat, version: nat, incarnation: nat, restore: bool)

  datatype Stage = Idle | Pausing | Released | Resuming | Complete

  datatype State = State(id: Identity, stage: Stage, started: Option<nat>, lastNs: nat, loadPaused: bool,
                         observer: Option<Observer>, snapshot: Option<Snapshot>, admission: Option<Reads>,
                         witnessed: Option<Witness>, published: Option<Published>, resumed: Option<Resumed>)

  predicate IdentityAdmits(id: Identity) {
    0 < id.generation <= MAX_U64 && 0 < id.incarnation <= MAX_U64 && 1 <= id.version <= 2
  }

  function Fresh(id: Identity): State {
    State(id, Idle, None, 0, false, None, None, None, None, None, None)
  }

  predicate ClockHolds(started: nat, fault: Option<Fault>) {
    fault.Some? ==>
      && !fault.value.failed && fault.value.clock.stage != C.Complete
      && fault.value.clock.preparationNs == Some(started)
  }

  function Deadline(started: nat, fault: Option<Fault>): int {
    if fault.None? then started + HANDOVER_LIMIT
    else
      var c := fault.value.clock;
      if c.lossNs.Some? then c.lossNs.value + C.RECOVERY_LIMIT
      else if c.stage == C.BackupDurable then c.planned + SECOND - 1
      else c.planned
  }

  predicate Ticks(s: State, now: int, fault: Option<Fault>) {
    && U64(now) && s.started.Some? && ClockHolds(s.started.value, fault)
    && s.stage != Complete && s.lastNs <= now <= Deadline(s.started.value, fault)
  }

  // --- records -------------------------------------------------------------

  predicate LoadFits(file: File<Load>, generation: nat) {
    file.Missing? || (file.Holds? && file.value.generation == generation && U64(file.value.commands)
                      && U64(file.value.readCount))
  }

  predicate ObserverFits(file: File<Observer>, id: Identity) {
    || file.Missing?
    || (file.Holds?
        && var o := file.value;
        && o.generation == id.generation && U64(o.events) && U64(o.checkpoint) && U64(o.liveHead)
        && o.version == id.version && o.incarnation == id.incarnation && o.duplicates == 0)
  }

  /** Paused readers must acknowledge under the paused identity with no further command. */
  predicate ReadAckFits(file: File<Resumed>, s: State) {
    || file.Missing?
    || (file.Holds?
        && var a := file.value;
        && Identity(a.generation, a.version, a.incarnation) == s.id && U64(a.readCount)
        && s.snapshot.Some? && a.commands == s.snapshot.value.load.commands)
  }

  // --- steps: None is a refusal --------------------------------------------

  predicate MayBegin(s: State, now: int, fault: Option<Fault>, pauseLoad: bool, io: bool) {
    && U64(now) && s.stage == Idle && io
    && (fault.Some? ==>
        pauseLoad && fault.value.clock.stage == C.Quiescing && ClockHolds(now, fault) && now <= Deadline(now, fault))
  }

  /** `io` says the file operations of the call succeeded, stale files having been absent. */
  function Begin(s: State, now: int, fault: Option<Fault>, pauseLoad: bool, io: bool): Option<State> {
    if MayBegin(s, now, fault, pauseLoad, io)
    then Some(s.(stage := Pausing, started := Some(now), lastNs := now, loadPaused := pauseLoad))
    else None
  }

  predicate ObserverKept(s: State, observer: File<Observer>) {
    if observer.Holds? then s.observer.None? || s.observer.value == observer.value else s.observer.None?
  }

  predicate SnapshotKept(s: State, load: File<Load>, observer: File<Observer>) {
    s.snapshot.Some? ==>
      load.Holds? && observer.Holds? && s.snapshot.value == Snapshot(load.value, observer.value)
  }

  predicate MayPoll(s: State, now: int, fault: Option<Fault>, load: File<Load>, observer: File<Observer>) {
    && Ticks(s, now, fault) && s.stage == Pausing
    && LoadFits(load, s.id.generation) && ObserverFits(observer, s.id)
    && (load.Holds? ==> s.loadPaused)
    && ObserverKept(s, observer) && SnapshotKept(s, load, observer)
  }

  predicate Ready(load: File<Load>, observer: File<Observer>) {
    load.Holds? && observer.Holds?
  }

  function Poll(s: State, now: int, fault: Option<Fault>, load: File<Load>, observer: File<Observer>): Option<State> {
    if MayPoll(s, now, fault, load, observer)
    then Some(s.(lastNs := now,
                 observer := if observer.Holds? then Some(observer.value) else s.observer,
                 snapshot := if Ready(load, observer) then Some(Snapshot(load.value, observer.value)) else s.snapshot))
    else None
  }

  function PauseLoad(s: State, now: int, fault: Option<Fault>, load: File<Load>, observer: File<Observer>,
                     io: bool): Option<State> {
    var polled := Poll(s, now, fault, load, observer);
    if !s.loadPaused && polled.Some? && polled.value.observer.Some? && io then Some(polled.value.(loadPaused := true))
    else None
  }

  predicate SourceKept(fault: Option<Fault>, load: Load) {
    && fault.Some? && fault.value.clock.stage == C.BackupDurable
    && fault.value.clock.acknowledged.Some? && fault.value.clock.acknowledged.value.commands == load.commands
  }

  function AllowReads(s: State, now: int, fault: Option<Fault>, load: File<Load>, observer: File<Observer>,
                      io: bool): Option<State> {
    var polled := Poll(s, now, fault, load, observer);
    if s.admission.None? && polled.Some? && Ready(load, observer) && SourceKept(fault, load.value) && io
    then Some(polled.value.(admission := Some(Reads(now, None, None, None))))
    else None
  }

  predicate MayReadsStart(s: State, now: int, fault: Option<Fault>, ack: File<Resumed>) {
    && Ticks(s, now, fault) && s.admission.Some? && s.admission.value.pausedNs.None?
    && ReadAckFits(ack, s)
    && (ack.Holds? ==> && ack.value.readCount > s.snapshot.value.load.readCount
                       && (s.admission.value.reading.None? || s.admission.value.reading.value.ack == ack.value))
  }

  function ReadsStarted(s: State, now: int, fault: Option<Fault>, ack: File<Resumed>): Option<State> {
    if !MayReadsStart(s, now, fault, ack) then None
    else if ack.Holds? && s.admission.value.reading.None?
    then Some(s.(lastNs := now, admission := Some(s.admission.value.(reading := Some(Seen(ack.value, now))))))
    else Some(s.(lastNs := now))
  }

  predicate MayPauseReads(s: State, now: int, fault: Option<Fault>, marker: File<Identity>, io: bool) {
    && Ticks(s, now, fault) && fault.Some? && fault.value.clock.stage == C.Recovering
    && s.admission.Some? && s.admission.value.reading.Some? && s.admission.value.pausedNs.None?
    && marker == Holds(s.id) && io
  }

  function PauseReads(s: State, now: int, fault: Option<Fault>, marker: File<Identity>, io: bool): Option<State> {
    if MayPauseReads(s, now, fault, marker, io)
    then Some(s.(lastNs := now, admission := Some(s.admission.value.(pausedNs := Some(now)))))
    else None
  }

  predicate MayQuiesceReads(s: State, now: int, fault: Option<Fault>, ack: File<Resumed>) {
    && Ticks(s, now, fault) && s.admission.Some? && s.admission.value.pausedNs.Some? && s.admission.value.reading.Some?
    && ReadAckFits(ack, s)
    && (ack.Holds? ==> && ack.value.readCount >= s.admission.value.reading.value.ack.readCount
                       && (s.admission.value.quiesced.None? || s.admission.value.quiesced.value.ack == ack.value))
  }

  function WitnessOf(load: Load, r: Reads): Witness
    requires r.reading.Some? && r.pausedNs.Some? && r.quiesced.Some?
  {
    Witness(load, r.requestedNs, r.reading.value, r.pausedNs.value, r.quiesced.value)
  }

  function ReadsQuiesced(s: State, now: int, fault: Option<Fault>, ack: File<Resumed>): Option<State> {
    if !MayQuiesceReads(s, now, fault, ack) then None
    else if ack.Missing? then Some(s.(lastNs := now))
    else
      var was := s.admission.value;
      var r := was.(quiesced := if was.quiesced.Some? then was.quiesced else Some(Seen(ack.value, now)));
      Some(s.(lastNs := now, admission := Some(r), witnessed := Some(WitnessOf(s.snapshot.value.load, r))))
  }

  predicate MayPublish(s: State, version: int, incarnation: int, restore: bool, markerGone: bool) {
    && (s.admission.None? || (s.witnessed.Some? && markerGone))
    && s.id.version <= version <= 2 && U64(incarnation) && incarnation == s.id.incarnation + (if restore then 1 else 0)
    && s.id.generation < MAX_U64
  }

  function Publish(s: State, now: int, fault: Option<Fault>, load: File<Load>, observer: File<Observer>, version: int,
                   incarnation: int, restore: bool, markerGone: bool, io: bool): Option<State> {
    var polled := Poll(s, now, fault, load, observer);
    if polled.Some? && Ready(load, observer) && MayPublish(s, version, incarnation, restore, markerGone) && io
    then Some(polled.value.(stage := Released,
                            published := Some(Published(s.id.generation + 1, version, incarnation, restore))))
    else None
  }

  function Resume(s: State, now: int, fault: Option<Fault>, io: bool): Option<State> {
    if Ticks(s, now, fault) && s.stage == Released && io then Some(s.(lastNs := now, stage := Resuming)) else None
  }

  predicate MayComplete(s: State, now: int, fault: Option<Fault>, generation: int, incarnation: int, duplicates: int,
                        ack: File<Resumed>, io: bool) {
    && Ticks(s, now, fault) && s.stage == Resuming && s.published.Some? && s.snapshot.Some?
    && generation == s.published.value.generation && incarnation == s.published.value.incarnation && duplicates == 0
    && ack.Holds? && io
    && var a := ack.value;
    && U64(a.commands) && U64(a.readCount)
    && a.generation == generation && a.version == s.published.value.version && a.incarnation == incarnation
    && a.commands > s.snapshot.value.load.commands && a.readCount >= s.snapshot.value.load.readCount
  }

  function WorkersResumed(s: State, now: int, fault: Option<Fault>, generation: int, incarnation: int, duplicates: int,
                          ack: File<Resumed>, io: bool): Option<State> {
    if MayComplete(s, now, fault, generation, incarnation, duplicates, ack, io)
    then Some(s.(lastNs := now, stage := Complete, resumed := Some(ack.value)))
    else None
  }

  datatype Call =
    | CallBegin(now: int, pauseLoad: bool, io: bool)
    | CallPoll(now: int, load: File<Load>, observer: File<Observer>)
    | CallPauseLoad(now: int, load: File<Load>, observer: File<Observer>, io: bool)
    | CallAllowReads(now: int, load: File<Load>, observer: File<Observer>, io: bool)
    | CallReadsStarted(now: int, ack: File<Resumed>)
    | CallPauseReads(now: int, marker: File<Identity>, io: bool)
    | CallReadsQuiesced(now: int, ack: File<Resumed>)
    | CallPublish(now: int, load: File<Load>, observer: File<Observer>, version: int, incarnation: int, restore: bool,
                  markerGone: bool, io: bool)
    | CallResume(now: int, io: bool)
    | CallResumed(now: int, generation: int, incarnation: int, duplicates: int, ack: File<Resumed>, io: bool)

  function Step(s: State, fault: Option<Fault>, call: Call): Option<State> {
    match call
    case CallBegin(now, pauseLoad, io) => Begin(s, now, fault, pauseLoad, io)
    case CallPoll(now, load, observer) => Poll(s, now, fault, load, observer)
    case CallPauseLoad(now, load, observer, io) => PauseLoad(s, now, fault, load, observer, io)
    case CallAllowReads(now, load, observer, io) => AllowReads(s, now, fault, load, observer, io)
    case CallReadsStarted(now, ack) => ReadsStarted(s, now, fault, ack)
    case CallPauseReads(now, marker, io) => PauseReads(s, now, fault, marker, io)
    case CallReadsQuiesced(now, ack) => ReadsQuiesced(s, now, fault, ack)
    case CallPublish(now, load, observer, version, incarnation, restore, markerGone, io) =>
      Publish(s, now, fault, load, observer, version, incarnation, restore, markerGone, io)
    case CallResume(now, io) => Resume(s, now, fault, io)
    case CallResumed(now, generation, incarnation, duplicates, ack, io) =>
      WorkersResumed(s, now, fault, generation, incarnation, duplicates, ack, io)
  }

  /** A call and the restore clock it found. */
  datatype Event = Event(fault: Option<Fault>, call: Call)

  function Run(s: State, events: seq<Event>): Option<State>
    decreases |events|
  {
    if |events| == 0 then Some(s)
    else
      var next := Step(s, events[0].fault, events[0].call);
      if next.None? then None else Run(next.value, events[1..])
  }

  // --- what every unfailed handover keeps ----------------------------------

  function Rank(stage: Stage): nat {
    match stage
    case Idle => 0
    case Pausing => 1
    case Released => 2
    case Resuming => 3
    case Complete => 4
  }

  ghost predicate SnapshotInv(s: State) {
    && IdentityAdmits(s.id)
    && (s.started.None? <==> s.stage == Idle)
    && (s.stage == Idle ==> s.observer.None? && !s.loadPaused)
    && (s.started.Some? ==> s.started.value <= s.lastNs <= MAX_U64)
    && (s.observer.Some? ==> ObserverFits(Holds(s.observer.value), s.id))
    && (s.snapshot.Some? ==> && LoadFits(Holds(s.snapshot.value.load), s.id.generation) && s.loadPaused
                             && s.observer == Some(s.snapshot.value.observer))
  }

  ghost predicate PublishedInv(s: State) {
    && (s.published.Some? <==> Rank(s.stage) >= 2)
    && (s.published.Some? ==>
          var p := s.published.value;
          && s.snapshot.Some? && p.generation == s.id.generation + 1 && s.id.version <= p.version <= 2
          && p.incarnation == s.id.incarnation + (if p.restore then 1 else 0)
          && (s.admission.Some? ==> s.witnessed.Some?))
    && (s.resumed.Some? <==> s.stage == Complete)
    && (s.resumed.Some? ==>
          var a := s.resumed.value;
          var p := s.published.value;
          && Identity(a.generation, a.version, a.incarnation) == Identity(p.generation, p.version, p.incarnation)
          && U64(a.commands) && U64(a.readCount)
          && a.commands > s.snapshot.value.load.commands && a.readCount >= s.snapshot.value.load.readCount)
  }

  ghost predicate AckInv(s: State, seen: Seen) {
    && s.snapshot.Some? && ReadAckFits(Holds(seen.ack), s) && U64(seen.ns)
  }

  ghost predicate ReadsInv(s: State) {
    && (s.witnessed.Some? ==> s.admission.Some? && s.admission.value.quiesced.Some?)
    && (s.admission.Some? ==>
          var r := s.admission.value;
          && s.snapshot.Some? && s.started.Some? && s.started.value <= r.requestedNs <= s.lastNs
          && (r.reading.Some? ==> && AckInv(s, r.reading.value) && r.requestedNs <= r.reading.value.ns <= s.lastNs
                                  && s.snapshot.value.load.readCount < r.reading.value.ack.readCount)
          && (r.pausedNs.Some? ==> r.reading.Some? && r.reading.value.ns <= r.pausedNs.value <= s.lastNs)
          && (r.quiesced.Some? ==> && r.pausedNs.Some? && AckInv(s, r.quiesced.value)
                                   && r.pausedNs.value <= r.quiesced.value.ns <= s.lastNs
                                   && r.reading.value.ack.readCount <= r.quiesced.value.ack.readCount
                                   && s.witnessed == Some(WitnessOf(s.snapshot.value.load, r))))
  }

  ghost predicate Inv(s: State) {
    SnapshotInv(s) && PublishedInv(s) && ReadsInv(s)
  }

  ghost predicate ReadsGrow(r: Reads, next: Reads) {
    && next.requestedNs == r.requestedNs
    && (r.reading.Some? ==> next.reading == r.reading)
    && (r.pausedNs.Some? ==> next.pausedNs == r.pausedNs)
    && (r.quiesced.Some? ==> next.quiesced == r.quiesced)
  }

  /** What a later state may not take back: above all, the snapshot. */
  ghost predicate Keeps(s: State, next: State) {
    && next.id == s.id && Rank(s.stage) <= Rank(next.stage)
    && (s.started.Some? ==> next.started == s.started && s.lastNs <= next.lastNs)
    && (s.observer.Some? ==> next.observer == s.observer)
    && (s.snapshot.Some? ==> next.snapshot == s.snapshot)
    && (s.admission.Some? ==> next.admission.Some? && ReadsGrow(s.admission.value, next.admission.value))
    && (s.witnessed.Some? ==> next.witnessed == s.witnessed)
    && (s.published.Some? ==> next.published == s.published)
  }

  lemma {:induction false} PollKeeps(s: State, now: int, fault: Option<Fault>, load: File<Load>,
                                     observer: File<Observer>)
    requires Inv(s) && MayPoll(s, now, fault, load, observer)
    ensures var next := Poll(s, now, fault, load, observer).value; Inv(next) && Keeps(s, next)
  {
  }

  lemma {:induction false} ReadsKeep(s: State, fault: Option<Fault>, call: Call)
    requires Inv(s) && Step(s, fault, call).Some?
    requires call.CallReadsStarted? || call.CallPauseReads? || call.CallReadsQuiesced?
    ensures var next := Step(s, fault, call).value; Inv(next) && Keeps(s, next)
  {
  }

  lemma {:induction false} PhaseKeeps(s: State, fault: Option<Fault>, call: Call)
    requires Inv(s) && Step(s, fault, call).Some?
    requires call.CallBegin? || call.CallResume? || call.CallResumed?
    ensures var next := Step(s, fault, call).value; Inv(next) && Keeps(s, next)
  {
  }

  lemma {:induction false} PolledKeeps(s: State, fault: Option<Fault>, call: Call)
    requires Inv(s) && Step(s, fault, call).Some?
    requires call.CallPoll? || call.CallPauseLoad? || call.CallAllowReads? || call.CallPublish?
    ensures var next := Step(s, fault, call).value; Inv(next) && Keeps(s, next) && s.stage != Complete
  {
    PollKeeps(s, call.now, fault, call.load, call.observer);
  }

  lemma {:induction false} StepKeeps(s: State, fault: Option<Fault>, call: Call)
    requires Inv(s) && Step(s, fault, call).Some?
    ensures var next := Step(s, fault, call).value; Inv(next) && Keeps(s, next) && s.stage != Complete
  {
    match call
    case CallPoll(now, load, observer) => PolledKeeps(s, fault, call);
    case CallPauseLoad(now, load, observer, _) => PolledKeeps(s, fault, call);
    case CallAllowReads(now, load, observer, _) => PolledKeeps(s, fault, call);
    case CallPublish(now, load, observer, _, _, _, _, _) => PolledKeeps(s, fault, call);
    case CallReadsStarted(_, _) => ReadsKeep(s, fault, call);
    case CallPauseReads(_, _, _) => ReadsKeep(s, fault, call);
    case CallReadsQuiesced(_, _) => ReadsKeep(s, fault, call);
    case CallBegin(_, _, _) => PhaseKeeps(s, fault, call);
    case CallResume(_, _) => PhaseKeeps(s, fault, call);
    case CallResumed(_, _, _, _, _, _) => PhaseKeeps(s, fault, call);
  }

  lemma {:induction false} RunKeeps(s: State, events: seq<Event>)
    requires Inv(s) && Run(s, events).Some?
    ensures Inv(Run(s, events).value) && Keeps(s, Run(s, events).value)
    decreases |events|
  {
    if events != [] {
      StepKeeps(s, events[0].fault, events[0].call);
      RunKeeps(Step(s, events[0].fault, events[0].call).value, events[1..]);
    }
  }

  ghost function Publications(events: seq<Event>): nat
    decreases |events|
  {
    if |events| == 0 then 0 else (if events[0].call.CallPublish? then 1 else 0) + Publications(events[1..])
  }

  lemma {:induction false} PublishedOnce(s: State, events: seq<Event>)
    requires Inv(s) && Run(s, events).Some?
    ensures var end := Run(s, events).value;
            Publications(events) == (if end.published.Some? then 1 else 0) - (if s.published.Some? then 1 else 0)
    decreases |events|
  {
    if events != [] {
      StepKeeps(s, events[0].fault, events[0].call);
      PublishedOnce(Step(s, events[0].fault, events[0].call).value, events[1..]);
    }
  }

  /**
   * A handover that completes published exactly one phase: the next generation, under the
   * next history incarnation exactly when it restored, and its workers have since
   * acknowledged more commands than the snapshot held.
   */
  lemma {:induction false} CompletedHandover(id: Identity, events: seq<Event>)
    requires IdentityAdmits(id) && Run(Fresh(id), events).Some? && Run(Fresh(id), events).value.stage == Complete
    ensures Publications(events) == 1
    ensures var s := Run(Fresh(id), events).value;
            && s.snapshot.Some? && s.published.Some? && s.resumed.Some?
            && s.resumed.value.generation == s.published.value.generation == id.generation + 1
            && s.resumed.value.incarnation == s.published.value.incarnation
            && s.published.value.incarnation == id.incarnation + (if s.published.value.restore then 1 else 0)
            && id.version <= s.resumed.value.version == s.published.value.version <= 2
            && s.snapshot.value.load.generation == id.generation
            && s.resumed.value.commands > s.snapshot.value.load.commands
            && s.resumed.value.readCount >= s.snapshot.value.load.readCount
  {
    RunKeeps(Fresh(id), events);
    PublishedOnce(Fresh(id), events);
  }

  lemma {:induction false} Prefix(s: State, events: seq<Event>, n: nat)
    requires Run(s, events).Some? && n <= |events|
    ensures Run(s, events[..n]).Some? && Run(Run(s, events[..n]).value, events[n..]) == Run(s, events)
    decreases n
  {
    if n == 0 {
      assert events[..0] == [] && events[0..] == events;
    } else {
      assert events[..n][1..] == events[1..][..n - 1] && events[n..] == events[1..][n - 1..];
      Prefix(Step(s, events[0].fault, events[0].call).value, events[1..], n - 1);
    }
  }

  /** Whatever is called afterwards, what was once captured is what the end still holds. */
  lemma {:induction false} SnapshotNeverChanges(id: Identity, events: seq<Event>, n: nat)
    requires IdentityAdmits(id) && Run(Fresh(id), events).Some? && n <= |events|
    ensures Run(Fresh(id), events[..n]).Some? && Keeps(Run(Fresh(id), events[..n]).value, Run(Fresh(id), events).value)
  {
    Prefix(Fresh(id), events, n);
    RunKeeps(Fresh(id), events[..n]);
    RunKeeps(Run(Fresh(id), events[..n]).value, events[n..]);
  }
}
