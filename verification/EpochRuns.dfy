/**
 * Whole runs that do finish: one that every checker accepts, and for each of the three
 * facts the controller does not enforce, one that fails in that fact alone.
 */
module EpochRuns {
  import opened Prelude
  import opened Windows
  import opened LogTail
  import opened NativeSampler
  import opened EpochModel
  import opened EpochHistory
  import opened EpochInvariant
  import opened EpochCheckers
  import opened EpochAcceptance

  const PROJECTION := Identity(1, "")
  const OWNERS := Owners(1, 101, 1, 1)

  /** How long a campaign lasts, and the projection its deployment brings. */
  datatype World = World(duration: nat, deployed: Identity)

  /** The time between two observations of everything. */
  const BEAT: int := 200_000_000_000

  // --- a server whose counters never move ----------------------------------

  function Zeros(incarnation: nat): Reading {
    Reading(incarnation, 0, 0, 0, 0, 0, 0, 0, 0, 0)
  }

  function Ones(s: State): NativeReading {
    NativeReading(if s.sampler.None? then 0 else s.sampler.value.index + 1, s.version, s.incarnation, s.identity,
                  1, 1, 1, 1, 0, 0, false, 3, 0, 1)
  }

  /** The roster while the owners are in place, and once `kind` has replaced them. */
  function Here(s: State): Roster {
    Roster(true, Some(s.owners.server), Some(s.owners.sampler), s.owners.serverCount, s.owners.samplerCount,
           true, true, None, None)
  }

  function Gone(s: State, kind: Kind): Roster {
    var replaced := if kind == Deploy then 0 else 1;
    Roster(true, Some(s.owners.server + replaced), Some(s.owners.sampler + 1), s.owners.serverCount + replaced,
           s.owners.samplerCount + 1, true, true, Some(if kind == Kill then -9 else 0), Some(0))
  }

  function Silent(identity: nat, content: Bytes): LogFile {
    LogFile(identity, true, true, content, map[])
  }

  ghost predicate AllZero(r: Reading) {
    forall f: Field :: At(r, f) == 0
  }

  ghost predicate AllOnes(v: NativeReading) {
    forall f: NativeField :: NativeAt(v, f) == 1
  }

  ghost predicate CalmComponent(s: State, c: Component) {
    && (s.samples.Of(c).last.Some? ==> s.samples.Of(c).last.value == Zeros(s.incarnation))
    && (|s.samples.Of(c).rows| > s.started.Of(c) ==> s.samples.Of(c).last.Some?)
    && (s.floors.Of(c).Some? ==> AllZero(s.floors.Of(c).value.values))
  }

  ghost predicate CalmNative(s: State) {
    && (s.sampler.Some? ==> && s.sampler.value.index < |s.native| && s.sampler.value.incarnation == s.incarnation
                            && AllOnes(s.sampler.value))
    && (|s.native| > 0 ==> AllOnes(s.native[|s.native| - 1].reading))
    && (s.nativeFloor.Some? ==> AllOnes(s.nativeFloor.value.values))
  }

  ghost predicate Quiet(s: State) {
    && !s.complete && 0 < s.incarnation <= 1 + s.epoch <= 5 && 1 <= s.version <= 2
    && U64(s.identity.projectionId) && CalmNative(s)
    && forall c: Component :: CalmComponent(s, c)
  }

  /** Every log file stays empty; each epoch's file is named after the epoch. */
  ghost predicate CalmLog(s: State) {
    && s.log.enabled && s.log.offset == s.log.observed == s.log.completed == 0 && s.log.epoch <= s.epoch
    && |s.log.identities| <= s.epoch + 1 && forall i :: i in s.log.identities ==> i <= s.epoch
  }

  ghost predicate Calm(s: State) {
    Quiet(s) && CalmLog(s) && s.log.open && s.log.owner == s.owners.server
  }

  // --- single steps --------------------------------------------------------

  function Observed(s: State, c: Component, t: nat): State {
    s.(lastNs := Some(t), samples := s.samples.With(c, Collected(s.samples.Of(c), Zeros(s.incarnation), t)),
       floors := s.floors.With(c, None))
  }

  ghost predicate Due(s: State, c: Component, t: nat) {
    && (s.samples.Of(c).lastNs.Some? ==> s.samples.Of(c).lastNs.value < t) && t - Since(s.samples.Of(c).lastNs) <= BEAT
    && |s.samples.Of(c).rows| < MAX_COMPONENT_ROWS
  }

  lemma {:induction false} ObserveStep(s: State, c: Component, t: nat)
    requires Calm(s) && Due(s, c, t) && U64(t) && Since(s.lastNs) <= t < s.duration
    ensures Step(s, CallObserve(c, Sample(Zeros(s.incarnation)), t, Here(s))) == Some(Observed(s, c, t))
    ensures Calm(Observed(s, c, t))
  {
    var next := Observed(s, c, t);
    assert CalmComponent(s, c);
    forall d: Component
      ensures CalmComponent(next, d)
    {
      assert CalmComponent(s, d);
    }
  }

  function Sampled(s: State, t: nat): State {
    s.(lastNs := Some(t), sampler := Some(Ones(s)), native := s.native + [NativeRow(Ones(s), t)],
       attempts := s.attempts + 3, nativeFloor := None)
  }

  lemma {:induction false} NativeCallStep(s: State, t: nat)
    requires Calm(s) && U64(t) && Since(s.lastNs) <= t < s.duration && |s.native| < MAX_NATIVE_ROWS
    requires |s.native| > 0 ==> s.native[|s.native| - 1].ns < t
    ensures Step(s, CallNative(Ones(s), t, Here(s))) == Some(Sampled(s, t)) && Calm(Sampled(s, t))
  {
    var next := Sampled(s, t);
    assert AllOnes(Ones(s));
    assert CanObserveNative(s, Ones(s), t, Here(s));
    forall c: Component
      ensures CalmComponent(next, c)
    {
      assert CalmComponent(s, c);
    }
  }

  /** The retired server's log, found empty, is closed. */
  function Closed(s: State, kind: Kind, t: nat): State {
    s.(lastNs := Some(t), log := s.log.(open := false, retired := Some(kind)),
       output := s.output + [RetiredLog(s.epoch, t, s.owners.serverCount, s.owners.samplerCount, 0, 0)])
  }

  lemma {:induction false} EmptyScan(content: Bytes)
    requires |content| == 0
    ensures ScanFrom(content, 0, {}, 0) == Scan([], 0, Eof)
  {
    assert |ReadLine(content[0..], MAX_LINE + 1)| == 0;
  }

  lemma {:induction false} CloseStep(s: State, kind: Kind, t: nat, content: Bytes)
    requires Calm(s) && kind in {Restart, Kill, Restore} && U64(t) && Since(s.lastNs) <= t && |content| == 0
    ensures Step(s, CallPoll(t, Some(kind), Gone(s, kind), Silent(s.log.identity, content))) == Some(Closed(s, kind, t))
  {
    var file := Silent(s.log.identity, content);
    EmptyScan(content);
    assert CanPoll(s, t, Some(kind), Gone(s, kind), file);
    var ticked := s.(lastNs := Some(t), log := s.log.(observed := 0));
    assert AfterScan(ticked, t, Some(kind), file, Scan([], 0, Eof)) == Some(Polled(Closed(s, kind, t), true));
  }

  function NextVersion(s: State, kind: Kind): nat {
    if kind == Deploy then 2 else s.version
  }

  function NextIncarnation(s: State, kind: Kind): nat {
    s.incarnation + (if kind == Restore then 1 else 0)
  }

  /** Only a deployment may bring another projection. */
  function NextIdentity(s: State, kind: Kind, deployed: Identity): Identity {
    if kind == Deploy then deployed else s.identity
  }

  function MoveCall(s: State, kind: Kind, t: nat, deployed: Identity): Call {
    CallTransition(kind, t, NextVersion(s, kind), NextIncarnation(s, kind), NextIdentity(s, kind, deployed),
                   Gone(s, kind))
  }

  lemma {:induction false} MoveAdmitted(s: State, kind: Kind, t: nat, deployed: Identity)
    requires !s.complete && EpochComplete(s) && LogReleased(s, kind)
    requires kind != Initial && (kind == Deploy ==> s.version == 1) && s.epoch < 4
    requires U64(t) && Since(s.lastNs) <= t < s.duration && forall c: Component :: s.samples.Of(c).last.Some?
    ensures CanTransition(s, kind, t, NextVersion(s, kind), NextIncarnation(s, kind),
                          NextIdentity(s, kind, deployed), Gone(s, kind))
  {
  }

  ghost predicate SameRows(s: State, next: State, c: Component) {
    next.samples.Of(c).rows == s.samples.Of(c).rows && next.samples.Of(c).lastNs == s.samples.Of(c).lastNs
  }

  /** What a transition leaves of the streams and the custody. */
  ghost predicate Moved(s: State, next: State, kind: Kind, t: nat, deployed: Identity) {
    && next.epoch == s.epoch + 1 && next.log == s.log && next.lastNs == Some(t) && next.native == s.native
    && next.duration == s.duration && next.version == NextVersion(s, kind)
    && next.identity == NextIdentity(s, kind, deployed)
    && next.owners.server == s.owners.server + (if kind == Deploy then 0 else 1)
    && next.startedNative == |s.native| && next.started == Counts(s)
    && next.output == s.output + [TransitionRow(s, kind, t, next.version, next.incarnation, Gone(s, kind))]
    && forall c: Component :: SameRows(s, next, c)
  }

  lemma {:induction false} MovedQuiet(s: State, next: State, kind: Kind, c: Component)
    requires CalmComponent(s, c) && s.samples.Of(c).last == Some(Zeros(s.incarnation))
    requires next.incarnation == NextIncarnation(s, kind) && next.started.Of(c) == |s.samples.Of(c).rows|
    requires kind != Deploy ==> forall d: Component :: s.samples.Of(d).last.Some?
    requires next.samples == SamplesAfter(s, kind) && next.floors == FloorsAfter(s, kind)
    ensures CalmComponent(next, c) && SameRows(s, next, c)
  {
  }

  lemma {:induction false} MoveStep(s: State, kind: Kind, t: nat, deployed: Identity)
    requires Quiet(s) && EpochComplete(s) && LogReleased(s, kind)
    requires kind != Initial && (kind == Deploy ==> s.version == 1) && s.epoch < 4
    requires U64(t) && Since(s.lastNs) <= t < s.duration && U64(deployed.projectionId)
    ensures var next := Step(s, MoveCall(s, kind, t, deployed));
            next.Some? && Quiet(next.value) && Moved(s, next.value, kind, t, deployed)
  {
    forall c: Component
      ensures s.samples.Of(c).last.Some?
    {
      assert CalmComponent(s, c);
    }
    MoveAdmitted(s, kind, t, deployed);
    var next := Step(s, MoveCall(s, kind, t, deployed)).value;
    forall c: Component
      ensures CalmComponent(next, c) && SameRows(s, next, c)
    {
      MovedQuiet(s, next, kind, c);
    }
  }

  lemma {:induction false} BindStep(s: State, t: nat, content: Bytes)
    requires Quiet(s) && !s.log.open && U64(t) && Since(s.lastNs) <= t < s.duration && |content| == 0
    requires s.epoch < 5 && (if s.log.enabled then s.epoch > s.log.epoch && s.log.owner != s.owners.server
                             else s.epoch == 0)
    requires s.log.offset == s.log.observed == s.log.completed == 0
    requires |s.log.identities| <= s.epoch && forall i :: i in s.log.identities ==> i < s.epoch
    ensures var next := Step(s, CallBind(t, Here(s), Silent(s.epoch, content)));
            && next.Some? && Calm(next.value) && next.value.lastNs == Some(t)
            && next.value == s.(lastNs := Some(t), log := next.value.log, output := next.value.output)
            && next.value.output == s.output + [BoundLog(s.epoch, t, s.owners.serverCount, s.owners.samplerCount, 0)]
  {
    var next := Step(s, CallBind(t, Here(s), Silent(s.epoch, content))).value;
    forall c: Component
      ensures CalmComponent(next, c)
    {
      assert CalmComponent(s, c);
    }
  }

  // --- where a run stands --------------------------------------------------

  /** The transitions so far are the planned ones, at these instants. */
  ghost predicate Marks(output: seq<EpochRow>, at: seq<nat>) {
    var epochs := Epochs(output);
    && |epochs| == |at| <= |KINDS|
    && forall e :: 0 <= e < |at| ==> epochs[e].Transition? && epochs[e].kind == KINDS[e] && epochs[e].ns == at[e]
  }

  ghost predicate AtBeat(s: State, c: Component, k: nat) {
    Since(s.samples.Of(c).lastNs) == k * BEAT && |s.samples.Of(c).rows| == k
  }

  ghost predicate NativeBeat(s: State, w: World, m: nat) {
    && |s.native| == m
    && forall i :: 0 <= i < m ==> && s.native[i].ns == (i + 1) * BEAT
                                  && s.native[i].reading.identity == (if i == 0 then PROJECTION else w.deployed)
  }

  /** The open epoch began after `j` observations of everything. */
  ghost predicate Began(s: State, j: nat) {
    s.startedNative == j && forall c: Component :: s.started.Of(c) == j
  }

  ghost predicate Frame(s: State, w: World, at: seq<nat>, j: nat) {
    && s.duration == w.duration && Marks(s.output, at) && s.epoch + 1 == |at| && (s.epoch == 0 ==> s.version == 1)
    && s.identity == (if s.epoch == 0 then PROJECTION else w.deployed) && Began(s, j)
  }

  function Order(c: Component): nat {
    match c
    case Provider => 0
    case Source => 1
    case Logical => 2
    case Physical => 3
  }

  const COMPONENTS := [Provider, Source, Logical, Physical]

  /** After `m` native samples and in the middle of the observation after the `k`th: the first `i` components had it. */
  ghost predicate Observing(s: State, w: World, m: nat, k: nat, i: nat) {
    NativeBeat(s, w, m) && forall c: Component :: AtBeat(s, c, k + if Order(c) < i then 1 else 0)
  }

  lemma {:induction false} ObserveOne(s: State, w: World, at: seq<nat>, j: nat, m: nat, k: nat, c: Component)
    requires Calm(s) && Frame(s, w, at, j) && Observing(s, w, m, k, Order(c))
    requires Since(s.lastNs) <= (k + 1) * BEAT < w.duration && U64((k + 1) * BEAT) && k < MAX_COMPONENT_ROWS
    ensures var t := (k + 1) * BEAT;
            var next := Observed(s, c, t);
            && Step(s, CallObserve(c, Sample(Zeros(s.incarnation)), t, Here(s))) == Some(next)
            && Calm(next) && Frame(next, w, at, j) && Observing(next, w, m, k, Order(c) + 1)
  {
    var t := (k + 1) * BEAT;
    var next := Observed(s, c, t);
    assert AtBeat(s, c, k);
    ObserveStep(s, c, t);
    forall d: Component
      ensures AtBeat(next, d, k + if Order(d) < Order(c) + 1 then 1 else 0)
    {
      assert AtBeat(s, d, k + if Order(d) < Order(c) then 1 else 0);
    }
  }

  lemma {:induction false} SampleOne(s: State, w: World, at: seq<nat>, j: nat, k: nat)
    requires Calm(s) && Frame(s, w, at, j) && Observing(s, w, k, k, 4) && (k == 0) == (|at| == 1)
    requires Since(s.lastNs) <= (k + 1) * BEAT < w.duration && U64((k + 1) * BEAT) && k < MAX_COMPONENT_ROWS
    ensures var t := (k + 1) * BEAT;
            var next := Sampled(s, t);
            && Step(s, CallNative(Ones(s), t, Here(s))) == Some(next)
            && Calm(next) && Frame(next, w, at, j) && Observing(next, w, k + 1, k + 1, 0)
  {
    var t := (k + 1) * BEAT;
    var next := Sampled(s, t);
    NativeCallStep(s, t);
    forall c: Component
      ensures AtBeat(next, c, k + 1 + if Order(c) < 0 then 1 else 0)
    {
      assert Order(c) < 4 && AtBeat(s, c, k + if Order(c) < 4 then 1 else 0);
    }
  }

  /** Everything was observed `k` times, at even distances. */
  ghost predicate On(s: State, w: World, at: seq<nat>, j: nat, k: nat, i: nat) {
    Calm(s) && Frame(s, w, at, j) && Observing(s, w, k, k, i)
  }

  /** The same, but the sampler stopped after its `m`th sample. */
  ghost predicate Muted(s: State, w: World, at: seq<nat>, j: nat, m: nat, k: nat, i: nat) {
    Calm(s) && Frame(s, w, at, j) && Observing(s, w, m, k, i)
  }

  // --- runs, call by call --------------------------------------------------

  datatype Trip = Trip(calls: seq<Call>, end: State)

  ghost predicate Went(start: State, trip: Trip) {
    Run(start, trip.calls) == Some(trip.end)
  }

  lemma {:induction false} RunOn(s: State, calls: seq<Call>, call: Call)
    requires Run(s, calls).Some?
    ensures Run(s, calls + [call]) == Step(Run(s, calls).value, call)
    decreases |calls|
  {
    var more := calls + [call];
    if |calls| == 0 {
      assert more[0] == call && |more[1..]| == 0;
    } else {
      assert more[0] == calls[0] && more[1..] == calls[1..] + [call];
      RunOn(Step(s, calls[0]).value, calls[1..], call);
    }
  }

  lemma {:induction false} Go(start: State, trip: Trip, call: Call) returns (next: Trip)
    requires Went(start, trip) && Step(trip.end, call).Some?
    ensures Went(start, next) && next.end == Step(trip.end, call).value
  {
    RunOn(start, trip.calls, call);
    next := Trip(trip.calls + [call], Step(trip.end, call).value);
  }

  /** The rest of one observation of everything. */
  lemma {:induction false} Beat(start: State, trip: Trip, w: World, at: seq<nat>, j: nat, k: nat, i: nat)
    returns (next: Trip)
    requires Went(start, trip) && On(trip.end, w, at, j, k, i) && i <= 4 && (k == 0) == (|at| == 1)
    requires Since(trip.end.lastNs) <= (k + 1) * BEAT < w.duration && U64((k + 1) * BEAT) && k < MAX_COMPONENT_ROWS
    ensures Went(start, next) && On(next.end, w, at, j, k + 1, 0) && next.end.lastNs == Some((k + 1) * BEAT)
    decreases 4 - i
  {
    var s, t := trip.end, (k + 1) * BEAT;
    if i < 4 {
      var c := COMPONENTS[i];
      ObserveOne(s, w, at, j, k, k, c);
      next := Go(start, trip, CallObserve(c, Sample(Zeros(s.incarnation)), t, Here(s)));
      next := Beat(start, next, w, at, j, k, i + 1);
    } else {
      SampleOne(s, w, at, j, k);
      next := Go(start, trip, CallNative(Ones(s), t, Here(s)));
    }
  }

  lemma {:induction false} Beats(start: State, trip: Trip, w: World, at: seq<nat>, j: nat, k: nat, n: nat)
    returns (next: Trip)
    requires Went(start, trip) && On(trip.end, w, at, j, k, 0) && 0 < k <= n <= MAX_COMPONENT_ROWS && |at| > 1
    requires n * BEAT < w.duration && U64(n * BEAT) && (k < n ==> Since(trip.end.lastNs) <= (k + 1) * BEAT)
    ensures Went(start, next) && On(next.end, w, at, j, n, 0)
    ensures if k < n then next.end.lastNs == Some(n * BEAT) else next == trip
    decreases n - k
  {
    next := trip;
    if k < n {
      assert (k + 1) * BEAT <= n * BEAT;
      next := Beat(start, trip, w, at, j, k, 0);
      next := Beats(start, next, w, at, j, k + 1, n);
    }
  }

  /** The rest of an observation of the components alone. */
  lemma {:induction false} MuteBeat(start: State, trip: Trip, w: World, at: seq<nat>, j: nat, m: nat, k: nat, i: nat)
    returns (next: Trip)
    requires Went(start, trip) && Muted(trip.end, w, at, j, m, k, i) && i <= 4
    requires Since(trip.end.lastNs) <= (k + 1) * BEAT < w.duration && U64((k + 1) * BEAT) && k < MAX_COMPONENT_ROWS
    ensures Went(start, next) && Muted(next.end, w, at, j, m, k, 4) && Since(next.end.lastNs) <= (k + 1) * BEAT
    decreases 4 - i
  {
    next := trip;
    if i < 4 {
      var s, c := trip.end, COMPONENTS[i];
      ObserveOne(s, w, at, j, m, k, c);
      next := Go(start, trip, CallObserve(c, Sample(Zeros(s.incarnation)), (k + 1) * BEAT, Here(s)));
      next := MuteBeat(start, next, w, at, j, m, k, i + 1);
    }
  }

  // --- transitions ---------------------------------------------------------

  lemma {:induction false} MarksOn(output: seq<EpochRow>, at: seq<nat>, row: EpochRow)
    requires Marks(output, at)
    ensures !row.Transition? ==> Marks(output + [row], at)
    ensures row.Transition? && |at| < |KINDS| && row.kind == KINDS[|at|] ==> Marks(output + [row], at + [row.ns])
  {
    EpochsAppend(output, row);
  }

  lemma {:induction false} MovedFrame(s: State, next: State, w: World, at: seq<nat>, j: nat, k: nat, t: nat)
    requires Frame(s, w, at, j) && Observing(s, w, k, k, 0) && |at| < |KINDS|
    requires Moved(s, next, KINDS[|at|], t, w.deployed) && (s.epoch == 0 || KINDS[|at|] != Deploy)
    ensures Frame(next, w, at + [t], k) && Observing(next, w, k, k, 0)
  {
    MarksOn(s.output, at, next.output[|s.output|]);
    forall c: Component
      ensures AtBeat(next, c, k + if Order(c) < 0 then 1 else 0) && next.started.Of(c) == k
    {
      assert AtBeat(s, c, k + if Order(c) < 0 then 1 else 0) && SameRows(s, next, c);
    }
  }

  lemma {:induction false} ServedEpoch(s: State, w: World, at: seq<nat>, j: nat, k: nat)
    requires Frame(s, w, at, j) && Observing(s, w, k, k, 0) && j < k
    ensures EpochComplete(s)
  {
    forall c: Component
      ensures |s.samples.Of(c).rows| > s.started.Of(c)
    {
      assert AtBeat(s, c, k + if Order(c) < 0 then 1 else 0);
    }
  }

  lemma {:induction false} DeployOn(s: State, w: World, at: seq<nat>, j: nat, k: nat, t: nat)
    requires On(s, w, at, j, k, 0) && j < k && |at| == 1
    requires U64(t) && U64(w.deployed.projectionId) && Since(s.lastNs) <= t < w.duration
    ensures var next := Step(s, MoveCall(s, Deploy, t, w.deployed));
            next.Some? && On(next.value, w, at + [t], k, k, 0) && next.value.lastNs == Some(t)
  {
    ServedEpoch(s, w, at, j, k);
    assert KINDS[1] == Deploy;
    MoveStep(s, Deploy, t, w.deployed);
    MovedFrame(s, Step(s, MoveCall(s, Deploy, t, w.deployed)).value, w, at, j, k, t);
  }

  /** Between the closing of one log and the binding of the next. */
  ghost predicate Unbound(s: State, w: World, at: seq<nat>, j: nat, k: nat) {
    && Quiet(s) && CalmLog(s) && !s.log.open && Frame(s, w, at, j) && Observing(s, w, k, k, 0)
  }

  lemma {:induction false} ClosedOn(s: State, w: World, at: seq<nat>, j: nat, k: nat, t: nat, kind: Kind)
    requires On(s, w, at, j, k, 0) && U64(t)
    ensures var next := Closed(s, kind, t);
            Unbound(next, w, at, j, k) && next.log.retired == Some(kind) && next.log.owner == next.owners.server
  {
    var next := Closed(s, kind, t);
    MarksOn(s.output, at, next.output[|s.output|]);
    forall c: Component
      ensures AtBeat(next, c, k + if Order(c) < 0 then 1 else 0) && CalmComponent(next, c)
    {
      assert AtBeat(s, c, k + if Order(c) < 0 then 1 else 0) && CalmComponent(s, c);
    }
  }

  lemma {:induction false} ReplaceOn(s: State, w: World, at: seq<nat>, j: nat, k: nat, t: nat, kind: Kind)
    requires Unbound(s, w, at, j, k) && s.log.retired == Some(kind) && s.log.owner == s.owners.server
    requires 2 <= |at| < |KINDS| && kind == KINDS[|at|]
    requires j < k && U64(t) && U64(w.deployed.projectionId) && Since(s.lastNs) <= t < w.duration
    ensures var next := Step(s, MoveCall(s, kind, t, w.deployed));
            && next.Some? && Unbound(next.value, w, at + [t], k, k) && next.value.lastNs == Some(t)
            && next.value.log == s.log && next.value.log.owner != next.value.owners.server
            && next.value.log.epoch < next.value.epoch
  {
    ServedEpoch(s, w, at, j, k);
    assert kind != Initial && kind != Deploy;
    MoveStep(s, kind, t, w.deployed);
    MovedFrame(s, Step(s, MoveCall(s, kind, t, w.deployed)).value, w, at, j, k, t);
  }

  lemma {:induction false} BoundOn(s: State, w: World, at: seq<nat>, j: nat, k: nat, t: nat, content: Bytes)
    requires Quiet(s) && !s.log.open && Frame(s, w, at, j) && Observing(s, w, k, k, 0)
    requires s.log.offset == s.log.observed == s.log.completed == 0 && |content| == 0
    requires |s.log.identities| <= s.epoch && forall i :: i in s.log.identities ==> i < s.epoch
    requires if s.log.enabled then s.epoch > s.log.epoch && s.log.owner != s.owners.server else s.epoch == 0
    requires U64(t) && Since(s.lastNs) <= t < w.duration
    ensures var next := Step(s, CallBind(t, Here(s), Silent(s.epoch, content)));
            next.Some? && On(next.value, w, at, j, k, 0) && next.value.lastNs == Some(t)
  {
    BindStep(s, t, content);
    var next := Step(s, CallBind(t, Here(s), Silent(s.epoch, content))).value;
    MarksOn(s.output, at, next.output[|s.output|]);
    forall c: Component
      ensures AtBeat(next, c, k + if Order(c) < 0 then 1 else 0)
    {
      assert AtBeat(s, c, k + if Order(c) < 0 then 1 else 0);
    }
  }

  lemma {:induction false} Replace(start: State, trip: Trip, w: World, at: seq<nat>, j: nat, k: nat, t: nat)
    returns (next: Trip)
    requires Went(start, trip) && On(trip.end, w, at, j, k, 0) && j < k && 2 <= |at| < |KINDS|
    requires U64(t) && U64(w.deployed.projectionId) && Since(trip.end.lastNs) <= t < w.duration
    ensures Went(start, next) && On(next.end, w, at + [t], k, k, 0) && next.end.lastNs == Some(t)
  {
    var kind, content: Bytes := KINDS[|at|], [];
    CloseStep(trip.end, kind, t, content);
    ClosedOn(trip.end, w, at, j, k, t, kind);
    next := Go(start, trip, CallPoll(t, Some(kind), Gone(trip.end, kind), Silent(trip.end.log.identity, content)));
    ReplaceOn(next.end, w, at, j, k, t, kind);
    next := Go(start, next, MoveCall(next.end, kind, t, w.deployed));
    BoundOn(next.end, w, at + [t], k, k, t, content);
    next := Go(start, next, CallBind(t, Here(next.end), Silent(next.end.epoch, content)));
  }

  /** The next planned transition, with its log handed over. */
  lemma {:induction false} Change(start: State, trip: Trip, w: World, at: seq<nat>, j: nat, k: nat, t: nat)
    returns (next: Trip)
    requires Went(start, trip) && On(trip.end, w, at, j, k, 0) && j < k && 1 <= |at| < |KINDS|
    requires U64(t) && U64(w.deployed.projectionId) && Since(trip.end.lastNs) <= t < w.duration
    ensures Went(start, next) && On(next.end, w, at + [t], k, k, 0) && next.end.lastNs == Some(t)
  {
    if |at| == 1 {
      DeployOn(trip.end, w, at, j, k, t);
      next := Go(start, trip, MoveCall(trip.end, Deploy, t, w.deployed));
    } else {
      next := Replace(start, trip, w, at, j, k, t);
    }
  }

  // --- beginning and end ---------------------------------------------------

  /** A world for a campaign of that length. */
  ghost predicate Hosts(w: World, durationS: nat) {
    CampaignDuration(durationS) && w.duration == durationS * SECOND && U64(w.deployed.projectionId)
  }

  function Start(durationS: nat): State {
    InitialState(durationS, PROJECTION, OWNERS)
  }

  lemma {:induction false} Opening(durationS: nat, w: World) returns (trip: Trip)
    requires Hosts(w, durationS)
    ensures Went(Start(durationS), trip) && On(trip.end, w, [0], 0, 0, 0) && trip.end.lastNs == Some(0)
  {
    var start, content: Bytes := Start(durationS), [];
    var row := start.output[0];
    InitialStream(row, start.duration);
    assert Marks(start.output, [0]);
    BoundOn(start, w, [0], 0, 0, 0, content);
    trip := Go(start, Trip([], start), CallBind(0, Here(start), Silent(0, content)));
  }

  /** Only native rows were added. */
  ghost predicate OnlyNative(s: State, next: State) {
    next == s.(lastNs := next.lastNs, sampler := next.sampler, native := next.native, attempts := next.attempts,
               nativeFloor := next.nativeFloor)
  }

  /** `n` native samples, one each nanosecond from `t` on. */
  lemma {:induction false} Samples(start: State, trip: Trip, t: nat, n: nat) returns (next: Trip)
    requires Went(start, trip) && Calm(trip.end) && Since(trip.end.lastNs) <= t && t + n < trip.end.duration
             && U64(t + n)
    requires |trip.end.native| + n < MAX_NATIVE_ROWS
    requires |trip.end.native| > 0 ==> trip.end.native[|trip.end.native| - 1].ns < t
    ensures Went(start, next) && Calm(next.end) && OnlyNative(trip.end, next.end)
            && |next.end.native| == |trip.end.native| + n
    ensures Since(next.end.lastNs) <= t + n
    decreases n
  {
    next := trip;
    if n > 0 {
      NativeCallStep(trip.end, t);
      next := Go(start, trip, CallNative(Ones(trip.end), t, Here(trip.end)));
      next := Samples(start, next, t + 1, n - 1);
    }
  }

  lemma {:induction false} LateSamples(start: State, trip: Trip, w: World, t: nat, n: nat, k: nat) returns (next: Trip)
    requires Went(start, trip) && Calm(trip.end) && Since(trip.end.lastNs) <= t && t + n < trip.end.duration
             && U64(t + n)
    requires |trip.end.native| + n < MAX_NATIVE_ROWS && NativeBeat(trip.end, w, k) && k * BEAT < t
    requires forall c: Component :: AtBeat(trip.end, c, k)
    ensures Went(start, next) && Calm(next.end) && OnlyNative(trip.end, next.end)
            && |next.end.native| == |trip.end.native| + n
    ensures Since(next.end.lastNs) <= t + n && forall c: Component :: AtBeat(next.end, c, k)
  {
    next := Samples(start, trip, t, n);
    forall c: Component
      ensures AtBeat(next.end, c, k)
    {
      assert AtBeat(trip.end, c, k);
    }
  }

  /** The rows are dense enough to end on. */
  lemma {:induction false} CollectorEnds(s: State, durationS: nat, c: Component, k: nat)
    requires OwnersInv(s) && ComponentInv(s, c) && s.duration == durationS * SECOND && CampaignDuration(durationS)
    requires k > 0 && AtBeat(s, c, k) && s.duration - k * BEAT <= GAP
    ensures CollectorFinishes(c, s.samples.Of(c), s.duration)
  {
    var rows := s.samples.Of(c).rows;
    assert s.duration / WINDOW == durationS / 300 && durationS / 300 * WINDOW == s.duration;
    assert rows[|rows| - 1].ns == k * BEAT;
    DenseCovers(Instants(rows), GapOf(c), s.duration / WINDOW);
  }

  /** What a finished run left: its transitions' instants, its rows, and where the last epoch began. */
  ghost predicate Left(s: State, at: seq<nat>, j: nat, k: nat, natives: nat) {
    && s.complete && s.log.enabled && |at| == |KINDS| && Marks(s.output, at) && |s.native| == natives
    && forall c: Component :: s.started.Of(c) == j && |s.samples.Of(c).rows| == k
  }

  lemma {:induction false} CollectorsEnd(durationS: nat, trip: Trip, k: nat)
    requires CampaignDuration(durationS) && Went(Start(durationS), trip) && trip.end.duration == durationS * SECOND
    requires k > 0 && (forall c: Component :: AtBeat(trip.end, c, k)) && durationS * SECOND - k * BEAT <= GAP
    ensures forall c: Component :: CollectorFinishes(c, trip.end.samples.Of(c), trip.end.duration)
  {
    InitialInv(durationS, PROJECTION, OWNERS);
    RunInv(Start(durationS), trip.calls);
    forall c: Component
      ensures CollectorFinishes(c, trip.end.samples.Of(c), trip.end.duration)
    {
      assert AtBeat(trip.end, c, k) && ComponentInv(trip.end, c);
      CollectorEnds(trip.end, durationS, c, k);
    }
  }

  lemma {:induction false} Close(durationS: nat, w: World, trip: Trip, at: seq<nat>, j: nat, k: nat)
    returns (calls: seq<Call>)
    requires Hosts(w, durationS) && Went(Start(durationS), trip) && Calm(trip.end)
    requires Frame(trip.end, w, at, j) && |at| == |KINDS|
    requires k > 0 && (forall c: Component :: AtBeat(trip.end, c, k)) && 0 <= durationS * SECOND - k * BEAT <= GAP
    requires |trip.end.native| > trip.end.startedNative && Since(trip.end.lastNs) <= durationS * SECOND
    ensures Run(Start(durationS), calls).Some? && Left(Run(Start(durationS), calls).value, at, j, k, |trip.end.native|)
    ensures var s := Run(Start(durationS), calls).value; s.native == trip.end.native && s.identity == trip.end.identity
  {
    var s := trip.end;
    CollectorsEnd(durationS, trip, k);
    var next := Go(Start(durationS), trip, CallFinish(s.duration, Here(s)));
    forall c: Component
      ensures next.end.started.Of(c) == j && |next.end.samples.Of(c).rows| == k
    {
      assert AtBeat(s, c, k);
    }
    calls := next.calls;
  }

  // --- the four runs -------------------------------------------------------

  /** How often everything can be observed before the end. */
  function Count(durationS: nat): nat
    requires durationS > 0
  {
    (durationS - 1) / 200
  }

  lemma {:induction false} Counted(durationS: nat)
    requires CampaignDuration(durationS)
    ensures 109 <= Count(durationS) <= 431
    ensures 0 < durationS * SECOND - Count(durationS) * BEAT <= BEAT
            && durationS * SECOND - Count(durationS) * BEAT >= SECOND
  {
  }

  ghost predicate Ascends(at: seq<nat>) {
    forall e :: 0 < e < |at| ==> at[e - 1] < at[e]
  }

  /** The run finished on the planned epochs, and the checker of the mixed stream accepts it. */
  ghost predicate Finishes(durationS: nat, calls: seq<Call>) {
    var run := Run(Start(durationS), calls);
    && run.Some? && run.value.complete && run.value.log.enabled && Planned(Epochs(run.value.output))
    && TransitionsAccepted(run.value.output)
  }

  ghost predicate BothAccept(durationS: nat, calls: seq<Call>)
    requires Finishes(durationS, calls)
  {
    var s := Run(Start(durationS), calls).value;
    && ProviderAccepted(s.samples.provider.rows, Epochs(s.output), durationS, |s.native|)
    && CutsAccepted(s.native, Streams(s.samples), Epochs(s.output), durationS)
  }

  lemma {:induction false} AscendsStrict(epochs: seq<EpochRow>, at: seq<nat>)
    requires |epochs| == |at| && forall e :: 0 <= e < |at| ==> epochs[e].Transition? && epochs[e].ns == at[e]
    ensures StrictTransitions(epochs) <==> Ascends(at)
  {
    if Ascends(at) {
      forall e | 0 < e < |epochs|
        ensures epochs[e - 1].ns < epochs[e].ns
      {
        assert at[e - 1] < at[e];
      }
    } else {
      var e :| 0 < e < |at| && at[e - 1] >= at[e];
      assert epochs[e - 1].ns >= epochs[e].ns;
    }
  }

  /** A finished run's instants, rows and last epoch decide what the two remaining checkers say. */
  lemma {:induction false} Verdict(durationS: nat, calls: seq<Call>, at: seq<nat>, j: nat, k: nat, natives: nat)
    requires CampaignDuration(durationS) && Run(Start(durationS), calls).Some?
    requires Left(Run(Start(durationS), calls).value, at, j, k, natives)
    ensures Finishes(durationS, calls)
    ensures BothAccept(durationS, calls) <==> Ascends(at) && natives <= 4096 && j < k
    ensures StrictTransitions(Epochs(Run(Start(durationS), calls).value.output)) <==> Ascends(at)
    ensures SeenAgain(Run(Start(durationS), calls).value) <==> j < k
  {
    var s := Run(Start(durationS), calls).value;
    FinishedRunAccepted(durationS, PROJECTION, OWNERS, calls);
    assert s.started.Of(Provider) == j && |s.samples.Of(Provider).rows| == k;
    AscendsStrict(Epochs(s.output), at);
  }

  /** One more observation of everything, and the next transition at the same instant. */
  lemma {:induction false} BeatAndChange(start: State, trip: Trip, w: World, at: seq<nat>, j: nat, k: nat)
    returns (next: Trip)
    requires Went(start, trip) && On(trip.end, w, at, j, k, 0) && 1 <= |at| < |KINDS| && j <= k < 10
    requires (k == 0) == (|at| == 1) && U64(w.deployed.projectionId)
    requires Since(trip.end.lastNs) <= (k + 1) * BEAT && w.duration > 20 * BEAT
    ensures Went(start, next) && On(next.end, w, at + [(k + 1) * BEAT], k + 1, k + 1, 0)
    ensures next.end.lastNs == Some((k + 1) * BEAT)
  {
    next := Beat(start, trip, w, at, j, k, 0);
    next := Change(start, next, w, at, j, k + 1, (k + 1) * BEAT);
  }

  function Evenly(n: nat): (at: seq<nat>)
    ensures |at| == n && forall i :: 0 <= i < n ==> at[i] == i * BEAT
  {
    seq(n, i => i * BEAT)
  }

  /** The first `n` transitions, one after each observation. */
  lemma {:induction false} Transitions(durationS: nat, w: World, n: nat) returns (trip: Trip)
    requires Hosts(w, durationS) && n < |KINDS|
    ensures Went(Start(durationS), trip) && On(trip.end, w, Evenly(n + 1), n, n, 0)
    ensures trip.end.lastNs == Some(n * BEAT)
    decreases n
  {
    if n == 0 {
      trip := Opening(durationS, w);
      assert Evenly(1) == [0];
    } else {
      trip := Transitions(durationS, w, n - 1);
      trip := BeatAndChange(Start(durationS), trip, w, Evenly(n), n - 1, n - 1);
      assert Evenly(n) + [n * BEAT] == Evenly(n + 1);
    }
  }

  /** The four transitions in time, and observations up to the end. */
  lemma {:induction false} Plain(durationS: nat, w: World) returns (trip: Trip)
    requires Hosts(w, durationS)
    ensures Went(Start(durationS), trip) && On(trip.end, w, Evenly(5), 4, Count(durationS), 0)
    ensures trip.end.lastNs == Some(Count(durationS) * BEAT)
  {
    Counted(durationS);
    trip := Transitions(durationS, w, 4);
    trip := Beats(Start(durationS), trip, w, Evenly(5), 4, 4, Count(durationS));
  }

  lemma {:induction false} AllAtBeat(s: State, w: World, k: nat)
    requires Observing(s, w, k, k, 0)
    ensures forall c: Component :: AtBeat(s, c, k)
  {
    forall c: Component
      ensures AtBeat(s, c, k)
    {
      assert AtBeat(s, c, k + if Order(c) < 0 then 1 else 0);
    }
  }

  /** The run left these native rows, and the projection it deployed. */
  ghost predicate LeftNative(durationS: nat, calls: seq<Call>, w: World, m: nat)
    requires Run(Start(durationS), calls).Some?
  {
    var s := Run(Start(durationS), calls).value;
    NativeBeat(s, w, m) && s.identity == w.deployed
  }

  /** For every campaign length and projection deployed some run finishes and all three checkers accept it. */
  lemma {:induction false} AcceptedRun(durationS: nat, deployed: Identity) returns (calls: seq<Call>)
    requires CampaignDuration(durationS) && U64(deployed.projectionId)
    ensures Finishes(durationS, calls) && BothAccept(durationS, calls)
    ensures LeftNative(durationS, calls, World(durationS * SECOND, deployed), Count(durationS))
  {
    Counted(durationS);
    var n, w := Count(durationS), World(durationS * SECOND, deployed);
    var trip := Plain(durationS, w);
    AllAtBeat(trip.end, w, n);
    calls := Close(durationS, w, trip, Evenly(5), 4, n);
    Verdict(durationS, calls, Evenly(5), 4, n, n);
  }

  /** The deployment waits for the instant of the next observation; so does the restart right after it. */
  lemma {:induction false} Tie(durationS: nat, w: World) returns (trip: Trip)
    requires Hosts(w, durationS)
    ensures Went(Start(durationS), trip) && On(trip.end, w, [0, 2 * BEAT, 2 * BEAT], 2, 2, 0)
    ensures trip.end.lastNs == Some(2 * BEAT)
  {
    var start := Start(durationS);
    trip := Opening(durationS, w);
    trip := Beat(start, trip, w, [0], 0, 0, 0);
    trip := Change(start, trip, w, [0], 0, 1, 2 * BEAT);
    assert [0] + [2 * BEAT] == [0, 2 * BEAT];
    trip := BeatAndChange(start, trip, w, [0, 2 * BEAT], 1, 1);
    assert [0, 2 * BEAT] + [2 * BEAT] == [0, 2 * BEAT, 2 * BEAT];
  }

  /** Deployment and restart at one instant: only the order of the transitions fails. */
  lemma {:induction false} TiedTransitions(durationS: nat) returns (calls: seq<Call>)
    requires CampaignDuration(durationS)
    ensures Finishes(durationS, calls) && !BothAccept(durationS, calls)
    ensures var s := Run(Start(durationS), calls).value;
            !StrictTransitions(Epochs(s.output)) && |s.native| <= 4096 && SeenAgain(s)
  {
    Counted(durationS);
    var n, start, w := Count(durationS), Start(durationS), World(durationS * SECOND, PROJECTION);
    var trip := Tie(durationS, w);
    var at := [0, 2 * BEAT, 2 * BEAT];
    trip := BeatAndChange(start, trip, w, at, 2, 2);
    trip := BeatAndChange(start, trip, w, at + [3 * BEAT], 3, 3);
    at := at + [3 * BEAT] + [4 * BEAT];
    trip := Beats(start, trip, w, at, 4, 4, n);
    AllAtBeat(trip.end, w, n);
    calls := Close(durationS, w, trip, at, 4, n);
    assert at[1] == at[2];
    Verdict(durationS, calls, at, 4, n, n);
  }

  /** A sampler that reports every nanosecond at the end: only the number of native rows fails. */
  lemma {:induction false} ManyNatives(durationS: nat) returns (calls: seq<Call>)
    requires CampaignDuration(durationS)
    ensures Finishes(durationS, calls) && !BothAccept(durationS, calls)
    ensures var s := Run(Start(durationS), calls).value;
            StrictTransitions(Epochs(s.output)) && |s.native| > 4096 && SeenAgain(s)
  {
    Counted(durationS);
    var n, w := Count(durationS), World(durationS * SECOND, PROJECTION);
    var trip := Plain(durationS, w);
    AllAtBeat(trip.end, w, n);
    trip := LateSamples(Start(durationS), trip, w, n * BEAT + 1, 4096, n);
    calls := Close(durationS, w, trip, Evenly(5), 4, n);
    Verdict(durationS, calls, Evenly(5), 4, n, n + 4096);
  }

  /** A restore after the last observation: only the component rows of its epoch are missing. */
  lemma {:induction false} LateRestore(durationS: nat) returns (calls: seq<Call>)
    requires CampaignDuration(durationS)
    ensures Finishes(durationS, calls) && !BothAccept(durationS, calls)
    ensures var s := Run(Start(durationS), calls).value;
            StrictTransitions(Epochs(s.output)) && |s.native| <= 4096 && !SeenAgain(s)
  {
    Counted(durationS);
    var n, start, w := Count(durationS), Start(durationS), World(durationS * SECOND, PROJECTION);
    var trip := Transitions(durationS, w, 3);
    trip := Beats(start, trip, w, Evenly(4), 3, 3, n);
    trip := Change(start, trip, w, Evenly(4), 3, n, n * BEAT + 1);
    var at := Evenly(4) + [n * BEAT + 1];
    AllAtBeat(trip.end, w, n);
    trip := LateSamples(start, trip, w, n * BEAT + 2, 1, n);
    calls := Close(durationS, w, trip, at, n, n);
    Verdict(durationS, calls, at, n, n, n + 1);
  }

  lemma {:induction false} MutedBeat(s: State, w: World, at: seq<nat>, j: nat, m: nat, k: nat)
    requires k > 0 && Muted(s, w, at, j, m, k - 1, 4)
    ensures Muted(s, w, at, j, m, k, 0) && forall c: Component :: AtBeat(s, c, k)
  {
    forall c: Component
      ensures AtBeat(s, c, k)
    {
      assert Order(c) < 4 && AtBeat(s, c, k - 1 + if Order(c) < 4 then 1 else 0);
    }
  }

  /** The sampler stops two observations before the last: no epoch checker minds. */
  lemma {:induction false} SilentSampler(durationS: nat) returns (calls: seq<Call>)
    requires CampaignDuration(durationS)
    ensures Finishes(durationS, calls) && BothAccept(durationS, calls)
    ensures LeftNative(durationS, calls, World(durationS * SECOND, PROJECTION), Count(durationS) - 2)
  {
    Counted(durationS);
    var n, start, w := Count(durationS), Start(durationS), World(durationS * SECOND, PROJECTION);
    var trip := Transitions(durationS, w, 4);
    trip := Beats(start, trip, w, Evenly(5), 4, 4, n - 2);
    trip := MuteBeat(start, trip, w, Evenly(5), 4, n - 2, n - 2, 0);
    MutedBeat(trip.end, w, Evenly(5), 4, n - 2, n - 1);
    trip := MuteBeat(start, trip, w, Evenly(5), 4, n - 2, n - 1, 0);
    MutedBeat(trip.end, w, Evenly(5), 4, n - 2, n);
    calls := Close(durationS, w, trip, Evenly(5), 4, n);
    Verdict(durationS, calls, Evenly(5), 4, n, n - 2);
  }
}
