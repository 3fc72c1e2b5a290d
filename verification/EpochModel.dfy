/**
 * Native counter epochs: the collectors, the owner handover and the log custody of
 * one campaign, as the values each accepted call turns into the next.
 *
 * Counters that the controller raises once per written row (`count`,
 * `native_count`) are the lengths of the row streams here.
 */
module EpochModel {
  import opened Prelude
  import opened Windows
  import opened LogTail
  import opened NativeSampler

  const MAX_INCARNATIONS := 76
  const MAX_COMPONENT_ROWS := 2048
  const MAX_LOG_BYTES := 16_777_216
  const PROVIDER_LIMIT := 0x4000_0000

  /** How an epoch began; `Initial` opens epoch zero and is never a transition. */
  datatype Kind = Initial | Deploy | Restart | Kill | Restore

  /** One value for each component. */
  datatype Per<T> = Per(provider: T, source: T, logical: T, physical: T) {

    function Of(c: Component): T {
      match c
      case Provider => provider
      case Source => source
      case Logical => logical
      case Physical => physical
    }

    function With(c: Component, value: T): Per<T> {
      match c
      case Provider => this.(provider := value)
      case Source => this.(source := value)
      case Logical => this.(logical := value)
      case Physical => this.(physical := value)
    }
  }

  // --- component collectors ------------------------------------------------

  datatype Field =
    ReleasedAllocations | ReleasedOwners | Root | Resume | Watermark | Head | MinimumResume | ActiveGeneration

  /** One native component observation; each component uses its own fields. */
  datatype Reading = Reading(incarnation: nat, charged: nat, releasedAllocations: nat, releasedOwners: nat, root: nat,
                             resume: nat, watermark: nat, head: nat, minimumResume: nat, activeGeneration: nat)

  datatype Row = Row(reading: Reading, ns: nat)

  function At(r: Reading, f: Field): nat {
    match f
    case ReleasedAllocations => r.releasedAllocations
    case ReleasedOwners => r.releasedOwners
    case Root => r.root
    case Resume => r.resume
    case Watermark => r.watermark
    case Head => r.head
    case MinimumResume => r.minimumResume
    case ActiveGeneration => r.activeGeneration
  }

  /** Fields that may not go down while one server process lives. */
  function Continuity(c: Component): set<Field> {
    match c
    case Provider => {ReleasedAllocations, ReleasedOwners}
    case Source => {Root, Resume}
    case Logical => {Root, Watermark, Head}
    case Physical => {Root, Watermark, MinimumResume, ActiveGeneration}
  }

  /** Fields that outlive the server process. */
  function Durable(c: Component): set<Field> {
    match c
    case Provider => {}
    case Source => {Resume}
    case Logical => {Watermark, Head}
    case Physical => {Watermark, MinimumResume, ActiveGeneration}
  }

  /** The floors a replacement of this kind carries over the reset. */
  function FloorFields(c: Component, kind: Kind): set<Field> {
    if kind == Restore then (if c == Logical then {Head} else {}) else Durable(c)
  }

  predicate NoLower(before: Reading, after: Reading, fields: set<Field>) {
    forall f :: f in fields ==> At(before, f) <= At(after, f)
  }

  function GapOf(c: Component): int {
    if c == Provider then 255_000_000_000 else 275_000_000_000
  }

  datatype Collector = Collector(last: Option<Reading>, lastNs: Option<nat>, rows: seq<Row>, peak: nat)

  function Instants(rows: seq<Row>): (ts: seq<nat>)
    ensures |ts| == |rows|
    ensures forall i :: 0 <= i < |rows| ==> ts[i] == rows[i].ns
  {
    seq(|rows|, i requires 0 <= i < |rows| => rows[i].ns)
  }

  predicate Admits(c: Component, k: Collector, r: Reading, t: nat, incarnation: nat) {
    && (c != Provider ==> r.incarnation == incarnation)
    && (k.lastNs.Some? ==> t > k.lastNs.value)
    && t - Since(k.lastNs) <= GapOf(c)
    && (k.last.Some? ==> NoLower(k.last.value, r, Continuity(c))
                         && (c != Provider ==> r.incarnation == k.last.value.incarnation))
    && |k.rows| < MAX_COMPONENT_ROWS
  }

  function Collected(k: Collector, r: Reading, t: nat): Collector {
    Collector(Some(r), Some(t), k.rows + [Row(r, t)], Max(k.peak, r.charged))
  }

  /** The collector's own end check: coverage and the last gap. */
  predicate CollectorFinishes(c: Component, k: Collector, duration: nat) {
    && (forall w :: 0 <= w < duration / WINDOW ==> Hits(Instants(k.rows), w, duration / WINDOW) > 0)
    && k.lastNs.Some?
    && duration - k.lastNs.value <= GapOf(c)
  }

  /** What parsing one encoded record gave: not of this component, refused, or a reading. */
  datatype Parsed = Ignored | Malformed | Sample(reading: Reading)

  predicate ReadingBounded(c: Component, r: Reading) {
    (forall f :: f in Continuity(c) ==> U64(At(r, f))) && (c == Provider ==> r.charged <= PROVIDER_LIMIT)
  }

  // --- native rows ---------------------------------------------------------

  function SumAttempts(rows: seq<NativeRow>): nat {
    if |rows| == 0 then 0 else SumAttempts(rows[..|rows| - 1]) + rows[|rows| - 1].reading.attempts
  }

  // --- controller state ----------------------------------------------------

  /** One row of the mixed transition and log-custody stream. */
  datatype EpochRow =
    | Transition(kind: Kind, epoch: nat, ns: nat, server: nat, sampler: nat, version: nat, incarnation: nat,
                 samples: Per<nat>, native: nat, attempts: nat, peak: nat)
    | BoundLog(epoch: nat, ns: nat, server: nat, sampler: nat, excluded: nat)
    | RetiredLog(epoch: nat, ns: nat, server: nat, sampler: nat, bytes: nat, partialBytes: nat)

  /** Exact child identities, and how many incarnations their roles have had. */
  datatype Owners = Owners(server: nat, sampler: nat, serverCount: nat, samplerCount: nat)

  datatype Floor = Floor(keys: set<Field>, values: Reading)

  datatype NativeFloor = NativeFloor(keys: set<NativeField>, values: NativeReading)

  datatype Log = Log(enabled: bool, open: bool, owner: nat, epoch: nat, retired: Option<Kind>, identities: set<nat>,
                     identity: nat, completed: nat, observed: nat, offset: nat)

  datatype State = State(duration: nat, version: nat, incarnation: nat, identity: Identity, samples: Per<Collector>,
                         sampler: Option<NativeReading>, native: seq<NativeRow>, attempts: nat,
                         nativeFloor: Option<NativeFloor>, lastNs: Option<nat>, complete: bool, epoch: nat,
                         floors: Per<Option<Floor>>, owners: Owners, started: Per<nat>, startedNative: nat, log: Log,
                         output: seq<EpochRow>)

  /** What the process roster answers during one call. */
  datatype Roster = Roster(sampled: bool, server: Option<nat>, sampler: Option<nat>, serverCount: nat,
                           samplerCount: nat, workersKept: bool, alive: bool, serverExit: Option<int>,
                           samplerExit: Option<int>)

  /** The log file as one call finds it; `parsed` says what its lines parse to. */
  datatype LogFile = LogFile(identity: nat, regular: bool, isServerStderr: bool, content: Bytes,
                             parsed: map<Bytes, Parsed>)

  /** The controller after its initial row. */
  function InitialState(durationS: nat, identity: Identity, owners: Owners): State {
    var counts := Per(0, 0, 0, 0);
    var empty := Collector(None, None, [], 0);
    State(durationS * SECOND, 1, 1, identity, Per(empty, empty, empty, empty), None, [], 0, None,
          None, false, 0, Per(None, None, None, None), owners, counts, 0, Log(false, false, 0, 0, None, {}, 0, 0, 0, 0),
          [Transition(Initial, 0, 0, owners.serverCount, owners.samplerCount, 1, 1, counts, 0, 0, 0)])
  }

  predicate ClockAdmits(s: State, t: int) {
    U64(t) && t >= Since(s.lastNs) && !s.complete
  }

  predicate OwnersCurrent(s: State, r: Roster) {
    r.server == Some(s.owners.server) && r.sampler == Some(s.owners.sampler) && r.workersKept && r.alive
  }

  predicate LogCurrent(s: State) {
    s.log.enabled ==> s.log.open && s.log.owner == s.owners.server
  }

  predicate ServerRetired(s: State, r: Roster, kind: Kind) {
    r.server != Some(s.owners.server) && r.serverExit == Some(if kind == Kill then -9 else 0)
  }

  predicate SamplerRetired(s: State, r: Roster) {
    r.sampler != Some(s.owners.sampler) && r.samplerExit == Some(0)
  }

  // --- component observation ----------------------------------------------

  function ObserveComponent(s: State, c: Component, parsed: Parsed, t: nat): (r: Option<State>)
  {
    match parsed
    case Malformed => None
    case Ignored => Some(s)
    case Sample(value) =>
      if !ReadingBounded(c, value) then None
      else if t >= s.duration then Some(s)
      else if s.floors.Of(c).Some? && !NoLower(s.floors.Of(c).value.values, value, s.floors.Of(c).value.keys) then None
      else if !Admits(c, s.samples.Of(c), value, t, s.incarnation) then None
      else Some(s.(samples := s.samples.With(c, Collected(s.samples.Of(c), value, t)),
                   floors := s.floors.With(c, None)))
  }

  function Observe(s: State, c: Component, parsed: Parsed, t: int, r: Roster): Option<State>
  {
    if ClockAdmits(s, t) && OwnersCurrent(s, r) && LogCurrent(s)
    then ObserveComponent(s.(lastNs := Some(t)), c, parsed, t)
    else None
  }

  // --- native observation --------------------------------------------------

  predicate NativeFloorHolds(s: State, v: NativeReading) {
    s.nativeFloor.Some? ==> NativeNoLower(s.nativeFloor.value.values, v, s.nativeFloor.value.keys)
  }

  predicate CanObserveNative(s: State, v: NativeReading, t: int, r: Roster) {
    && ClockAdmits(s, t) && OwnersCurrent(s, r) && LogCurrent(s)
    && t < s.duration && |s.native| < MAX_NATIVE_ROWS
    && (s.native != [] ==> t > s.native[|s.native| - 1].ns)
    && SamplerAdmits(s.sampler, s.identity, s.version, v)
    && v.incarnation == s.incarnation
    && NativeFloorHolds(s, v)
  }

  function ObserveNative(s: State, v: NativeReading, t: int, r: Roster): Option<State> {
    if CanObserveNative(s, v, t, r)
    then Some(s.(lastNs := Some(t), sampler := Some(v), native := s.native + [NativeRow(v, t)],
                 attempts := s.attempts + v.attempts, nativeFloor := None))
    else None
  }

  // --- owner transition ----------------------------------------------------

  predicate EpochComplete(s: State)
  {
    && (forall c: Component :: |s.samples.Of(c).rows| > s.started.Of(c))
    && |s.native| > s.startedNative
  }

  predicate ReleaseAdmitted(s: State, kind: Kind, version: int, incarnation: int, identity: Identity) {
    && version == (if kind == Deploy then 2 else s.version)
    && (kind == Deploy ==> s.version == 1)
    && incarnation == s.incarnation + (if kind == Restore then 1 else 0)
    && (kind == Deploy || identity == s.identity)
  }

  predicate LogReleased(s: State, kind: Kind) {
    s.log.enabled ==>
      if kind == Deploy then s.log.open && s.log.owner == s.owners.server
      else !s.log.open && s.log.retired == Some(kind)
  }

  predicate OwnersReplaced(s: State, kind: Kind, r: Roster) {
    && r.sampled && r.workersKept && r.server.Some? && r.sampler.Some?
    && r.samplerCount == s.owners.samplerCount + 1
    && r.serverCount == s.owners.serverCount + (if kind == Deploy then 0 else 1)
    && SamplerRetired(s, r)
    && (if kind == Deploy then r.server == Some(s.owners.server) else ServerRetired(s, r, kind))
  }

  predicate CanTransition(s: State, kind: Kind, t: int, version: int, incarnation: int, identity: Identity, r: Roster)
  {
    && ClockAdmits(s, t) && kind != Initial && t < s.duration && s.epoch + 1 < MAX_INCARNATIONS
    && EpochComplete(s) && ReleaseAdmitted(s, kind, version, incarnation, identity)
    && LogReleased(s, kind) && OwnersReplaced(s, kind, r)
    && (kind != Deploy ==> forall c: Component :: s.samples.Of(c).last.Some?)
  }

  function Counts(s: State): Per<nat>
  {
    Per(|s.samples.provider.rows|, |s.samples.source.rows|, |s.samples.logical.rows|, |s.samples.physical.rows|)
  }

  function FloorAfter(samples: Per<Collector>, c: Component, kind: Kind): Option<Floor>
    requires samples.Of(c).last.Some?
  {
    Some(Floor(FloorFields(c, kind), samples.Of(c).last.value))
  }

  function FloorsAfter(s: State, kind: Kind): Per<Option<Floor>>
    requires kind != Deploy ==> forall c: Component :: s.samples.Of(c).last.Some?
  {
    if kind == Deploy then s.floors
    else Per(FloorAfter(s.samples, Provider, kind), FloorAfter(s.samples, Source, kind),
             FloorAfter(s.samples, Logical, kind), FloorAfter(s.samples, Physical, kind))
  }

  function SamplesAfter(s: State, kind: Kind): Per<Collector>
  {
    if kind == Deploy then s.samples
    else Per(s.samples.provider.(last := None), s.samples.source.(last := None),
             s.samples.logical.(last := None), s.samples.physical.(last := None))
  }

  function NativeFloorAfter(s: State, kind: Kind, identity: Identity): NativeFloor
    requires s.native != []
  {
    NativeFloor(if kind != Restore && identity == s.identity then ALL_NATIVE else {SampledHead, StatisticsHead},
                s.native[|s.native| - 1].reading)
  }

  function TransitionRow(s: State, kind: Kind, t: nat, version: nat, incarnation: nat, r: Roster): EpochRow
  {
    Transition(kind, s.epoch + 1, t, r.serverCount, r.samplerCount, version, incarnation, Counts(s), |s.native|,
               s.attempts, s.samples.Of(Provider).peak)
  }

  function MakeTransition(s: State, kind: Kind, t: int, version: int, incarnation: int, identity: Identity,
                          r: Roster): Option<State>
  {
    if !CanTransition(s, kind, t, version, incarnation, identity, r) then None
    else Some(s.(lastNs := Some(t), version := version, incarnation := incarnation, identity := identity,
                 samples := SamplesAfter(s, kind), floors := FloorsAfter(s, kind), sampler := None,
                 nativeFloor := Some(NativeFloorAfter(s, kind, identity)),
                 owners := Owners(r.server.value, r.sampler.value, r.serverCount, r.samplerCount),
                 epoch := s.epoch + 1, started := Counts(s), startedNative := |s.native|,
                 output := s.output + [TransitionRow(s, kind, t, version, incarnation, r)]))
  }

  // --- log custody ---------------------------------------------------------

  predicate LogInfo(s: State, file: LogFile, live: bool) {
    && s.log.open && s.log.owner == s.owners.server
    && file.regular && file.identity == s.log.identity
    && s.log.offset <= |file.content| && s.log.observed <= |file.content|
    && s.log.completed + |file.content| <= MAX_LOG_BYTES
    && (live ==> file.isServerStderr)
  }

  predicate CanBind(s: State, t: int, r: Roster, file: LogFile) {
    && ClockAdmits(s, t) && r.sampled && OwnersCurrent(s, r)
    && !s.log.open && t < s.duration
    && (if s.log.enabled then s.epoch > s.log.epoch && s.log.owner != s.owners.server else s.epoch == 0)
    && file.regular && file.identity !in s.log.identities && |s.log.identities| < MAX_INCARNATIONS
    && s.log.completed + |file.content| <= MAX_LOG_BYTES && file.isServerStderr
  }

  /** The first binding skips what the file already holds; every later one starts at byte zero. */
  function BindLog(s: State, t: int, r: Roster, file: LogFile): Option<State> {
    if !CanBind(s, t, r, file) then None
    else
      var offset := if s.log.enabled then 0 else |file.content|;
      Some(s.(lastNs := Some(t),
              log := Log(true, true, s.owners.server, s.epoch, None, s.log.identities + {file.identity}, file.identity,
                         s.log.completed, |file.content|, offset),
              output := s.output + [BoundLog(s.epoch, t, s.owners.serverCount, s.owners.samplerCount, offset)]))
  }

  function ParsedLine(file: LogFile, line: Bytes): Parsed {
    if line in file.parsed then file.parsed[line] else Malformed
  }

  /** Observe the records among the lines, in order, at one clock reading. */
  function ObserveLines(s: State, lines: seq<Bytes>, file: LogFile, t: nat): (r: Option<State>)
    decreases |lines|
  {
    if |lines| == 0 then Some(s)
    else
      var family := Family(lines[0]);
      var next := if family.None? then Some(s) else ObserveComponent(s, family.value, ParsedLine(file, lines[0]), t);
      if next.None? then None else ObserveLines(next.value, lines[1..], file, t)
  }

  /** Lines touch the collectors and their floors, and nothing else. */
  lemma {:induction false} LinesTouchOnlySamples(s: State, lines: seq<Bytes>, file: LogFile, t: nat)
    requires ObserveLines(s, lines, file, t).Some?
    ensures var next := ObserveLines(s, lines, file, t).value;
            next == s.(samples := next.samples, floors := next.floors)
    decreases |lines|
  {
    if lines != [] {
      var family := Family(lines[0]);
      var next := if family.None? then Some(s) else ObserveComponent(s, family.value, ParsedLine(file, lines[0]), t);
      LinesTouchOnlySamples(next.value, lines[1..], file, t);
    }
  }

  predicate CanPoll(s: State, t: int, retired: Option<Kind>, r: Roster, file: LogFile) {
    && ClockAdmits(s, t) && r.sampled
    && (if retired.Some?
        then && retired.value != Initial && retired.value != Deploy
             && ServerRetired(s, r, retired.value) && SamplerRetired(s, r) && r.workersKept
        else OwnersCurrent(s, r) && LogCurrent(s))
    && LogInfo(s, file, retired.None?)
  }

  function CloseRetired(s: State, kind: Kind, t: nat, file: LogFile, partialBytes: nat): Option<State> {
    if partialBytes != 0 && kind != Kill then None
    else Some(s.(log := s.log.(open := false, retired := Some(kind), completed := s.log.completed + |file.content|),
                 output := s.output + [RetiredLog(s.epoch, t, s.owners.serverCount, s.owners.samplerCount,
                                                  |file.content|, partialBytes)]))
  }

  datatype Polled = Polled(state: State, drained: bool)

  /** Hand the scanned records on, then leave the file open or close it. */
  function AfterScan(s: State, t: nat, retired: Option<Kind>, file: LogFile, scan: Scan): (r: Option<Polled>)
  {
    var observed := ObserveLines(s, scan.lines, file, t);
    if scan.end == OverBound || observed.None? then None
    else
      var read := observed.value.(log := observed.value.log.(offset := scan.offset));
      if retired.None? then Some(Polled(read, scan.end == Eof))
      else if scan.end == Repeat then Some(Polled(read, false))
      else
        var closed := CloseRetired(read, retired.value, t, file, if scan.end == Eof then 0 else scan.end.bytes);
        if closed.None? then None else Some(Polled(closed.value, true))
  }

  function PollLog(s: State, t: int, retired: Option<Kind>, r: Roster, file: LogFile): (p: Option<Polled>)
  {
    if CanPoll(s, t, retired, r, file)
    then AfterScan(s.(lastNs := Some(t), log := s.log.(observed := |file.content|)), t, retired, file,
                   ScanFrom(file.content, s.log.offset, {}, 0))
    else None
  }

  // --- gaps and the end ----------------------------------------------------

  predicate GapsHold(s: State, t: int)
  {
    forall c: Component :: 0 <= Min(t, s.duration) - Since(s.samples.Of(c).lastNs) <= GapOf(c)
  }

  function CheckGaps(s: State, t: int, r: Roster, file: LogFile): Option<State>
  {
    var checked :=
      if s.log.enabled && s.log.open && (s.lastNs.None? || t > s.lastNs.value) then
        var polled := PollLog(s, t, None, r, file);
        if polled.None? then None else Some(polled.value.state)
      else if ClockAdmits(s, t) then Some(s.(lastNs := Some(t)))
      else None;
    if checked.Some? && GapsHold(checked.value, t) then checked else None
  }

  function Finish(s: State, t: int, r: Roster): Option<State>
  {
    if && ClockAdmits(s, t) && OwnersCurrent(s, r) && LogCurrent(s) && |s.native| > s.startedNative
       && t >= s.duration
       && forall c: Component :: CollectorFinishes(c, s.samples.Of(c), s.duration)
    then Some(s.(lastNs := Some(t), complete := true))
    else None
  }

  // --- whole runs ----------------------------------------------------------

  datatype Call =
    | CallObserve(c: Component, parsed: Parsed, t: int, roster: Roster)
    | CallNative(v: NativeReading, t: int, roster: Roster)
    | CallTransition(kind: Kind, t: int, version: int, incarnation: int, identity: Identity, roster: Roster)
    | CallBind(t: int, roster: Roster, file: LogFile)
    | CallPoll(t: int, retired: Option<Kind>, roster: Roster, file: LogFile)
    | CallGaps(t: int, roster: Roster, file: LogFile)
    | CallFinish(t: int, roster: Roster)

  function Step(s: State, call: Call): (r: Option<State>)
  {
    match call
    case CallObserve(c, parsed, t, r) => Observe(s, c, parsed, t, r)
    case CallNative(v, t, r) => ObserveNative(s, v, t, r)
    case CallTransition(kind, t, version, incarnation, identity, r) =>
      MakeTransition(s, kind, t, version, incarnation, identity, r)
    case CallBind(t, r, file) => BindLog(s, t, r, file)
    case CallPoll(t, retired, r, file) =>
      var polled := PollLog(s, t, retired, r, file);
      if polled.None? then None else Some(polled.value.state)
    case CallGaps(t, r, file) => CheckGaps(s, t, r, file)
    case CallFinish(t, r) => Finish(s, t, r)
  }

  /** A whole run: nothing once any call refuses. */
  function Run(s: State, calls: seq<Call>): Option<State>
    decreases |calls|
  {
    if |calls| == 0 then Some(s)
    else
      var next := Step(s, calls[0]);
      if next.None? then None else Run(next.value, calls[1..])
  }
}
