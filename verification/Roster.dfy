/**
 * The controller's roster of owned processes: who is alive, how many incarnations each
 * role has had, and the memory ceilings and peaks that outlive every replacement.
 */
module Roster {
  import opened Prelude

  const MAX_INCARNATIONS := 76
  const MIN_LIMIT: int := 0x400_0000
  const MAX_LIMIT: int := 0x8_0000_0000

  datatype Role = Controller | Server | Load | Observer | Sampler | Operator

  datatype Per<T> = Per(controller: T, server: T, load: T, observer: T, sampler: T, operator: T)

  function At<T>(p: Per<T>, role: Role): T {
    match role
    case Controller => p.controller
    case Server => p.server
    case Load => p.load
    case Observer => p.observer
    case Sampler => p.sampler
    case Operator => p.operator
  }

  function Put<T>(p: Per<T>, role: Role, value: T): Per<T> {
    match role
    case Controller => p.(controller := value)
    case Server => p.(server := value)
    case Load => p.(load := value)
    case Observer => p.(observer := value)
    case Sampler => p.(sampler := value)
    case Operator => p.(operator := value)
  }

  function Sum(p: Per<nat>): nat {
    p.controller + p.server + p.load + p.observer + p.sampler + p.operator
  }

  function All<T>(value: T): Per<T> {
    Per(value, value, value, value, value, value)
  }

  // --- ceilings ------------------------------------------------------------

  predicate LimitOk(limits: Per<nat>, role: Role) {
    var limit: nat := At<nat>(limits, role);
    MIN_LIMIT <= limit <= MAX_LIMIT && limit <= limits.controller
  }

  /** How far a child may exceed its own ceiling before it is enforced, for the worst role. */
  function Excess(limits: Per<nat>): int {
    var h := limits.controller;
    Max(0, Max(h - limits.server, Max(h - limits.load, Max(h - limits.observer,
                                                           Max(h - limits.sampler, h - limits.operator)))))
  }

  function Bound(limits: Per<nat>): int {
    Sum(limits) + Excess(limits)
  }

  predicate LimitsOk(limits: Per<nat>) {
    (forall role :: LimitOk(limits, role)) && Bound(limits) <= MAX_LIMIT
  }

  // --- observed memory -----------------------------------------------------

  /** One reading of the kernel's resident and virtual sizes and their high waters. */
  datatype Reading = Reading(rss: nat, virt: nat, rssHigh: nat, virtHigh: nat)

  datatype Peaks = Peaks(rss: nat, virt: nat)

  predicate ReadingOk(r: Reading) {
    0 < r.rss <= r.virt && r.rss <= r.rssHigh <= r.virtHigh <= MAX_U64 && r.virt <= r.virtHigh
  }

  /** The resident high water may be reported lower than before and is then kept; the virtual one may not. */
  function Observe(peaks: Option<Peaks>, r: Reading): Option<Peaks> {
    if !ReadingOk(r) then None
    else if peaks.None? then Some(Peaks(r.rssHigh, r.virtHigh))
    else if r.virtHigh < peaks.value.virt then None
    else Some(Peaks(Max(r.rssHigh, peaks.value.rss), r.virtHigh))
  }

  datatype Memory = Memory(rss: nat, virt: nat, rssPeak: nat, virtPeak: nat, reportedRss: nat, reportedVirt: nat,
                           laterRss: nat, laterVirt: nat)

  /** A process is read twice around the census. */
  datatype Twice = Twice(first: Reading, later: Reading)

  function PeaksAfter(peaks: Option<Peaks>, t: Twice): Option<Peaks> {
    var once := Observe(peaks, t.first);
    if once.None? then None else Observe(once, t.later)
  }

  function MemoryOf(peaks: Option<Peaks>, t: Twice): Memory
    requires PeaksAfter(peaks, t).Some?
  {
    var once, twice := Observe(peaks, t.first).value, PeaksAfter(peaks, t).value;
    Memory(t.first.rss, t.first.virt, Max(once.rss, twice.rss), Max(once.virt, twice.virt), t.first.rssHigh,
           t.first.virtHigh,
           t.later.rssHigh, t.later.virtHigh)
  }

  // --- roster --------------------------------------------------------------

  datatype Record = Record(incarnations: nat, rssPeak: nat, virtPeak: nat)

  const ABSENT := Record(0, 0, 0)

  /** A live or unretired child; `owner` holds its observed peaks unless it was gone when adopted. */
  datatype Child = Child(pid: nat, lifetime: nat, owner: Option<Peaks>)

  /** What adopting a child finds. */
  datatype Sight = Alive(reading: Reading) | Gone | Refused

  /** The launch's proof of enforcement, and the sight of the child. */
  datatype Birth = Birth(pid: nat, enforced: bool, limit: nat, lifetime: nat, sight: Sight)

  /** A role without a record has never had an incarnation. */
  datatype State = State(limits: Per<nat>, pid: nat, peaks: Peaks, children: Per<Option<Child>>, roles: Per<Record>,
                         count: nat, retired: nat, lastNs: Option<nat>, launching: Option<Role>)

  predicate ProofOk(limits: Per<nat>, role: Role, b: Birth) {
    b.enforced && b.limit == At<nat>(limits, role) && 0 < b.lifetime <= limits.controller
  }

  function Pid(child: Option<Child>): set<nat> {
    if child.Some? && child.value.owner.Some? then {child.value.pid} else {}
  }

  function OwnerPids(s: State): set<nat> {
    {s.pid} + Pid(s.children.server) + Pid(s.children.load) + Pid(s.children.observer) + Pid(s.children.sampler)
    + Pid(s.children.operator)
  }

  predicate MayAdopt(s: State, role: Role, b: Birth) {
    && role != Controller && At(s.children, role).None? && s.count < MAX_INCARNATIONS
    && ProofOk(s.limits, role, b) && b.pid !in OwnerPids(s)
    && match b.sight
       case Alive(reading) => ReadingOk(reading) && reading.virtHigh <= b.limit
       case Gone => true
       case Refused => false
  }

  function BornPeaks(b: Birth): Option<Peaks> {
    if b.sight.Alive? then Observe(None, b.sight.reading) else None
  }

  function Adopt(s: State, role: Role, b: Birth): Option<State> {
    if !MayAdopt(s, role, b) then None
    else
      var owner, was := BornPeaks(b), At(s.roles, role);
      var seen := if owner.Some? then owner.value.rss else 0;
      Some(s.(children := Put(s.children, role, Some(Child(b.pid, b.lifetime, owner))),
              roles := Put(s.roles, role, Record(was.incarnations + 1, Max(was.rssPeak, seen),
                                                 Max(was.virtPeak, b.lifetime))),
              count := s.count + 1))
  }

  predicate MayLaunch(s: State, role: Role) {
    s.launching.None? && role != Controller && At(s.children, role).None? && s.count < MAX_INCARNATIONS
  }

  /** The child exists from here on, possibly still under the controller's own ceiling. */
  function Launch(s: State, role: Role): Option<State> {
    if MayLaunch(s, role) then Some(s.(launching := Some(role))) else None
  }

  function Admit(s: State, b: Birth): Option<State> {
    if s.launching.None? then None
    else
      var adopted := Adopt(s, s.launching.value, b);
      if adopted.None? then None else Some(adopted.value.(launching := None))
  }

  predicate MayRetire(s: State, role: Role, exitOk: bool, peak: nat) {
    At(s.children, role).Some? && exitOk && 0 < peak <= At(s.children, role).value.lifetime
  }

  /** `exitOk` says the child's exit was observed with the expected code. */
  function Retire(s: State, role: Role, exitOk: bool, peak: nat): Option<State> {
    if !MayRetire(s, role, exitOk, peak) then None
    else
      var was := At(s.roles, role);
      Some(s.(children := Put(s.children, role, None),
              roles := Put(s.roles, role, was.(rssPeak := Max(was.rssPeak, peak))),
              retired := s.retired + 1))
  }

  // --- samples -------------------------------------------------------------

  datatype Row = Row(ns: nat, processes: Per<Option<Memory>>, roles: Per<Record>, incarnations: nat, retired: nat,
                     rss: nat, virt: nat, rssPeaks: nat, bound: int)

  /** A child that was gone once is never running again. */
  predicate Running(child: Option<Child>, alive: bool) {
    child.Some? ==> child.value.owner.Some? && alive
  }

  predicate Counts(peaks: Option<Peaks>, t: Twice, limit: nat) {
    PeaksAfter(peaks, t).Some? && MemoryOf(peaks, t).virtPeak <= limit
  }

  predicate ChildCounts(s: State, role: Role, alive: bool, t: Twice) {
    var child := At(s.children, role);
    Running(child, alive) && (child.Some? ==> Counts(child.value.owner, t, At<nat>(s.limits, role)))
  }

  predicate ChildrenCount(s: State, alive: bool, seen: Per<Twice>) {
    && ChildCounts(s, Server, alive, seen.server) && ChildCounts(s, Load, alive, seen.load)
    && ChildCounts(s, Observer, alive, seen.observer) && ChildCounts(s, Sampler, alive, seen.sampler)
    && ChildCounts(s, Operator, alive, seen.operator)
  }

  predicate MaySample(s: State, now: int, alive: bool, seen: Per<Twice>) {
    && U64(now) && Since(s.lastNs) <= now && s.launching.None?
    && Counts(Some(s.peaks), seen.controller, s.limits.controller) && ChildrenCount(s, alive, seen)
  }

  function Process(s: State, role: Role, t: Twice): Option<Memory> {
    var child := At(s.children, role);
    var owner := if role == Controller then Some(s.peaks) else if child.Some? then child.value.owner else None;
    if owner.Some? && PeaksAfter(owner, t).Some? then Some(MemoryOf(owner, t)) else None
  }

  function Processes(s: State, seen: Per<Twice>): Per<Option<Memory>> {
    Per(Process(s, Controller, seen.controller), Process(s, Server, seen.server), Process(s, Load, seen.load),
        Process(s, Observer, seen.observer), Process(s, Sampler, seen.sampler), Process(s, Operator, seen.operator))
  }

  function Raised(record: Record, memory: Option<Memory>): Record {
    if memory.Some? then record.(rssPeak := Max(record.rssPeak, memory.value.rssPeak)) else record
  }

  function AllRaised(roles: Per<Record>, ps: Per<Option<Memory>>): Per<Record> {
    Per(Raised(roles.controller, ps.controller), Raised(roles.server, ps.server), Raised(roles.load, ps.load),
        Raised(roles.observer, ps.observer), Raised(roles.sampler, ps.sampler), Raised(roles.operator, ps.operator))
  }

  function Watched(child: Option<Child>, t: Twice): Option<Child> {
    if child.Some? then Some(child.value.(owner := PeaksAfter(child.value.owner, t))) else None
  }

  function AllWatched(children: Per<Option<Child>>, seen: Per<Twice>): Per<Option<Child>> {
    Per(None, Watched(children.server, seen.server), Watched(children.load, seen.load),
        Watched(children.observer, seen.observer), Watched(children.sampler, seen.sampler),
        Watched(children.operator, seen.operator))
  }

  function Sampled(s: State, now: nat, seen: Per<Twice>): State
    requires PeaksAfter(Some(s.peaks), seen.controller).Some?
  {
    s.(peaks := PeaksAfter(Some(s.peaks), seen.controller).value, children := AllWatched(s.children, seen),
       roles := AllRaised(s.roles, Processes(s, seen)), lastNs := Some(now))
  }

  function Rss(m: Option<Memory>): nat {
    if m.Some? then m.value.rss else 0
  }

  function Virt(m: Option<Memory>): nat {
    if m.Some? then m.value.virt else 0
  }

  function RssOf(p: Per<Option<Memory>>): Per<nat> {
    Per(Rss(p.controller), Rss(p.server), Rss(p.load), Rss(p.observer), Rss(p.sampler), Rss(p.operator))
  }

  function VirtOf(p: Per<Option<Memory>>): Per<nat> {
    Per(Virt(p.controller), Virt(p.server), Virt(p.load), Virt(p.observer), Virt(p.sampler), Virt(p.operator))
  }

  function RssPeaks(p: Per<Record>): Per<nat> {
    Per(p.controller.rssPeak, p.server.rssPeak, p.load.rssPeak, p.observer.rssPeak, p.sampler.rssPeak,
        p.operator.rssPeak)
  }

  function Incarnations(p: Per<Record>): Per<nat> {
    Per(p.controller.incarnations, p.server.incarnations, p.load.incarnations, p.observer.incarnations,
        p.sampler.incarnations, p.operator.incarnations)
  }

  function One<T>(o: Option<T>): nat {
    if o.Some? then 1 else 0
  }

  function Present<T>(p: Per<Option<T>>): nat {
    One(p.controller) + One(p.server) + One(p.load) + One(p.observer) + One(p.sampler) + One(p.operator)
  }

  function RowOf(s: State, now: nat, seen: Per<Twice>): Row
    requires PeaksAfter(Some(s.peaks), seen.controller).Some?
  {
    var ps, next := Processes(s, seen), Sampled(s, now, seen);
    Row(now, ps, next.roles, s.count, s.retired, Sum(RssOf(ps)), Sum(VirtOf(ps)), Sum(RssPeaks(next.roles)),
        Bound(s.limits))
  }

  function Sample(s: State, now: int, alive: bool, seen: Per<Twice>): Option<(State, Row)> {
    if MaySample(s, now, alive, seen) then Some((Sampled(s, now, seen), RowOf(s, now, seen))) else None
  }

  datatype Call =
    | CallLaunch(role: Role)
    | CallAdmit(birth: Birth)
    | CallRetire(role: Role, exitOk: bool, peak: nat)
    | CallSample(now: int, alive: bool, seen: Per<Twice>)

  function Step(s: State, call: Call): Option<State> {
    match call
    case CallLaunch(role) => Launch(s, role)
    case CallAdmit(birth) => Admit(s, birth)
    case CallRetire(role, exitOk, peak) => Retire(s, role, exitOk, peak)
    case CallSample(now, alive, seen) =>
      var r := Sample(s, now, alive, seen);
      if r.None? then None else Some(r.value.0)
  }

  function Run(s: State, calls: seq<Call>): Option<State>
    decreases |calls|
  {
    if |calls| == 0 then Some(s)
    else
      var next := Step(s, calls[0]);
      if next.None? then None else Run(next.value, calls[1..])
  }

  /** The controller alone, before the four required workers are adopted. */
  function Alone(limits: Per<nat>, pid: nat, reading: Reading): State {
    State(limits, pid, Peaks(reading.rssHigh, reading.virtHigh), All(None),
          All(ABSENT).(controller := Record(1, reading.rssHigh, limits.controller)), 1, 0, None, None)
  }

  /** Adopts the required workers one after the other. */
  function Initial(limits: Per<nat>, pid: nat, reading: Reading, births: Per<Birth>): Option<State> {
    if !LimitsOk(limits) || !ReadingOk(reading) || reading.virtHigh > limits.controller then None
    else
      var a := Adopt(Alone(limits, pid, reading), Server, births.server);
      var b := if a.None? then None else Adopt(a.value, Load, births.load);
      var c := if b.None? then None else Adopt(b.value, Observer, births.observer);
      if c.None? then None else Adopt(c.value, Sampler, births.sampler)
  }
}
