/** What every unfailed roster keeps, and why its samples pass the offline check. */
module RosterRuns {
  import opened Prelude
  import opened Roster

  // --- invariant -----------------------------------------------------------

  ghost predicate OwnerInv(owner: Option<Peaks>, limit: nat, record: Record) {
    owner.Some? ==> 0 < owner.value.rss <= owner.value.virt <= limit && owner.value.rss <= record.rssPeak
  }

  ghost predicate ChildInv(limits: Per<nat>, role: Role, child: Option<Child>, record: Record) {
    child.Some? ==>
      && role != Controller && record.incarnations > 0
      && At<nat>(limits, role) <= child.value.lifetime <= record.virtPeak
      && OwnerInv(child.value.owner, At<nat>(limits, role), record)
  }

  ghost predicate RecordInv(limits: Per<nat>, child: Option<Child>, record: Record) {
    if record.incarnations == 0 then record == ABSENT
    else && record.rssPeak <= record.virtPeak <= limits.controller && 0 < record.virtPeak
         && (record.rssPeak > 0 || (child.Some? && child.value.owner.None?))
  }

  ghost predicate RoleInv(s: State, role: Role) {
    && ChildInv(s.limits, role, At(s.children, role), At(s.roles, role))
    && RecordInv(s.limits, At(s.children, role), At(s.roles, role))
  }

  ghost predicate ControllerInv(s: State) {
    && s.roles.controller.incarnations == 1 && s.roles.controller.virtPeak == s.limits.controller
    && OwnerInv(Some(s.peaks), s.limits.controller, s.roles.controller)
  }

  /** Incarnations are conserved: every one is the controller, a child not yet retired, or retired. */
  ghost predicate CountInv(s: State) {
    s.count == Sum(Incarnations(s.roles)) == 1 + Present(s.children) + s.retired <= MAX_INCARNATIONS
  }

  ghost predicate Inv(s: State) {
    && LimitsOk(s.limits) && CountInv(s) && ControllerInv(s) && (forall role :: RoleInv(s, role))
    && (s.launching.Some? ==> s.launching.value != Controller && At(s.children, s.launching.value).None?)
  }

  /** The launcher's birth bound is never below the ceiling it then enforces. */
  ghost predicate BornUnderCeiling(b: Birth) {
    b.limit <= b.lifetime
  }

  ghost predicate RealCall(call: Call) {
    call.CallAdmit? ==> BornUnderCeiling(call.birth)
  }

  /** Roles never lose incarnations or peaks. */
  ghost predicate RecordGrows(a: Record, b: Record) {
    a.incarnations <= b.incarnations && a.rssPeak <= b.rssPeak && a.virtPeak <= b.virtPeak
  }

  ghost predicate Grows(roles: Per<Record>, later: Per<Record>) {
    forall role :: RecordGrows(At(roles, role), At(later, role))
  }

  // --- small facts about records per role ----------------------------------

  lemma {:induction false} PutRecord(p: Per<Record>, role: Role, r: Record, other: Role)
    ensures At(Put(p, role, r), other) == if other == role then r else At(p, other)
    ensures Sum(Incarnations(Put(p, role, r))) == Sum(Incarnations(p)) - At(p, role).incarnations + r.incarnations
  {
  }

  lemma {:induction false} PutChild(p: Per<Option<Child>>, role: Role, c: Option<Child>, other: Role)
    ensures At(Put(p, role, c), other) == if other == role then c else At(p, other)
    ensures Present(Put(p, role, c)) == Present(p) - One(At(p, role)) + One(c)
  {
  }

  // --- steps ---------------------------------------------------------------

  lemma {:induction false} AdoptRole(s: State, role: Role, b: Birth, other: Role)
    requires Inv(s) && Adopt(s, role, b).Some? && BornUnderCeiling(b)
    ensures RoleInv(Adopt(s, role, b).value, other)
    ensures RecordGrows(At(s.roles, other), At(Adopt(s, role, b).value.roles, other))
  {
    var next := Adopt(s, role, b).value;
    assert RoleInv(s, other) && LimitOk(s.limits, role);
    PutRecord(s.roles, role, At(next.roles, role), other);
    PutChild(s.children, role, At(next.children, role), other);
    PutRecord(s.roles, role, At(next.roles, role), role);
    PutChild(s.children, role, At(next.children, role), role);
  }

  lemma {:induction false} AdoptCounts(s: State, role: Role, b: Birth)
    requires CountInv(s) && ControllerInv(s) && Adopt(s, role, b).Some?
    ensures CountInv(Adopt(s, role, b).value) && ControllerInv(Adopt(s, role, b).value)
  {
    var was := At(s.roles, role);
    var owner := BornPeaks(b);
    var seen := if owner.Some? then owner.value.rss else 0;
    var record := Record(was.incarnations + 1, Max(was.rssPeak, seen), Max(was.virtPeak, b.lifetime));
    PutRecord(s.roles, role, record, Controller);
    PutChild(s.children, role, Some(Child(b.pid, b.lifetime, owner)), Controller);
  }

  lemma {:induction false} AdoptKeeps(s: State, role: Role, b: Birth)
    requires Inv(s) && Adopt(s, role, b).Some? && BornUnderCeiling(b)
    ensures Inv(Adopt(s, role, b).value.(launching := None)) && Grows(s.roles, Adopt(s, role, b).value.roles)
  {
    var next := Adopt(s, role, b).value;
    forall other
      ensures RoleInv(next.(launching := None), other) && RecordGrows(At(s.roles, other), At(next.roles, other))
    {
      AdoptRole(s, role, b, other);
    }
    AdoptCounts(s, role, b);
  }

  lemma {:induction false} RetireRole(s: State, role: Role, exitOk: bool, peak: nat, other: Role)
    requires Inv(s) && Retire(s, role, exitOk, peak).Some?
    ensures RoleInv(Retire(s, role, exitOk, peak).value, other)
    ensures RecordGrows(At(s.roles, other), At(Retire(s, role, exitOk, peak).value.roles, other))
  {
    var was := At(s.roles, role);
    assert RoleInv(s, other) && RoleInv(s, role);
    PutRecord(s.roles, role, was.(rssPeak := Max(was.rssPeak, peak)), other);
    PutChild(s.children, role, None, other);
  }

  lemma {:induction false} RetireKeeps(s: State, role: Role, exitOk: bool, peak: nat)
    requires Inv(s) && Retire(s, role, exitOk, peak).Some?
    ensures Inv(Retire(s, role, exitOk, peak).value) && Grows(s.roles, Retire(s, role, exitOk, peak).value.roles)
  {
    var next := Retire(s, role, exitOk, peak).value;
    var was := At(s.roles, role);
    forall other
      ensures RoleInv(next, other) && RecordGrows(At(s.roles, other), At(next.roles, other))
    {
      RetireRole(s, role, exitOk, peak, other);
    }
    assert RoleInv(s, role);
    PutRecord(s.roles, role, was.(rssPeak := Max(was.rssPeak, peak)), Controller);
    PutChild(s.children, role, None, Controller);
    if s.launching.Some? {
      PutChild(s.children, role, None, s.launching.value);
    }
  }

  // --- samples -------------------------------------------------------------

  /** What the offline check asks of one process. */
  predicate ProcessOk(m: Memory, limit: nat) {
    && 0 < m.rss <= m.virt <= m.virtPeak <= limit && m.rss <= m.rssPeak <= m.virtPeak
    && m.rss <= m.reportedRss <= m.rssPeak && m.reportedRss <= m.reportedVirt <= m.virtPeak
    && m.laterRss <= m.rssPeak && m.laterRss <= m.laterVirt <= m.virtPeak
  }

  /** Sizes are those of the first reading, and both readings' high waters are kept as reported. */
  predicate SizesRead(m: Memory, t: Twice) {
    && m.rss == t.first.rss && m.virt == t.first.virt
    && m.reportedRss == t.first.rssHigh && m.reportedVirt == t.first.virtHigh
    && m.laterRss == t.later.rssHigh && m.laterVirt == t.later.virtHigh
  }

  lemma {:induction false} MemoryHolds(peaks: Peaks, t: Twice, limit: nat)
    requires peaks.rss <= peaks.virt && Counts(Some(peaks), t, limit)
    ensures var m, after := MemoryOf(Some(peaks), t), PeaksAfter(Some(peaks), t).value;
            && ProcessOk(m, limit) && SizesRead(m, t) && after == Peaks(m.rssPeak, m.virtPeak)
            && after.virt == t.later.virtHigh
            && peaks.rss <= after.rss && t.first.rssHigh <= after.rss && t.later.rssHigh <= after.rss
            && (after.rss == peaks.rss || after.rss == t.first.rssHigh || after.rss == t.later.rssHigh)
  {
  }

  /** A sample treats every role alike. */
  lemma {:induction false} SampleAt(s: State, now: nat, alive: bool, seen: Per<Twice>, role: Role)
    requires s.children.controller.None? && MaySample(s, now, alive, seen)
    ensures At(Processes(s, seen), role) == Process(s, role, At(seen, role))
    ensures At(Sampled(s, now, seen).children, role) == Watched(At(s.children, role), At(seen, role))
    ensures At(Sampled(s, now, seen).roles, role) == Raised(At(s.roles, role), Process(s, role, At(seen, role)))
    ensures role != Controller ==> ChildCounts(s, role, alive, At(seen, role))
  {
  }

  /** What a sample leaves of one role: its memory in order and no peak lowered. */
  ghost predicate RoleSampled(s: State, next: State, m: Option<Memory>, role: Role) {
    && RecordGrows(At(s.roles, role), At(next.roles, role))
    && At(next.roles, role).incarnations == At(s.roles, role).incarnations
    && (m.Some? <==> role == Controller || At(s.children, role).Some?)
    && (m.Some? ==> ProcessOk(m.value, At<nat>(s.limits, role)) && m.value.rssPeak <= At(next.roles, role).rssPeak)
    && (At(next.children, role).Some? <==> At(s.children, role).Some?)
    && (At(next.roles, role).incarnations > 0 ==> At(next.roles, role).rssPeak > 0)
  }

  lemma {:induction false} SampleController(s: State, now: nat, alive: bool, seen: Per<Twice>)
    requires Inv(s) && MaySample(s, now, alive, seen)
    ensures RoleInv(Sampled(s, now, seen), Controller) && ControllerInv(Sampled(s, now, seen))
    ensures RoleSampled(s, Sampled(s, now, seen), At(Processes(s, seen), Controller), Controller)
  {
    assert RoleInv(s, Controller);
    SampleAt(s, now, alive, seen, Controller);
    MemoryHolds(s.peaks, At(seen, Controller), s.limits.controller);
  }

  lemma {:induction false} SampleRole(s: State, now: nat, alive: bool, seen: Per<Twice>, role: Role)
    requires Inv(s) && MaySample(s, now, alive, seen)
    ensures RoleInv(Sampled(s, now, seen), role)
    ensures RoleSampled(s, Sampled(s, now, seen), At(Processes(s, seen), role), role)
    ensures role == Controller ==> ControllerInv(Sampled(s, now, seen))
  {
    assert RoleInv(s, role) && RoleInv(s, Controller);
    if role == Controller {
      SampleController(s, now, alive, seen);
    } else {
      SampleAt(s, now, alive, seen, role);
      if At(s.children, role).Some? {
        MemoryHolds(At(s.children, role).value.owner.value, At(seen, role), At<nat>(s.limits, role));
      }
    }
  }

  lemma {:induction false} SampleCounts(s: State, next: State, ps: Per<Option<Memory>>)
    requires CountInv(s) && next.count == s.count && next.retired == s.retired
    requires forall role :: RoleSampled(s, next, At(ps, role), role)
    requires s.children.controller.None?
    ensures CountInv(next) && Present(ps) == 1 + Present(s.children)
  {
    assert RoleSampled(s, next, At(ps, Controller), Controller) && RoleSampled(s, next, At(ps, Server), Server);
    assert RoleSampled(s, next, At(ps, Load), Load) && RoleSampled(s, next, At(ps, Observer), Observer);
    assert RoleSampled(s, next, At(ps, Sampler), Sampler) && RoleSampled(s, next, At(ps, Operator), Operator);
  }

  lemma {:induction false} SampleKeeps(s: State, now: nat, alive: bool, seen: Per<Twice>)
    requires Inv(s) && MaySample(s, now, alive, seen)
    ensures Inv(Sampled(s, now, seen)) && Grows(s.roles, Sampled(s, now, seen).roles)
    ensures forall role :: RoleSampled(s, Sampled(s, now, seen), At(Processes(s, seen), role), role)
    ensures Present(Processes(s, seen)) + s.retired == s.count
  {
    var next := Sampled(s, now, seen);
    forall role
      ensures RoleInv(next, role) && RoleSampled(s, next, At(Processes(s, seen), role), role)
    {
      SampleRole(s, now, alive, seen, role);
    }
    forall role
      ensures RecordGrows(At(s.roles, role), At(next.roles, role))
    {
      assert RoleSampled(s, next, At(Processes(s, seen), role), role);
    }
    SampleRole(s, now, alive, seen, Controller);
    assert RoleInv(s, Controller);
    SampleCounts(s, next, Processes(s, seen));
  }

  // --- runs ----------------------------------------------------------------

  lemma {:induction false} StepKeeps(s: State, call: Call)
    requires Inv(s) && Step(s, call).Some? && RealCall(call)
    ensures Inv(Step(s, call).value) && Grows(s.roles, Step(s, call).value.roles)
    ensures Step(s, call).value.limits == s.limits
  {
    match call
    case CallLaunch(role) =>
      forall other
        ensures RoleInv(Step(s, call).value, other) && RecordGrows(At(s.roles, other),
                                                                   At(Step(s, call).value.roles, other))
      {
        assert RoleInv(s, other);
      }
    case CallAdmit(birth) => AdoptKeeps(s, s.launching.value, birth);
    case CallRetire(role, exitOk, peak) => RetireKeeps(s, role, exitOk, peak);
    case CallSample(now, alive, seen) => SampleKeeps(s, now, alive, seen);
  }

  ghost predicate RealCalls(calls: seq<Call>) {
    forall i :: 0 <= i < |calls| ==> RealCall(calls[i])
  }

  lemma {:induction false} GrowsOn(a: Per<Record>, b: Per<Record>, c: Per<Record>)
    requires Grows(a, b) && Grows(b, c)
    ensures Grows(a, c)
  {
    forall role
      ensures RecordGrows(At(a, role), At(c, role))
    {
      assert RecordGrows(At(a, role), At(b, role)) && RecordGrows(At(b, role), At(c, role));
    }
  }

  /** Every reachable roster conserves its incarnations and never takes a peak back. */
  lemma {:induction false} RunKeeps(s: State, calls: seq<Call>)
    requires Inv(s) && Run(s, calls).Some? && RealCalls(calls)
    ensures Inv(Run(s, calls).value) && Grows(s.roles, Run(s, calls).value.roles)
            && Run(s, calls).value.limits == s.limits
    decreases |calls|
  {
    if calls != [] {
      var next := Step(s, calls[0]).value;
      StepKeeps(s, calls[0]);
      RunKeeps(next, calls[1..]);
      GrowsOn(s.roles, next.roles, Run(s, calls).value.roles);
    } else {
      forall role
        ensures RecordGrows(At(s.roles, role), At(s.roles, role))
      {
      }
    }
  }

  lemma {:induction false} AloneInv(limits: Per<nat>, pid: nat, reading: Reading)
    requires LimitsOk(limits) && ReadingOk(reading) && reading.virtHigh <= limits.controller
    ensures Inv(Alone(limits, pid, reading))
  {
    assert LimitOk(limits, Controller);
  }

  ghost predicate Required(roles: Per<Record>) {
    && roles.controller.incarnations > 0 && roles.server.incarnations > 0 && roles.load.incarnations > 0
    && roles.observer.incarnations > 0 && roles.sampler.incarnations > 0
  }

  /** A roster that starts has its controller and all four required workers. */
  lemma {:induction false} InitialInv(limits: Per<nat>, pid: nat, reading: Reading, births: Per<Birth>)
    requires Initial(limits, pid, reading, births).Some?
    requires forall role :: BornUnderCeiling(At(births, role))
    ensures var s := Initial(limits, pid, reading, births).value;
            Inv(s) && s.limits == limits && s.count == 5 && s.retired == 0 && Required(s.roles)
  {
    AloneInv(limits, pid, reading);
    var s := Alone(limits, pid, reading);
    assert BornUnderCeiling(At(births, Server)) && BornUnderCeiling(At(births, Load));
    assert BornUnderCeiling(At(births, Observer)) && BornUnderCeiling(At(births, Sampler));
    AdoptKeeps(s, Server, births.server);
    var a := Adopt(s, Server, births.server).value;
    AdoptKeeps(a, Load, births.load);
    var b := Adopt(a, Load, births.load).value;
    AdoptKeeps(b, Observer, births.observer);
    AdoptKeeps(Adopt(b, Observer, births.observer).value, Sampler, births.sampler);
  }

  // --- the allocator ceiling -----------------------------------------------

  function Ceiling(child: Option<Child>, limit: nat): nat {
    if child.Some? then limit else 0
  }

  /** Everything that may be allocated now: live ceilings, and a child being born under the controller's. */
  function Allocatable(s: State): nat {
    s.limits.controller + Ceiling(s.children.server, s.limits.server) + Ceiling(s.children.load, s.limits.load)
    + Ceiling(s.children.observer, s.limits.observer) + Ceiling(s.children.sampler, s.limits.sampler)
    + Ceiling(s.children.operator, s.limits.operator) + (if s.launching.Some? then s.limits.controller else 0)
  }

  lemma {:induction false} ExcessCovers(limits: Per<nat>, role: Role)
    requires role != Controller
    ensures Excess(limits) >= 0 && limits.controller - At<nat>(limits, role) <= Excess(limits)
  {
  }

  /** The ceilings of the live leave room for that of a role not among them. */
  lemma {:induction false} AbsentSpared(limits: Per<nat>, children: Per<Option<Child>>, role: Role)
    requires role != Controller && At(children, role).None?
    ensures Ceiling(children.server, limits.server) + Ceiling(children.load, limits.load)
            + Ceiling(children.observer, limits.observer) + Ceiling(children.sampler, limits.sampler)
            + Ceiling(children.operator, limits.operator) + limits.controller + At<nat>(limits, role) <= Sum(limits)
  {
  }

  lemma {:induction false} WithinBound(s: State)
    requires LimitsOk(s.limits)
    requires s.launching.Some? ==> s.launching.value != Controller && At(s.children, s.launching.value).None?
    ensures Allocatable(s) <= Bound(s.limits)
  {
    ExcessCovers(s.limits, Server);
    if s.launching.Some? {
      ExcessCovers(s.limits, s.launching.value);
      AbsentSpared(s.limits, s.children, s.launching.value);
    }
  }

  /** At no moment of any run can the tree hold more address space than the frozen bound. */
  lemma {:induction false} CeilingHolds(s: State, calls: seq<Call>)
    requires Inv(s) && Run(s, calls).Some? && RealCalls(calls)
    ensures Allocatable(Run(s, calls).value) <= Bound(s.limits) <= MAX_LIMIT
  {
    RunKeeps(s, calls);
    WithinBound(Run(s, calls).value);
  }

  // --- the offline check ---------------------------------------------------

  predicate RecordOk(r: Record, m: Option<Memory>, controller: nat) {
    && 0 < r.incarnations <= MAX_INCARNATIONS && 0 < r.rssPeak <= r.virtPeak <= controller
    && (m.Some? ==> m.value.rssPeak <= r.rssPeak)
  }

  /** What is asked of one role: nothing of a role that never was, but then it has no process. */
  predicate RoleOk(row: Row, limits: Per<nat>, role: Role) {
    var r, m := At(row.roles, role), At(row.processes, role);
    && (m.Some? ==> r.incarnations > 0 && ProcessOk(m.value, At<nat>(limits, role)))
    && (r.incarnations > 0 ==> RecordOk(r, m, limits.controller))
  }

  ghost predicate MemoryAccepted(row: Row, limits: Per<nat>) {
    && row.processes.controller.Some? && Required(row.roles)
    && (forall role :: RoleOk(row, limits, role))
    && row.incarnations == Sum(Incarnations(row.roles)) <= MAX_INCARNATIONS
    && row.retired + Present(row.processes) == row.incarnations
    && row.rss == Sum(RssOf(row.processes)) && row.virt == Sum(VirtOf(row.processes))
    && row.rssPeaks == Sum(RssPeaks(row.roles)) && row.bound == Bound(limits)
  }

  lemma {:induction false} PartOfSum(roles: Per<Record>, role: Role)
    ensures At(roles, role).incarnations <= Sum(Incarnations(roles))
  {
  }

  lemma {:induction false} RequiredGrows(roles: Per<Record>, later: Per<Record>)
    requires Required(roles) && Grows(roles, later)
    ensures Required(later)
  {
    assert RecordGrows(At(roles, Controller), At(later, Controller))
           && RecordGrows(At(roles, Server), At(later, Server));
    assert RecordGrows(At(roles, Load), At(later, Load)) && RecordGrows(At(roles, Observer), At(later, Observer));
    assert RecordGrows(At(roles, Sampler), At(later, Sampler));
  }

  lemma {:induction false} RowAccepted(s: State, now: nat, alive: bool, seen: Per<Twice>)
    requires Inv(s) && Required(s.roles) && MaySample(s, now, alive, seen)
    ensures MemoryAccepted(RowOf(s, now, seen), s.limits)
  {
    var row, next := RowOf(s, now, seen), Sampled(s, now, seen);
    SampleKeeps(s, now, alive, seen);
    forall role
      ensures RoleOk(row, s.limits, role)
    {
      assert RoleSampled(s, next, At(Processes(s, seen), role), role);
      assert RoleInv(next, role) && RoleInv(s, role);
      PartOfSum(next.roles, role);
    }
    RequiredGrows(s.roles, next.roles);
    assert RoleSampled(s, next, At(Processes(s, seen), Controller), Controller);
  }

  /**
   * In every run of a started roster, each sample is accepted offline, and a later sample
   * never rewinds a role's incarnations or peaks.
   */
  lemma {:induction false} SamplesAccepted(s: State, before: seq<Call>, now: nat, alive: bool, seen: Per<Twice>,
                                           between: seq<Call>, later: nat, alive': bool, seen': Per<Twice>)
    requires Inv(s) && Required(s.roles) && RealCalls(before) && RealCalls(between)
    requires Run(s, before).Some? && MaySample(Run(s, before).value, now, alive, seen)
    requires var first := Sampled(Run(s, before).value, now, seen);
             Run(first, between).Some? && MaySample(Run(first, between).value, later, alive', seen')
    ensures var first := Sampled(Run(s, before).value, now, seen);
            var row, row' := RowOf(Run(s, before).value, now, seen), RowOf(Run(first, between).value, later, seen');
            MemoryAccepted(row, s.limits) && MemoryAccepted(row', s.limits) && Grows(row.roles, row'.roles)
  {
    var a := Run(s, before).value;
    RunKeeps(s, before);
    RequiredGrows(s.roles, a.roles);
    RowAccepted(a, now, alive, seen);
    SampleKeeps(a, now, alive, seen);
    var first := Sampled(a, now, seen);
    RequiredGrows(a.roles, first.roles);
    RunKeeps(first, between);
    var b := Run(first, between).value;
    RequiredGrows(first.roles, b.roles);
    RowAccepted(b, later, alive', seen');
    SampleKeeps(b, later, alive', seen');
    GrowsOn(first.roles, b.roles, Sampled(b, later, seen').roles);
  }
}
