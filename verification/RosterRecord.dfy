/**
 * What a roster has on record is what was read: sampled sizes are the first reading's, and a
 * role's peaks are the greatest of everything reported of it, through every replacement.
 */
module RosterRecord {
  import opened Prelude
  import opened Roster
  import opened RosterRuns

  ghost predicate Greatest(x: nat, from: nat, heard: seq<nat>) {
    from <= x && (forall h :: h in heard ==> h <= x) && (x == from || x in heard)
  }

  // --- one sample ----------------------------------------------------------

  predicate Live(s: State, role: Role) {
    role == Controller || At(s.children, role).Some?
  }

  /** The resident high water seen of a live process so far. */
  function PeakSoFar(s: State, role: Role): nat {
    if role == Controller then s.peaks.rss
    else if At(s.children, role).Some? && At(s.children, role).value.owner.Some?
    then At(s.children, role).value.owner.value.rss
    else 0
  }

  ghost predicate ProcessTold(s: State, seen: Per<Twice>, ps: Per<Option<Memory>>, role: Role) {
    && (At(ps, role).Some? <==> Live(s, role))
    && (At(ps, role).Some? ==>
          var m, t := At(ps, role).value, At(seen, role);
          && SizesRead(m, t) && Greatest(m.rssPeak, PeakSoFar(s, role), [t.first.rssHigh, t.later.rssHigh])
          && m.virtPeak == t.later.virtHigh)
  }

  function ResidentRead(s: State, seen: Per<Twice>, role: Role): nat {
    if Live(s, role) then At(seen, role).first.rss else 0
  }

  function VirtualRead(s: State, seen: Per<Twice>, role: Role): nat {
    if Live(s, role) then At(seen, role).first.virt else 0
  }

  /** The resident high waters a sample reports of a role. */
  function Reported(s: State, seen: Per<Twice>, role: Role): seq<nat> {
    if Live(s, role) then [At(seen, role).first.rssHigh, At(seen, role).later.rssHigh] else []
  }

  /** The row reports the readings, their sums, and the roles as the sample leaves them. */
  ghost predicate RowTold(s: State, now: int, seen: Per<Twice>, row: Row) {
    && row.ns == now && row.incarnations == s.count && row.retired == s.retired
    && (forall role :: ProcessTold(s, seen, row.processes, role))
    && row.rss == ResidentRead(s, seen, Controller) + ResidentRead(s, seen, Server) + ResidentRead(s, seen, Load)
                  + ResidentRead(s, seen, Observer) + ResidentRead(s, seen, Sampler) + ResidentRead(s, seen, Operator)
    && row.virt == VirtualRead(s, seen, Controller) + VirtualRead(s, seen, Server) + VirtualRead(s, seen, Load)
                   + VirtualRead(s, seen, Observer) + VirtualRead(s, seen, Sampler) + VirtualRead(s, seen, Operator)
    && (forall role :: Greatest(At(row.roles, role).rssPeak, At(s.roles, role).rssPeak, Reported(s, seen, role)))
    && row.rssPeaks == row.roles.controller.rssPeak + row.roles.server.rssPeak + row.roles.load.rssPeak
                       + row.roles.observer.rssPeak + row.roles.sampler.rssPeak + row.roles.operator.rssPeak
  }

  lemma {:induction false} ProcessIsTold(s: State, now: nat, alive: bool, seen: Per<Twice>, role: Role)
    requires Inv(s) && MaySample(s, now, alive, seen)
    ensures ProcessTold(s, seen, Processes(s, seen), role)
    ensures var next := Sampled(s, now, seen);
            && Greatest(At(next.roles, role).rssPeak, At(s.roles, role).rssPeak, Reported(s, seen, role))
            && At(next.roles, role) == At(s.roles, role).(rssPeak := At(next.roles, role).rssPeak)
  {
    assert RoleInv(s, role) && RoleInv(s, Controller);
    SampleAt(s, now, alive, seen, role);
    if role == Controller {
      MemoryHolds(s.peaks, At(seen, role), s.limits.controller);
    } else if At(s.children, role).Some? {
      MemoryHolds(At(s.children, role).value.owner.value, At(seen, role), At<nat>(s.limits, role));
    }
  }

  /** Every row a roster gives out. */
  lemma {:induction false} RowIsTold(s: State, now: nat, alive: bool, seen: Per<Twice>)
    requires Inv(s) && MaySample(s, now, alive, seen)
    ensures RowTold(s, now, seen, RowOf(s, now, seen))
  {
    forall role
      ensures ProcessTold(s, seen, Processes(s, seen), role)
      ensures Greatest(At(Sampled(s, now, seen).roles, role).rssPeak, At(s.roles, role).rssPeak,
                       Reported(s, seen, role))
    {
      ProcessIsTold(s, now, alive, seen, role);
    }
    var ps := Processes(s, seen);
    assert ProcessTold(s, seen, ps, Controller) && ProcessTold(s, seen, ps, Server) && ProcessTold(s, seen, ps, Load);
    assert ProcessTold(s, seen, ps, Observer) && ProcessTold(s, seen, ps, Sampler)
           && ProcessTold(s, seen, ps, Operator);
  }

  // --- whole runs ----------------------------------------------------------

  /** The resident peaks one call reports of a role. */
  function Heard(s: State, call: Call, role: Role): seq<nat> {
    match call
    case CallLaunch(_) => []
    case CallAdmit(b) => if s.launching == Some(role) && b.sight.Alive? then [b.sight.reading.rssHigh] else []
    case CallRetire(retired, _, peak) => if retired == role then [peak] else []
    case CallSample(_, _, seen) => Reported(s, seen, role)
  }

  /** The lifetime bound a role's new incarnation comes with. */
  function Lifetime(s: State, call: Call, role: Role): seq<nat> {
    if call.CallAdmit? && s.launching == Some(role) then [call.birth.lifetime] else []
  }

  function AllHeard(s: State, calls: seq<Call>, role: Role): seq<nat>
    decreases |calls|
  {
    if |calls| == 0 || Step(s, calls[0]).None? then []
    else Heard(s, calls[0], role) + AllHeard(Step(s, calls[0]).value, calls[1..], role)
  }

  function AllLifetimes(s: State, calls: seq<Call>, role: Role): seq<nat>
    decreases |calls|
  {
    if |calls| == 0 || Step(s, calls[0]).None? then []
    else Lifetime(s, calls[0], role) + AllLifetimes(Step(s, calls[0]).value, calls[1..], role)
  }

  function Retirements(calls: seq<Call>): nat
    decreases |calls|
  {
    if |calls| == 0 then 0 else (if calls[0].CallRetire? then 1 else 0) + Retirements(calls[1..])
  }

  /** Both peaks are the greatest ever reported, and every bound is one incarnation. */
  ghost predicate RoleTold(was: Record, now: Record, heard: seq<nat>, bounds: seq<nat>) {
    && Greatest(now.rssPeak, was.rssPeak, heard) && Greatest(now.virtPeak, was.virtPeak, bounds)
    && now.incarnations == was.incarnations + |bounds|
  }

  lemma {:induction false} AdmitTold(s: State, b: Birth, role: Role)
    requires Inv(s) && Admit(s, b).Some?
    ensures var call := CallAdmit(b);
            RoleTold(At(s.roles, role), At(Admit(s, b).value.roles, role), Heard(s, call, role),
                     Lifetime(s, call, role))
  {
    var next := Admit(s, b).value;
    PutRecord(s.roles, s.launching.value, At(next.roles, s.launching.value), role);
  }

  lemma {:induction false} StepTold(s: State, call: Call, role: Role)
    requires Inv(s) && Step(s, call).Some?
    ensures RoleTold(At(s.roles, role), At(Step(s, call).value.roles, role), Heard(s, call, role),
                     Lifetime(s, call, role))
    ensures Step(s, call).value.retired == s.retired + if call.CallRetire? then 1 else 0
  {
    match call
    case CallLaunch(_) =>
    case CallAdmit(b) => AdmitTold(s, b, role);
    case CallRetire(retired, _, peak) =>
      var was := At(s.roles, retired);
      PutRecord(s.roles, retired, was.(rssPeak := Max(was.rssPeak, peak)), role);
    case CallSample(now, alive, seen) => ProcessIsTold(s, now, alive, seen, role);
  }

  lemma {:induction false} RoleToldOn(a: Record, b: Record, c: Record, heard: seq<nat>, more: seq<nat>,
                                      bounds: seq<nat>, further: seq<nat>)
    requires RoleTold(a, b, heard, bounds) && RoleTold(b, c, more, further)
    ensures RoleTold(a, c, heard + more, bounds + further)
  {
  }

  /** Over every run: what a role's record says is exactly what the calls reported of it. */
  lemma {:induction false} RunTold(s: State, calls: seq<Call>, role: Role)
    requires Inv(s) && Run(s, calls).Some? && RealCalls(calls)
    ensures RoleTold(At(s.roles, role), At(Run(s, calls).value.roles, role), AllHeard(s, calls, role),
                     AllLifetimes(s, calls, role))
    ensures Run(s, calls).value.retired == s.retired + Retirements(calls)
    decreases |calls|
  {
    if |calls| > 0 {
      var next := Step(s, calls[0]).value;
      StepTold(s, calls[0], role);
      StepKeeps(s, calls[0]);
      RunTold(next, calls[1..], role);
      RoleToldOn(At(s.roles, role), At(next.roles, role), At(Run(s, calls).value.roles, role),
                 Heard(s, calls[0], role), AllHeard(next, calls[1..], role), Lifetime(s, calls[0], role),
                 AllLifetimes(next, calls[1..], role));
    }
  }

  // --- the ceiling is reached ----------------------------------------------

  /** A roster with everyone else alive, about to launch this role. */
  function Crowded(limits: Per<nat>, role: Role): State {
    var child := Some(Child(0, 0, None));
    State(limits, 0, Peaks(0, 0), Put(Put(All(child), Controller, None), role, None), All(ABSENT), 0, 0, None,
          if role == Controller then None else Some(role))
  }

  /** The frozen bound is no larger than some moment may need: all live but the child being born. */
  lemma {:induction false} BoundReached(limits: Per<nat>) returns (role: Role)
    requires forall r :: LimitOk(limits, r)
    ensures Allocatable(Crowded(limits, role)) == Bound(limits)
  {
    var h := limits.controller;
    assert forall r :: At<nat>(limits, r) <= h by {
      forall r
        ensures At<nat>(limits, r) <= h
      {
        assert LimitOk(limits, r);
      }
    }
    role := if Excess(limits) == h - limits.server then Server
            else if Excess(limits) == h - limits.load then Load
            else if Excess(limits) == h - limits.observer then Observer
            else if Excess(limits) == h - limits.sampler then Sampler
            else Operator;
    assert At<nat>(limits, role) <= h;
  }
}
