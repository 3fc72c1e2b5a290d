/** The roster as the controller owns it. */
module RosterOwner {
  import opened Prelude
  import opened Roster
  import RosterRuns
  import RosterRecord

  const ROLES: seq<Role> := [Controller, Server, Load, Observer, Sampler, Operator]

  lemma {:induction false} PutAt(p: Per<Record>, role: Role, r: Record)
    ensures forall other :: At(Put(p, role, r), other) == if other == role then r else At(p, other)
  {
  }

  lemma {:induction false} RaisedEach(roles: Per<Record>, ps: Per<Option<Memory>>, raised: Per<Record>)
    requires forall i :: 0 <= i < 6 ==> At(raised, ROLES[i]) == Raised(At(roles, ROLES[i]), At(ps, ROLES[i]))
    ensures raised == AllRaised(roles, ps)
  {
    assert ROLES[0] == Controller && ROLES[1] == Server && ROLES[2] == Load;
    assert ROLES[3] == Observer && ROLES[4] == Sampler && ROLES[5] == Operator;
  }

  /** Raise every sampled role's resident peak, one role after the other. */
  method RaisePeaks(roles: Per<Record>, ps: Per<Option<Memory>>) returns (raised: Per<Record>)
    ensures raised == AllRaised(roles, ps)
  {
    raised := roles;
    for i := 0 to 6
      invariant forall j :: 0 <= j < i ==> At(raised, ROLES[j]) == Raised(At(roles, ROLES[j]), At(ps, ROLES[j]))
      invariant forall j :: i <= j < 6 ==> At(raised, ROLES[j]) == At(roles, ROLES[j])
    {
      var role := ROLES[i];
      PutAt(raised, role, Raised(At(raised, role), At(ps, role)));
      raised := Put(raised, role, Raised(At(raised, role), At(ps, role)));
    }
    RaisedEach(roles, ps, raised);
  }

  /** Every child proved, running and within its ceiling. */
  method CheckChildren(s: State, alive: bool, seen: Per<Twice>) returns (ok: bool)
    ensures ok <==> ChildrenCount(s, alive, seen)
  {
    assert ROLES[1] == Server && ROLES[2] == Load && ROLES[3] == Observer && ROLES[4] == Sampler
           && ROLES[5] == Operator;
    for i := 1 to 6
      invariant forall j :: 1 <= j < i ==> ChildCounts(s, ROLES[j], alive, At(seen, ROLES[j]))
    {
      if !ChildCounts(s, ROLES[i], alive, At(seen, ROLES[i])) {
        return false;
      }
    }
    assert ChildCounts(s, ROLES[1], alive, At(seen, ROLES[1])) && ChildCounts(s, ROLES[2], alive, At(seen, ROLES[2]));
    assert ChildCounts(s, ROLES[3], alive, At(seen, ROLES[3])) && ChildCounts(s, ROLES[4], alive, At(seen, ROLES[4]));
    assert ChildCounts(s, ROLES[5], alive, At(seen, ROLES[5]));
    return true;
  }

  method CheckSample(s: State, now: int, alive: bool, seen: Per<Twice>) returns (ok: bool)
    ensures ok <==> MaySample(s, now, alive, seen)
  {
    ok := CheckChildren(s, alive, seen);
    ok := && ok && U64(now) && Since(s.lastNs) <= now && s.launching.None?
          && Counts(Some(s.peaks), seen.controller, s.limits.controller);
  }

  /** The raised peaks and the row that reports them. */
  method TakeRow(s: State, now: nat, ghost alive: bool, seen: Per<Twice>) returns (raised: Per<Record>, row: Row)
    requires MaySample(s, now, alive, seen)
    ensures raised == Sampled(s, now, seen).roles && row == RowOf(s, now, seen)
    ensures RosterRuns.Inv(s) ==> RosterRecord.RowTold(s, now, seen, row)
  {
    if RosterRuns.Inv(s) {
      RosterRecord.RowIsTold(s, now, alive, seen);
    }
    var ps := Processes(s, seen);
    raised := RaisePeaks(s.roles, ps);
    row := Row(now, ps, raised, s.count, s.retired, Sum(RssOf(ps)), Sum(VirtOf(ps)), Sum(RssPeaks(raised)),
               Bound(s.limits));
  }

  class ProcessRoster {
    const limits: Per<nat>
    const pid: nat
    var peaks: Peaks
    var children: Per<Option<Child>>
    var roles: Per<Record>
    var count: nat
    var retired: nat
    var lastNs: Option<nat>
    var launching: Option<Role>
    var failed: bool

    function View(): State
      reads this
    {
      State(limits, pid, peaks, children, roles, count, retired, lastNs, launching)
    }

    constructor (limits: Per<nat>, pid: nat, reading: Reading)
      requires LimitsOk(limits) && ReadingOk(reading) && reading.virtHigh <= limits.controller
      ensures View() == Alone(limits, pid, reading) && !failed
    {
      this.limits, this.pid, failed := limits, pid, false;
      peaks, children := Peaks(reading.rssHigh, reading.virtHigh), All(None);
      roles := All(ABSENT).(controller := Record(1, reading.rssHigh, limits.controller));
      count, retired, lastNs, launching := 1, 0, None, None;
    }

    method TakeIn(role: Role, b: Birth) returns (ok: bool)
      modifies this
      ensures old(failed) ==> !ok && failed && View() == old(View())
      ensures !old(failed) ==> ok == Adopt(old(View()), role, b).Some? && failed == !ok
      ensures ok ==> View() == Adopt(old(View()), role, b).value
      ensures !ok ==> View() == old(View())
    {
      ok := !failed && MayAdopt(View(), role, b);
      failed := !ok;
      if ok {
        var owner, was := BornPeaks(b), At(roles, role);
        var seen := if owner.Some? then owner.value.rss else 0;
        children := Put(children, role, Some(Child(b.pid, b.lifetime, owner)));
        roles := Put(roles, role, Record(was.incarnations + 1, Max(was.rssPeak, seen), Max(was.virtPeak, b.lifetime)));
        count := count + 1;
      }
    }

    /** A launch that may not begin leaves the roster usable; one that began and failed does not. */
    method Start(role: Role, spawned: Option<Birth>) returns (ok: bool)
      modifies this
      ensures old(failed) || Launch(old(View()), role).None? ==> !ok && failed == old(failed) && View() == old(View())
      ensures !old(failed) && Launch(old(View()), role).Some? ==>
                ok == (spawned.Some? && Admit(Launch(old(View()), role).value, spawned.value).Some?) && failed == !ok
      ensures ok ==> View() == Admit(Launch(old(View()), role).value, spawned.value).value
      ensures old(launching).None? ==> launching.None?
    {
      if failed || !MayLaunch(View(), role) {
        return false;
      }
      launching := Some(role);
      if spawned.Some? {
        ok := TakeIn(role, spawned.value);
      } else {
        ok, failed := false, true;
      }
      launching := None;
    }

    method End(role: Role, exitOk: bool, peak: nat) returns (ok: bool)
      modifies this
      ensures old(failed) ==> !ok && failed && View() == old(View())
      ensures !old(failed) ==> ok == Retire(old(View()), role, exitOk, peak).Some? && failed == !ok
      ensures ok ==> View() == Retire(old(View()), role, exitOk, peak).value
    {
      ok := !failed && MayRetire(View(), role, exitOk, peak);
      failed := !ok;
      if ok {
        var was := At(roles, role);
        roles := Put(roles, role, was.(rssPeak := Max(was.rssPeak, peak)));
        children := Put(children, role, None);
        retired := retired + 1;
      }
    }

    method TakeSample(now: int, alive: bool, seen: Per<Twice>) returns (row: Option<Row>)
      modifies this
      ensures old(failed) ==> row.None? && failed && View() == old(View())
      ensures !old(failed) ==> row.Some? == Sample(old(View()), now, alive, seen).Some? && failed == row.None?
      ensures row.Some? ==> (View(), row.value) == Sample(old(View()), now, alive, seen).value
      ensures row.Some? && RosterRuns.Inv(old(View())) ==> RosterRecord.RowTold(old(View()), now, seen, row.value)
    {
      if failed {
        return None;
      }
      var s := View();
      failed := true;
      var may := CheckSample(s, now, alive, seen);
      if !may {
        return None;
      }
      var raised, sampled := TakeRow(s, now, alive, seen);
      row := Some(sampled);
      peaks, children := PeaksAfter(Some(peaks), seen.controller).value, AllWatched(children, seen);
      roles, lastNs, failed := raised, Some(now), false;
    }
  }
}
