/**
 * Which calls a roster comes through unfailed, said without its state: who has been adopted and
 * not retired, whose launch is open, and how high each process's address space has been seen.
 */
module RosterStory {
  import opened Prelude
  import opened Roster
  import opened RosterRuns

  /** What adopting a child left: its process, its lifetime bound, and whether it was found alive. */
  datatype Kept = Kept(pid: nat, lifetime: nat, alive: bool)

  ghost function KeptOf(child: Option<Child>): Option<Kept> {
    if child.None? then None else Some(Kept(child.value.pid, child.value.lifetime, child.value.owner.Some?))
  }

  // --- what the calls so far come to ---------------------------------------

  /** The role whose launch is open. */
  ghost function Open(from: State, calls: seq<Call>): Option<Role> {
    if |calls| == 0 then from.launching
    else
      match calls[|calls| - 1]
      case CallLaunch(role) => Some(role)
      case CallAdmit(_) => None
      case _ => Open(from, calls[..|calls| - 1])
  }

  /** The last child adopted into the role, unless it was retired since. */
  ghost function Adopted(from: State, calls: seq<Call>, role: Role): Option<Kept> {
    if |calls| == 0 then KeptOf(At(from.children, role))
    else
      var before := calls[..|calls| - 1];
      match calls[|calls| - 1]
      case CallAdmit(b) =>
        if Open(from, before) == Some(role) then Some(Kept(b.pid, b.lifetime, b.sight.Alive?))
        else Adopted(from, before, role)
      case CallRetire(retired, _, _) => if retired == role then None else Adopted(from, before, role)
      case _ => Adopted(from, before, role)
  }

  ghost function VirtOfOwner(s: State, role: Role): nat {
    if role == Controller then s.peaks.virt
    else if At(s.children, role).Some? && At(s.children, role).value.owner.Some?
    then At(s.children, role).value.owner.value.virt
    else 0
  }

  /** The last reading of the role's address-space high water. */
  ghost function High(from: State, calls: seq<Call>, role: Role): nat {
    if |calls| == 0 then VirtOfOwner(from, role)
    else
      var before := calls[..|calls| - 1];
      match calls[|calls| - 1]
      case CallAdmit(b) =>
        if Open(from, before) == Some(role) then (if b.sight.Alive? then b.sight.reading.virtHigh else 0)
        else High(from, before, role)
      case CallRetire(retired, _, _) => if retired == role then 0 else High(from, before, role)
      case CallSample(_, _, seen) =>
        if role == Controller || Adopted(from, before, role).Some? then At(seen, role).later.virtHigh
        else High(from, before, role)
      case CallLaunch(_) => High(from, before, role)
  }

  ghost function Admissions(calls: seq<Call>): nat {
    if |calls| == 0 then 0
    else Admissions(calls[..|calls| - 1]) + if calls[|calls| - 1].CallAdmit? then 1 else 0
  }

  ghost function LastSample(from: State, calls: seq<Call>): int {
    if |calls| == 0 then Since(from.lastNs)
    else if calls[|calls| - 1].CallSample? then calls[|calls| - 1].now
    else LastSample(from, calls[..|calls| - 1])
  }

  // --- what the next call must be ------------------------------------------

  ghost predicate LaunchFits(from: State, calls: seq<Call>, role: Role) {
    && Open(from, calls).None? && role != Controller && Adopted(from, calls, role).None?
    && from.count + Admissions(calls) < 76
  }

  /** A live process other than this role's has the number. */
  ghost predicate Taken(from: State, calls: seq<Call>, pid: nat, role: Role) {
    role != Controller && Adopted(from, calls, role).Some?
    && Adopted(from, calls, role).value.alive && Adopted(from, calls, role).value.pid == pid
  }

  ghost predicate Sane(r: Reading) {
    0 < r.rss <= r.virt <= r.virtHigh <= MAX_U64 && r.rss <= r.rssHigh <= r.virtHigh
  }

  ghost predicate AdmitFits(from: State, calls: seq<Call>, b: Birth) {
    && Open(from, calls).Some?
    && var role := Open(from, calls).value;
    && role != Controller && Adopted(from, calls, role).None? && from.count + Admissions(calls) < 76
    && b.enforced && b.limit == At<nat>(from.limits, role) && 0 < b.lifetime <= from.limits.controller
    && b.pid != from.pid && (forall other :: !Taken(from, calls, b.pid, other))
    && !b.sight.Refused? && (b.sight.Alive? ==> Sane(b.sight.reading) && b.sight.reading.virtHigh <= b.limit)
  }

  ghost predicate RetireFits(from: State, calls: seq<Call>, role: Role, exitOk: bool, peak: nat) {
    exitOk && Adopted(from, calls, role).Some? && 0 < peak <= Adopted(from, calls, role).value.lifetime
  }

  /** Two readings in order, never below what was seen, within the ceiling. */
  ghost predicate Grew(from: State, calls: seq<Call>, role: Role, t: Twice) {
    && Sane(t.first) && Sane(t.later)
    && High(from, calls, role) <= t.first.virtHigh <= t.later.virtHigh <= At<nat>(from.limits, role)
  }

  ghost predicate SampleFits(from: State, calls: seq<Call>, now: int, alive: bool, seen: Per<Twice>) {
    && Open(from, calls).None? && 0 <= now <= MAX_U64 && LastSample(from, calls) <= now
    && Grew(from, calls, Controller, seen.controller)
    && forall role :: role != Controller && Adopted(from, calls, role).Some? ==>
         alive && Adopted(from, calls, role).value.alive && Grew(from, calls, role, At(seen, role))
  }

  ghost predicate NextFits(from: State, calls: seq<Call>, call: Call) {
    match call
    case CallLaunch(role) => LaunchFits(from, calls, role)
    case CallAdmit(b) => AdmitFits(from, calls, b)
    case CallRetire(role, exitOk, peak) => RetireFits(from, calls, role, exitOk, peak)
    case CallSample(now, alive, seen) => SampleFits(from, calls, now, alive, seen)
  }

  ghost predicate Story(from: State, calls: seq<Call>) {
    forall i :: 0 <= i < |calls| ==> NextFits(from, calls[..i], calls[i])
  }

  // --- what the roster then holds ------------------------------------------

  ghost predicate RoleHeld(s: State, from: State, calls: seq<Call>, role: Role) {
    KeptOf(At(s.children, role)) == Adopted(from, calls, role) && VirtOfOwner(s, role) == High(from, calls, role)
  }

  ghost predicate Holds(s: State, from: State, calls: seq<Call>) {
    && s.limits == from.limits && s.pid == from.pid && s.children.controller.None?
    && s.launching == Open(from, calls) && s.count == from.count + Admissions(calls)
    && Since(s.lastNs) == LastSample(from, calls)
    && forall role :: RoleHeld(s, from, calls, role)
  }

  lemma {:induction false} LaunchIff(s: State, from: State, calls: seq<Call>, role: Role)
    requires Holds(s, from, calls)
    ensures Launch(s, role).Some? <==> LaunchFits(from, calls, role)
  {
    assert RoleHeld(s, from, calls, role);
  }

  lemma {:induction false} PidIff(s: State, from: State, calls: seq<Call>, pid: nat)
    requires Holds(s, from, calls)
    ensures pid in OwnerPids(s) <==> pid == from.pid || exists role :: Taken(from, calls, pid, role)
  {
    forall role
      ensures RoleHeld(s, from, calls, role)
      ensures role != Controller ==> (pid in Pid(At(s.children, role)) <==> Taken(from, calls, pid, role))
    {
      assert RoleHeld(s, from, calls, role);
    }
    assert pid in Pid(At(s.children, Server)) <==> Taken(from, calls, pid, Server);
    assert pid in Pid(At(s.children, Load)) <==> Taken(from, calls, pid, Load);
    assert pid in Pid(At(s.children, Observer)) <==> Taken(from, calls, pid, Observer);
    assert pid in Pid(At(s.children, Sampler)) <==> Taken(from, calls, pid, Sampler);
    assert pid in Pid(At(s.children, Operator)) <==> Taken(from, calls, pid, Operator);
  }

  lemma {:induction false} AdmitIff(s: State, from: State, calls: seq<Call>, b: Birth)
    requires Holds(s, from, calls)
    ensures Admit(s, b).Some? <==> AdmitFits(from, calls, b)
  {
    PidIff(s, from, calls, b.pid);
    if s.launching.Some? {
      assert RoleHeld(s, from, calls, s.launching.value);
    }
  }

  lemma {:induction false} RetireIff(s: State, from: State, calls: seq<Call>, role: Role, exitOk: bool, peak: nat)
    requires Holds(s, from, calls)
    ensures Retire(s, role, exitOk, peak).Some? <==> RetireFits(from, calls, role, exitOk, peak)
  {
    assert RoleHeld(s, from, calls, role);
  }

  lemma {:induction false} CountsIff(peaks: Peaks, t: Twice, limit: nat)
    ensures Counts(Some(peaks), t, limit)
            <==> Sane(t.first) && Sane(t.later) && peaks.virt <= t.first.virtHigh <= t.later.virtHigh <= limit
  {
  }

  lemma {:induction false} ChildIff(s: State, from: State, calls: seq<Call>, role: Role, alive: bool, t: Twice)
    requires Holds(s, from, calls) && role != Controller
    ensures ChildCounts(s, role, alive, t)
            <==> (Adopted(from, calls, role).Some? ==>
                    alive && Adopted(from, calls, role).value.alive && Grew(from, calls, role, t))
  {
    assert RoleHeld(s, from, calls, role);
    var child := At(s.children, role);
    if child.Some? && child.value.owner.Some? {
      CountsIff(child.value.owner.value, t, At<nat>(s.limits, role));
    }
  }

  lemma {:induction false} SampleIff(s: State, from: State, calls: seq<Call>, now: int, alive: bool, seen: Per<Twice>)
    requires Holds(s, from, calls)
    ensures MaySample(s, now, alive, seen) <==> SampleFits(from, calls, now, alive, seen)
  {
    assert RoleHeld(s, from, calls, Controller);
    CountsIff(s.peaks, seen.controller, s.limits.controller);
    forall role | role != Controller
      ensures ChildCounts(s, role, alive, At(seen, role))
              <==> (Adopted(from, calls, role).Some? ==>
                      && alive && Adopted(from, calls, role).value.alive
                      && Grew(from, calls, role, At(seen, role)))
    {
      ChildIff(s, from, calls, role, alive, At(seen, role));
    }
    assert ChildrenCount(s, alive, seen)
           <==> && ChildCounts(s, Server, alive, At(seen, Server)) && ChildCounts(s, Load, alive, At(seen, Load))
                && ChildCounts(s, Observer, alive, At(seen, Observer))
                && ChildCounts(s, Sampler, alive, At(seen, Sampler))
                && ChildCounts(s, Operator, alive, At(seen, Operator));
  }

  lemma {:induction false} LaterOn(from: State, calls: seq<Call>, call: Call)
    ensures Admissions(calls + [call]) == Admissions(calls) + if call.CallAdmit? then 1 else 0
    ensures LastSample(from, calls + [call]) == if call.CallSample? then call.now else LastSample(from, calls)
    ensures Open(from, calls + [call])
         == if call.CallLaunch? then Some(call.role) else if call.CallAdmit? then None else Open(from, calls)
  {
    assert (calls + [call])[..|calls|] == calls;
  }

  lemma {:induction false} RoleOn(from: State, calls: seq<Call>, call: Call, role: Role)
    ensures Adopted(from, calls + [call], role)
         == match call
            case CallAdmit(b) =>
              if Open(from, calls) == Some(role) then Some(Kept(b.pid, b.lifetime, b.sight.Alive?))
              else Adopted(from, calls, role)
            case CallRetire(retired, _, _) => if retired == role then None else Adopted(from, calls, role)
            case _ => Adopted(from, calls, role)
    ensures High(from, calls + [call], role)
         == match call
            case CallAdmit(b) =>
              if Open(from, calls) == Some(role) then (if b.sight.Alive? then b.sight.reading.virtHigh else 0)
              else High(from, calls, role)
            case CallRetire(retired, _, _) => if retired == role then 0 else High(from, calls, role)
            case CallSample(_, _, seen) =>
              if role == Controller || Adopted(from, calls, role).Some? then At(seen, role).later.virtHigh
              else High(from, calls, role)
            case CallLaunch(_) => High(from, calls, role)
  {
    assert (calls + [call])[..|calls|] == calls;
  }

  lemma {:induction false} AdmitHeld(s: State, from: State, calls: seq<Call>, b: Birth, role: Role)
    requires Holds(s, from, calls) && Admit(s, b).Some?
    ensures RoleHeld(Admit(s, b).value, from, calls + [CallAdmit(b)], role)
  {
    var next, launched := Admit(s, b).value, s.launching.value;
    assert RoleHeld(s, from, calls, role);
    RoleOn(from, calls, CallAdmit(b), role);
    PutChild(s.children, launched, At(next.children, launched), role);
  }

  lemma {:induction false} RetireHeld(s: State, from: State, calls: seq<Call>, retired: Role, exitOk: bool, peak: nat,
                                      role: Role)
    requires Holds(s, from, calls) && Retire(s, retired, exitOk, peak).Some?
    ensures RoleHeld(Retire(s, retired, exitOk, peak).value, from, calls + [CallRetire(retired, exitOk, peak)], role)
  {
    assert RoleHeld(s, from, calls, role) && RoleHeld(s, from, calls, retired);
    RoleOn(from, calls, CallRetire(retired, exitOk, peak), role);
    PutChild(s.children, retired, None, role);
  }

  lemma {:induction false} SampleHeld(s: State, from: State, calls: seq<Call>, now: nat, alive: bool, seen: Per<Twice>,
                                      role: Role)
    requires Holds(s, from, calls) && MaySample(s, now, alive, seen)
    ensures RoleHeld(Sampled(s, now, seen), from, calls + [CallSample(now, alive, seen)], role)
  {
    assert RoleHeld(s, from, calls, role);
    RoleOn(from, calls, CallSample(now, alive, seen), role);
    SampleAt(s, now, alive, seen, role);
    if role == Controller {
      CountsIff(s.peaks, seen.controller, s.limits.controller);
    } else if At(s.children, role).Some? {
      CountsIff(At(s.children, role).value.owner.value, At(seen, role), At<nat>(s.limits, role));
    }
  }

  lemma {:induction false} StillNoController(s: State, call: Call)
    requires s.children.controller.None? && Step(s, call).Some?
    ensures Step(s, call).value.children.controller.None?
    ensures var next := Step(s, call).value;
            && next.limits == s.limits && next.pid == s.pid
            && next.count == s.count + (if call.CallAdmit? then 1 else 0)
  {
  }

  lemma {:induction false} StepHolds(s: State, from: State, calls: seq<Call>, call: Call)
    requires Holds(s, from, calls) && Step(s, call).Some?
    ensures Holds(Step(s, call).value, from, calls + [call])
  {
    var next := Step(s, call).value;
    LaterOn(from, calls, call);
    forall role
      ensures RoleHeld(next, from, calls + [call], role)
    {
      match call
      case CallLaunch(_) =>
        assert RoleHeld(s, from, calls, role);
        RoleOn(from, calls, call, role);
      case CallAdmit(b) => AdmitHeld(s, from, calls, b, role);
      case CallRetire(retired, exitOk, peak) => RetireHeld(s, from, calls, retired, exitOk, peak, role);
      case CallSample(now, alive, seen) => SampleHeld(s, from, calls, now, alive, seen, role);
    }
    StillNoController(s, call);
  }

  lemma {:induction false} StepIff(s: State, from: State, calls: seq<Call>, call: Call)
    requires Holds(s, from, calls)
    ensures Step(s, call).Some? <==> NextFits(from, calls, call)
  {
    match call
    case CallLaunch(role) => LaunchIff(s, from, calls, role);
    case CallAdmit(b) => AdmitIff(s, from, calls, b);
    case CallRetire(role, exitOk, peak) => RetireIff(s, from, calls, role, exitOk, peak);
    case CallSample(now, alive, seen) => SampleIff(s, from, calls, now, alive, seen);
  }

  lemma {:induction false} RunLast(s: State, calls: seq<Call>, call: Call)
    ensures Run(s, calls + [call]) == if Run(s, calls).None? then None else Step(Run(s, calls).value, call)
    decreases |calls|
  {
    var more := calls + [call];
    if |calls| == 0 {
      assert more[0] == call && |more[1..]| == 0;
    } else {
      assert more[0] == calls[0] && more[1..] == calls[1..] + [call];
      if Step(s, calls[0]).Some? {
        RunLast(Step(s, calls[0]).value, calls[1..], call);
      }
    }
  }

  lemma {:induction false} StoryOn(from: State, calls: seq<Call>, call: Call)
    ensures Story(from, calls + [call]) <==> Story(from, calls) && NextFits(from, calls, call)
  {
    var more := calls + [call];
    assert more[..|calls|] == calls;
    forall i | 0 <= i < |calls|
      ensures more[..i] == calls[..i] && more[i] == calls[i]
    {
    }
    if Story(from, more) {
      assert NextFits(from, more[..|calls|], more[|calls|]);
      forall i | 0 <= i < |calls|
        ensures NextFits(from, calls[..i], calls[i])
      {
        assert NextFits(from, more[..i], more[i]);
      }
    }
  }

  /** From any roster, exactly these call sequences are come through unfailed. */
  lemma {:induction false} UnfailedIff(from: State, calls: seq<Call>)
    requires from.children.controller.None?
    ensures Run(from, calls).Some? <==> Story(from, calls)
    ensures Run(from, calls).Some? ==> Holds(Run(from, calls).value, from, calls)
    decreases |calls|
  {
    if |calls| == 0 {
      assert forall role :: RoleHeld(from, from, calls, role);
    } else {
      var before, last := calls[..|calls| - 1], calls[|calls| - 1];
      assert calls == before + [last];
      RunLast(from, before, last);
      UnfailedIff(from, before);
      StoryOn(from, before, last);
      if Run(from, before).Some? {
        StepIff(Run(from, before).value, from, before, last);
        if Step(Run(from, before).value, last).Some? {
          StepHolds(Run(from, before).value, from, before, last);
        }
      }
    }
  }
}
