/** The seven faults as the controller runs them, each from the identity the ones before it lead to. */
module Campaigns {
  import opened Prelude
  import opened Releases
  import C = RestoreClock
  import E = RestoreEvidence
  import F = RestoreFault
  import Q = Quiescence
  import R = RestoreRun
  import S = RestoreScript
  import X = RestoreExamples

  /** What the outside world does during one fault: nothing that matters here, a handover, or a whole restore. */
  datatype Turn =
    | Nothing
    | Handover(calls: seq<Q.Call>)
    | Restoration(startS: nat, before: S.Preparation, during: S.Replacement, after: S.Letting)

  /** Only the restore ties its handover to a clock. */
  function Events(calls: seq<Q.Call>): (events: seq<Q.Event>)
    ensures |events| == |calls| && forall i :: 0 <= i < |calls| ==> events[i] == Q.Event(None, calls[i])
  {
    seq(|calls|, i requires 0 <= i < |calls| => Q.Event(None, calls[i]))
  }

  /** A handover that completes, having published what the fault is to publish. */
  predicate HandedOver(id: Q.Identity, kind: Kind, calls: seq<Q.Call>) {
    var done := Q.Run(Q.Fresh(id), Events(calls));
    && done.Some? && done.value.stage == Q.Complete && done.value.published.Some?
    && done.value.published.value == Q.Published(id.generation + 1, After(id, kind).version, id.incarnation, false)
  }

  predicate Restored(id: Q.Identity, turn: Turn) {
    && turn.Restoration? && C.ScheduleAdmits(turn.startS * SECOND)
    && F.Reached(turn.startS, id, turn.before, turn.during, turn.after)
  }

  /** The restore comes to this outcome. */
  predicate ComesTo(id: Q.Identity, turn: Turn, o: F.Outcome) {
    && Restored(id, turn)
    && var end := F.End(turn.startS, id, turn.before, turn.during, turn.after);
    F.Concluded(end, turn.startS, turn.after) && o == F.OutcomeOf(end, turn.startS, turn.after)
  }

  /** The fault runs to its end from this identity. */
  predicate Succeeds(id: Q.Identity, kind: Kind, turn: Turn) {
    if !Releasing(kind) then true
    else if kind == BackupRestore then Restored(id, turn)
    else turn.Handover? && HandedOver(id, kind, turn.calls)
  }

  ghost predicate SucceedsAt(kinds: seq<Kind>, turns: seq<Turn>, i: nat)
    requires i < |kinds| == |turns|
  {
    Succeeds(Folded(ORIGINAL, kinds[..i]), kinds[i], turns[i])
  }

  ghost predicate SucceedUpTo(kinds: seq<Kind>, turns: seq<Turn>, n: nat)
    requires n <= |kinds| == |turns|
  {
    forall i :: 0 <= i < n ==> SucceedsAt(kinds, turns, i)
  }

  /** One releasing fault but the restore; what the controller goes on with is what the workers acknowledged. */
  method Release(id: Q.Identity, kind: Kind, turn: Turn) returns (next: Option<Q.Identity>)
    requires Q.IdentityAdmits(id) && Releasing(kind) && kind != BackupRestore
    ensures next.Some? <==> Succeeds(id, kind, turn)
    ensures next.Some? ==> next.value == After(id, kind) && Q.Publications(Events(turn.calls)) == 1
  {
    if !turn.Handover? {
      return None;
    }
    var done := Q.Run(Q.Fresh(id), Events(turn.calls));
    if done.None? || done.value.stage != Q.Complete {
      return None;
    }
    Q.CompletedHandover(id, Events(turn.calls));
    var out := done.value.published.value;
    if out.version != After(id, kind).version || out.restore {
      return None;
    }
    var ack := done.value.resumed.value;
    next := Some(Q.Identity(ack.generation, ack.version, ack.incarnation));
  }

  method Restore(id: Q.Identity, turn: Turn) returns (outcome: Option<F.Outcome>)
    requires Q.IdentityAdmits(id)
    ensures outcome.Some? <==> Restored(id, turn)
    ensures outcome.Some? ==> ComesTo(id, turn, outcome.value) && F.Judged(outcome.value, turn.startS, id)
  {
    if !turn.Restoration? || !C.ScheduleAdmits(turn.startS * SECOND) {
      return None;
    }
    outcome := F.Execute(turn.startS, id, turn.before, turn.during, turn.after);
  }

  /** One fault from this identity to the next; a restore also leaves its outcome. */
  method Take(id: Q.Identity, kind: Kind, turn: Turn) returns (next: Option<Q.Identity>, outcome: Option<F.Outcome>)
    requires Q.IdentityAdmits(id)
    ensures next.Some? <==> Succeeds(id, kind, turn)
    ensures next.Some? ==> next.value == After(id, kind) && (outcome.Some? <==> kind == BackupRestore)
    ensures next.Some? && kind == BackupRestore ==>
              ComesTo(id, turn, outcome.value) && F.Judged(outcome.value, turn.startS, id)
    ensures next.Some? && Releasing(kind) && kind != BackupRestore ==>
              turn.Handover? && Q.Publications(Events(turn.calls)) == 1
  {
    next, outcome := Some(id), None;
    if kind == BackupRestore {
      outcome := Restore(id, turn);
      if outcome.None? {
        return None, None;
      }
      var ack := outcome.value.firstWrite.ack;
      next := Some(Q.Identity(ack.generation, ack.version, ack.incarnation));
    } else if Releasing(kind) {
      next := Release(id, kind, turn);
    }
  }

  /** Where the campaign ends, and what its restore left. */
  datatype Ended = Ended(id: Q.Identity, outcome: F.Outcome)

  ghost predicate RestoreLast(kinds: seq<Kind>) {
    forall p, j :: 0 <= p < j < |kinds| && kinds[p] == BackupRestore ==> !Releasing(kinds[j])
  }

  predicate RatesHold(f: F.FirstWrite) {
    f.ack.commands <= (f.ns / SECOND + 1) * 100 && f.ack.readCount <= (f.ns / SECOND + 1) * 400
  }

  predicate ReadsTimely(o: F.Outcome) {
    && o.admission.reading.ns < o.receipt.lossNs
    && o.admission.quiesced.ack.readCount <= (o.admission.quiesced.ns / SECOND + 1) * 400
  }

  lemma {:induction false} FoldedOn(kinds: seq<Kind>, i: nat)
    requires i < |kinds|
    ensures Folded(ORIGINAL, kinds[..i + 1]) == After(Folded(ORIGINAL, kinds[..i]), kinds[i])
  {
    assert kinds[..i + 1][..i] == kinds[..i];
  }

  /** Before the restore nothing is of the second incarnation, and only a last restore is the fifth release. */
  lemma {:induction false} RestoreIdentity(kinds: seq<Kind>, p: nat)
    requires Plan(kinds) && p < |kinds| && kinds[p] == BackupRestore
    ensures var id := Folded(ORIGINAL, kinds[..p]);
            && id.incarnation == 1
            && (id.generation == 5 && id.version == 2 <==> RestoreLast(kinds))
            && (id == Q.Identity(5, 2, 1) <==> RestoreLast(kinds))
  {
    FoldCounts(ORIGINAL, kinds[..p]);
    RestoreReleasesLastIff(kinds, p);
    FoldedOn(kinds, p);
  }

  /** The plan's order decides the restore's identity, and that identity decides two of the checks. */
  lemma {:induction false} OrderDecides(kinds: seq<Kind>, p: nat, o: F.Outcome, startS: nat)
    requires Plan(kinds) && p < |kinds| && kinds[p] == BackupRestore
    requires F.Judged(o, startS, Folded(ORIGINAL, kinds[..p]))
    ensures F.FirstWriteAccepted(o.firstWrite, o.receipt) <==> RestoreLast(kinds) && RatesHold(o.firstWrite)
    ensures R.AdmissionAccepted(o.admission, o.receipt, Some(5), Some(2)) <==> RestoreLast(kinds) && ReadsTimely(o)
  {
    RestoreIdentity(kinds, p);
  }

  ghost predicate PublishedAt(kinds: seq<Kind>, turns: seq<Turn>, i: nat)
    requires i < |kinds| == |turns|
  {
    Releasing(kinds[i]) && kinds[i] != BackupRestore ==>
      turns[i].Handover? && Q.Publications(Events(turns[i].calls)) == 1
  }

  ghost predicate OncePublished(kinds: seq<Kind>, turns: seq<Turn>, n: nat)
    requires n <= |kinds| == |turns|
  {
    forall i :: 0 <= i < n ==> PublishedAt(kinds, turns, i)
  }

  /** Early identities are far from their bounds. */
  predicate IdentityUpTo(id: Q.Identity, i: nat) {
    Q.IdentityAdmits(id) && id.generation <= 1 + i && id.incarnation <= 1 + i
  }

  ghost predicate RestoreJudged(kinds: seq<Kind>, turns: seq<Turn>, p: nat, o: F.Outcome)
    requires p < |kinds| == |turns|
  {
    && ComesTo(Folded(ORIGINAL, kinds[..p]), turns[p], o)
    && F.Judged(o, turns[p].startS, Folded(ORIGINAL, kinds[..p]))
  }

  /** Where the campaign stands before fault `i`; the restore is fault `p`. */
  ghost predicate Standing(kinds: seq<Kind>, turns: seq<Turn>, i: nat, p: nat, id: Q.Identity,
                           outcome: Option<F.Outcome>)
  {
    && i <= |kinds| == |turns| && p < |kinds|
    && id == Folded(ORIGINAL, kinds[..i]) && IdentityUpTo(id, i) && OncePublished(kinds, turns, i)
    && SucceedUpTo(kinds, turns, i)
    && if p < i then outcome.Some? && RestoreJudged(kinds, turns, p, outcome.value) else outcome.None?
  }

  lemma {:induction false} StandingOn(kinds: seq<Kind>, turns: seq<Turn>, i: nat, p: nat, id: Q.Identity,
                                      outcome: Option<F.Outcome>, restored: Option<F.Outcome>)
    requires i < |kinds| == |turns| == 7 && p < |kinds| && Standing(kinds, turns, i, p, id, outcome)
    requires SucceedsAt(kinds, turns, i) && PublishedAt(kinds, turns, i)
    requires (restored.Some? <==> i == p) && (restored.Some? ==> RestoreJudged(kinds, turns, p, restored.value))
    ensures Standing(kinds, turns, i + 1, p, After(id, kinds[i]), if restored.Some? then restored else outcome)
  {
    FoldedOn(kinds, i);
  }

  /** The outcome is the one the restore comes to, wherever in the plan it stands. */
  ghost predicate RestoreEnds(kinds: seq<Kind>, turns: seq<Turn>, o: F.Outcome)
    requires |kinds| == |turns|
  {
    forall p :: 0 <= p < |kinds| && kinds[p] == BackupRestore ==> ComesTo(Folded(ORIGINAL, kinds[..p]), turns[p], o)
  }

  /** The two checks that compare the restore with the campaign's end. */
  ghost predicate OrderJudged(kinds: seq<Kind>, e: Ended) {
    var o := e.outcome;
    && (F.FirstWriteAccepted(o.firstWrite, o.receipt) <==> RestoreLast(kinds) && RatesHold(o.firstWrite))
    && e.id.generation > 0
    && (R.AdmissionAccepted(o.admission, o.receipt, Some(e.id.generation - 1), Some(e.id.version))
        <==> RestoreLast(kinds) && ReadsTimely(o))
  }

  lemma {:induction false} Concludes(kinds: seq<Kind>, turns: seq<Turn>, p: nat, id: Q.Identity,
                                     outcome: Option<F.Outcome>)
    requires Plan(kinds) && |turns| == |kinds| && p < |kinds| && kinds[p] == BackupRestore
    requires Standing(kinds, turns, |kinds|, p, id, outcome)
    ensures id == Q.Identity(6, 2, 2) && outcome.Some?
    ensures RestoreEnds(kinds, turns, outcome.value) && OrderJudged(kinds, Ended(id, outcome.value))
  {
    assert kinds[..|kinds|] == kinds;
    CampaignEnds(kinds);
    OrderDecides(kinds, p, outcome.value, turns[p].startS);
  }

  /** The next fault, and where the campaign stands after it. */
  method TakeNext(kinds: seq<Kind>, turns: seq<Turn>, i: nat, ghost p: nat, id: Q.Identity, outcome: Option<F.Outcome>)
    returns (ok: bool, next: Q.Identity, left: Option<F.Outcome>)
    requires Plan(kinds) && i < |kinds| == |turns| && p < |kinds| && kinds[p] == BackupRestore
    requires Standing(kinds, turns, i, p, id, outcome)
    ensures if ok then Standing(kinds, turns, i + 1, p, next, left) else !SucceedsAt(kinds, turns, i)
  {
    var after, restored := Take(id, kinds[i], turns[i]);
    ok, next, left := after.Some?, id, outcome;
    if ok {
      StandingOn(kinds, turns, i, p, id, outcome, restored);
      next, left := after.value, if restored.Some? then restored else outcome;
    }
  }

  /**
   * Runs the faults in order: a complete handover for each releasing one, and the whole
   * restore for the restore. The campaign comes through exactly when every fault does from
   * the identity the faults before it lead to. It then ends where the checkers expect it, with
   * the outcome of its restore. Against that end, the restore's first write passes its check
   * exactly when no releasing fault followed and the workers kept to the offered rates, and
   * its read admission exactly when none followed and the readers were seen in time.
   */
  method Campaign(kinds: seq<Kind>, turns: seq<Turn>) returns (r: Option<Ended>)
    requires Plan(kinds) && |turns| == |kinds|
    ensures r.Some? <==> SucceedUpTo(kinds, turns, |kinds|)
    ensures r.Some? ==> r.value.id == Q.Identity(6, 2, 2) && OncePublished(kinds, turns, |kinds|)
    ensures r.Some? ==> RestoreEnds(kinds, turns, r.value.outcome) && OrderJudged(kinds, r.value)
  {
    PlanHolds(kinds, BackupRestore);
    ghost var p :| 0 <= p < |kinds| && kinds[p] == BackupRestore;
    var current, outcome: Option<F.Outcome> := ORIGINAL, None;
    for i := 0 to |kinds|
      invariant Standing(kinds, turns, i, p, current, outcome)
    {
      var ok: bool;
      ok, current, outcome := TakeNext(kinds, turns, i, p, current, outcome);
      if !ok {
        return None;
      }
    }
    Concludes(kinds, turns, p, current, outcome);
    return Some(Ended(current, outcome.value));
  }

  // --- campaigns that come through -----------------------------------------

  /** The shortest handover: everything at instant zero, one command afterwards. */
  function ShortHandover(id: Q.Identity, kind: Kind): seq<Q.Call> {
    var load := Q.Holds(Q.Load(id.generation, 0, 0));
    var observer := Q.Holds(Q.Observer(id.generation, id.version, id.incarnation, 0, 0, 0, 0));
    var next := After(id, kind);
    [Q.CallBegin(0, true, true), Q.CallPoll(0, load, observer),
     Q.CallPublish(0, load, observer, next.version, next.incarnation, false, true, true), Q.CallResume(0, true),
     Q.CallResumed(0, next.generation, next.incarnation, 0,
                   Q.Holds(Q.Resumed(next.generation, next.version, next.incarnation, 1, 0)), true)]
  }

  lemma {:induction false} RunFive(s0: Q.State, s1: Q.State, s2: Q.State, s3: Q.State, s4: Q.State, s5: Q.State,
                                   events: seq<Q.Event>)
    requires |events| == 5
    requires Q.Step(s0, events[0].fault, events[0].call) == Some(s1)
             && Q.Step(s1, events[1].fault, events[1].call) == Some(s2)
    requires Q.Step(s2, events[2].fault, events[2].call) == Some(s3)
             && Q.Step(s3, events[3].fault, events[3].call) == Some(s4)
    requires Q.Step(s4, events[4].fault, events[4].call) == Some(s5)
    ensures Q.Run(s0, events) == Some(s5)
  {
    assert |events[5..]| == 0 && events[4..][1..] == events[5..] && events[3..][1..] == events[4..];
    assert events[2..][1..] == events[3..] && events[1..][1..] == events[2..];
    assert Q.Run(s4, events[4..]) == Some(s5);
    assert Q.Run(s3, events[3..]) == Some(s5);
    assert Q.Run(s2, events[2..]) == Some(s5);
    assert Q.Run(s1, events[1..]) == Some(s5);
  }

  lemma {:induction false} ShortHandoverDone(id: Q.Identity, kind: Kind)
    requires Q.IdentityAdmits(id) && id.generation < MAX_U64 && Releasing(kind) && kind != BackupRestore
    ensures HandedOver(id, kind, ShortHandover(id, kind))
  {
    var events := Events(ShortHandover(id, kind));
    var s0 := Q.Fresh(id);
    var s1 := Q.Step(s0, None, events[0].call).value;
    var s2 := Q.Step(s1, None, events[1].call).value;
    var s3 := Q.Step(s2, None, events[2].call).value;
    var s4 := Q.Step(s3, None, events[3].call).value;
    var s5 := Q.Step(s4, None, events[4].call).value;
    RunFive(s0, s1, s2, s3, s4, s5, events);
  }

  function TurnFor(id: Q.Identity, kind: Kind): Turn {
    if kind == BackupRestore
    then Restoration(X.START_S, X.Before(id, X.PLANNED - 1), X.During(id, X.PLANNED), X.After(id, X.PLANNED))
    else Handover(ShortHandover(id, kind))
  }

  lemma {:induction false} IdentityBounded(kinds: seq<Kind>)
    requires |kinds| <= 7
    ensures IdentityUpTo(Folded(ORIGINAL, kinds), |kinds|)
    decreases |kinds|
  {
    if |kinds| > 0 {
      IdentityBounded(kinds[..|kinds| - 1]);
    }
  }

  lemma {:induction false} TurnSucceeds(id: Q.Identity, kind: Kind)
    requires X.Room(id)
    ensures Succeeds(id, kind, TurnFor(id, kind))
    ensures kind == BackupRestore ==> ComesTo(id, TurnFor(id, kind), X.Result(id, X.PLANNED - 1, X.PLANNED))
  {
    if kind == BackupRestore {
      X.FaultReaches(id, X.PLANNED - 1, X.PLANNED);
    } else if Releasing(kind) {
      ShortHandoverDone(id, kind);
    }
  }

  /** One turn for each fault, from the identity it is reached with. */
  function TurnsFor(kinds: seq<Kind>): (turns: seq<Turn>)
    ensures |turns| == |kinds|
    ensures forall i :: 0 <= i < |kinds| ==> turns[i] == TurnFor(Folded(ORIGINAL, kinds[..i]), kinds[i])
  {
    seq(|kinds|, i requires 0 <= i < |kinds| => TurnFor(Folded(ORIGINAL, kinds[..i]), kinds[i]))
  }

  /** Every plan has a campaign that comes through, with its readers and workers well within their rates. */
  lemma {:induction false} CampaignComesThrough(kinds: seq<Kind>) returns (turns: seq<Turn>, p: nat, o: F.Outcome)
    requires Plan(kinds)
    ensures |turns| == |kinds| && SucceedUpTo(kinds, turns, |kinds|)
    ensures p < |kinds| && kinds[p] == BackupRestore && ComesTo(Folded(ORIGINAL, kinds[..p]), turns[p], o)
    ensures E.ClockAccepted(o.receipt, E.Plan(turns[p].startS, S.HELD_S), o.action)
    ensures RatesHold(o.firstWrite) && ReadsTimely(o)
  {
    turns := TurnsFor(kinds);
    forall i | 0 <= i < |kinds|
      ensures SucceedsAt(kinds, turns, i)
    {
      IdentityBounded(kinds[..i]);
      TurnSucceeds(Folded(ORIGINAL, kinds[..i]), kinds[i]);
    }
    PlanHolds(kinds, BackupRestore);
    p :| p < |kinds| && kinds[p] == BackupRestore;
    var id := Folded(ORIGINAL, kinds[..p]);
    o := X.Result(id, X.PLANNED - 1, X.PLANNED);
    IdentityBounded(kinds[..p]);
    TurnSucceeds(id, BackupRestore);
    X.ResultJudged(id, X.PLANNED - 1, X.PLANNED, None, None);
  }

  /**
   * Every plan with a releasing fault after the restore has a campaign that comes through,
   * keeps every rate and instant, passes the receipt check, and is refused by the other two.
   */
  lemma {:induction false} EarlyRestoreRefused(kinds: seq<Kind>) returns (turns: seq<Turn>, p: nat, o: F.Outcome)
    requires Plan(kinds) && !RestoreLast(kinds)
    ensures |turns| == |kinds| && SucceedUpTo(kinds, turns, |kinds|)
    ensures p < |kinds| && kinds[p] == BackupRestore && ComesTo(Folded(ORIGINAL, kinds[..p]), turns[p], o)
    ensures E.ClockAccepted(o.receipt, E.Plan(turns[p].startS, S.HELD_S), o.action)
    ensures RatesHold(o.firstWrite) && ReadsTimely(o)
    ensures !F.FirstWriteAccepted(o.firstWrite, o.receipt)
    ensures !R.AdmissionAccepted(o.admission, o.receipt, Some(5), Some(2))
  {
    turns, p, o := CampaignComesThrough(kinds);
    var id, turn := Folded(ORIGINAL, kinds[..p]), turns[p];
    IdentityBounded(kinds[..p]);
    F.OutcomeJudged(turn.startS, id, turn.before, turn.during, turn.after);
    OrderDecides(kinds, p, o, turn.startS);
  }
}
