/**
 * Which call sequences a handover comes through unfailed, said without its state: what each
 * call must find, given only the first calls that brought something and the restore clock.
 */
module HandoverStory {
  import opened Prelude
  import opened Quiescence
  import opened HandoverRecord
  import C = RestoreClock

  // --- what one call must find ---------------------------------------------

  /** The latest instant of a handover begun at `begun`: 60 s after it, or what the restore clock leaves. */
  ghost function Latest(begun: int, fault: Option<Fault>): int {
    if fault.None? then begun + 60_000_000_000
    else if fault.value.clock.lossNs.Some? then fault.value.clock.lossNs.value + 240_000_000_000
    else if fault.value.clock.stage == C.BackupDurable then fault.value.clock.planned + 999_999_999
    else fault.value.clock.planned
  }

  /** The restore clock, if any, is the one this handover began with, and still runs. */
  ghost predicate SameClock(begun: int, fault: Option<Fault>) {
    fault.Some? ==> && !fault.value.failed && fault.value.clock.stage != C.Complete
                    && fault.value.clock.preparationNs.Some? && fault.value.clock.preparationNs.value == begun
  }

  ghost predicate InTime(l: Ledger, last: int, fault: Option<Fault>, now: int) {
    && l.began.Some? && l.back.None? && last <= now <= MAX_U64 && 0 <= now
    && SameClock(l.began.value.now, fault) && now <= Latest(l.began.value.now, fault)
  }

  ghost predicate BeginFits(l: Ledger, fault: Option<Fault>, call: Call)
    requires call.CallBegin?
  {
    && l.began.None? && 0 <= call.now <= MAX_U64 && call.io
    && (fault.Some? ==> && call.pauseLoad && fault.value.clock.stage == C.Quiescing && SameClock(call.now, fault)
                        && call.now <= Latest(call.now, fault))
  }

  /** A stopped worker's record is absent or one of this release, and the same as when first found. */
  ghost predicate LookFits(id: Identity, l: Ledger, last: int, fault: Option<Fault>, call: Call)
    requires Looks(call)
  {
    && InTime(l, last, fault, call.now) && l.phaseOut.None?
    && (call.load.Missing?
        || (&& call.load.Holds? && l.loadTold.Some? && call.load.value.generation == id.generation
            && call.load.value.commands <= MAX_U64 && call.load.value.readCount <= MAX_U64))
    && (call.observer.Missing?
        || (call.observer.Holds?
            && var o := call.observer.value;
            && o.generation == id.generation && o.version == id.version && o.incarnation == id.incarnation
            && o.duplicates == 0 && o.events <= MAX_U64 && o.checkpoint <= MAX_U64 && o.liveHead <= MAX_U64))
    && (l.observerStopped.Some? ==> Looks(l.observerStopped.value) && call.observer == l.observerStopped.value.observer)
    && (l.bothStopped.Some? ==> && Looks(l.bothStopped.value) && call.load == l.bothStopped.value.load
                                && call.observer == l.bothStopped.value.observer)
  }

  /** The load both workers stopped at. */
  ghost function StoppedLoad(l: Ledger): Option<Load> {
    if l.bothStopped.Some? && Looks(l.bothStopped.value) && l.bothStopped.value.load.Holds?
    then Some(l.bothStopped.value.load.value)
    else None
  }

  /** Paused readers acknowledge under the paused identity, with no further command. */
  ghost predicate ReaderFits(id: Identity, l: Ledger, ack: File<Resumed>) {
    || ack.Missing?
    || (&& ack.Holds? && ack.value.generation == id.generation && ack.value.version == id.version
        && ack.value.incarnation == id.incarnation && ack.value.readCount <= MAX_U64
        && StoppedLoad(l).Some? && ack.value.commands == StoppedLoad(l).value.commands)
  }

  ghost predicate ReadsFit(id: Identity, l: Ledger, last: int, fault: Option<Fault>, call: Call)
    requires call.CallReadsStarted? || call.CallPauseReads? || call.CallReadsQuiesced?
  {
    && InTime(l, last, fault, call.now)
    && (call.CallReadsStarted? ==>
          && l.asked.Some? && l.paused.None? && ReaderFits(id, l, call.ack)
          && (call.ack.Holds? ==> call.ack.value.readCount > StoppedLoad(l).value.readCount)
          && (call.ack.Holds? && l.seen.Some? ==> l.seen.value.CallReadsStarted? && call.ack == l.seen.value.ack))
    && (call.CallPauseReads? ==>
          && l.seen.Some? && l.paused.None? && call.io && call.marker == Holds(id)
          && fault.Some? && fault.value.clock.stage == C.Recovering)
    && (call.CallReadsQuiesced? ==>
          && l.paused.Some? && ReaderFits(id, l, call.ack)
          && l.seen.Some? && l.seen.value.CallReadsStarted? && l.seen.value.ack.Holds?
          && (call.ack.Holds? ==> call.ack.value.readCount >= l.seen.value.ack.value.readCount)
          && (call.ack.Holds? && l.stopped.Some? ==>
                l.stopped.value.CallReadsQuiesced? && call.ack == l.stopped.value.ack))
  }

  ghost predicate PublishFits(id: Identity, l: Ledger, call: Call)
    requires call.CallPublish?
  {
    && call.load.Holds? && call.observer.Holds? && call.io && id.generation < MAX_U64
    && (l.asked.None? || (l.stopped.Some? && call.markerGone))
    && id.version <= call.version <= 2
    && call.incarnation == id.incarnation + (if call.restore then 1 else 0) && call.incarnation <= MAX_U64
  }

  ghost predicate ResumedFits(id: Identity, l: Ledger, call: Call)
    requires call.CallResumed?
  {
    && l.freed.Some? && call.io && call.duplicates == 0
    && l.phaseOut.Some? && l.phaseOut.value.CallPublish? && StoppedLoad(l).Some?
    && call.generation == id.generation + 1 && call.incarnation == l.phaseOut.value.incarnation
    && call.ack.Holds?
    && var a := call.ack.value;
    && a.generation == call.generation && a.incarnation == call.incarnation && a.version == l.phaseOut.value.version
    && StoppedLoad(l).value.commands < a.commands <= MAX_U64
    && StoppedLoad(l).value.readCount <= a.readCount <= MAX_U64
  }

  /** Exactly these calls are accepted after calls with this ledger, the last of them at `last`. */
  ghost predicate CallFits(id: Identity, l: Ledger, last: int, fault: Option<Fault>, call: Call) {
    match call
    case CallBegin(_, _, _) => BeginFits(l, fault, call)
    case CallPoll(_, _, _) => LookFits(id, l, last, fault, call)
    case CallPauseLoad(_, _, _, io) =>
      && LookFits(id, l, last, fault, call) && l.loadTold.None? && io
      && (l.observerStopped.Some? || call.observer.Holds?)
    case CallAllowReads(_, load, observer, io) =>
      && LookFits(id, l, last, fault, call) && l.asked.None? && load.Holds? && observer.Holds? && io
      && fault.Some? && fault.value.clock.stage == C.BackupDurable && fault.value.clock.acknowledged.Some?
      && fault.value.clock.acknowledged.value.commands == load.value.commands
    case CallReadsStarted(_, _) => ReadsFit(id, l, last, fault, call)
    case CallPauseReads(_, _, _) => ReadsFit(id, l, last, fault, call)
    case CallReadsQuiesced(_, _) => ReadsFit(id, l, last, fault, call)
    case CallPublish(_, _, _, _, _, _, _, _) => LookFits(id, l, last, fault, call) && PublishFits(id, l, call)
    case CallResume(now, io) => InTime(l, last, fault, now) && l.phaseOut.Some? && l.freed.None? && io
    case CallResumed(now, _, _, _, _, _) => InTime(l, last, fault, now) && ResumedFits(id, l, call)
  }

  // --- single steps --------------------------------------------------------

  lemma {:induction false} TicksIff(s: State, fault: Option<Fault>, now: int, l: Ledger)
    requires Inv(s) && StartTold(s, l) && StageTold(s, l)
    ensures Ticks(s, now, fault) <==> InTime(l, s.lastNs, fault, now)
  {
  }

  lemma {:induction false} LookIff(s: State, fault: Option<Fault>, call: Call, l: Ledger)
    requires Inv(s) && Told(s, l) && Looks(call)
    ensures MayPoll(s, call.now, fault, call.load, call.observer) <==> LookFits(s.id, l, s.lastNs, fault, call)
  {
    TicksIff(s, fault, call.now, l);
  }

  lemma {:induction false} PolledIff(s: State, fault: Option<Fault>, call: Call, l: Ledger)
    requires Inv(s) && Told(s, l) && Looks(call)
    ensures Step(s, fault, call).Some? <==> CallFits(s.id, l, s.lastNs, fault, call)
  {
    LookIff(s, fault, call, l);
  }

  lemma {:induction false} ReaderIff(s: State, ack: File<Resumed>, l: Ledger)
    requires Inv(s) && Told(s, l)
    ensures ReadAckFits(ack, s) <==> ReaderFits(s.id, l, ack)
    ensures StoppedLoad(l) == if s.snapshot.Some? then Some(s.snapshot.value.load) else None
  {
  }

  lemma {:induction false} ReadsIff(s: State, fault: Option<Fault>, call: Call, l: Ledger)
    requires Inv(s) && Told(s, l)
    requires call.CallReadsStarted? || call.CallPauseReads? || call.CallReadsQuiesced?
    ensures Step(s, fault, call).Some? <==> CallFits(s.id, l, s.lastNs, fault, call)
  {
    TicksIff(s, fault, call.now, l);
    if !call.CallPauseReads? {
      ReaderIff(s, call.ack, l);
    }
  }

  lemma {:induction false} PhaseIff(s: State, fault: Option<Fault>, call: Call, l: Ledger)
    requires Inv(s) && Told(s, l) && (call.CallBegin? || call.CallResume? || call.CallResumed?)
    ensures Step(s, fault, call).Some? <==> CallFits(s.id, l, s.lastNs, fault, call)
  {
    TicksIff(s, fault, call.now, l);
    ReaderIff(s, Missing, l);
  }

  lemma {:induction false} StepIff(s: State, fault: Option<Fault>, call: Call, l: Ledger)
    requires Inv(s) && Told(s, l)
    ensures Step(s, fault, call).Some? <==> CallFits(s.id, l, s.lastNs, fault, call)
  {
    if Looks(call) {
      PolledIff(s, fault, call, l);
    } else if call.CallReadsStarted? || call.CallPauseReads? || call.CallReadsQuiesced? {
      ReadsIff(s, fault, call, l);
    } else {
      PhaseIff(s, fault, call, l);
    }
  }

  // --- whole handovers -----------------------------------------------------

  ghost predicate EventFits(id: Identity, events: seq<Event>, i: int)
    requires 0 <= i < |events|
  {
    var calls := CallsOf(events);
    CallFits(id, LedgerOf(calls[..i]), if i == 0 then 0 else calls[i - 1].now, events[i].fault, calls[i])
  }

  ghost predicate Story(id: Identity, events: seq<Event>) {
    forall i :: 0 <= i < |events| ==> EventFits(id, events, i)
  }

  lemma {:induction false} LastInstant(id: Identity, events: seq<Event>)
    requires IdentityAdmits(id) && Run(Fresh(id), events).Some?
    ensures Run(Fresh(id), events).value.lastNs == if |events| == 0 then 0 else events[|events| - 1].call.now
    ensures Run(Fresh(id), events).value.id == id
  {
    RunTold(id, events);
    RunKeeps(Fresh(id), events);
    if |events| > 0 {
      var before, last := events[..|events| - 1], events[|events| - 1];
      assert events == before + [last];
      RunLast(Fresh(id), before, last);
      RunKeeps(Fresh(id), before);
      StepKeeps(Run(Fresh(id), before).value, last.fault, last.call);
    }
  }

  lemma {:induction false} FitsEarlier(id: Identity, before: seq<Event>, last: Event, i: nat)
    requires i < |before|
    ensures EventFits(id, before + [last], i) <==> EventFits(id, before, i)
  {
    var events := before + [last];
    assert CallsOf(events)[..i] == CallsOf(before)[..i] && CallsOf(events)[i] == CallsOf(before)[i];
  }

  lemma {:induction false} StoryOn(id: Identity, before: seq<Event>, last: Event)
    ensures Story(id, before + [last]) <==> Story(id, before) && EventFits(id, before + [last], |before|)
  {
    var events := before + [last];
    forall i | 0 <= i < |before|
      ensures EventFits(id, events, i) <==> EventFits(id, before, i)
    {
      FitsEarlier(id, before, last, i);
    }
    if Story(id, events) {
      forall i | 0 <= i < |before|
        ensures EventFits(id, before, i)
      {
        assert EventFits(id, events, i);
      }
    }
  }

  /** A handover comes through unfailed exactly on these call sequences. */
  lemma {:induction false} UnfailedIff(id: Identity, events: seq<Event>)
    requires IdentityAdmits(id)
    ensures Run(Fresh(id), events).Some? <==> Story(id, events)
    decreases |events|
  {
    if |events| > 0 {
      var before, last := events[..|events| - 1], events[|events| - 1];
      assert events == before + [last];
      RunLast(Fresh(id), before, last);
      UnfailedIff(id, before);
      StoryOn(id, before, last);
      if Run(Fresh(id), before).Some? {
        var s := Run(Fresh(id), before).value;
        RunTold(id, before);
        LastInstant(id, before);
        assert CallsOf(events)[..|before|] == CallsOf(before);
        StepIff(s, last.fault, last.call, LedgerOf(CallsOf(before)));
      }
    }
  }
}
