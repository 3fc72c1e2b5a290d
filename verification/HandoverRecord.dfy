/**
 * What a handover has on record is what its calls brought. Every item comes from the first
 * call that could bring it, and carries that call's contents and instant.
 */
module HandoverRecord {
  import opened Prelude
  import opened Quiescence

  // --- what a call can bring -----------------------------------------------

  datatype Mark =
    | Began
    | LoadTold
    | ObserverStopped
    | BothStopped
    | ReadsAsked
    | ReadsSeen
    | ReadsPaused
    | ReadsStopped
    | PhaseOut
    | Freed
    | WorkersBack

  /** The calls that look at the workers' pause records. */
  predicate Looks(call: Call) {
    call.CallPoll? || call.CallPauseLoad? || call.CallAllowReads? || call.CallPublish?
  }

  predicate Brings(call: Call, mark: Mark) {
    match mark
    case Began => call.CallBegin?
    case LoadTold => call.CallPauseLoad? || (call.CallBegin? && call.pauseLoad)
    case ObserverStopped => Looks(call) && call.observer.Holds?
    case BothStopped => Looks(call) && call.observer.Holds? && call.load.Holds?
    case ReadsAsked => call.CallAllowReads?
    case ReadsSeen => call.CallReadsStarted? && call.ack.Holds?
    case ReadsPaused => call.CallPauseReads?
    case ReadsStopped => call.CallReadsQuiesced? && call.ack.Holds?
    case PhaseOut => call.CallPublish?
    case Freed => call.CallResume?
    case WorkersBack => call.CallResumed? && call.ack.Holds?
  }

  /** The `i`th call is the first to bring it. */
  ghost predicate FirstAt(calls: seq<Call>, mark: Mark, i: int) {
    0 <= i < |calls| && Brings(calls[i], mark) && forall j :: 0 <= j < i ==> !Brings(calls[j], mark)
  }

  /** The first call to bring it. */
  ghost function First(calls: seq<Call>, mark: Mark): Option<Call> {
    if |calls| == 0 then None
    else
      var before, last := First(calls[..|calls| - 1], mark), calls[|calls| - 1];
      if before.Some? then before else if Brings(last, mark) then Some(last) else None
  }

  lemma {:induction false} FirstMeans(calls: seq<Call>, mark: Mark) returns (i: int)
    ensures First(calls, mark).Some? ==> FirstAt(calls, mark, i) && First(calls, mark).value == calls[i]
    ensures First(calls, mark).None? ==> forall j :: 0 <= j < |calls| ==> !Brings(calls[j], mark)
  {
    i := -1;
    if |calls| > 0 {
      var n := |calls| - 1;
      i := FirstMeans(calls[..n], mark);
      if First(calls[..n], mark).None? {
        forall j | 0 <= j < n
          ensures !Brings(calls[j], mark)
        {
          assert calls[..n][j] == calls[j];
        }
        i := n;
      } else {
        forall j | 0 <= j < i
          ensures !Brings(calls[j], mark)
        {
          assert calls[..n][j] == calls[j];
        }
      }
    }
  }

  /** What is found after one more call. */
  predicate Next(before: Option<Call>, call: Call, mark: Mark, after: Option<Call>) {
    after == if before.Some? then before else if Brings(call, mark) then Some(call) else None
  }

  lemma {:induction false} FirstOn(calls: seq<Call>, call: Call, mark: Mark)
    ensures Next(First(calls, mark), call, mark, First(calls + [call], mark))
  {
    assert (calls + [call])[..|calls|] == calls;
  }

  /** The first call to bring each thing. */
  datatype Ledger = Ledger(began: Option<Call>, loadTold: Option<Call>, observerStopped: Option<Call>,
                           bothStopped: Option<Call>, asked: Option<Call>, seen: Option<Call>, paused: Option<Call>,
                           stopped: Option<Call>, phaseOut: Option<Call>, freed: Option<Call>, back: Option<Call>)

  ghost function LedgerOf(calls: seq<Call>): Ledger {
    Ledger(First(calls, Began), First(calls, LoadTold), First(calls, ObserverStopped), First(calls, BothStopped),
           First(calls, ReadsAsked), First(calls, ReadsSeen), First(calls, ReadsPaused), First(calls, ReadsStopped),
           First(calls, PhaseOut), First(calls, Freed), First(calls, WorkersBack))
  }

  ghost predicate Follows(l: Ledger, call: Call, next: Ledger) {
    && Next(l.began, call, Began, next.began) && Next(l.loadTold, call, LoadTold, next.loadTold)
    && Next(l.observerStopped, call, ObserverStopped, next.observerStopped)
    && Next(l.bothStopped, call, BothStopped, next.bothStopped)
    && Next(l.asked, call, ReadsAsked, next.asked) && Next(l.seen, call, ReadsSeen, next.seen)
    && Next(l.paused, call, ReadsPaused, next.paused) && Next(l.stopped, call, ReadsStopped, next.stopped)
    && Next(l.phaseOut, call, PhaseOut, next.phaseOut) && Next(l.freed, call, Freed, next.freed)
    && Next(l.back, call, WorkersBack, next.back)
  }

  lemma {:induction false} LedgerFollows(calls: seq<Call>, call: Call)
    ensures Follows(LedgerOf(calls), call, LedgerOf(calls + [call]))
  {
    forall mark: Mark
      ensures Next(First(calls, mark), call, mark, First(calls + [call], mark))
    {
      FirstOn(calls, call, mark);
    }
  }

  // --- the record ----------------------------------------------------------

  ghost predicate StartTold(s: State, l: Ledger) {
    && (s.started.Some? <==> l.began.Some?) && (s.started.Some? ==> s.started.value == l.began.value.now)
    && (s.loadPaused <==> l.loadTold.Some?)
  }

  ghost predicate StageTold(s: State, l: Ledger) {
    && (s.stage == Idle <==> l.began.None?) && (Rank(s.stage) >= 2 <==> l.phaseOut.Some?)
    && (Rank(s.stage) >= 3 <==> l.freed.Some?) && (s.stage == Complete <==> l.back.Some?)
  }

  /** What the stopped workers left, as first found. */
  ghost predicate WorkersTold(s: State, l: Ledger) {
    && (s.observer.Some? <==> l.observerStopped.Some?)
    && (s.observer.Some? ==> && Looks(l.observerStopped.value)
                             && Holds(s.observer.value) == l.observerStopped.value.observer)
    && (s.snapshot.Some? <==> l.bothStopped.Some?)
    && (s.snapshot.Some? ==> && Looks(l.bothStopped.value)
                             && Holds(s.snapshot.value.load) == l.bothStopped.value.load
                             && Holds(s.snapshot.value.observer) == l.bothStopped.value.observer)
  }

  ghost predicate PhaseTold(s: State, l: Ledger) {
    && (s.published.Some? <==> l.phaseOut.Some?)
    && (s.published.Some? ==>
          var p, out := s.published.value, l.phaseOut.value;
          && out.CallPublish? && p.generation == s.id.generation + 1
          && p.version == out.version && p.incarnation == out.incarnation && p.restore == out.restore)
    && (s.resumed.Some? <==> l.back.Some?)
    && (s.resumed.Some? ==> l.back.value.CallResumed? && l.back.value.ack == Holds(s.resumed.value))
  }

  /** An acknowledgement, and the instant it was first found. */
  ghost predicate SeenFirst(seen: Option<Seen>, first: Option<Call>) {
    && (seen.Some? <==> first.Some?)
    && (seen.Some? ==> && (first.value.CallReadsStarted? || first.value.CallReadsQuiesced?)
                       && first.value.ack == Holds(seen.value.ack) && first.value.now == seen.value.ns)
  }

  ghost predicate ReadsTold(s: State, l: Ledger) {
    && (s.admission.None? ==> l.asked.None? && l.seen.None? && l.paused.None? && l.stopped.None?)
    && (s.admission.Some? ==>
          var r := s.admission.value;
          && l.asked.Some? && l.asked.value.now == r.requestedNs
          && SeenFirst(r.reading, l.seen) && SeenFirst(r.quiesced, l.stopped)
          && (r.reading.Some? ==> l.seen.value.CallReadsStarted?)
          && (r.quiesced.Some? ==> l.stopped.value.CallReadsQuiesced?)
          && (r.pausedNs.Some? <==> l.paused.Some?) && (r.pausedNs.Some? ==> r.pausedNs.value == l.paused.value.now))
  }

  ghost predicate Told(s: State, l: Ledger) {
    StartTold(s, l) && StageTold(s, l) && WorkersTold(s, l) && PhaseTold(s, l) && ReadsTold(s, l)
  }

  lemma {:induction false} StepStart(s: State, fault: Option<Fault>, call: Call, l: Ledger, next: Ledger)
    requires SnapshotInv(s) && StartTold(s, l) && Step(s, fault, call).Some? && Follows(l, call, next)
    ensures StartTold(Step(s, fault, call).value, next)
  {
  }

  lemma {:induction false} StepStage(s: State, fault: Option<Fault>, call: Call, l: Ledger, next: Ledger)
    requires StageTold(s, l) && Step(s, fault, call).Some? && Follows(l, call, next)
    ensures StageTold(Step(s, fault, call).value, next)
  {
  }

  lemma {:induction false} StepWorkers(s: State, fault: Option<Fault>, call: Call, l: Ledger, next: Ledger)
    requires SnapshotInv(s) && WorkersTold(s, l) && Step(s, fault, call).Some? && Follows(l, call, next)
    ensures WorkersTold(Step(s, fault, call).value, next)
  {
  }

  lemma {:induction false} StepPhase(s: State, fault: Option<Fault>, call: Call, l: Ledger, next: Ledger)
    requires PublishedInv(s) && PhaseTold(s, l) && Step(s, fault, call).Some? && Follows(l, call, next)
    ensures PhaseTold(Step(s, fault, call).value, next)
  {
  }

  lemma {:induction false} ReadsStep(s: State, fault: Option<Fault>, call: Call, l: Ledger, next: Ledger)
    requires ReadsInv(s) && ReadsTold(s, l) && Step(s, fault, call).Some? && Follows(l, call, next)
    requires call.CallReadsStarted? || call.CallPauseReads? || call.CallReadsQuiesced?
    ensures ReadsTold(Step(s, fault, call).value, next)
  {
  }

  lemma {:induction false} OtherStep(s: State, fault: Option<Fault>, call: Call, l: Ledger, next: Ledger)
    requires ReadsInv(s) && ReadsTold(s, l) && Step(s, fault, call).Some? && Follows(l, call, next)
    requires !(call.CallReadsStarted? || call.CallPauseReads? || call.CallReadsQuiesced?)
    ensures ReadsTold(Step(s, fault, call).value, next)
  {
  }

  lemma {:induction false} StepReads(s: State, fault: Option<Fault>, call: Call, l: Ledger, next: Ledger)
    requires ReadsInv(s) && ReadsTold(s, l) && Step(s, fault, call).Some? && Follows(l, call, next)
    ensures ReadsTold(Step(s, fault, call).value, next)
  {
    if call.CallReadsStarted? || call.CallPauseReads? || call.CallReadsQuiesced? {
      ReadsStep(s, fault, call, l, next);
    } else {
      OtherStep(s, fault, call, l, next);
    }
  }

  lemma {:induction false} StepTold(s: State, fault: Option<Fault>, call: Call, l: Ledger, next: Ledger)
    requires Inv(s) && Told(s, l) && Step(s, fault, call).Some? && Follows(l, call, next)
    ensures Told(Step(s, fault, call).value, next)
  {
    StepStart(s, fault, call, l, next);
    StepStage(s, fault, call, l, next);
    StepWorkers(s, fault, call, l, next);
    StepPhase(s, fault, call, l, next);
    StepReads(s, fault, call, l, next);
  }

  // --- whole handovers -----------------------------------------------------

  function CallsOf(events: seq<Event>): (calls: seq<Call>)
    ensures |calls| == |events| && forall i :: 0 <= i < |events| ==> calls[i] == events[i].call
  {
    seq(|events|, i requires 0 <= i < |events| => events[i].call)
  }

  lemma {:induction false} FreshTold(id: Identity, calls: seq<Call>)
    requires |calls| == 0
    ensures Told(Fresh(id), LedgerOf(calls))
  {
  }

  lemma {:induction false} RunLast(s: State, before: seq<Event>, last: Event)
    ensures Run(s, before + [last])
         == if Run(s, before).None? then None else Step(Run(s, before).value, last.fault, last.call)
    decreases |before|
  {
    var events := before + [last];
    if |before| == 0 {
      assert events[0] == last && |events[1..]| == 0;
    } else {
      assert events[0] == before[0] && events[1..] == before[1..] + [last];
      var next := Step(s, before[0].fault, before[0].call);
      if next.Some? {
        RunLast(next.value, before[1..], last);
      }
    }
  }

  /** Over every unfailed handover, whatever the control files hold. */
  lemma {:induction false} RunTold(id: Identity, events: seq<Event>)
    requires IdentityAdmits(id) && Run(Fresh(id), events).Some?
    ensures Inv(Run(Fresh(id), events).value) && Told(Run(Fresh(id), events).value, LedgerOf(CallsOf(events)))
    decreases |events|
  {
    RunKeeps(Fresh(id), events);
    if |events| == 0 {
      FreshTold(id, CallsOf(events));
    } else {
      var n := |events| - 1;
      var before, last := events[..n], events[n];
      assert events == before + [last];
      RunLast(Fresh(id), before, last);
      RunTold(id, before);
      assert CallsOf(events) == CallsOf(before) + [last.call];
      LedgerFollows(CallsOf(before), last.call);
      StepTold(Run(Fresh(id), before).value, last.fault, last.call, LedgerOf(CallsOf(before)),
               LedgerOf(CallsOf(events)));
    }
  }

  /** The calls a read-admission witness comes from, by their places among the calls. */
  datatype Places = Places(stopped: nat, asked: nat, seen: nat, paused: nat, quiet: nat)

  /**
   * The witness holds the snapshot's load, and the instants and acknowledgements of the first
   * request, the first sight of the readers, the pause, and the first sight of stopped readers,
   * in that order.
   */
  ghost predicate Witnesses(w: Witness, calls: seq<Call>, at: Places) {
    && FirstAt(calls, BothStopped, at.stopped) && FirstAt(calls, ReadsAsked, at.asked)
    && FirstAt(calls, ReadsSeen, at.seen) && FirstAt(calls, ReadsPaused, at.paused)
    && FirstAt(calls, ReadsStopped, at.quiet)
    && at.stopped <= at.asked < at.seen < at.paused < at.quiet
    && calls[at.stopped].load == Holds(w.initial)
    && w.requestedNs == calls[at.asked].now
    && calls[at.seen].ack == Holds(w.reading.ack) && w.reading.ns == calls[at.seen].now
    && w.pausedNs == calls[at.paused].now
    && calls[at.quiet].ack == Holds(w.quiesced.ack) && w.quiesced.ns == calls[at.quiet].now
  }

  lemma {:induction false} FirstUnique(calls: seq<Call>, mark: Mark, i: int, j: int)
    requires FirstAt(calls, mark, i) && FirstAt(calls, mark, j)
    ensures i == j
  {
  }

  lemma {:induction false} FirstExtends(calls: seq<Call>, mark: Mark, n: nat, i: int)
    requires n <= |calls| && FirstAt(calls[..n], mark, i)
    ensures FirstAt(calls, mark, i)
  {
    forall j | 0 <= j < i
      ensures !Brings(calls[j], mark)
    {
      assert calls[..n][j] == calls[j];
    }
  }

  /** When the `n`th call is made, what must be on record by then came from an earlier call. */
  lemma {:induction false} CameBefore(calls: seq<Call>, mark: Mark, n: nat, i: int)
    requires n <= |calls| && First(calls[..n], mark).Some? && FirstAt(calls, mark, i)
    ensures i < n
  {
    var j := FirstMeans(calls[..n], mark);
    FirstExtends(calls, mark, n, j);
    FirstUnique(calls, mark, i, j);
  }

  /** The state the `n`th call finds, and its ledger. */
  lemma {:induction false} FoundAt(id: Identity, events: seq<Event>, n: nat) returns (s: State, l: Ledger)
    requires IdentityAdmits(id) && Run(Fresh(id), events).Some? && n < |events|
    ensures l == LedgerOf(CallsOf(events)[..n]) && Inv(s) && Told(s, l)
    ensures Step(s, events[n].fault, CallsOf(events)[n]).Some?
  {
    Prefix(Fresh(id), events, n);
    s := Run(Fresh(id), events[..n]).value;
    RunTold(id, events[..n]);
    assert CallsOf(events[..n]) == CallsOf(events)[..n];
    l := LedgerOf(CallsOf(events)[..n]);
    assert events[n..][0] == events[n];
  }

  lemma {:induction false} AskedAfterStop(s: State, fault: Option<Fault>, call: Call, l: Ledger)
    requires Inv(s) && Told(s, l) && Step(s, fault, call).Some?
    ensures call.CallAllowReads? ==> l.bothStopped.Some? || Brings(call, BothStopped)
    ensures call.CallReadsStarted? ==> l.asked.Some?
    ensures call.CallPauseReads? ==> l.seen.Some?
    ensures call.CallReadsQuiesced? ==> l.paused.Some?
  {
  }

  lemma {:induction false} WitnessOrder(id: Identity, events: seq<Event>, at: Places)
    requires IdentityAdmits(id) && Run(Fresh(id), events).Some?
    requires var calls := CallsOf(events);
             && FirstAt(calls, BothStopped, at.stopped) && FirstAt(calls, ReadsAsked, at.asked)
             && FirstAt(calls, ReadsSeen, at.seen) && FirstAt(calls, ReadsPaused, at.paused)
             && FirstAt(calls, ReadsStopped, at.quiet)
    ensures at.stopped <= at.asked < at.seen < at.paused < at.quiet
  {
    var calls := CallsOf(events);
    var s, l := FoundAt(id, events, at.quiet);
    AskedAfterStop(s, events[at.quiet].fault, calls[at.quiet], l);
    CameBefore(calls, ReadsPaused, at.quiet, at.paused);
    s, l := FoundAt(id, events, at.paused);
    AskedAfterStop(s, events[at.paused].fault, calls[at.paused], l);
    CameBefore(calls, ReadsSeen, at.paused, at.seen);
    s, l := FoundAt(id, events, at.seen);
    AskedAfterStop(s, events[at.seen].fault, calls[at.seen], l);
    CameBefore(calls, ReadsAsked, at.seen, at.asked);
    s, l := FoundAt(id, events, at.asked);
    AskedAfterStop(s, events[at.asked].fault, calls[at.asked], l);
    if l.bothStopped.Some? {
      CameBefore(calls, BothStopped, at.asked, at.stopped);
    }
  }

  /** Every witness any handover leaves. */
  lemma {:induction false} WitnessRecorded(id: Identity, events: seq<Event>) returns (at: Places)
    requires IdentityAdmits(id) && Run(Fresh(id), events).Some? && Run(Fresh(id), events).value.witnessed.Some?
    ensures Witnesses(Run(Fresh(id), events).value.witnessed.value, CallsOf(events), at)
  {
    var s, calls := Run(Fresh(id), events).value, CallsOf(events);
    RunTold(id, events);
    var r := s.admission.value;
    assert s.witnessed == Some(WitnessOf(s.snapshot.value.load, r));
    var stopped := FirstMeans(calls, BothStopped);
    var asked := FirstMeans(calls, ReadsAsked);
    var seen := FirstMeans(calls, ReadsSeen);
    var paused := FirstMeans(calls, ReadsPaused);
    var quiet := FirstMeans(calls, ReadsStopped);
    at := Places(stopped, asked, seen, paused, quiet);
    WitnessOrder(id, events, at);
  }
}
