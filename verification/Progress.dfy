/**
 * Measured progress: how many events the observer must have seen, whether every window of
 * the campaign was observed and moved on, and what each load window leaves unresolved.
 */
module Progress {
  import opened Prelude
  import opened Windows
  import opened NativeSampler

  // --- the exact event count -----------------------------------------------

  const PERIOD := 65536
  const MATCHING := 1024

  /** The closed form every terminal check computes for `commands` offered commands. */
  function Events(commands: nat): nat {
    1024 + commands / PERIOD * 1024 + Min(commands % PERIOD, MATCHING)
  }

  /** How many of the first `commands` ordinals address the observed organization. */
  ghost function Matches(commands: nat): nat {
    if commands == 0 then 0 else Matches(commands - 1) + if (commands - 1) % PERIOD < MATCHING then 1 else 0
  }

  lemma {:induction false} EventsStep(commands: nat)
    ensures Events(commands + 1) == Events(commands) + if commands % PERIOD < MATCHING then 1 else 0
  {
    var q, r := commands / PERIOD, commands % PERIOD;
    if r + 1 < PERIOD {
      assert (commands + 1) / PERIOD == q && (commands + 1) % PERIOD == r + 1;
    } else {
      assert (commands + 1) / PERIOD == q + 1 && (commands + 1) % PERIOD == 0;
    }
  }

  /** The closed form counts exactly the matching ordinals over the first 1024 events. */
  lemma {:induction false} EventsCounts(commands: nat)
    ensures Events(commands) == 1024 + Matches(commands)
    decreases commands
  {
    if commands > 0 {
      EventsCounts(commands - 1);
      EventsStep(commands - 1);
    }
  }

  lemma {:induction false} EventsMonotone(fewer: nat, more: nat)
    requires fewer <= more
    ensures Events(fewer) <= Events(more) <= Events(fewer) + (more - fewer)
    decreases more
  {
    if fewer < more {
      EventsMonotone(fewer, more - 1);
      EventsStep(more - 1);
    }
  }

  // --- observer and native rows --------------------------------------------

  datatype Observation = Observation(elapsedS: nat, events: nat, duplicates: nat, checkpoint: nat, liveHead: nat,
                                     liveUpdates: nat, incarnation: nat, liveRenewals: nat, generation: nat, slots: nat,
                                     paused: bool, quiesced: bool)

  datatype ObserverRow = ObserverRow(ns: nat, age: nat, value: Observation)

  predicate ObservationShape(o: Observation) {
    && U64(o.elapsedS) && U64(o.checkpoint) && U64(o.liveHead) && U64(o.liveUpdates) && U64(o.liveRenewals)
    && o.duplicates == 0 && o.slots == 2 && 1 <= o.incarnation <= 2 && 1 <= o.generation <= 16
    && o.events <= 8_640_000 + PERIOD
  }

  predicate ObservationFollows(o: Observation, p: Observation) {
    && o.elapsedS > p.elapsedS && o.events >= p.events && o.checkpoint >= p.checkpoint && o.liveHead >= p.liveHead
    && o.liveUpdates >= p.liveUpdates && o.incarnation >= p.incarnation && o.liveRenewals >= p.liveRenewals
    && o.generation >= p.generation
  }

  /** One clock for both streams: inside the campaign, strictly later, no silence over the gap. */
  predicate InTime(ns: nat, previous: Option<nat>, duration: nat) {
    ns < duration && U64(ns) && ns - Since(previous) <= GAP && (previous.Some? ==> ns > previous.value)
  }

  predicate ObserverRowOk(rows: seq<ObserverRow>, i: nat, duration: nat)
    requires i < |rows|
  {
    && InTime(rows[i].ns, if i == 0 then None else Some(rows[i - 1].ns), duration) && rows[i].age <= 5 * SECOND
    && ObservationShape(rows[i].value) && (i > 0 ==> ObservationFollows(rows[i].value, rows[i - 1].value))
  }

  /** Heads never fall; in one incarnation neither do the projection's cursors. */
  predicate NativeFloors(v: NativeReading, prior: NativeReading) {
    && prior.version <= v.version && prior.incarnation <= v.incarnation
    && NativeNoLower(prior, v, if v.incarnation == prior.incarnation then ALL_NATIVE else {SampledHead, StatisticsHead})
  }

  /** A first index begins a new sampler's life; every other reading continues the last one's. */
  function LifeBefore(rows: seq<NativeRow>, i: nat): Option<NativeReading>
    requires i < |rows|
  {
    if i == 0 || rows[i].reading.index == 0 then None else Some(rows[i - 1].reading)
  }

  predicate NativeRowOk(rows: seq<NativeRow>, i: nat, duration: nat, identity: Identity)
    requires i < |rows|
  {
    var v := rows[i].reading;
    && InTime(rows[i].ns, if i == 0 then None else Some(rows[i - 1].ns), duration)
    && 1 <= v.version <= 2 && 1 <= v.incarnation <= 2 && SamplerAdmits(LifeBefore(rows, i), identity, v.version, v)
    && (i > 0 ==> NativeFloors(v, rows[i - 1].reading))
  }

  function ObserverInstants(rows: seq<ObserverRow>): (ts: seq<nat>)
    ensures |ts| == |rows| && forall i :: 0 <= i < |rows| ==> ts[i] == rows[i].ns
  {
    seq(|rows|, i requires 0 <= i < |rows| => rows[i].ns)
  }

  function NativeInstants(rows: seq<NativeRow>): (ts: seq<nat>)
    ensures |ts| == |rows| && forall i :: 0 <= i < |rows| ==> ts[i] == rows[i].ns
  {
    seq(|rows|, i requires 0 <= i < |rows| => rows[i].ns)
  }

  /** The last observation in a window is what the window reports. */
  function LastObserved(rows: seq<ObserverRow>, k: int, windows: nat): Option<Observation> {
    if |rows| == 0 then None
    else if WindowOf(rows[|rows| - 1].ns, windows) == k then Some(rows[|rows| - 1].value)
    else LastObserved(rows[..|rows| - 1], k, windows)
  }

  function LastNative(rows: seq<NativeRow>, k: int, windows: nat): Option<NativeReading> {
    if |rows| == 0 then None
    else if WindowOf(rows[|rows| - 1].ns, windows) == k then Some(rows[|rows| - 1].reading)
    else LastNative(rows[..|rows| - 1], k, windows)
  }

  ghost predicate ObserverOk(rows: seq<ObserverRow>, durationS: nat) {
    && 0 < |rows| <= 86475 && (forall i :: 0 <= i < |rows| ==> ObserverRowOk(rows, i, durationS * SECOND))
    && durationS * SECOND - rows[|rows| - 1].ns <= GAP
  }

  ghost predicate NativeOk(rows: seq<NativeRow>, durationS: nat, identity: Identity) {
    && 0 < |rows| <= 4096 && (forall i :: 0 <= i < |rows| ==> NativeRowOk(rows, i, durationS * SECOND, identity))
    && durationS * SECOND - rows[|rows| - 1].ns <= GAP
    && rows[|rows| - 1].reading.version == rows[|rows| - 1].reading.incarnation == 2
  }

  predicate TerminalObserverOk(t: Observation, last: Observation, durationS: nat) {
    && ObservationShape(t) && t.events == Events(durationS * 100) && t.incarnation == 2 && t.generation == 6
    && !t.paused && !t.quiesced && t.liveUpdates > 0 && t.liveRenewals > 0
    && t.elapsedS >= last.elapsedS && t.events >= last.events && t.checkpoint >= last.checkpoint
    && t.liveHead >= last.liveHead
    && t.liveUpdates >= last.liveUpdates && t.incarnation >= last.incarnation && t.liveRenewals >= last.liveRenewals
    && t.generation >= last.generation
  }

  /** Samples between the last row and the endpoint are not kept, so the endpoint's index may skip ahead. */
  predicate EndpointOk(e: NativeRow, last: NativeReading, terminal: Observation, durationS: nat, identity: Identity) {
    var v := e.reading;
    && durationS * SECOND <= e.ns <= durationS * SECOND + GAP && U64(e.ns)
    && v.index > last.index && SamplerAdmits(Some(last.(index := v.index - 1)), identity, 2, v)
    && v.incarnation == 2 && v.outboxBacklog == 0 && !v.outboxDegraded && v.projectionBacklog == 0
    && terminal.liveHead >= v.sampledHead
  }

  predicate Moves(a: Option<Observation>, b: Option<Observation>, x: Option<NativeReading>, y: Option<NativeReading>) {
    && a.Some? && b.Some? && x.Some? && y.Some?
    && y.value.sampledHead > x.value.sampledHead && y.value.appliedThrough > x.value.appliedThrough
    && b.value.liveUpdates > a.value.liveUpdates && b.value.liveRenewals > a.value.liveRenewals
  }

  /** What the windows show: each one observed on both sides, and each moving on from the one before. */
  predicate WindowsMove(seen: seq<Option<Observation>>, native: seq<Option<NativeReading>>)
    requires |seen| == |native|
  {
    && (forall k :: 0 <= k < |seen| ==> seen[k].Some? && native[k].Some?)
    && forall k :: 0 < k < |seen| ==> Moves(seen[k - 1], seen[k], native[k - 1], native[k])
  }

  ghost function Seen(rows: seq<ObserverRow>, n: nat): (s: seq<Option<Observation>>)
    ensures |s| == n && forall k :: 0 <= k < n ==> s[k] == LastObserved(rows, k, n)
  {
    seq(n, k => LastObserved(rows, k, n))
  }

  ghost function Natives(rows: seq<NativeRow>, n: nat): (s: seq<Option<NativeReading>>)
    ensures |s| == n && forall k :: 0 <= k < n ==> s[k] == LastNative(rows, k, n)
  {
    seq(n, k => LastNative(rows, k, n))
  }

  ghost predicate Accepted(observers: seq<ObserverRow>, natives: seq<NativeRow>, durationS: nat, terminal: Observation,
                           end: NativeRow, identity: Identity) {
    && CampaignDuration(durationS) && ObserverOk(observers, durationS) && NativeOk(natives, durationS, identity)
    && TerminalObserverOk(terminal, observers[|observers| - 1].value, durationS)
    && EndpointOk(end, natives[|natives| - 1].reading, terminal, durationS, identity)
    && WindowsMove(Seen(observers, durationS / 300), Natives(natives, durationS / 300))
  }

  method CheckObservers(rows: seq<ObserverRow>, durationS: nat) returns (ok: bool, seen: seq<Option<Observation>>)
    requires CampaignDuration(durationS)
    ensures ok <==> ObserverOk(rows, durationS)
    ensures ok ==> seen == Seen(rows, durationS / 300)
  {
    var n := durationS / 300;
    seen := seq(n, _ => None);
    if !(0 < |rows| <= 86475) {
      return false, seen;
    }
    for i := 0 to |rows|
      invariant forall j :: 0 <= j < i ==> ObserverRowOk(rows, j, durationS * SECOND)
      invariant |seen| == n && forall k :: 0 <= k < n ==> seen[k] == LastObserved(rows[..i], k, n)
    {
      if !ObserverRowOk(rows, i, durationS * SECOND) {
        return false, seen;
      }
      assert rows[..i + 1][..i] == rows[..i];
      seen := seen[rows[i].ns / WINDOW := Some(rows[i].value)];
    }
    assert rows[..|rows|] == rows;
    ok := durationS * SECOND - rows[|rows| - 1].ns <= GAP;
  }

  method CheckNatives(rows: seq<NativeRow>, durationS: nat, identity: Identity)
    returns (ok: bool, seen: seq<Option<NativeReading>>)
    requires CampaignDuration(durationS)
    ensures ok <==> NativeOk(rows, durationS, identity)
    ensures ok ==> seen == Natives(rows, durationS / 300)
  {
    var n := durationS / 300;
    seen := seq(n, _ => None);
    if !(0 < |rows| <= 4096) {
      return false, seen;
    }
    for i := 0 to |rows|
      invariant forall j :: 0 <= j < i ==> NativeRowOk(rows, j, durationS * SECOND, identity)
      invariant |seen| == n && forall k :: 0 <= k < n ==> seen[k] == LastNative(rows[..i], k, n)
    {
      if !NativeRowOk(rows, i, durationS * SECOND, identity) {
        return false, seen;
      }
      assert rows[..i + 1][..i] == rows[..i];
      seen := seen[rows[i].ns / WINDOW := Some(rows[i].reading)];
    }
    assert rows[..|rows|] == rows;
    ok := durationS * SECOND - rows[|rows| - 1].ns <= GAP
        && rows[|rows| - 1].reading.version == rows[|rows| - 1].reading.incarnation == 2;
  }

  method Reconcile(observers: seq<ObserverRow>, natives: seq<NativeRow>, durationS: nat, terminal: Observation,
                   end: NativeRow, identity: Identity) returns (ok: bool)
    ensures ok <==> Accepted(observers, natives, durationS, terminal, end, identity)
  {
    if !CampaignDuration(durationS) {
      return false;
    }
    var seenOk, seen := CheckObservers(observers, durationS);
    if !seenOk || !TerminalObserverOk(terminal, observers[|observers| - 1].value, durationS) {
      return false;
    }
    var nativeOk, native := CheckNatives(natives, durationS, identity);
    if !nativeOk || !EndpointOk(end, natives[|natives| - 1].reading, terminal, durationS, identity) {
      return false;
    }
    ok := WindowsMove(seen, native);
  }

  // --- what acceptance means -----------------------------------------------

  lemma {:induction false} ObservedIffHit(rows: seq<ObserverRow>, k: int, n: nat)
    ensures LastObserved(rows, k, n).Some? <==> Hits(ObserverInstants(rows), k, n) > 0
    decreases |rows|
  {
    if rows != [] {
      ObservedIffHit(rows[..|rows| - 1], k, n);
      assert ObserverInstants(rows)[..|rows| - 1] == ObserverInstants(rows[..|rows| - 1]);
    }
  }

  lemma {:induction false} NativeIffHit(rows: seq<NativeRow>, k: int, n: nat)
    ensures LastNative(rows, k, n).Some? <==> Hits(NativeInstants(rows), k, n) > 0
    decreases |rows|
  {
    if rows != [] {
      NativeIffHit(rows[..|rows| - 1], k, n);
      assert NativeInstants(rows)[..|rows| - 1] == NativeInstants(rows[..|rows| - 1]);
    }
  }

  /** The coverage requirement never is what refuses: the gap checks already imply it. */
  lemma {:induction false} CoverageImplied(observers: seq<ObserverRow>, natives: seq<NativeRow>, durationS: nat,
                                           identity: Identity, k: nat)
    requires CampaignDuration(durationS) && ObserverOk(observers, durationS) && NativeOk(natives, durationS, identity)
             && k < durationS / 300
    ensures LastObserved(observers, k, durationS / 300).Some? && LastNative(natives, k, durationS / 300).Some?
  {
    forall i | 0 <= i < |observers|
      ensures ObserverInstants(observers)[i] - (if i == 0 then 0 else ObserverInstants(observers)[i - 1]) <= GAP
    {
      assert ObserverRowOk(observers, i, durationS * SECOND);
    }
    forall i | 0 <= i < |natives|
      ensures NativeInstants(natives)[i] - (if i == 0 then 0 else NativeInstants(natives)[i - 1]) <= GAP
    {
      assert NativeRowOk(natives, i, durationS * SECOND, identity);
    }
    assert ObserverRowOk(observers, 0, durationS * SECOND) && NativeRowOk(natives, 0, durationS * SECOND, identity);
    DenseCovers(ObserverInstants(observers), GAP, durationS / 300);
    DenseCovers(NativeInstants(natives), GAP, durationS / 300);
    ObservedIffHit(observers, k, durationS / 300);
    NativeIffHit(natives, k, durationS / 300);
  }

  lemma {:induction false} WindowsMoved(seen: seq<Option<Observation>>, native: seq<Option<NativeReading>>, a: nat,
                                        b: nat)
    requires |seen| == |native| && WindowsMove(seen, native) && a <= b < |seen|
    ensures native[b].value.sampledHead >= native[a].value.sampledHead + (b - a)
    ensures native[b].value.appliedThrough >= native[a].value.appliedThrough + (b - a)
    ensures seen[b].value.liveUpdates >= seen[a].value.liveUpdates + (b - a)
    ensures seen[b].value.liveRenewals >= seen[a].value.liveRenewals + (b - a)
    decreases b
  {
    if a < b {
      WindowsMoved(seen, native, a, b - 1);
      assert Moves(seen[b - 1], seen[b], native[b - 1], native[b]);
    }
  }

  /** In an accepted campaign the database and the live query move at least once per window. */
  lemma {:induction false} ProgressPerWindow(observers: seq<ObserverRow>, natives: seq<NativeRow>, durationS: nat,
                                             terminal: Observation, end: NativeRow, identity: Identity, a: nat, b: nat)
    requires Accepted(observers, natives, durationS, terminal, end, identity) && a <= b < durationS / 300
    ensures var n := durationS / 300;
            var x, y := LastNative(natives, a, n), LastNative(natives, b, n);
            var u, v := LastObserved(observers, a, n), LastObserved(observers, b, n);
            && x.Some? && y.Some? && u.Some? && v.Some?
            && y.value.sampledHead >= x.value.sampledHead + (b - a)
            && y.value.appliedThrough >= x.value.appliedThrough + (b - a)
            && v.value.liveUpdates >= u.value.liveUpdates + (b - a)
            && v.value.liveRenewals >= u.value.liveRenewals + (b - a)
  {
    WindowsMoved(Seen(observers, durationS / 300), Natives(natives, durationS / 300), a, b);
  }
}
