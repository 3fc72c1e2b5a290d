/**
 * What the controller accepts next, said of what it has written: the rows and transitions so
 * far decide, without its cursors and floors, which reading may follow.
 */
module EpochStory {
  import opened Prelude
  import opened LogTail
  import opened NativeSampler
  import opened EpochModel
  import opened EpochHistory
  import opened EpochInvariant
  import opened EpochAcceptance

  /** The transition that opened the current epoch. */
  ghost function Opened(s: State): EpochRow
    requires OwnersInv(s)
  {
    Epochs(s.output)[s.epoch]
  }

  // --- component readings --------------------------------------------------

  /** A first reading after a replacement may lose what belonged to the process; after a restore all but the head. */
  predicate MayFall(cursor: Cursor, first: bool, kind: Kind) {
    first && match kind
             case Restart => OfProcess(cursor)
             case Kill => OfProcess(cursor)
             case Restore => cursor != LogicalHead
             case _ => false
  }

  ghost predicate WellFormed(c: Component, r: Reading) {
    && (forall cursor :: ComponentOf(cursor) == c ==> Value(r, cursor) <= MAX_U64)
    && (c == Provider ==> r.charged <= PROVIDER_LIMIT)
  }

  /** After these rows, in the epoch this transition opened, the reading may be the component's next row. */
  ghost predicate Follows(c: Component, rows: seq<Row>, open: EpochRow, r: Reading, t: nat)
    requires open.Transition?
  {
    var n := |rows|;
    && n < 2048 && (c != Provider ==> r.incarnation == open.incarnation)
    && t - (if n == 0 then 0 else rows[n - 1].ns) <= (if c == Provider then 255_000_000_000 else 275_000_000_000)
    && (n > 0 ==> && rows[n - 1].ns < t
                  && forall cursor :: ComponentOf(cursor) == c && !MayFall(cursor, n == open.samples.Of(c), open.kind)
                       ==> Value(rows[n - 1].reading, cursor) <= Value(r, cursor))
  }

  lemma {:induction false} CursorOf(c: Component, f: Field) returns (cursor: Cursor)
    requires f in Continuity(c)
    ensures ComponentOf(cursor) == c && forall r: Reading :: At(r, f) == Value(r, cursor)
    ensures f in Durable(c) <==> !OfProcess(cursor)
    ensures f == Head <==> cursor == LogicalHead
  {
    match c
    case Provider => cursor := if f == ReleasedAllocations then ProviderAllocations else ProviderOwners;
    case Source => cursor := if f == Root then SourceRoot else SourceResume;
    case Logical =>
      cursor := if f == Root then LogicalRoot else if f == Watermark then LogicalWatermark else LogicalHead;
    case Physical =>
      cursor := if f == Root then PhysicalRoot
                else if f == Watermark then PhysicalWatermark
                else if f == MinimumResume then PhysicalMinimumResume
                else PhysicalActiveGeneration;
  }

  lemma {:induction false} BoundedIff(c: Component, r: Reading)
    ensures ReadingBounded(c, r) <==> WellFormed(c, r)
  {
    forall cursor | ComponentOf(cursor) == c
      ensures ReadingBounded(c, r) ==> Value(r, cursor) <= MAX_U64
    {
      var f := FieldOf(cursor);
    }
    forall f | f in Continuity(c)
      ensures WellFormed(c, r) ==> At(r, f) <= MAX_U64
    {
      var cursor := CursorOf(c, f);
    }
  }

  /** The fields a next reading is held to, and the cursors it may not lower, are the same. */
  lemma {:induction false} HeldIff(c: Component, a: Reading, b: Reading, kind: Kind, first: bool)
    requires kind != Initial || !first
    ensures NoLower(a, b, if first then CutFields(c, kind) else Continuity(c))
            <==> forall cursor :: ComponentOf(cursor) == c && !MayFall(cursor, first, kind)
                   ==> Value(a, cursor) <= Value(b, cursor)
  {
    var fields := if first then CutFields(c, kind) else Continuity(c);
    forall cursor | ComponentOf(cursor) == c && !MayFall(cursor, first, kind) && NoLower(a, b, fields)
      ensures Value(a, cursor) <= Value(b, cursor)
    {
      var f := FieldOf(cursor);
      assert f in fields;
    }
    if forall cursor :: ComponentOf(cursor) == c && !MayFall(cursor, first, kind)
         ==> Value(a, cursor) <= Value(b, cursor) {
      forall f | f in fields
        ensures At(a, f) <= At(b, f)
      {
        var cursor := CursorOf(c, f);
        assert !MayFall(cursor, first, kind);
      }
    }
  }

  /** A row the collector still continues from is of the current history. */
  lemma {:induction false} LastIncarnation(s: State, c: Component)
    requires OwnersInv(s) && ComponentInv(s, c) && c != Provider && s.samples.Of(c).last.Some?
    ensures s.samples.Of(c).last.value.incarnation == s.incarnation
  {
    var rows, epochs := s.samples.Of(c).rows, Epochs(s.output);
    var n := |rows| - 1;
    var e := EpochOf(epochs, c, |rows|, n, s.duration);
    assert RowInEpoch(c, rows[n], epochs, e, s.duration);
    if epochs[s.epoch].samples.Of(c) < |rows| {
      LastEpochOwnsEnd(epochs, c, s.duration, |rows|, e);
    } else {
      assert EpochStepOk(epochs[s.epoch - 1], epochs[s.epoch]);
      if e + 1 < s.epoch {
        CutsAscend(epochs, c, s.duration, e + 1, s.epoch - 1);
      }
    }
  }

  ghost predicate HeldTo(c: Component, rows: seq<Row>, open: EpochRow, r: Reading)
    requires open.Transition?
  {
    |rows| > 0 ==> NoLower(rows[|rows| - 1].reading, r,
                           if |rows| == open.samples.Of(c) then CutFields(c, open.kind) else Continuity(c))
  }

  lemma {:induction false} FollowsIff(c: Component, rows: seq<Row>, open: EpochRow, r: Reading, t: nat)
    requires open.Transition? && (open.kind == Initial ==> open.samples.Of(c) == 0)
    ensures Follows(c, rows, open, r, t)
            <==> && |rows| < MAX_COMPONENT_ROWS && (c != Provider ==> r.incarnation == open.incarnation)
                 && t - (if |rows| == 0 then 0 else rows[|rows| - 1].ns) <= GapOf(c)
                 && (|rows| > 0 ==> rows[|rows| - 1].ns < t) && HeldTo(c, rows, open, r)
  {
    if |rows| > 0 {
      HeldIff(c, rows[|rows| - 1].reading, r, open.kind, |rows| == open.samples.Of(c));
    }
  }

  /** What the collector keeps of its rows. */
  ghost predicate Keeps(k: Collector, floor: Option<Floor>, c: Component, open: EpochRow, incarnation: nat)
    requires open.Transition?
  {
    && (k.lastNs.Some? <==> |k.rows| > 0) && (|k.rows| > 0 ==> k.lastNs.value == k.rows[|k.rows| - 1].ns)
    && (k.last.Some? && c != Provider ==> k.last.value.incarnation == incarnation)
    && (|k.rows| == 0 ==> k.last.None? && floor.None?)
    && (|k.rows| > 0 ==>
          var row := k.rows[|k.rows| - 1].reading;
          if |k.rows| != open.samples.Of(c) || open.kind == Deploy then k.last == Some(row) && floor.None?
          else k.last.None? && floor == Some(Floor(FloorFields(c, open.kind), row)))
  }

  lemma {:induction false} StateKeeps(s: State, c: Component)
    requires OwnersInv(s) && ComponentInv(s, c)
    ensures Keeps(s.samples.Of(c), s.floors.Of(c), c, Opened(s), s.incarnation)
    ensures Opened(s).incarnation == s.incarnation && (Opened(s).kind == Initial ==> Opened(s).samples.Of(c) == 0)
  {
    if c != Provider && s.samples.Of(c).last.Some? {
      LastIncarnation(s, c);
    }
    assert EpochRowOk(Opened(s), s.epoch, s.duration);
  }

  lemma {:induction false} AdmitsIff(k: Collector, floor: Option<Floor>, c: Component, open: EpochRow, incarnation: nat,
                                     r: Reading, t: nat)
    requires open.Transition? && Keeps(k, floor, c, open, incarnation) && open.incarnation == incarnation
    ensures (floor.Some? ==> NoLower(floor.value.values, r, floor.value.keys)) && Admits(c, k, r, t, incarnation)
            <==> && |k.rows| < MAX_COMPONENT_ROWS && (c != Provider ==> r.incarnation == open.incarnation)
                 && t - (if |k.rows| == 0 then 0 else k.rows[|k.rows| - 1].ns) <= GapOf(c)
                 && (|k.rows| > 0 ==> k.rows[|k.rows| - 1].ns < t) && HeldTo(c, k.rows, open, r)
  {
  }

  lemma {:induction false} TakenIff(s: State, c: Component, r: Reading, t: nat, open: EpochRow)
    requires open.Transition? && Keeps(s.samples.Of(c), s.floors.Of(c), c, open, s.incarnation) && t < s.duration
    requires open.incarnation == s.incarnation && (open.kind == Initial ==> open.samples.Of(c) == 0)
    ensures ObserveComponent(s, c, Sample(r), t).Some?
            <==> WellFormed(c, r) && Follows(c, s.samples.Of(c).rows, open, r, t)
  {
    BoundedIff(c, r);
    FollowsIff(c, s.samples.Of(c).rows, open, r, t);
    AdmitsIff(s.samples.Of(c), s.floors.Of(c), c, open, s.incarnation, r, t);
  }

  lemma {:induction false} TakenAs(s: State, c: Component, r: Reading, t: nat)
    requires t < s.duration && ObserveComponent(s, c, Sample(r), t).Some?
    ensures forall d: Component :: ObserveComponent(s, c, Sample(r), t).value.samples.Of(d).rows
              == s.samples.Of(d).rows + if d == c then [Row(r, t)] else []
  {
  }

  /** A reading is taken exactly when it may be the component's next row, and then is that row. */
  lemma {:induction false} ReadingIff(s: State, c: Component, r: Reading, t: nat)
    requires Inv(s) && t < s.duration
    ensures ObserveComponent(s, c, Sample(r), t).Some?
            <==> WellFormed(c, r) && Follows(c, s.samples.Of(c).rows, Opened(s), r, t)
    ensures ObserveComponent(s, c, Sample(r), t).Some? ==>
              forall d: Component :: ObserveComponent(s, c, Sample(r), t).value.samples.Of(d).rows
                == s.samples.Of(d).rows + if d == c then [Row(r, t)] else []
  {
    assert ComponentInv(s, c);
    StateKeeps(s, c);
    TakenIff(s, c, r, t, Opened(s));
    if ObserveComponent(s, c, Sample(r), t).Some? {
      TakenAs(s, c, r, t);
    }
  }

  // --- native samples ------------------------------------------------------

  /** A reading a sampler of this release may give at all. */
  predicate WellSampled(v: NativeReading, open: EpochRow, identity: Identity)
    requires open.Transition?
  {
    && v.version == open.version && v.incarnation == open.incarnation && v.identity == identity
    && v.identity.projectionId <= MAX_U64 && v.incarnation <= MAX_U64 && v.outboxBacklog <= MAX_U64
    && 0 < v.sampledHead <= v.statisticsHead <= MAX_U64 && 0 < v.projectionGeneration <= MAX_U64
    && 0 < v.appliedThrough <= MAX_U64
    && v.projectionBacklog == (if v.sampledHead > v.appliedThrough then v.sampledHead - v.appliedThrough else 0)
    && v.attempts == 3 && v.retries == 0 && v.auxiliarySlots == 1
  }

  /** After these rows, in the epoch this transition opened, the reading may be the next native row. */
  ghost predicate NativeFollows(rows: seq<NativeRow>, open: EpochRow, identity: Identity, v: NativeReading, t: int)
    requires open.Transition?
  {
    var n := |rows|;
    && n < 86400 && v.index == n - open.native && WellSampled(v, open, identity)
    && (n > 0 ==>
          var last := rows[n - 1].reading;
          && rows[n - 1].ns < t && last.sampledHead <= v.sampledHead && last.statisticsHead <= v.statisticsHead
          && (last.identity == v.identity && last.incarnation == v.incarnation ==>
                last.projectionGeneration <= v.projectionGeneration && last.appliedThrough <= v.appliedThrough))
  }

  /** The sampler's last reading, if there is one, is the last row's, of this release and life. */
  ghost predicate SamplerKeeps(s: State, open: EpochRow)
    requires open.Transition?
  {
    var n := |s.native|;
    && open.native == s.startedNative <= n && open.version == s.version && open.incarnation == s.incarnation
    && 1 <= s.version <= 2 && 0 < s.incarnation
    && (n == 0 ==> s.sampler.None? && s.nativeFloor.None?)
    && (n > 0 ==>
          var last := s.native[n - 1].reading;
          if n > s.startedNative
          then && s.sampler == Some(last) && s.nativeFloor.None? && last.index == n - 1 - open.native
               && last.identity == s.identity && last.incarnation == s.incarnation
          else && s.sampler.None? && s.nativeFloor.Some? && s.nativeFloor.value.values == last
               && s.nativeFloor.value.keys
                  == if last.identity == s.identity && last.incarnation == s.incarnation
                     then ALL_NATIVE else {SampledHead, StatisticsHead})
  }

  lemma {:induction false} ReleaseBounds(epochs: seq<EpochRow>, duration: nat, e: nat)
    requires EpochsOk(epochs, duration) && e < |epochs|
    ensures 1 <= epochs[e].version <= 2 && 1 <= epochs[e].incarnation <= 1 + e
    decreases e
  {
    if e > 0 {
      ReleaseBounds(epochs, duration, e - 1);
      assert EpochStepOk(epochs[e - 1], epochs[e]);
    }
  }

  lemma {:induction false} StateSampler(s: State)
    requires OwnersInv(s) && NativeInv(s)
    ensures SamplerKeeps(s, Opened(s))
  {
    var epochs, n := Epochs(s.output), |s.native|;
    assert EpochRowOk(Opened(s), s.epoch, s.duration);
    ReleaseBounds(epochs, s.duration, s.epoch);
    if n > s.startedNative {
      assert InNativeEpoch(epochs, n, s.epoch, n - 1);
      assert NativeInEpoch(s.native[n - 1], epochs, s.epoch, n - 1, s.duration);
    }
  }

  lemma {:induction false} NativeHeldIff(a: NativeReading, b: NativeReading)
    ensures NativeNoLower(a, b, ALL_NATIVE)
            <==> && a.sampledHead <= b.sampledHead && a.statisticsHead <= b.statisticsHead
                 && a.projectionGeneration <= b.projectionGeneration && a.appliedThrough <= b.appliedThrough
    ensures NativeNoLower(a, b, {SampledHead, StatisticsHead})
            <==> a.sampledHead <= b.sampledHead && a.statisticsHead <= b.statisticsHead
  {
    assert NativeAt(a, SampledHead) == a.sampledHead && NativeAt(a, StatisticsHead) == a.statisticsHead;
    assert NativeAt(b, SampledHead) == b.sampledHead && NativeAt(b, StatisticsHead) == b.statisticsHead;
    assert NativeAt(a, ProjectionGeneration) == a.projectionGeneration;
    assert NativeAt(b, ProjectionGeneration) == b.projectionGeneration;
    assert NativeAt(a, AppliedThrough) == a.appliedThrough && NativeAt(b, AppliedThrough) == b.appliedThrough;
  }

  lemma {:induction false} SampleFollows(s: State, v: NativeReading, t: int, open: EpochRow)
    requires open.Transition? && SamplerKeeps(s, open)
    ensures && |s.native| < MAX_NATIVE_ROWS && (s.native != [] ==> t > s.native[|s.native| - 1].ns)
            && SamplerAdmits(s.sampler, s.identity, s.version, v) && v.incarnation == s.incarnation
            && NativeFloorHolds(s, v)
            <==> NativeFollows(s.native, open, s.identity, v, t)
  {
    if |s.native| > 0 {
      NativeHeldIff(s.native[|s.native| - 1].reading, v);
    }
  }

  /** A sample is taken exactly from the current owners, in time, when it may be the next native row. */
  lemma {:induction false} NativeIff(s: State, v: NativeReading, t: int, r: Roster)
    requires Inv(s)
    ensures ObserveNative(s, v, t, r).Some?
            <==> && ClockAdmits(s, t) && OwnersCurrent(s, r) && LogCurrent(s) && t < s.duration
                 && NativeFollows(s.native, Opened(s), s.identity, v, t)
    ensures ObserveNative(s, v, t, r).Some? ==>
              ObserveNative(s, v, t, r).value.native == s.native + [NativeRow(v, t)]
  {
    StateSampler(s);
    SampleFollows(s, v, t, Opened(s));
  }
}
