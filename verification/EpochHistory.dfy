/**
 * What a stream of component rows, native rows and epoch rows must look like for
 * every row to belong to its epoch and every cursor reset to be a declared one.
 * Independent of how the streams were produced.
 */
module EpochHistory {
  import opened Prelude
  import opened Windows
  import opened LogTail
  import opened NativeSampler
  import opened EpochModel

  /** The transitions among the rows of the mixed stream. */
  function Epochs(output: seq<EpochRow>): seq<EpochRow> {
    if |output| == 0 then []
    else
      var earlier := Epochs(output[..|output| - 1]);
      if output[|output| - 1].Transition? then earlier + [output[|output| - 1]] else earlier
  }

  lemma {:induction false} EpochsAppend(output: seq<EpochRow>, row: EpochRow)
    ensures Epochs(output + [row]) == if row.Transition? then Epochs(output) + [row] else Epochs(output)
  {
    assert (output + [row])[..|output|] == output;
  }

  // --- epoch rows ----------------------------------------------------------

  ghost predicate EpochRowOk(row: EpochRow, e: nat, duration: nat) {
    && row.Transition? && row.epoch == e
    && (row.kind == Initial <==> e == 0) && row.ns < duration
  }

  /** One transition against the previous one. */
  ghost predicate EpochStepOk(a: EpochRow, b: EpochRow)
    requires a.Transition? && b.Transition?
  {
    && a.ns <= b.ns && b.sampler == a.sampler + 1
    && b.server == a.server + (if b.kind == Deploy then 0 else 1)
    && b.version == (if b.kind == Deploy then 2 else a.version) && (b.kind == Deploy ==> a.version == 1)
    && b.incarnation == a.incarnation + (if b.kind == Restore then 1 else 0)
    && (forall c: Component :: a.samples.Of(c) < b.samples.Of(c))
    && a.native < b.native && a.attempts < b.attempts && a.peak <= b.peak
  }

  ghost predicate EpochsOk(epochs: seq<EpochRow>, duration: nat) {
    && epochs != []
    && (forall e :: 0 <= e < |epochs| ==> EpochRowOk(epochs[e], e, duration))
    && (forall e :: 0 < e < |epochs| ==> EpochStepOk(epochs[e - 1], epochs[e]))
    && epochs[0].ns == 0 && epochs[0].native == 0 && epochs[0].attempts == 0 && epochs[0].peak == 0
    && epochs[0].version == 1 && epochs[0].incarnation == 1
    && (forall c: Component :: epochs[0].samples.Of(c) == 0)
  }

  lemma {:induction false} EpochsOkExtend(epochs: seq<EpochRow>, row: EpochRow, duration: nat)
    requires EpochsOk(epochs, duration) && EpochRowOk(row, |epochs|, duration)
    requires EpochStepOk(epochs[|epochs| - 1], row)
    ensures EpochsOk(epochs + [row], duration)
  {
    var more := epochs + [row];
    forall e | 0 < e < |more|
      ensures EpochStepOk(more[e - 1], more[e])
    {
      if e < |epochs| {
        assert EpochStepOk(epochs[e - 1], epochs[e]);
      }
    }
  }

  // --- component rows ------------------------------------------------------

  /** Row `i` of the `n` rows of component `c` lies between the cuts of epoch `e`. */
  ghost predicate InEpoch(epochs: seq<EpochRow>, c: Component, n: nat, e: int, i: int) {
    && 0 <= e < |epochs| && epochs[e].Transition?
    && epochs[e].samples.Of(c) <= i < n
    && (e + 1 < |epochs| ==> epochs[e + 1].Transition? && i < epochs[e + 1].samples.Of(c))
  }

  /** Cursors that may not go down from one epoch's last row to the next epoch's first. */
  function CutFields(c: Component, kind: Kind): set<Field> {
    if kind == Deploy then Continuity(c) else FloorFields(c, kind)
  }

  ghost predicate RowInEpoch(c: Component, row: Row, epochs: seq<EpochRow>, e: nat, duration: nat)
    requires e < |epochs| && epochs[e].Transition? && (e + 1 < |epochs| ==> epochs[e + 1].Transition?)
  {
    && epochs[e].ns <= row.ns < duration
    && (e + 1 < |epochs| ==> row.ns <= epochs[e + 1].ns)
    && (c != Provider ==> row.reading.incarnation == epochs[e].incarnation)
    && ReadingBounded(c, row.reading)
  }

  /** Consecutive rows: the clock advances, and only declared cuts lower a cursor. */
  ghost predicate RowStep(c: Component, rows: seq<Row>, epochs: seq<EpochRow>, e: nat, i: nat)
    requires 0 < i < |rows| && InEpoch(epochs, c, |rows|, e, i)
  {
    && rows[i - 1].ns < rows[i].ns
    && NoLower(rows[i - 1].reading, rows[i].reading,
               if i > epochs[e].samples.Of(c) then Continuity(c) else CutFields(c, epochs[e].kind))
  }

  ghost predicate HistoryOk(c: Component, rows: seq<Row>, epochs: seq<EpochRow>, duration: nat) {
    && (forall e, i :: InEpoch(epochs, c, |rows|, e, i) ==> RowInEpoch(c, rows[i], epochs, e, duration))
    && (forall e, i :: InEpoch(epochs, c, |rows|, e, i) && i > 0 ==> RowStep(c, rows, epochs, e, i))
  }

  /** Every row lies in exactly the epoch its cuts say. */
  lemma {:induction false} EpochOf(epochs: seq<EpochRow>, c: Component, n: nat, i: nat, duration: nat) returns (e: nat)
    requires EpochsOk(epochs, duration) && i < n
    ensures InEpoch(epochs, c, n, e, i)
  {
    e := |epochs| - 1;
    while i < epochs[e].samples.Of(c)
      invariant e < |epochs| && (e + 1 < |epochs| ==> i < epochs[e + 1].samples.Of(c))
    {
      e := e - 1;
    }
  }

  lemma {:induction false} CutsAscend(epochs: seq<EpochRow>, c: Component, duration: nat, a: nat, b: nat)
    requires EpochsOk(epochs, duration) && a <= b < |epochs|
    ensures epochs[a].samples.Of(c) + (b - a) <= epochs[b].samples.Of(c)
    decreases b - a
  {
    if a < b {
      assert EpochStepOk(epochs[b - 1], epochs[b]);
      CutsAscend(epochs, c, duration, a, b - 1);
    }
  }

  lemma {:induction false} LastEpochOwnsEnd(epochs: seq<EpochRow>, c: Component, duration: nat, n: nat, e: nat)
    requires EpochsOk(epochs, duration) && n > 0
    requires epochs[|epochs| - 1].samples.Of(c) < n && InEpoch(epochs, c, n, e, n - 1)
    ensures e == |epochs| - 1
  {
    if e + 1 < |epochs| {
      CutsAscend(epochs, c, duration, e + 1, |epochs| - 1);
    }
  }

  lemma {:induction false} HistoryRow(c: Component, rows: seq<Row>, epochs: seq<EpochRow>, duration: nat, row: Row)
    requires EpochsOk(epochs, duration) && HistoryOk(c, rows, epochs, duration)
    requires epochs[|epochs| - 1].samples.Of(c) <= |rows|
    requires RowInEpoch(c, row, epochs, |epochs| - 1, duration)
    requires rows != [] ==> rows[|rows| - 1].ns < row.ns
    requires rows != [] ==> NoLower(rows[|rows| - 1].reading, row.reading,
                                    if |rows| > epochs[|epochs| - 1].samples.Of(c) then Continuity(c)
                                    else CutFields(c, epochs[|epochs| - 1].kind))
    ensures HistoryOk(c, rows + [row], epochs, duration)
  {
    var more := rows + [row];
    forall e, i | InEpoch(epochs, c, |more|, e, i)
      ensures RowInEpoch(c, more[i], epochs, e, duration) && (i > 0 ==> RowStep(c, more, epochs, e, i))
    {
      if i < |rows| {
        assert InEpoch(epochs, c, |rows|, e, i);
        if i > 0 {
          assert RowStep(c, rows, epochs, e, i);
        }
      } else {
        LastEpochOwnsEnd(epochs, c, duration, |more|, e);
      }
    }
  }

  lemma {:induction false} AscendingUpTo(rows: seq<Row>, a: nat, b: nat)
    requires forall i :: 0 < i < |rows| ==> rows[i - 1].ns < rows[i].ns
    requires a <= b < |rows|
    ensures rows[a].ns <= rows[b].ns
    decreases b - a
  {
    if a < b {
      AscendingUpTo(rows, a, b - 1);
    }
  }

  lemma {:induction false} HistoryEpoch(c: Component, rows: seq<Row>, epochs: seq<EpochRow>, duration: nat,
                                        row: EpochRow)
    requires EpochsOk(epochs, duration) && HistoryOk(c, rows, epochs, duration)
    requires EpochRowOk(row, |epochs|, duration) && row.samples.Of(c) == |rows|
    requires rows != [] ==> rows[|rows| - 1].ns <= row.ns
    requires forall i :: 0 < i < |rows| ==> rows[i - 1].ns < rows[i].ns
    ensures HistoryOk(c, rows, epochs + [row], duration)
  {
    var more := epochs + [row];
    forall e, i | InEpoch(more, c, |rows|, e, i)
      ensures RowInEpoch(c, rows[i], more, e, duration) && (i > 0 ==> RowStep(c, rows, more, e, i))
    {
      assert InEpoch(epochs, c, |rows|, e, i);
      AscendingUpTo(rows, i, |rows| - 1);
      if i > 0 {
        assert RowStep(c, rows, epochs, e, i);
      }
    }
  }

  lemma {:induction false} HistoryAscends(c: Component, rows: seq<Row>, epochs: seq<EpochRow>, duration: nat)
    requires EpochsOk(epochs, duration) && HistoryOk(c, rows, epochs, duration)
    ensures forall i :: 0 < i < |rows| ==> rows[i - 1].ns < rows[i].ns
  {
    forall i | 0 < i < |rows|
      ensures rows[i - 1].ns < rows[i].ns
    {
      var e := EpochOf(epochs, c, |rows|, i, duration);
      assert RowStep(c, rows, epochs, e, i);
    }
  }

  // --- running peak --------------------------------------------------------

  function PeakOf(rows: seq<Row>): nat {
    if |rows| == 0 then 0 else Max(PeakOf(rows[..|rows| - 1]), rows[|rows| - 1].reading.charged)
  }

  /** Each transition carries the provider peak of exactly the rows before it. */
  ghost predicate PeaksOk(rows: seq<Row>, epochs: seq<EpochRow>) {
    forall e :: 0 <= e < |epochs| ==>
      && epochs[e].Transition? && epochs[e].samples.Of(Provider) <= |rows|
      && epochs[e].peak == PeakOf(rows[..epochs[e].samples.Of(Provider)])
  }

  lemma {:induction false} PeaksRow(rows: seq<Row>, epochs: seq<EpochRow>, row: Row)
    requires PeaksOk(rows, epochs)
    ensures PeaksOk(rows + [row], epochs)
    ensures PeakOf(rows + [row]) == Max(PeakOf(rows), row.reading.charged)
  {
    assert (rows + [row])[..|rows|] == rows;
    forall e | 0 <= e < |epochs|
      ensures epochs[e].peak == PeakOf((rows + [row])[..epochs[e].samples.Of(Provider)])
    {
      assert (rows + [row])[..epochs[e].samples.Of(Provider)] == rows[..epochs[e].samples.Of(Provider)];
    }
  }

  // --- native rows ---------------------------------------------------------

  ghost predicate InNativeEpoch(epochs: seq<EpochRow>, n: nat, e: int, i: int) {
    && 0 <= e < |epochs| && epochs[e].Transition? && epochs[e].native <= i < n
    && (e + 1 < |epochs| ==> epochs[e + 1].Transition? && i < epochs[e + 1].native)
  }

  /** A native row carries its epoch's release, its sampler's index and an instant inside the epoch. */
  predicate NativeCut(row: NativeRow, epochs: seq<EpochRow>, e: nat, i: nat, duration: nat)
    requires e < |epochs| && epochs[e].Transition? && epochs[e].native <= i
    requires e + 1 < |epochs| ==> epochs[e + 1].Transition?
  {
    && epochs[e].ns <= row.ns < duration && (e + 1 < |epochs| ==> row.ns <= epochs[e + 1].ns)
    && row.reading.index == i - epochs[e].native
    && row.reading.version == epochs[e].version && row.reading.incarnation == epochs[e].incarnation
  }

  ghost predicate NativeInEpoch(row: NativeRow, epochs: seq<EpochRow>, e: nat, i: nat, duration: nat)
    requires e < |epochs| && epochs[e].Transition? && epochs[e].native <= i
    requires e + 1 < |epochs| ==> epochs[e + 1].Transition?
  {
    NativeCut(row, epochs, e, i, duration) && row.reading.attempts == 3
  }

  /** Heads never fall; projection fields may fall only into a restored history or another projection. */
  ghost predicate NativeStep(a: NativeRow, b: NativeRow) {
    && a.ns < b.ns
    && NativeNoLower(a.reading, b.reading,
                     if a.reading.incarnation == b.reading.incarnation && a.reading.identity == b.reading.identity
                     then ALL_NATIVE else {SampledHead, StatisticsHead})
  }

  ghost predicate NativeOk(rows: seq<NativeRow>, epochs: seq<EpochRow>, duration: nat) {
    && (forall e, i :: InNativeEpoch(epochs, |rows|, e, i) ==> NativeInEpoch(rows[i], epochs, e, i, duration))
    && (forall i :: 0 < i < |rows| ==> NativeStep(rows[i - 1], rows[i]))
    && (forall e :: 0 <= e < |epochs| ==>
          && epochs[e].Transition? && epochs[e].native <= |rows|
          && epochs[e].attempts == SumAttempts(rows[..epochs[e].native]))
  }

  lemma {:induction false} NativeAppend(rows: seq<NativeRow>, epochs: seq<EpochRow>, duration: nat, row: NativeRow)
    requires EpochsOk(epochs, duration) && NativeOk(rows, epochs, duration)
    requires NativeInEpoch(row, epochs, |epochs| - 1, |rows|, duration)
    requires rows != [] ==> NativeStep(rows[|rows| - 1], row)
    ensures NativeOk(rows + [row], epochs, duration)
    ensures SumAttempts(rows + [row]) == SumAttempts(rows) + row.reading.attempts
  {
    var more := rows + [row];
    assert more[..|rows|] == rows;
    forall e, i | InNativeEpoch(epochs, |more|, e, i)
      ensures NativeInEpoch(more[i], epochs, e, i, duration)
    {
      if i < |rows| {
        assert InNativeEpoch(epochs, |rows|, e, i);
      }
    }
    forall e | 0 <= e < |epochs|
      ensures epochs[e].attempts == SumAttempts(more[..epochs[e].native])
    {
      assert more[..epochs[e].native] == rows[..epochs[e].native];
    }
  }

  lemma {:induction false} NativeAscendsTo(rows: seq<NativeRow>, a: nat, b: nat)
    requires forall i :: 0 < i < |rows| ==> NativeStep(rows[i - 1], rows[i])
    requires a <= b < |rows|
    ensures rows[a].ns <= rows[b].ns
    decreases b - a
  {
    if a < b {
      NativeAscendsTo(rows, a, b - 1);
    }
  }

  lemma {:induction false} NativeEpoch(rows: seq<NativeRow>, epochs: seq<EpochRow>, duration: nat, row: EpochRow)
    requires NativeOk(rows, epochs, duration)
    requires row.Transition? && row.native == |rows| && row.attempts == SumAttempts(rows)
    requires rows != [] ==> rows[|rows| - 1].ns <= row.ns
    ensures NativeOk(rows, epochs + [row], duration)
  {
    var more := epochs + [row];
    assert rows[..|rows|] == rows;
    forall e, i | InNativeEpoch(more, |rows|, e, i)
      ensures NativeInEpoch(rows[i], more, e, i, duration)
    {
      assert InNativeEpoch(epochs, |rows|, e, i);
      NativeAscendsTo(rows, i, |rows| - 1);
    }
    forall e | 0 <= e < |more|
      ensures more[e].Transition? && more[e].native <= |rows| && more[e].attempts == SumAttempts(rows[..more[e].native])
    {
    }
  }
}
