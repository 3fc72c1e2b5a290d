/**
 * The acknowledged prefix of the update witness file: its rows, its digest built from
 * record chunks, and the later check of the same bytes in different chunks.
 */
module Prefix {
  import opened Prelude

  const HEADER := 16
  const RECORDS := 2048
  const CHUNK := 1048576
  const MAX_COMMANDS := 8_640_000
  /** The file's magic, "RDBTW001". */
  const MAGIC: Bytes := [82, 68, 66, 84, 87, 48, 48, 49]

  /** Where the record after the first `records` begins. */
  function Offset(records: nat): nat {
    HEADER + records * 32
  }

  /** Reads what the file holds of the requested range, as a positioned read does. */
  function Pread(file: Bytes, count: nat, offset: nat): Bytes {
    if offset <= |file| then file[offset..Min(offset + count, |file|)] else []
  }

  /** Unsigned big-endian value. */
  function Number(bs: Bytes): nat
    decreases |bs|
  {
    if |bs| == 0 then 0 else Number(bs[..|bs| - 1]) * 256 + bs[|bs| - 1] as int
  }

  function Encoded(n: nat, width: nat): Bytes
    decreases width
  {
    if width == 0 then [] else Encoded(n / 256, width - 1) + [(n % 256) as Byte]
  }

  datatype Record = Record(ordinal: nat, sequence: nat, contract: nat, history: nat)

  function Decoded(row: Bytes): Record
    requires |row| == 32
  {
    Record(Number(row[0..8]), Number(row[8..16]), Number(row[16..24]), Number(row[24..32]))
  }

  function RowBytes(file: Bytes, i: nat): Bytes
    requires Offset(i + 1) <= |file|
  {
    file[Offset(i)..Offset(i + 1)]
  }

  function RecordAt(file: Bytes, i: nat): Record
    requires Offset(i + 1) <= |file|
  {
    Decoded(RowBytes(file, i))
  }

  /** What the campaign knows when it binds the prefix. */
  datatype Source = Source(commands: int, durationS: int, frontier: int, version: int, incarnation: int)

  predicate SourceOk(s: Source) {
    && 0 < s.commands <= s.durationS * 100 <= MAX_COMMANDS && 0 < s.frontier <= MAX_U64
    && 1 <= s.version <= 2 && 1 <= s.incarnation <= 2
  }

  predicate RecordOk(r: Record, ordinal: nat, s: Source) {
    r.ordinal == ordinal && 0 < r.sequence <= s.frontier && 1 <= r.contract <= s.version
    && 1 <= r.history <= s.incarnation
  }

  predicate ShapeOk(file: Bytes, s: Source) {
    && SourceOk(s) && |file| == Offset(s.durationS * 100)
    && file[..HEADER] == MAGIC + Encoded(s.durationS * 100, 8)
  }

  ghost predicate RowOk(file: Bytes, s: Source, i: nat)
    requires Offset(i + 1) <= |file|
  {
    RecordOk(RecordAt(file, i), i, s)
  }

  ghost predicate RowsOk(file: Bytes, s: Source, from: nat, to: nat)
    requires Offset(to) <= |file|
  {
    forall i :: from <= i < to ==> RowOk(file, s, i)
  }

  ghost predicate Accepted(file: Bytes, s: Source) {
    ShapeOk(file, s) && RowsOk(file, s, 0, s.commands)
  }

  lemma {:induction false} RowsOn(file: Bytes, s: Source, from: nat, to: nat)
    requires from <= to && Offset(to + 1) <= |file| && RowsOk(file, s, from, to) && RowOk(file, s, to)
    ensures RowsOk(file, s, from, to + 1)
  {
  }

  /** Good rows up to the middle make the whole good exactly when the rest is. */
  lemma {:induction false} RowsJoin(file: Bytes, s: Source, middle: nat, next: nat, end: nat)
    requires middle <= next <= end && Offset(end) <= |file| && RowsOk(file, s, 0, middle)
    ensures RowsOk(file, s, middle, next) <==> RowsOk(file, s, 0, next)
    ensures !RowsOk(file, s, middle, next) ==> !RowsOk(file, s, 0, end)
  {
    if RowsOk(file, s, middle, next) {
      forall i | 0 <= i < next
        ensures RowOk(file, s, i)
      {
        if i >= middle {
          assert RowOk(file, s, i);
        }
      }
    } else {
      var i :| middle <= i < next && !RowOk(file, s, i);
      assert !RowOk(file, s, i);
    }
  }

  datatype Bound = Bound(commands: nat, prefixBytes: nat, digest: string, maximum: nat)

  /** The largest of the first `n` acknowledged sequences. */
  ghost function Largest(file: Bytes, n: nat): nat
    requires Offset(n) <= |file|
  {
    if n == 0 then 0 else Max(Largest(file, n - 1), RecordAt(file, n - 1).sequence)
  }

  lemma {:induction false} LargestIsMaximum(file: Bytes, n: nat, i: nat)
    requires Offset(n) <= |file| && i < n
    ensures RecordAt(file, i).sequence <= Largest(file, n)
    ensures Largest(file, n) > 0 ==> exists j :: 0 <= j < n && RecordAt(file, j).sequence == Largest(file, n)
    decreases n
  {
    if i < n - 1 {
      LargestIsMaximum(file, n - 1, i);
    } else if n > 1 {
      LargestIsMaximum(file, n - 1, 0);
    }
    assert Largest(file, n) == Largest(file, n - 1) || Largest(file, n) == RecordAt(file, n - 1).sequence;
  }

  /** A row cut from a chunk is the file's row. */
  lemma {:induction false} ChunkRow(file: Bytes, ordinal: nat, count: nat, k: nat)
    requires k < count && Offset(ordinal + count) <= |file|
    ensures var chunk := file[Offset(ordinal)..Offset(ordinal + count)];
            && k * 32 + 32 <= |chunk| && chunk[k * 32..k * 32 + 32] == RowBytes(file, ordinal + k)
  {
    var from, to := Offset(ordinal), Offset(ordinal + count);
    var cut, row := file[from..to][k * 32..k * 32 + 32], RowBytes(file, ordinal + k);
    assert |cut| == |row| == 32;
    forall q | 0 <= q < 32
      ensures cut[q] == row[q]
    {
      assert cut[q] == file[from..to][k * 32 + q] == file[from + (k * 32 + q)];
      assert row[q] == file[Offset(ordinal + k) + q];
    }
  }

  lemma {:induction false} Feed(file: Bytes, from: nat, to: nat)
    requires from <= to && Offset(to) <= |file|
    ensures Offset(from) <= Offset(to) && Pread(file, (to - from) * 32, Offset(from)) == file[Offset(from)..Offset(to)]
    ensures file[..Offset(from)] + file[Offset(from)..Offset(to)] == file[..Offset(to)]
  {
  }

  /** The rows of one chunk, checked in order. */
  method CheckChunk(file: Bytes, chunk: Bytes, ordinal: nat, count: nat, s: Source, before: nat)
    returns (ok: bool, maximum: nat)
    requires Offset(ordinal + count) <= |file|
    requires chunk == file[Offset(ordinal)..Offset(ordinal + count)]
    requires before == Largest(file, ordinal)
    ensures ok <==> RowsOk(file, s, ordinal, ordinal + count)
    ensures ok ==> maximum == Largest(file, ordinal + count)
  {
    maximum := before;
    for k := 0 to count
      invariant RowsOk(file, s, ordinal, ordinal + k)
      invariant maximum == Largest(file, ordinal + k)
    {
      ChunkRow(file, ordinal, count, k);
      var row := Decoded(chunk[k * 32..k * 32 + 32]);
      assert row == RecordAt(file, ordinal + k);
      if !RecordOk(row, ordinal + k, s) {
        assert !RowOk(file, s, ordinal + k);
        return false, maximum;
      }
      RowsOn(file, s, ordinal, ordinal + k);
      maximum := Max(maximum, row.sequence);
    }
    ok := true;
  }

  /** What has been read before record `ordinal`. */
  ghost predicate Digested(file: Bytes, s: Source, ordinal: nat, fed: Bytes, maximum: nat) {
    Offset(ordinal) <= |file| && fed == file[..Offset(ordinal)] && maximum == Largest(file, ordinal)
    && RowsOk(file, s, 0, ordinal)
  }

  /** The records from one ordinal to the next, read, checked and digested at once. */
  method ReadChunk(file: Bytes, s: Source, ordinal: nat, next: nat, fed: Bytes, before: nat)
    returns (ok: bool, more: Bytes, maximum: nat)
    requires ordinal <= next <= s.commands && Offset(s.commands) <= |file| && Digested(file, s, ordinal, fed, before)
    ensures if ok then Digested(file, s, next, more, maximum) else !RowsOk(file, s, 0, s.commands)
  {
    var chunk := Pread(file, (next - ordinal) * 32, Offset(ordinal));
    Feed(file, ordinal, next);
    RowsJoin(file, s, ordinal, next, s.commands);
    more := fed + chunk;
    ok, maximum := CheckChunk(file, chunk, ordinal, next - ordinal, s, before);
  }

  /** The header and then the records in chunks of 2048. */
  method BindRecords(file: Bytes, s: Source, sha: Bytes -> string) returns (ok: bool, digest: string, maximum: nat)
    requires 0 <= s.commands && Offset(s.commands) <= |file|
    ensures ok <==> RowsOk(file, s, 0, s.commands)
    ensures ok ==> digest == sha(file[..Offset(s.commands)]) && maximum == Largest(file, s.commands)
  {
    var fed, ordinal := Pread(file, HEADER, 0), 0;
    maximum, digest := 0, "";
    while ordinal < s.commands
      invariant 0 <= ordinal <= s.commands && Digested(file, s, ordinal, fed, maximum)
      decreases s.commands - ordinal
    {
      var next := ordinal + Min(RECORDS, s.commands - ordinal);
      ok, fed, maximum := ReadChunk(file, s, ordinal, next, fed, maximum);
      if !ok {
        return;
      }
      ordinal := next;
    }
    ok, digest := true, sha(fed);
  }

  method Bind(file: Bytes, s: Source, sha: Bytes -> string) returns (bound: Option<Bound>)
    ensures bound.Some? <==> Accepted(file, s)
    ensures bound.Some? ==>
              && bound.value.commands == s.commands && bound.value.prefixBytes == Offset(s.commands) <= |file|
              && bound.value.digest == sha(file[..bound.value.prefixBytes])
              && bound.value.maximum == Largest(file, s.commands)
  {
    if !ShapeOk(file, s) {
      return None;
    }
    var ok, digest, maximum := BindRecords(file, s, sha);
    bound := if ok then Some(Bound(s.commands, Offset(s.commands), digest, maximum)) else None;
  }

  /** Digests the first `size` bytes in chunks of one mebibyte; a short read is refused. */
  method HashPrefix(file: Bytes, size: nat, sha: Bytes -> string) returns (digest: Option<string>)
    ensures digest.Some? <==> size <= |file|
    ensures digest.Some? ==> digest.value == sha(file[..size])
  {
    var fed: Bytes := [];
    var offset := 0;
    while offset < size
      invariant 0 <= offset && |fed| == Min(offset, size) <= |file| && fed == file[..Min(offset, size)]
      decreases size - offset
    {
      var wanted := Min(CHUNK, size - offset);
      var chunk := Pread(file, wanted, offset);
      if |chunk| != wanted {
        return None;
      }
      fed, offset := fed + chunk, offset + CHUNK;
    }
    return Some(sha(fed));
  }

  // --- the pinned file -----------------------------------------------------

  /** A file as the system reports it, with what it holds. */
  datatype Inode = Inode(device: nat, number: nat, modifiedNs: nat, changedNs: nat, links: nat, regular: bool,
                         content: Bytes)

  /** What is compared of a file from one look to the next. */
  datatype Stamp = Stamp(device: nat, number: nat, size: nat, modifiedNs: nat, changedNs: nat)

  function StampOf(i: Inode): Stamp {
    Stamp(i.device, i.number, |i.content|, i.modifiedNs, i.changedNs)
  }

  /**
   * One look at the pinned file: through its descriptor, by its name, and whether both
   * directories are still the same.
   */
  datatype Look = Look(held: Inode, named: Inode, directories: bool)

  predicate Pinned(stamp: Stamp, look: Look) {
    && look.directories && look.held.links == look.named.links == 1 && look.named.regular
    && StampOf(look.held) == StampOf(look.named) == stamp
  }

  /**
   * Binding reads the opened file and ends with a look; `opens` says the file could be opened
   * and is the owner's own.
   */
  datatype Opening = Opening(file: Inode, opens: bool, checkpoints: bool, look: Look)

  ghost predicate Binds(o: Opening, s: Source) {
    && o.opens && o.file.regular && o.file.links == 1 && Accepted(o.file.content, s) && o.checkpoints
    && Pinned(StampOf(o.file), o.look)
  }

  /** A later check: a look, the bytes the descriptor then yields, and another look. */
  datatype Visit = Visit(before: Look, read: Bytes, checkpoints: bool, after: Look)

  /** The prefix still stands: the file itself was not touched, and its first bytes have the bound digest. */
  ghost predicate Stands(b: Bound, stamp: Stamp, commands: int, v: Visit, sha: Bytes -> string) {
    && Pinned(stamp, v.before) && Pinned(stamp, v.after) && v.checkpoints
    && commands == b.commands && b.prefixBytes <= |v.read| && sha(v.read[..b.prefixBytes]) == b.digest
  }

  /** A refusal, at binding or later, fails the prefix for good. */
  class AcknowledgedPrefix {
    var failed: bool
    var stamp: Stamp
    var bound: Bound

    constructor (o: Opening, s: Source, sha: Bytes -> string)
      ensures !failed <==> Binds(o, s)
      ensures !failed ==>
                && stamp == StampOf(o.file) && bound.commands == s.commands
                && bound.prefixBytes == Offset(s.commands) <= |o.file.content|
                && bound.digest == sha(o.file.content[..bound.prefixBytes])
                && bound.maximum == Largest(o.file.content, s.commands)
    {
      failed, stamp, bound := true, StampOf(o.file), Bound(0, 0, "", 0);
      new;
      if o.opens && o.file.regular && o.file.links == 1 && o.checkpoints {
        var found := Bind(o.file.content, s, sha);
        if found.Some? && Pinned(stamp, o.look) {
          failed, bound := false, found.value;
        }
      }
    }

    method VerifyPrefix(commands: int, v: Visit, sha: Bytes -> string) returns (ok: bool)
      modifies this`failed
      ensures ok <==> !old(failed) && Stands(bound, stamp, commands, v, sha)
      ensures failed == !ok
    {
      ok := false;
      if !failed && Pinned(stamp, v.before) && commands == bound.commands && v.checkpoints {
        var digest := HashPrefix(v.read, bound.prefixBytes, sha);
        ok := digest == Some(bound.digest) && Pinned(stamp, v.after);
      }
      failed := !ok;
    }
  }

  /**
   * Different chunks, same digest. A bound prefix verifies exactly when both looks find the
   * very file that was bound and its first bytes digest as they did. So the untouched file
   * always verifies, and one that was appended to, replaced or linked never does.
   */
  method BindThenVerify(o: Opening, s: Source, v: Visit, sha: Bytes -> string) returns (bound: bool, ok: bool)
    ensures bound <==> Binds(o, s)
    ensures bound ==> Offset(s.commands) <= |o.file.content|
    ensures ok <==> && bound && Pinned(StampOf(o.file), v.before) && Pinned(StampOf(o.file), v.after) && v.checkpoints
                    && Offset(s.commands) <= |v.read|
                    && sha(v.read[..Offset(s.commands)]) == sha(o.file.content[..Offset(s.commands)])
    ensures bound && v == Visit(Look(o.file, o.file, true), o.file.content, true, Look(o.file, o.file, true)) ==> ok
    ensures ok ==> && |v.before.held.content| == |v.before.named.content| == |o.file.content|
                   && v.before.named.number == o.file.number && v.before.named.links == 1
  {
    var prefix := new AcknowledgedPrefix(o, s, sha);
    bound, ok := !prefix.failed, false;
    if bound {
      ok := prefix.VerifyPrefix(s.commands, v, sha);
    }
  }

  // --- what an accepted prefix says ----------------------------------------

  /** Ordinals are 0..n-1 in order; the recorded maximum is attained, bounds every row and stays within the frontier. */
  lemma {:induction false} AcceptedMeans(file: Bytes, s: Source, i: nat)
    requires Accepted(file, s) && i < s.commands
    ensures Offset(s.commands) <= |file|
    ensures RecordAt(file, i).ordinal == i && RecordAt(file, i).sequence <= Largest(file, s.commands) <= s.frontier
    ensures exists j :: 0 <= j < s.commands && RecordAt(file, j).sequence == Largest(file, s.commands)
  {
    LargestIsMaximum(file, s.commands, i);
    assert RowOk(file, s, i);
    var j :| 0 <= j < s.commands && RecordAt(file, j).sequence == Largest(file, s.commands);
    assert RowOk(file, s, j);
  }

  ghost function Sequences(file: Bytes, n: nat): set<nat>
    requires Offset(n) <= |file|
  {
    if n == 0 then {} else Sequences(file, n - 1) + {RecordAt(file, n - 1).sequence}
  }

  ghost predicate Distinct(file: Bytes, n: nat)
    requires Offset(n) <= |file|
  {
    forall i, j :: 0 <= i < j < n ==> RecordAt(file, i).sequence != RecordAt(file, j).sequence
  }

  lemma {:induction false} SequenceOf(file: Bytes, n: nat, x: nat) returns (i: nat)
    requires Offset(n) <= |file| && x in Sequences(file, n)
    ensures i < n && RecordAt(file, i).sequence == x
    decreases n
  {
    if x == RecordAt(file, n - 1).sequence {
      i := n - 1;
    } else {
      i := SequenceOf(file, n - 1, x);
    }
  }

  lemma {:induction false} SequencesCounted(file: Bytes, n: nat)
    requires Offset(n) <= |file| && Distinct(file, n)
    ensures |Sequences(file, n)| == n
    decreases n
  {
    if n > 0 {
      SequencesCounted(file, n - 1);
      var last := RecordAt(file, n - 1).sequence;
      if last in Sequences(file, n - 1) {
        var i := SequenceOf(file, n - 1, last);
        assert false;
      }
    }
  }

  lemma {:induction false} FewBelow(s: set<nat>, limit: nat)
    requires forall x :: x in s ==> 0 < x <= limit
    ensures |s| <= limit
    decreases limit
  {
    if limit == 0 {
      assert s == {};
    } else {
      FewBelow(s - {limit}, limit - 1);
      assert |s| <= |s - {limit}| + 1;
    }
  }

  /** If no commit sequence acknowledged two commands, there are no more commands than the frontier. */
  lemma {:induction false} DistinctWithinFrontier(file: Bytes, s: Source)
    requires Accepted(file, s) && Offset(s.commands) <= |file| && Distinct(file, s.commands)
    ensures s.commands <= s.frontier
  {
    SequencesCounted(file, s.commands);
    forall x | x in Sequences(file, s.commands)
      ensures 0 < x <= s.frontier
    {
      var i := SequenceOf(file, s.commands, x);
      assert RowOk(file, s, i);
    }
    FewBelow(Sequences(file, s.commands), s.frontier);
  }

  ghost function Power(width: nat): nat {
    if width == 0 then 1 else 256 * Power(width - 1)
  }

  /** The header's count survives its encoding. */
  lemma {:induction false} EncodedNumber(n: nat, width: nat)
    requires n < Power(width)
    ensures |Encoded(n, width)| == width && Number(Encoded(n, width)) == n
    decreases width
  {
    if width > 0 {
      EncodedNumber(n / 256, width - 1);
      var e := Encoded(n, width);
      assert e[..|e| - 1] == Encoded(n / 256, width - 1);
    }
  }

  /** The most significant byte comes first. */
  lemma {:induction false} NumberFromFirst(bs: Bytes)
    requires |bs| > 0
    ensures Number(bs) == bs[0] as int * Power(|bs| - 1) + Number(bs[1..])
    decreases |bs|
  {
    var n := |bs| - 1;
    if n == 0 {
      assert |bs[..0]| == 0 && |bs[1..]| == 0;
    } else {
      var front := bs[..n];
      NumberFromFirst(front);
      assert front[0] == bs[0] && bs[1..][..n - 1] == front[1..] && bs[1..][n - 1] == bs[n];
      assert Power(n) == 256 * Power(n - 1);
    }
  }

  // --- the file as the workers write it ------------------------------------

  predicate Fits(r: Record) {
    U64(r.ordinal) && U64(r.sequence) && U64(r.contract) && U64(r.history)
  }

  /** One row: ordinal, commit sequence, contract version and history incarnation, eight bytes each. */
  ghost function Row(r: Record): Bytes {
    Encoded(r.ordinal, 8) + Encoded(r.sequence, 8) + Encoded(r.contract, 8) + Encoded(r.history, 8)
  }

  ghost function Laid(rows: seq<Bytes>): Bytes {
    if |rows| == 0 then [] else Laid(rows[..|rows| - 1]) + rows[|rows| - 1]
  }

  ghost function Rows(records: seq<Record>): (rows: seq<Bytes>)
    ensures |rows| == |records| && forall i :: 0 <= i < |records| ==> rows[i] == Row(records[i])
  {
    seq(|records|, i requires 0 <= i < |records| => Row(records[i]))
  }

  ghost function Header(count: nat): Bytes {
    MAGIC + Encoded(count, 8)
  }

  /** A witness file with room for `count` rows. */
  ghost function Written(count: nat, records: seq<Record>): Bytes {
    Header(count) + Laid(Rows(records))
  }

  lemma {:induction false} EightBytes(n: nat)
    requires U64(n)
    ensures |Encoded(n, 8)| == 8 && Number(Encoded(n, 8)) == n
  {
    assert Power(4) == 256 * 256 * 256 * 256;
    assert Power(8) == 256 * (256 * (256 * (256 * Power(4))));
    EncodedNumber(n, 8);
  }

  lemma {:induction false} RowDecodes(r: Record)
    requires Fits(r)
    ensures |Row(r)| == 32 && Decoded(Row(r)) == r
  {
    EightBytes(r.ordinal);
    EightBytes(r.sequence);
    EightBytes(r.contract);
    EightBytes(r.history);
    var row := Row(r);
    assert row[0..8] == Encoded(r.ordinal, 8) && row[8..16] == Encoded(r.sequence, 8);
    assert row[16..24] == Encoded(r.contract, 8) && row[24..32] == Encoded(r.history, 8);
  }

  lemma {:induction false} LaidLength(rows: seq<Bytes>)
    requires forall j :: 0 <= j < |rows| ==> |rows[j]| == 32
    ensures |Laid(rows)| == 32 * |rows|
    decreases |rows|
  {
    if |rows| > 0 {
      LaidLength(rows[..|rows| - 1]);
    }
  }

  lemma {:induction false} LaidAt(rows: seq<Bytes>, i: nat, from: nat)
    requires i < |rows| && from == 32 * i && forall j :: 0 <= j < |rows| ==> |rows[j]| == 32
    ensures from + 32 <= |Laid(rows)| && Laid(rows)[from..from + 32] == rows[i]
    decreases |rows|
  {
    var n := |rows| - 1;
    var front, last := rows[..n], rows[n];
    LaidLength(rows);
    LaidLength(front);
    assert Laid(rows) == Laid(front) + last;
    if i < n {
      LaidAt(front, i, from);
      assert (Laid(front) + last)[from..from + 32] == Laid(front)[from..from + 32];
    } else {
      assert (Laid(front) + last)[from..from + 32] == last;
    }
  }

  lemma {:induction false} RowAfterHeader(file: Bytes, header: Bytes, body: Bytes, i: nat, from: nat)
    requires file == header + body && |header| == HEADER && from == 32 * i && from + 32 <= |body|
    ensures Offset(i + 1) <= |file| && RowBytes(file, i) == body[from..from + 32]
  {
    assert Offset(i) == 16 + from && Offset(i + 1) == 16 + from + 32;
    assert file[16 + from..16 + from + 32] == body[from..from + 32];
  }

  lemma {:induction false} HeaderSized(count: nat)
    requires U64(count)
    ensures |Header(count)| == HEADER
  {
    EightBytes(count);
  }

  lemma {:induction false} RowsSized(records: seq<Record>)
    requires forall j :: 0 <= j < |records| ==> Fits(records[j])
    ensures forall j :: 0 <= j < |records| ==> |Rows(records)[j]| == 32
  {
    forall j | 0 <= j < |records|
      ensures |Rows(records)[j]| == 32
    {
      RowDecodes(records[j]);
    }
  }

  lemma {:induction false} ReadAt(file: Bytes, header: Bytes, rows: seq<Bytes>, i: nat)
    requires file == header + Laid(rows) && |header| == HEADER && i < |rows|
    requires forall j :: 0 <= j < |rows| ==> |rows[j]| == 32
    ensures Offset(i + 1) <= Offset(|rows|) == |file| && RowBytes(file, i) == rows[i]
  {
    LaidLength(rows);
    LaidAt(rows, i, 32 * i);
    RowAfterHeader(file, header, Laid(rows), i, 32 * i);
  }

  /** Every record written is the record read back at its place. */
  lemma {:induction false} ReadBack(count: nat, records: seq<Record>, i: nat)
    requires U64(count) && i < |records| && forall j :: 0 <= j < |records| ==> Fits(records[j])
    ensures Offset(i + 1) <= Offset(|records|) == |Written(count, records)|
    ensures RecordAt(Written(count, records), i) == records[i]
  {
    HeaderSized(count);
    RowsSized(records);
    ReadAt(Written(count, records), Header(count), Rows(records), i);
    RowDecodes(records[i]);
  }

  ghost predicate Known(r: Record, i: nat, s: Source) {
    r.ordinal == i && 0 < r.sequence <= s.frontier && 1 <= r.contract <= s.version && 1 <= r.history <= s.incarnation
  }

  ghost predicate Reads(file: Bytes, records: seq<Record>, n: nat) {
    n <= |records| && forall i :: 0 <= i < n ==> Offset(i + 1) <= |file| && RecordAt(file, i) == records[i]
  }

  lemma {:induction false} RowsKnown(file: Bytes, records: seq<Record>, s: Source, n: nat)
    requires Offset(n) <= |file| && Reads(file, records, n)
    ensures RowsOk(file, s, 0, n) <==> forall i :: 0 <= i < n ==> Known(records[i], i, s)
  {
    if RowsOk(file, s, 0, n) {
      forall i | 0 <= i < n
        ensures Known(records[i], i, s)
      {
        assert RowOk(file, s, i);
      }
    } else {
      var i :| 0 <= i < n && !RowOk(file, s, i);
      assert !Known(records[i], i, s);
    }
  }

  lemma {:induction false} WrittenShape(records: seq<Record>, s: Source)
    requires SourceOk(s) && |records| == s.durationS * 100
    requires forall j :: 0 <= j < |records| ==> Fits(records[j])
    ensures ShapeOk(Written(|records|, records), s)
  {
    var file := Written(|records|, records);
    HeaderSized(|records|);
    RowsSized(records);
    ReadAt(file, Header(|records|), Rows(records), 0);
    assert file[..HEADER] == Header(|records|);
  }

  lemma {:induction false} ReadAllBack(file: Bytes, count: nat, records: seq<Record>, n: nat)
    requires file == Written(count, records) && U64(count) && n <= |records|
    requires forall j :: 0 <= j < |records| ==> Fits(records[j])
    ensures Reads(file, records, n)
  {
    forall i | 0 <= i < n
      ensures Offset(i + 1) <= |file| && RecordAt(file, i) == records[i]
    {
      ReadBack(count, records, i);
    }
  }

  lemma {:induction false} AcceptedIffKnown(file: Bytes, records: seq<Record>, s: Source)
    requires ShapeOk(file, s) && Reads(file, records, s.commands)
    ensures Accepted(file, s) <==> forall i :: 0 <= i < s.commands ==> Known(records[i], i, s)
  {
    RowsKnown(file, records, s, s.commands);
  }

  /** A file so written is accepted exactly when its first records are what the campaign knows them to be. */
  lemma {:induction false} WrittenAcceptedIff(file: Bytes, records: seq<Record>, s: Source)
    requires SourceOk(s) && |records| == s.durationS * 100 && file == Written(|records|, records)
    requires forall j :: 0 <= j < |records| ==> Fits(records[j])
    ensures Accepted(file, s) <==> forall i :: 0 <= i < s.commands ==> Known(records[i], i, s)
  {
    WrittenShape(records, s);
    ReadAllBack(file, |records|, records, s.commands);
    AcceptedIffKnown(file, records, s);
  }
}
