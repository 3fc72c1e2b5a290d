/**
 * Tailing a growing server log: whole lines are read once and in order, a partial
 * tail waits, and one poll takes at most one record of each component family.
 */
module LogTail {
  import opened Prelude

  const NEWLINE: Byte := 10
  const MAX_LINE := 4096
  const MAX_POLL_LINES := 64

  datatype Component = Provider | Source | Logical | Physical

  // --- lines ---------------------------------------------------------------

  const PROVIDER_PREFIX := "[riffdbd-diag] trigger=exact_provider_lifecycle "
  const SOURCE_FAMILY := "riffdb-retention-source-bytes-"
  const LOGICAL_FAMILY := "riffdb-retention-logical-bytes-"
  const PHYSICAL_FAMILY := "riffdb-retention-physical-bytes-"

  predicate StartsWith(line: Bytes, prefix: string, at: nat)
    decreases |line| - at
  {
    at >= |prefix| || (at < |line| && line[at] as int == prefix[at] as int && StartsWith(line, prefix, at + 1))
  }

  /** The first family whose prefix starts the line. */
  function Family(line: Bytes): Option<Component> {
    if StartsWith(line, PROVIDER_PREFIX, 0) then Some(Provider)
    else if StartsWith(line, SOURCE_FAMILY, 0) then Some(Source)
    else if StartsWith(line, LOGICAL_FAMILY, 0) then Some(Logical)
    else if StartsWith(line, PHYSICAL_FAMILY, 0) then Some(Physical)
    else None
  }

  predicate Begins(line: Bytes, text: string) {
    |text| <= |line| && forall k :: 0 <= k < |text| ==> line[k] as int == text[k] as int
  }

  /** What the bytes of a line say it is a record of. */
  predicate RecordOf(line: Bytes, c: Component) {
    match c
    case Provider => Begins(line, "[riffdbd-diag] trigger=exact_provider_lifecycle ")
    case Source => Begins(line, "riffdb-retention-source-bytes-")
    case Logical => Begins(line, "riffdb-retention-logical-bytes-")
    case Physical => Begins(line, "riffdb-retention-physical-bytes-")
  }

  lemma {:induction false} StartsWithIff(line: Bytes, prefix: string, at: nat)
    requires at <= |prefix| && at <= |line|
    ensures StartsWith(line, prefix, at)
            <==> |prefix| <= |line| && forall k :: at <= k < |prefix| ==> line[k] as int == prefix[k] as int
    decreases |prefix| - at
  {
    if at < |prefix| && at < |line| {
      StartsWithIff(line, prefix, at + 1);
    }
  }

  /** One byte is enough to tell the families apart. */
  function Mark(c: Component): char {
    match c
    case Provider => 'i'
    case Source => 's'
    case Logical => 'l'
    case Physical => 'p'
  }

  lemma {:induction false} MarkOf(line: Bytes, c: Component)
    requires RecordOf(line, c)
    ensures |line| > 17 && line[17] as int == Mark(c) as int
  {
    assert "[riffdbd-diag] trigger=exact_provider_lifecycle "[17] == 'i';
    assert "riffdb-retention-source-bytes-"[17] == 's';
    assert "riffdb-retention-logical-bytes-"[17] == 'l';
    assert "riffdb-retention-physical-bytes-"[17] == 'p';
  }

  lemma {:induction false} RecordOfOne(line: Bytes, a: Component, b: Component)
    requires RecordOf(line, a) && RecordOf(line, b)
    ensures a == b
  {
    MarkOf(line, a);
    MarkOf(line, b);
  }

  /** A line is taken for a record of exactly the component its first bytes name, and of none otherwise. */
  lemma {:induction false} FamilyIff(line: Bytes, c: Component)
    ensures Family(line) == Some(c) <==> RecordOf(line, c)
    ensures Family(line).None? ==> !RecordOf(line, c)
  {
    StartsWithIff(line, PROVIDER_PREFIX, 0);
    StartsWithIff(line, SOURCE_FAMILY, 0);
    StartsWithIff(line, LOGICAL_FAMILY, 0);
    StartsWithIff(line, PHYSICAL_FAMILY, 0);
    if RecordOf(line, c) && Family(line).Some? {
      RecordOfOne(line, c, Family(line).value);
    }
  }

  ghost predicate NoNewline(text: Bytes) {
    forall k :: 0 <= k < |text| ==> text[k] != NEWLINE
  }

  /** Newline-terminated, with no newline before the end. */
  ghost predicate IsLine(line: Bytes) {
    line != [] && line[|line| - 1] == NEWLINE && forall k :: 0 <= k < |line| - 1 ==> line[k] != NEWLINE
  }

  ghost predicate AllLines(lines: seq<Bytes>) {
    forall i :: 0 <= i < |lines| ==> IsLine(lines[i])
  }

  function Flatten(lines: seq<Bytes>): Bytes {
    if |lines| == 0 then [] else lines[0] + Flatten(lines[1..])
  }

  lemma {:induction false} FirstLineUnique(x: Bytes, xs: Bytes, y: Bytes, ys: Bytes)
    requires IsLine(x) && IsLine(y) && x + xs == y + ys
    ensures x == y && xs == ys
  {
    var text := x + xs;
    assert text[|x| - 1] == x[|x| - 1] && text == y + ys && text[|y| - 1] == y[|y| - 1];
    assert |x| - 1 < |y| ==> text[|x| - 1] == y[|x| - 1];
    assert |y| - 1 < |x| ==> text[|y| - 1] == x[|y| - 1];
    assert |x| == |y|;
    assert x == text[..|x|] && y == text[..|y|] && xs == text[|x|..] && ys == text[|y|..];
  }

  /** A text has at most one reading as a sequence of lines. */
  lemma {:induction false} LinesUnique(a: seq<Bytes>, b: seq<Bytes>)
    requires AllLines(a) && AllLines(b) && Flatten(a) == Flatten(b)
    ensures a == b
  {
    if a != [] && b != [] {
      FirstLineUnique(a[0], Flatten(a[1..]), b[0], Flatten(b[1..]));
      LinesUnique(a[1..], b[1..]);
      assert a == [a[0]] + a[1..] && b == [b[0]] + b[1..];
    }
  }

  lemma {:induction false} FlattenAppend(a: seq<Bytes>, b: seq<Bytes>)
    ensures Flatten(a + b) == Flatten(a) + Flatten(b)
  {
    if a == [] {
      assert a + b == b;
    } else {
      FlattenAppend(a[1..], b);
      assert (a + b)[1..] == a[1..] + b && (a + b)[0] == a[0];
      assert a[0] + (Flatten(a[1..]) + Flatten(b)) == a[0] + Flatten(a[1..]) + Flatten(b);
    }
  }

  /** Where a bounded read stops: behind the first newline, at the limit, or at the end. */
  function Cut(rest: Bytes, i: nat, limit: nat): (n: nat)
    requires i <= |rest| && i <= limit
    ensures i <= n <= |rest| && n <= limit
    decreases |rest| - i
  {
    if i == |rest| || i == limit then i else if rest[i] == NEWLINE then i + 1 else Cut(rest, i + 1, limit)
  }

  /** What one bounded read returns. */
  function ReadLine(rest: Bytes, limit: nat): (line: Bytes)
    ensures line <= rest && |line| <= limit
  {
    rest[..Cut(rest, 0, limit)]
  }

  lemma {:induction false} CutShape(rest: Bytes, i: nat, limit: nat)
    requires i <= |rest| && i < limit
    ensures var n := Cut(rest, i, limit);
            && (n == i <==> i == |rest|)
            && (forall k :: i <= k < n - 1 ==> rest[k] != NEWLINE)
            && (n > i && rest[n - 1] != NEWLINE ==> n == limit || n == |rest|)
    decreases |rest| - i
  {
    if i < |rest| && rest[i] != NEWLINE && i + 1 < limit {
      CutShape(rest, i + 1, limit);
    }
  }

  lemma {:induction false} ReadLineShape(rest: Bytes, limit: nat)
    requires limit > 0
    ensures var line := ReadLine(rest, limit);
            && (line == [] <==> rest == [])
            && (line != [] && line[|line| - 1] == NEWLINE ==> IsLine(line))
            && (line != [] && line[|line| - 1] != NEWLINE ==> NoNewline(line) && (|line| == limit || line == rest))
  {
    CutShape(rest, 0, limit);
    assert rest[..|rest|] == rest;
  }

  // --- one poll ------------------------------------------------------------

  /** Why a poll stopped. */
  datatype End = Eof | Partial(bytes: nat) | Repeat | OverBound

  datatype Scan = Scan(lines: seq<Bytes>, offset: nat, end: End)

  /** Why a read ends the poll, if it does. */
  function StopOf(line: Bytes, seen: set<Component>, index: nat): Option<End> {
    if |line| == 0 then Some(Eof)
    else if index >= MAX_POLL_LINES || |line| > MAX_LINE then Some(OverBound)
    else if line[|line| - 1] != NEWLINE then Some(Partial(|line|))
    else if Family(line).Some? && Family(line).value in seen then Some(Repeat)
    else None
  }

  function More(seen: set<Component>, line: Bytes): set<Component> {
    if Family(line).Some? then seen + {Family(line).value} else seen
  }

  /** The poll's read loop from its `index`th read on. */
  function ScanFrom(content: Bytes, offset: nat, seen: set<Component>, index: nat): (scan: Scan)
    requires offset <= |content| && index <= MAX_POLL_LINES
    ensures offset <= scan.offset <= |content|
    decreases MAX_POLL_LINES - index
  {
    var line := ReadLine(content[offset..], MAX_LINE + 1);
    var stop := StopOf(line, seen, index);
    if stop.Some? then Scan([], offset, stop.value)
    else
      var rest := ScanFrom(content, offset + |line|, More(seen, line), index + 1);
      Scan([line] + rest.lines, rest.offset, rest.end)
  }

  /** No component has two records, nor any when it was already seen. */
  ghost predicate OnePerFamily(lines: seq<Bytes>, seen: set<Component>) {
    && (forall i, c :: 0 <= i < |lines| && RecordOf(lines[i], c) ==> c !in seen)
    && (forall i, j, c :: 0 <= i < j < |lines| && RecordOf(lines[i], c) ==> !RecordOf(lines[j], c))
  }

  /** The lines are the bytes passed over, and the end says what is left. */
  ghost predicate ExactText(content: Bytes, offset: nat, scan: Scan)
    requires offset <= scan.offset <= |content|
  {
    && AllLines(scan.lines)
    && Flatten(scan.lines) == content[offset..scan.offset]
    && (scan.end == Eof ==> scan.offset == |content|)
    && (scan.end.Partial? ==> 0 < scan.end.bytes <= MAX_LINE && scan.offset + scan.end.bytes == |content|
                              && NoNewline(content[scan.offset..]))
  }

  /** What a poll that does not refuse has read. */
  ghost predicate ExactScan(content: Bytes, offset: nat, seen: set<Component>, scan: Scan)
    requires offset <= scan.offset <= |content|
  {
    && ExactText(content, offset, scan)
    && OnePerFamily(scan.lines, seen)
    && (scan.end == Repeat && seen == {} ==> scan.lines != [])
  }

  /** A scan that takes nothing stops where it is. */
  lemma {:induction false} ScanStops(content: Bytes, offset: nat, seen: set<Component>, index: nat, line: Bytes)
    requires offset <= |content| && index <= MAX_POLL_LINES && line == ReadLine(content[offset..], MAX_LINE + 1)
    requires |ScanFrom(content, offset, seen, index).lines| == 0
    ensures var scan := ScanFrom(content, offset, seen, index);
            && scan.offset == offset && StopOf(line, seen, index) == Some(scan.end)
            && (scan.end == Eof ==> |line| == 0) && (scan.end == Repeat ==> seen != {})
            && (scan.end.Partial? ==> 0 < |line| == scan.end.bytes <= MAX_LINE && line[|line| - 1] != NEWLINE)
  {
  }

  /** Otherwise it takes one line and goes on behind it. */
  lemma {:induction false} ScanGoesOn(content: Bytes, offset: nat, seen: set<Component>, index: nat, line: Bytes)
    requires offset <= |content| && index <= MAX_POLL_LINES && line == ReadLine(content[offset..], MAX_LINE + 1)
    requires |ScanFrom(content, offset, seen, index).lines| > 0
    ensures 0 < |line| <= MAX_LINE && line[|line| - 1] == NEWLINE && index < MAX_POLL_LINES
            && offset + |line| <= |content|
    ensures StopOf(line, seen, index).None?
    ensures var rest := ScanFrom(content, offset + |line|, More(seen, line), index + 1);
            ScanFrom(content, offset, seen, index) == Scan([line] + rest.lines, rest.offset, rest.end)
  {
  }

  lemma {:induction false} StopText(content: Bytes, offset: nat, line: Bytes, scan: Scan)
    requires scan.offset == offset <= |content| && line == ReadLine(content[offset..], MAX_LINE + 1)
             && |scan.lines| == 0
    requires scan.end == Eof ==> |line| == 0
    requires scan.end.Partial? ==> 0 < |line| == scan.end.bytes <= MAX_LINE && line[|line| - 1] != NEWLINE
    ensures ExactText(content, offset, scan)
  {
    ReadLineShape(content[offset..], MAX_LINE + 1);
    assert content[offset..offset] == [];
  }

  lemma {:induction false} ExactTextCons(content: Bytes, offset: nat, line: Bytes, rest: Scan)
    requires offset + |line| <= rest.offset <= |content|
    requires IsLine(line) && line <= content[offset..] && ExactText(content, offset + |line|, rest)
    ensures ExactText(content, offset, Scan([line] + rest.lines, rest.offset, rest.end))
  {
    var lines := [line] + rest.lines;
    assert lines[1..] == rest.lines;
    assert content[offset..rest.offset] == line + content[offset + |line|..rest.offset];
  }

  lemma {:induction false} ScanReadsLines(content: Bytes, offset: nat, seen: set<Component>, index: nat)
    requires offset <= |content| && index <= MAX_POLL_LINES
    ensures ExactText(content, offset, ScanFrom(content, offset, seen, index))
    decreases MAX_POLL_LINES - index
  {
    var line := ReadLine(content[offset..], MAX_LINE + 1);
    var scan := ScanFrom(content, offset, seen, index);
    if |scan.lines| == 0 {
      ScanStops(content, offset, seen, index, line);
      StopText(content, offset, line, scan);
    } else {
      ScanGoesOn(content, offset, seen, index, line);
      ReadLineShape(content[offset..], MAX_LINE + 1);
      var rest := ScanFrom(content, offset + |line|, More(seen, line), index + 1);
      ScanReadsLines(content, offset + |line|, More(seen, line), index + 1);
      ExactTextCons(content, offset, line, rest);
    }
  }

  lemma {:induction false} NoneOfFamily(lines: seq<Bytes>, seen: set<Component>)
    requires |lines| == 0
    ensures OnePerFamily(lines, seen)
  {
  }

  lemma {:induction false} OnePerFamilyCons(line: Bytes, rest: seq<Bytes>, seen: set<Component>, more: set<Component>)
    requires more == if Family(line).Some? then seen + {Family(line).value} else seen
    requires Family(line).Some? ==> Family(line).value !in seen
    requires OnePerFamily(rest, more)
    ensures OnePerFamily([line] + rest, seen)
  {
    forall c: Component
      ensures Family(line) == Some(c) <==> RecordOf(line, c)
    {
      FamilyIff(line, c);
    }
  }

  lemma {:induction false} ScanTakesOnePerFamily(content: Bytes, offset: nat, seen: set<Component>, index: nat)
    requires offset <= |content| && index <= MAX_POLL_LINES
    ensures OnePerFamily(ScanFrom(content, offset, seen, index).lines, seen)
    decreases MAX_POLL_LINES - index
  {
    var line := ReadLine(content[offset..], MAX_LINE + 1);
    var lines := ScanFrom(content, offset, seen, index).lines;
    if |lines| == 0 {
      NoneOfFamily(lines, seen);
    } else {
      ScanGoesOn(content, offset, seen, index, line);
      var rest := ScanFrom(content, offset + |line|, More(seen, line), index + 1).lines;
      ScanTakesOnePerFamily(content, offset + |line|, More(seen, line), index + 1);
      OnePerFamilyCons(line, rest, seen, More(seen, line));
    }
  }

  lemma {:induction false} ScanIsExact(content: Bytes, offset: nat, seen: set<Component>, index: nat)
    requires offset <= |content| && index <= MAX_POLL_LINES
    ensures ExactScan(content, offset, seen, ScanFrom(content, offset, seen, index))
  {
    ScanReadsLines(content, offset, seen, index);
    ScanTakesOnePerFamily(content, offset, seen, index);
    if |ScanFrom(content, offset, seen, index).lines| == 0 {
      ScanStops(content, offset, seen, index, ReadLine(content[offset..], MAX_LINE + 1));
    }
  }

  ghost predicate StillToRead(content: Bytes, offset: nat, seen: set<Component>, index: nat, rest: Scan) {
    offset <= |content| && index <= MAX_POLL_LINES && rest == ScanFrom(content, offset, seen, index)
  }

  ghost predicate Resumes(whole: Scan, lines: seq<Bytes>, rest: Scan) {
    whole.lines == lines + rest.lines && whole.offset == rest.offset && whole.end == rest.end
  }

  lemma {:induction false} ReadOn(content: Bytes, offset: nat, seen: set<Component>, index: nat, line: Bytes,
                                  whole: Scan, lines: seq<Bytes>, rest: Scan) returns (after: Scan)
    requires StillToRead(content, offset, seen, index, rest) && Resumes(whole, lines, rest)
    requires line == ReadLine(content[offset..], MAX_LINE + 1) && StopOf(line, seen, index).None?
    ensures index < MAX_POLL_LINES && StillToRead(content, offset + |line|, More(seen, line), index + 1, after)
    ensures Resumes(whole, lines + [line], after)
  {
    after := ScanFrom(content, offset + |line|, More(seen, line), index + 1);
    assert rest == Scan([line] + after.lines, after.offset, after.end);
    assert lines + ([line] + after.lines) == (lines + [line]) + after.lines;
  }

  /** The read loop itself, from any point of a poll. */
  method ReadLines(content: Bytes, from: nat, already: set<Component>, first: nat) returns (scan: Scan)
    requires from <= |content| && first <= MAX_POLL_LINES
    ensures scan == ScanFrom(content, from, already, first)
  {
    var lines: seq<Bytes> := [];
    var offset: nat, seen: set<Component>, index: nat := from, already, first;
    ghost var whole := ScanFrom(content, from, already, first);
    ghost var rest := whole;
    while true
      invariant StillToRead(content, offset, seen, index, rest) && Resumes(whole, lines, rest)
      decreases MAX_POLL_LINES - index
    {
      var line := ReadLine(content[offset..], MAX_LINE + 1);
      var stop := StopOf(line, seen, index);
      if stop.Some? {
        return Scan(lines, offset, stop.value);
      }
      rest := ReadOn(content, offset, seen, index, line, whole, lines, rest);
      lines, offset, seen, index := lines + [line], offset + |line|, More(seen, line), index + 1;
    }
  }

  // --- any interleaving of appends and polls ------------------------------

  datatype Event = Append(bytes: Bytes) | PollTail

  /** The file, the reader's place in it, and every line handed on so far. */
  datatype Tail = Tail(content: Bytes, offset: nat, consumed: seq<Bytes>)

  function Advance(t: Tail, e: Event): Option<Tail>
    requires t.offset <= |t.content|
  {
    match e
    case Append(bytes) => Some(t.(content := t.content + bytes))
    case PollTail =>
      var scan := ScanFrom(t.content, t.offset, {}, 0);
      if scan.end == OverBound then None
      else Some(t.(offset := scan.offset, consumed := t.consumed + scan.lines))
  }

  ghost predicate ExactlyOnce(t: Tail, bound: nat) {
    && bound <= t.offset <= |t.content|
    && AllLines(t.consumed)
    && Flatten(t.consumed) == t.content[bound..t.offset]
  }

  lemma {:induction false} ExtendText(content: Bytes, bound: nat, offset: nat, lines: seq<Bytes>, scan: Scan)
    requires bound <= offset <= scan.offset <= |content| && ExactText(content, offset, scan)
    requires AllLines(lines) && Flatten(lines) == content[bound..offset]
    ensures AllLines(lines + scan.lines)
    ensures Flatten(lines + scan.lines) == content[bound..scan.offset]
    ensures scan.lines != [] ==> scan.offset > offset
  {
    FlattenAppend(lines, scan.lines);
    assert content[bound..scan.offset] == content[bound..offset] + content[offset..scan.offset];
    if scan.lines != [] {
      assert IsLine(scan.lines[0]) && |Flatten(scan.lines)| >= 1;
    }
  }

  function Follow(t: Tail, events: seq<Event>): Option<Tail>
    requires t.offset <= |t.content|
    decreases |events|
  {
    if |events| == 0 then Some(t)
    else
      var next := Advance(t, events[0]);
      if next.None? then None else Follow(next.value, events[1..])
  }

  /**
   * Nothing is lost, repeated or reordered: after any interleaving of appends and
   * accepted polls, the lines handed on are precisely the whole lines of the bytes
   * between the binding offset and the reader's place.
   */
  lemma {:induction false} TailIsExactlyOnce(t: Tail, bound: nat, events: seq<Event>)
    requires ExactlyOnce(t, bound) && Follow(t, events).Some?
    ensures ExactlyOnce(Follow(t, events).value, bound)
    ensures t.consumed <= Follow(t, events).value.consumed
    ensures t.content <= Follow(t, events).value.content
    decreases |events|
  {
    if events != [] {
      var next := Advance(t, events[0]).value;
      assert ExactlyOnce(next, bound) && t.consumed <= next.consumed && t.content <= next.content by {
        match events[0]
        case Append(bytes) =>
          assert next.content[bound..t.offset] == t.content[bound..t.offset];
        case PollTail =>
          ScanIsExact(t.content, t.offset, {}, 0);
          ExtendText(t.content, bound, t.offset, t.consumed, ScanFrom(t.content, t.offset, {}, 0));
      }
      TailIsExactlyOnce(next, bound, events[1..]);
    }
  }

  /** The line at this place is longer than any line may be. */
  ghost predicate TooLong(content: Bytes, offset: nat) {
    offset + MAX_LINE < |content| && NoNewline(content[offset..offset + MAX_LINE])
  }

  /** A poll goes over its bound at a line that is too long, or with more to read after its last line. */
  lemma {:induction false} OverBoundMeans(content: Bytes, offset: nat, seen: set<Component>, index: nat)
    requires offset <= |content| && index <= MAX_POLL_LINES && ScanFrom(content, offset, seen, index).end == OverBound
    ensures var scan := ScanFrom(content, offset, seen, index);
            TooLong(content, scan.offset) || (scan.offset < |content| && index + |scan.lines| == MAX_POLL_LINES)
    decreases MAX_POLL_LINES - index
  {
    var line := ReadLine(content[offset..], MAX_LINE + 1);
    if |ScanFrom(content, offset, seen, index).lines| == 0 {
      ScanStops(content, offset, seen, index, line);
      CutShape(content[offset..], 0, MAX_LINE + 1);
      if |line| > MAX_LINE {
        var head := content[offset..offset + MAX_LINE];
        forall k | 0 <= k < |head|
          ensures head[k] != NEWLINE
        {
          assert content[offset..][k] == head[k];
        }
      }
    } else {
      ScanGoesOn(content, offset, seen, index, line);
      OverBoundMeans(content, offset + |line|, More(seen, line), index + 1);
    }
  }

  /** The last poll read as many lines as a poll may, none of them a second of its family. */
  ghost predicate FullPoll(lines: seq<Bytes>) {
    |lines| >= MAX_POLL_LINES && OnePerFamily(lines[|lines| - MAX_POLL_LINES..], {})
  }

  /** How far a drain came, and why it stopped there. */
  ghost predicate Drained(content: Bytes, bound: nat, lines: seq<Bytes>, offset: nat, end: End) {
    && bound <= offset <= |content| && AllLines(lines) && Flatten(lines) == content[bound..offset]
    && (end == Eof ==> offset == |content|)
    && (end.Partial? ==> offset + end.bytes == |content| && NoNewline(content[offset..]))
    && (end == OverBound ==> TooLong(content, offset) || (offset < |content| && FullPoll(lines)))
  }

  lemma {:induction false} DrainOn(content: Bytes, bound: nat, lines: seq<Bytes>, offset: nat, end: End)
    requires Drained(content, bound, lines, offset, end)
    ensures var scan := ScanFrom(content, offset, {}, 0);
            Drained(content, bound, lines + scan.lines, scan.offset, scan.end)
            && (scan.end == Repeat ==> offset < scan.offset)
  {
    var scan := ScanFrom(content, offset, {}, 0);
    ScanIsExact(content, offset, {}, 0);
    ExtendText(content, bound, offset, lines, scan);
    if scan.end == OverBound {
      OverBoundMeans(content, offset, {}, 0);
      var all := lines + scan.lines;
      if |scan.lines| == MAX_POLL_LINES {
        assert all[|all| - MAX_POLL_LINES..] == scan.lines;
      }
    }
  }

  /**
   * Draining a retired, no longer growing file: polls until one reaches the end, a partial
   * tail, or a bound. Every poll that stops at a repeated family has made progress, so the
   * loop ends: with nothing left but a tail that holds no newline, or at a line that is too
   * long, or after a poll of 64 lines.
   */
  method Drain(content: Bytes, bound: nat) returns (lines: seq<Bytes>, offset: nat, end: End)
    requires bound <= |content|
    ensures Drained(content, bound, lines, offset, end) && end != Repeat
  {
    lines, offset, end := [], bound, Repeat;
    while end == Repeat
      invariant Drained(content, bound, lines, offset, end)
      decreases end == Repeat, |content| - offset
    {
      DrainOn(content, bound, lines, offset, end);
      var scan := ReadLines(content, offset, {}, 0);
      lines, offset, end := lines + scan.lines, scan.offset, scan.end;
    }
  }
}
