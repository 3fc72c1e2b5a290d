/** Over whole runs of the controller: the component rows since a binding are the lines of the bound log. */
module EpochTail {
  import opened Prelude
  import opened LogTail
  import opened EpochModel
  import opened EpochAcceptance

  /** What the log is known to hold after the call. */
  function TextAfter(call: Call, text: Bytes): Bytes {
    if call.CallPoll? || call.CallGaps? then call.file.content else text
  }

  /**
   * The calls find one file that only grows, its lines always parse the same, no sample
   * comes from anywhere else, and no other log is bound.
   */
  ghost predicate OneLog(calls: seq<Call>, text: Bytes, parsed: map<Bytes, Parsed>, duration: nat)
    decreases |calls|
  {
    |calls| > 0 ==>
      var call := calls[0];
      && !call.CallObserve? && !call.CallBind? && call.t < duration
      && (call.CallPoll? || call.CallGaps? ==> text <= call.file.content && call.file.parsed == parsed)
      && OneLog(calls[1..], TextAfter(call, text), parsed, duration)
  }

  function LastText(calls: seq<Call>, text: Bytes): Bytes
    decreases |calls|
  {
    if |calls| == 0 then text else LastText(calls[1..], TextAfter(calls[0], text))
  }

  ghost predicate AddsRows(s: State, next: State, lines: seq<Bytes>, parsed: map<Bytes, Parsed>, c: Component) {
    RowReadings(next.samples.Of(c).rows) == RowReadings(s.samples.Of(c).rows) + Readings(lines, parsed, c)
  }

  /** What one call adds: lines read on from the reader's place, and their readings as rows. */
  ghost predicate Adds(s: State, next: State, text: Bytes, lines: seq<Bytes>, parsed: map<Bytes, Parsed>) {
    && next.duration == s.duration && s.log.offset <= next.log.offset <= |text| && AllLines(lines)
    && Flatten(lines) == text[s.log.offset..next.log.offset]
    && forall c: Component :: AddsRows(s, next, lines, parsed, c)
  }

  lemma {:induction false} PollAdds(s: State, t: int, retired: Option<Kind>, r: Roster, file: LogFile)
    returns (lines: seq<Bytes>)
    requires PollLog(s, t, retired, r, file).Some? && t < s.duration
    ensures Adds(s, PollLog(s, t, retired, r, file).value.state, file.content, lines, file.parsed)
  {
    var scan := ScanFrom(file.content, s.log.offset, {}, 0);
    var ticked := s.(lastNs := Some(t), log := s.log.(observed := |file.content|));
    lines := scan.lines;
    ScanIsExact(file.content, s.log.offset, {}, 0);
    LinesTouchOnlySamples(ticked, lines, file, t);
    forall c: Component
      ensures AddsRows(s, PollLog(s, t, retired, r, file).value.state, lines, file.parsed, c)
    {
      LinesBecomeRows(ticked, lines, file, t, c);
    }
  }

  lemma {:induction false} NothingAdded(s: State, next: State, text: Bytes, parsed: map<Bytes, Parsed>,
                                        lines: seq<Bytes>)
    requires next.duration == s.duration && next.log.offset == s.log.offset <= |text| && |lines| == 0
    requires forall c: Component :: next.samples.Of(c).rows == s.samples.Of(c).rows
    ensures Adds(s, next, text, lines, parsed)
  {
    forall c: Component
      ensures AddsRows(s, next, lines, parsed, c)
    {
      assert next.samples.Of(c).rows == s.samples.Of(c).rows;
    }
  }

  lemma {:induction false} StepAdds(s: State, call: Call, text: Bytes, parsed: map<Bytes, Parsed>)
    returns (lines: seq<Bytes>)
    requires Step(s, call).Some? && !call.CallObserve? && !call.CallBind? && call.t < s.duration
             && s.log.offset <= |text|
    requires call.CallPoll? || call.CallGaps? ==> text <= call.file.content && call.file.parsed == parsed
    ensures Adds(s, Step(s, call).value, TextAfter(call, text), lines, parsed)
  {
    lines := [];
    if call.CallPoll? {
      lines := PollAdds(s, call.t, call.retired, call.roster, call.file);
    } else if call.CallGaps? && s.log.enabled && s.log.open && (s.lastNs.None? || call.t > s.lastNs.value) {
      lines := PollAdds(s, call.t, None, call.roster, call.file);
    } else {
      NothingAdded(s, Step(s, call).value, TextAfter(call, text), parsed, lines);
    }
  }

  lemma {:induction false} RowsJoin(rows: seq<Reading>, a: seq<Bytes>, b: seq<Bytes>, parsed: map<Bytes, Parsed>,
                                    c: Component)
    ensures rows + Readings(a, parsed, c) + Readings(b, parsed, c) == rows + Readings(a + b, parsed, c)
  {
    ReadingsAppend(a, b, parsed, c);
  }

  /** Two stretches of reading make one. */
  lemma {:induction false} AddsOn(s: State, next: State, end: State, text: Bytes, last: Bytes, a: seq<Bytes>,
                                  b: seq<Bytes>, parsed: map<Bytes, Parsed>)
    requires text <= last && Adds(s, next, text, a, parsed) && Adds(next, end, last, b, parsed)
    ensures Adds(s, end, last, a + b, parsed)
  {
    FlattenAppend(a, b);
    assert text[s.log.offset..next.log.offset] == last[s.log.offset..next.log.offset];
    assert last[s.log.offset..end.log.offset]
           == last[s.log.offset..next.log.offset] + last[next.log.offset..end.log.offset];
    forall c: Component
      ensures AddsRows(s, end, a + b, parsed, c)
    {
      assert AddsRows(s, next, a, parsed, c) && AddsRows(next, end, b, parsed, c);
      RowsJoin(RowReadings(s.samples.Of(c).rows), a, b, parsed, c);
    }
  }

  lemma {:induction false} TextGrows(calls: seq<Call>, text: Bytes, parsed: map<Bytes, Parsed>, duration: nat)
    requires OneLog(calls, text, parsed, duration)
    ensures text <= LastText(calls, text)
    decreases |calls|
  {
    if |calls| > 0 {
      TextGrows(calls[1..], TextAfter(calls[0], text), parsed, duration);
    }
  }

  /**
   * Any run over one log: some whole lines are read on from the reader's place, and exactly
   * their readings become rows.
   */
  lemma {:induction false} RunAdds(s: State, calls: seq<Call>, text: Bytes, parsed: map<Bytes, Parsed>)
    returns (lines: seq<Bytes>)
    requires Run(s, calls).Some? && OneLog(calls, text, parsed, s.duration) && s.log.offset <= |text|
    ensures Adds(s, Run(s, calls).value, LastText(calls, text), lines, parsed)
    decreases |calls|
  {
    lines := [];
    if |calls| == 0 {
      NothingAdded(s, s, text, parsed, lines);
    } else {
      var next, after := Step(s, calls[0]).value, TextAfter(calls[0], text);
      var first := StepAdds(s, calls[0], text, parsed);
      var rest := RunAdds(next, calls[1..], after, parsed);
      TextGrows(calls[1..], after, parsed, s.duration);
      lines := first + rest;
      AddsOn(s, next, Run(s, calls).value, after, LastText(calls, text), first, rest, parsed);
    }
  }

  /**
   * From a binding on, through polls, gap checks, native samples and transitions: the rows
   * each component gained are exactly the readings of the log's lines between the bound
   * offset and the reader's place. Those lines are the only ones that text can be cut into,
   * so nothing was dropped, repeated or reordered.
   */
  lemma {:induction false} RowsAreLogLines(before: State, t: int, r: Roster, file: LogFile, calls: seq<Call>)
    returns (lines: seq<Bytes>)
    requires BindLog(before, t, r, file).Some?
    requires var s := BindLog(before, t, r, file).value;
             Run(s, calls).Some? && OneLog(calls, file.content, file.parsed, s.duration)
    ensures var s := BindLog(before, t, r, file).value;
            var end, text := Run(s, calls).value, LastText(calls, file.content);
            && s.log.offset <= end.log.offset <= |text| && AllLines(lines)
            && Flatten(lines) == text[s.log.offset..end.log.offset]
            && (forall other: seq<Bytes> {:trigger Flatten(other)} ::
                  AllLines(other) && Flatten(other) == text[s.log.offset..end.log.offset] ==> other == lines)
            && forall c: Component ::
                 RowReadings(end.samples.Of(c).rows)
                 == RowReadings(before.samples.Of(c).rows) + Readings(lines, file.parsed, c)
  {
    var s := BindLog(before, t, r, file).value;
    lines := RunAdds(s, calls, file.content, file.parsed);
    forall other: seq<Bytes> | AllLines(other) && Flatten(other) == Flatten(lines)
      ensures other == lines
    {
      LinesUnique(other, lines);
    }
    forall c: Component
      ensures RowReadings(Run(s, calls).value.samples.Of(c).rows)
           == RowReadings(before.samples.Of(c).rows) + Readings(lines, file.parsed, c)
    {
      assert AddsRows(s, Run(s, calls).value, lines, file.parsed, c);
    }
  }
}
