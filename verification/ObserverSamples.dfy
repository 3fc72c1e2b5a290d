/** The observer's messages as the campaign keeps them, against what the progress check makes of them. */
module ObserverSamples {
  import opened Prelude
  import opened Windows
  import opened Progress

  const MAX_ROWS := 86475
  const FRESH: int := 5_000_000_000

  datatype State = State(duration: nat, origin: nat, previous: Option<Observation>, received: Option<nat>,
                         lastNs: Option<nat>, rows: seq<ObserverRow>)

  /** One message: when it is looked at, when it was received, and what it says. */
  datatype Message = Message(now: int, received: int, value: Observation)

  function Initial(durationS: nat, origin: nat): State {
    State(durationS * SECOND, origin, None, None, None, [])
  }

  /** Neither stale nor from the past. */
  predicate Timely(s: State, m: Message) {
    && s.origin <= m.now && 0 < m.received <= m.now && m.now - m.received <= FRESH
    && (s.lastNs.Some? ==> s.lastNs.value <= m.now - s.origin)
  }

  /** Received later than the last kept message, well formed, and never going back. */
  predicate Continues(s: State, m: Message) {
    && (s.received.Some? ==> s.received.value < m.received)
    && ObservationShape(m.value) && (s.previous.Some? ==> ObservationFollows(m.value, s.previous.value))
  }

  predicate Repeats(s: State, m: Message) {
    s.received == Some(m.received)
  }

  /** A message seen before must say the same; a new one is kept while the campaign lasts. */
  function Observe(s: State, m: Message): Option<State> {
    if !Timely(s, m) then None
    else
      var elapsed := m.now - s.origin;
      if Repeats(s, m) then if s.previous == Some(m.value) then Some(s.(lastNs := Some(elapsed))) else None
      else if !Continues(s, m) then None
      else if elapsed >= s.duration then Some(s.(lastNs := Some(elapsed)))
      else if |s.rows| >= MAX_ROWS then None
      else Some(s.(lastNs := Some(elapsed), previous := Some(m.value), received := Some(m.received),
                   rows := s.rows + [ObserverRow(elapsed, m.now - m.received, m.value)]))
  }

  function Run(s: State, messages: seq<Message>): Option<State>
    decreases |messages|
  {
    if |messages| == 0 then Some(s)
    else
      var next := Observe(s, messages[0]);
      if next.None? then None else Run(next.value, messages[1..])
  }

  class CampaignObserver {
    const duration: nat
    const origin: nat
    var previous: Option<Observation>
    var received: Option<nat>
    var lastNs: Option<nat>
    var rows: seq<ObserverRow>
    var failed: bool

    function View(): State
      reads this
    {
      State(duration, origin, previous, received, lastNs, rows)
    }

    constructor (durationS: nat, origin: nat)
      requires CampaignDuration(durationS) && origin > 0
      ensures View() == Initial(durationS, origin) && !failed
    {
      duration, this.origin, failed := durationS * SECOND, origin, false;
      previous, received, lastNs, rows := None, None, None, [];
    }

    /** A refusal fails the observer, and a failed one refuses. */
    method Take(m: Message) returns (ok: bool)
      modifies this
      ensures old(failed) ==> !ok && failed && View() == old(View())
      ensures !old(failed) ==> ok == Observe(old(View()), m).Some? && failed == !ok
      ensures ok ==> View() == Observe(old(View()), m).value
    {
      if failed {
        return false;
      }
      ok := Timely(View(), m) && (if Repeats(View(), m) then previous == Some(m.value)
                                  else Continues(View(), m) && (m.now - origin >= duration || |rows| < MAX_ROWS));
      failed := !ok;
      if ok {
        lastNs := Some(m.now - origin);
        if !Repeats(View(), m) && m.now - origin < duration {
          rows := rows + [ObserverRow(m.now - origin, m.now - m.received, m.value)];
          previous, received := Some(m.value), Some(m.received);
        }
      }
    }
  }

  // --- what every unfailed run keeps ---------------------------------------

  /** A kept row but for its instant: fresh, well formed, inside the campaign, and following the one before. */
  ghost predicate RowKept(rows: seq<ObserverRow>, i: nat, duration: nat)
    requires i < |rows|
  {
    && rows[i].ns < duration && rows[i].age <= FRESH && ObservationShape(rows[i].value)
    && (i > 0 ==> ObservationFollows(rows[i].value, rows[i - 1].value) && rows[i - 1].ns <= rows[i].ns)
  }

  ghost predicate Inv(s: State) {
    && |s.rows| <= MAX_ROWS && (forall i :: 0 <= i < |s.rows| ==> RowKept(s.rows, i, s.duration))
    && (if |s.rows| == 0 then s.previous.None?
        else var last := s.rows[|s.rows| - 1];
            s.previous == Some(last.value) && s.lastNs.Some? && last.ns <= s.lastNs.value)
  }

  lemma {:induction false} ObserveKeeps(s: State, m: Message)
    requires Inv(s) && Observe(s, m).Some?
    ensures var next := Observe(s, m).value; Inv(next) && s.rows <= next.rows && next.duration == s.duration
  {
    var next := Observe(s, m).value;
    forall i | 0 <= i < |next.rows|
      ensures RowKept(next.rows, i, s.duration)
    {
      if i < |s.rows| {
        assert RowKept(s.rows, i, s.duration);
      }
    }
  }

  lemma {:induction false} RunKeeps(s: State, messages: seq<Message>)
    requires Inv(s) && Run(s, messages).Some?
    ensures var end := Run(s, messages).value; Inv(end) && s.rows <= end.rows && end.duration == s.duration
    decreases |messages|
  {
    if |messages| > 0 {
      ObserveKeeps(s, messages[0]);
      RunKeeps(Observe(s, messages[0]).value, messages[1..]);
    }
  }

  // --- against the progress check ------------------------------------------

  /** No two rows at one instant, and no silence over the gap from the origin to the end. */
  ghost predicate Paced(rows: seq<ObserverRow>, duration: nat) {
    && |rows| > 0 && Ascending(ObserverInstants(rows)) && Dense(ObserverInstants(rows), GAP)
    && duration - rows[|rows| - 1].ns <= GAP
  }

  lemma {:induction false} RowOkIff(rows: seq<ObserverRow>, i: nat, durationS: nat)
    requires i < |rows| && RowKept(rows, i, durationS * SECOND) && CampaignDuration(durationS)
    ensures ObserverRowOk(rows, i, durationS * SECOND)
       <==> rows[i].ns - (if i == 0 then 0 else rows[i - 1].ns) <= GAP && (i > 0 ==> rows[i - 1].ns < rows[i].ns)
  {
  }

  lemma {:induction false} OkIffPaced(rows: seq<ObserverRow>, durationS: nat)
    requires CampaignDuration(durationS) && |rows| <= MAX_ROWS
    requires forall i :: 0 <= i < |rows| ==> RowKept(rows, i, durationS * SECOND)
    ensures ObserverOk(rows, durationS) <==> Paced(rows, durationS * SECOND)
  {
    var ts := ObserverInstants(rows);
    if ObserverOk(rows, durationS) {
      forall i | 0 <= i < |rows|
        ensures ts[i] - (if i == 0 then 0 else ts[i - 1]) <= GAP && (i > 0 ==> ts[i - 1] < ts[i])
      {
        assert ObserverRowOk(rows, i, durationS * SECOND);
      }
      assert ObserverRowOk(rows, 0, durationS * SECOND);
      assert Ascending(ts) && Dense(ts, GAP);
    } else if Paced(rows, durationS * SECOND) {
      forall i | 0 <= i < |rows|
        ensures ObserverRowOk(rows, i, durationS * SECOND)
      {
        assert i > 0 ==> ts[i - 1] < ts[i] && ts[i] - ts[i - 1] <= GAP;
        RowOkIff(rows, i, durationS);
      }
    }
  }

  /** The observer part of the progress check accepts the rows of a run exactly when they are paced. */
  lemma {:induction false} RunAcceptedIff(durationS: nat, origin: nat, messages: seq<Message>)
    requires CampaignDuration(durationS) && Run(Initial(durationS, origin), messages).Some?
    ensures var rows := Run(Initial(durationS, origin), messages).value.rows;
            ObserverOk(rows, durationS) <==> Paced(rows, durationS * SECOND)
  {
    RunKeeps(Initial(durationS, origin), messages);
    OkIffPaced(Run(Initial(durationS, origin), messages).value.rows, durationS);
  }

  // --- a run the check refuses for one shared instant ----------------------

  const BEAT: int := 200_000_000_000

  function Quiet(elapsedS: nat): Observation {
    Observation(elapsedS, 0, 0, 0, 0, 0, 1, 0, 1, 2, false, false)
  }

  /** The first `n` messages, each looked at on its beat a nanosecond after it came. */
  function Regular(origin: nat, n: nat): seq<Message>
    requires origin > 0
  {
    if n == 0 then [] else Regular(origin, n - 1) + [Message(origin + n * BEAT, origin + n * BEAT - 1, Quiet(n))]
  }

  lemma {:induction false} RunOn(s: State, messages: seq<Message>, m: Message)
    requires Run(s, messages).Some?
    ensures Run(s, messages + [m]) == Observe(Run(s, messages).value, m)
    decreases |messages|
  {
    var more := messages + [m];
    if |messages| == 0 {
      assert more[0] == m && |more[1..]| == 0;
    } else {
      assert more[0] == messages[0] && more[1..] == messages[1..] + [m];
      RunOn(Observe(s, messages[0]).value, messages[1..], m);
    }
  }

  /** Where the regular messages lead. */
  ghost predicate Beaten(s: State, n: nat) {
    && |s.rows| == n && Ascending(ObserverInstants(s.rows)) && Dense(ObserverInstants(s.rows), GAP)
    && (n > 0 ==> s.rows[n - 1].ns == n * BEAT)
    && (if n == 0 then s.lastNs.None? && s.received.None? && s.previous.None?
        else && s.lastNs == Some(n * BEAT) && s.previous == Some(Quiet(n))
             && s.received == Some(s.origin + n * BEAT - 1))
  }

  lemma {:induction false} BeatOn(s: State, n: nat, m: Message)
    requires 0 < n < MAX_ROWS && s.origin > 0 && Beaten(s, n - 1) && n * BEAT < s.duration
    requires m == Message(s.origin + n * BEAT, s.origin + n * BEAT - 1, Quiet(n))
    ensures var next := Observe(s, m);
            next.Some? && Beaten(next.value, n) && next.value.duration == s.duration && next.value.origin == s.origin
  {
    var next := Observe(s, m).value;
    var row := ObserverRow(n * BEAT, 1, Quiet(n));
    assert next.rows == s.rows + [row];
    assert ObserverInstants(next.rows) == ObserverInstants(s.rows) + [n * BEAT];
  }

  lemma {:induction false} RegularRuns(durationS: nat, origin: nat, n: nat)
    requires origin > 0 && n * BEAT < durationS * SECOND && n < MAX_ROWS
    ensures var run := Run(Initial(durationS, origin), Regular(origin, n));
            run.Some? && Beaten(run.value, n) && run.value.duration == durationS * SECOND && run.value.origin == origin
    decreases n
  {
    if n > 0 {
      RegularRuns(durationS, origin, n - 1);
      var s := Run(Initial(durationS, origin), Regular(origin, n - 1)).value;
      var m := Message(origin + n * BEAT, origin + n * BEAT - 1, Quiet(n));
      RunOn(Initial(durationS, origin), Regular(origin, n - 1), m);
      BeatOn(s, n, m);
    }
  }

  /** Messages that stop 400 s before the end: in order and dense until then, and the check refuses the silence. */
  lemma {:induction false} SilenceRefused(durationS: nat, origin: nat) returns (messages: seq<Message>)
    requires CampaignDuration(durationS) && origin > 0
    ensures Run(Initial(durationS, origin), messages).Some?
    ensures var rows := Run(Initial(durationS, origin), messages).value.rows;
            && |rows| > 0 && Ascending(ObserverInstants(rows)) && Dense(ObserverInstants(rows), GAP)
            && durationS * SECOND - rows[|rows| - 1].ns > GAP && !ObserverOk(rows, durationS)
  {
    var n := (durationS - 1) / 200 - 2;
    messages := Regular(origin, n);
    RegularRuns(durationS, origin, n);
    RunAcceptedIff(durationS, origin, messages);
  }

  /** Two messages looked at together: the gaps are all in order, and the check still refuses. */
  lemma {:induction false} SharedInstantRefused(durationS: nat, origin: nat) returns (messages: seq<Message>)
    requires CampaignDuration(durationS) && origin > 0
    ensures Run(Initial(durationS, origin), messages).Some?
    ensures var rows := Run(Initial(durationS, origin), messages).value.rows;
            && |rows| > 0 && Dense(ObserverInstants(rows), GAP) && durationS * SECOND - rows[|rows| - 1].ns <= GAP
            && !Ascending(ObserverInstants(rows)) && !ObserverOk(rows, durationS)
  {
    var n := (durationS - 1) / 200;
    var first := Initial(durationS, origin);
    RegularRuns(durationS, origin, n);
    var s := Run(first, Regular(origin, n)).value;
    var m := Message(origin + n * BEAT, origin + n * BEAT, Quiet(n + 1));
    RunOn(first, Regular(origin, n), m);
    messages := Regular(origin, n) + [m];
    var rows := Observe(s, m).value.rows;
    assert rows == s.rows + [ObserverRow(n * BEAT, 0, Quiet(n + 1))];
    assert ObserverInstants(rows) == ObserverInstants(s.rows) + [n * BEAT];
    assert ObserverInstants(rows)[n - 1] == ObserverInstants(rows)[n];
    RunAcceptedIff(durationS, origin, messages);
  }
}
