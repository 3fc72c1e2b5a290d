/** Which message sequences the campaign's observer comes through unfailed, and the rows it then holds. */
module ObserverStory {
  import opened Prelude
  import opened Progress
  import opened ObserverSamples

  /** A message not seen before, while the campaign lasts, is kept. */
  predicate Fresh(kept: Option<Message>, m: Message, origin: nat, duration: nat) {
    m.now - origin < duration && (kept.None? || m.received != kept.value.received)
  }

  /** The last message kept. */
  ghost function LastKept(messages: seq<Message>, origin: nat, duration: nat): Option<Message> {
    if |messages| == 0 then None
    else
      var before, last := LastKept(messages[..|messages| - 1], origin, duration), messages[|messages| - 1];
      if Fresh(before, last, origin, duration) then Some(last) else before
  }

  /** The kept messages, as rows. */
  ghost function KeptRows(messages: seq<Message>, origin: nat, duration: nat): seq<ObserverRow> {
    if |messages| == 0 then []
    else
      var front, last := messages[..|messages| - 1], messages[|messages| - 1];
      var rows, kept := KeptRows(front, origin, duration), LastKept(front, origin, duration);
      if Fresh(kept, last, origin, duration) && origin <= last.now && last.received <= last.now
      then rows + [ObserverRow(last.now - origin, last.now - last.received, last.value)]
      else rows
  }

  /** What the next message must be, after these. */
  ghost predicate NextFits(messages: seq<Message>, m: Message, origin: nat, duration: nat) {
    var kept := LastKept(messages, origin, duration);
    && origin <= m.now && 0 < m.received <= m.now <= m.received + 5_000_000_000
    && (|messages| > 0 ==> messages[|messages| - 1].now <= m.now)
    && if kept.Some? && m.received == kept.value.received then m.value == kept.value.value
       else && ObservationShape(m.value)
            && (kept.Some? ==> m.received > kept.value.received && ObservationFollows(m.value, kept.value.value))
            && (m.now - origin < duration ==> |KeptRows(messages, origin, duration)| < 86475)
  }

  ghost predicate Story(messages: seq<Message>, origin: nat, duration: nat) {
    forall i :: 0 <= i < |messages| ==> NextFits(messages[..i], messages[i], origin, duration)
  }

  ghost predicate Holds(s: State, messages: seq<Message>, origin: nat, duration: nat) {
    var kept := LastKept(messages, origin, duration);
    && s.origin == origin && s.duration == duration && s.rows == KeptRows(messages, origin, duration)
    && (s.previous.Some? <==> kept.Some?) && (s.received.Some? <==> kept.Some?)
    && (kept.Some? ==> s.previous == Some(kept.value.value) && s.received.value == kept.value.received)
    && (s.lastNs.Some? <==> |messages| > 0)
    && (|messages| > 0 ==> s.lastNs.value == messages[|messages| - 1].now - origin)
  }

  lemma {:induction false} KeptOn(messages: seq<Message>, m: Message, origin: nat, duration: nat)
    ensures var kept := LastKept(messages, origin, duration);
            LastKept(messages + [m], origin, duration) == if Fresh(kept, m, origin, duration) then Some(m) else kept
    ensures origin <= m.now && m.received <= m.now ==>
              KeptRows(messages + [m], origin, duration)
              == if Fresh(LastKept(messages, origin, duration), m, origin, duration)
                 then KeptRows(messages, origin, duration)
                      + [ObserverRow(m.now - origin, m.now - m.received, m.value)]
                 else KeptRows(messages, origin, duration)
  {
    assert (messages + [m])[..|messages|] == messages;
  }

  lemma {:induction false} StepIff(s: State, m: Message, messages: seq<Message>, origin: nat, duration: nat)
    requires Holds(s, messages, origin, duration)
    ensures Observe(s, m).Some? <==> NextFits(messages, m, origin, duration)
    ensures Observe(s, m).Some? ==> Holds(Observe(s, m).value, messages + [m], origin, duration)
  {
    KeptOn(messages, m, origin, duration);
  }

  lemma {:induction false} RunLast(s: State, messages: seq<Message>, m: Message)
    ensures Run(s, messages + [m]) == if Run(s, messages).None? then None else Observe(Run(s, messages).value, m)
    decreases |messages|
  {
    var more := messages + [m];
    if |messages| == 0 {
      assert more[0] == m && |more[1..]| == 0;
    } else {
      assert more[0] == messages[0] && more[1..] == messages[1..] + [m];
      if Observe(s, messages[0]).Some? {
        RunLast(Observe(s, messages[0]).value, messages[1..], m);
      }
    }
  }

  lemma {:induction false} StoryOn(messages: seq<Message>, m: Message, origin: nat, duration: nat)
    ensures Story(messages + [m], origin, duration)
            <==> Story(messages, origin, duration) && NextFits(messages, m, origin, duration)
  {
    var more := messages + [m];
    assert more[..|messages|] == messages;
    forall i | 0 <= i < |messages|
      ensures more[..i] == messages[..i] && more[i] == messages[i]
    {
    }
    if Story(more, origin, duration) {
      assert NextFits(more[..|messages|], more[|messages|], origin, duration);
      forall i | 0 <= i < |messages|
        ensures NextFits(messages[..i], messages[i], origin, duration)
      {
        assert NextFits(more[..i], more[i], origin, duration);
      }
    }
  }

  /** The observer comes through unfailed exactly on these messages, and then holds the kept ones as rows. */
  lemma {:induction false} UnfailedIff(durationS: nat, origin: nat, messages: seq<Message>)
    ensures Run(Initial(durationS, origin), messages).Some? <==> Story(messages, origin, durationS * SECOND)
    ensures Run(Initial(durationS, origin), messages).Some? ==>
              Holds(Run(Initial(durationS, origin), messages).value, messages, origin, durationS * SECOND)
    decreases |messages|
  {
    var start := Initial(durationS, origin);
    if |messages| > 0 {
      var before, last := messages[..|messages| - 1], messages[|messages| - 1];
      assert messages == before + [last];
      RunLast(start, before, last);
      UnfailedIff(durationS, origin, before);
      StoryOn(before, last, origin, durationS * SECOND);
      if Run(start, before).Some? {
        StepIff(Run(start, before).value, last, before, origin, durationS * SECOND);
      }
    }
  }
}
