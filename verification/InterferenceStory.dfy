/** Which polls the interference sampler comes through unfailed, and the rows it then holds. */
module InterferenceStory {
  import opened Prelude
  import opened Interference

  /** A poll takes a sample while the campaign lasts, 5 s after the last sample at the earliest. */
  predicate Due(sampled: Option<Poll>, p: Poll, duration: nat) {
    p.elapsed < duration && (sampled.None? || p.elapsed >= sampled.value.elapsed + 5_000_000_000)
  }

  /** The last poll that took a sample. */
  ghost function LastSampled(polls: seq<Poll>, duration: nat): Option<Poll> {
    if |polls| == 0 then None
    else
      var before, last := LastSampled(polls[..|polls| - 1], duration), polls[|polls| - 1];
      if Due(before, last, duration) then Some(last) else before
  }

  /** The polls that took a sample, in order. */
  ghost function Sampled(polls: seq<Poll>, duration: nat): seq<Poll> {
    if |polls| == 0 then []
    else
      var front, last := polls[..|polls| - 1], polls[|polls| - 1];
      Sampled(front, duration) + if Due(LastSampled(front, duration), last, duration) then [last] else []
  }

  /** The roster is ready, the host is the same since boot, and nothing heavy runs outside the owners. */
  ghost predicate QuietSample(sampled: Option<Poll>, p: Poll) {
    && p.rosterReady && p.boot.Some? && (sampled.Some? ==> sampled.value.boot == p.boot)
    && CensusOf(p.entries, p.owners).Some? && forall i :: !Competes(p.entries, p.owners, i)
  }

  /** What the next poll must be, after these. */
  ghost predicate NextFits(polls: seq<Poll>, p: Poll, duration: nat) {
    var sampled := LastSampled(polls, duration);
    && 0 <= p.elapsed <= MAX_U64
    && (if sampled.Some? then sampled.value.elapsed <= p.elapsed <= sampled.value.elapsed + 255_000_000_000
        else p.elapsed <= 255_000_000_000)
    && (Due(sampled, p, duration) ==> QuietSample(sampled, p) && |Sampled(polls, duration)| < 17281)
  }

  ghost predicate Story(polls: seq<Poll>, duration: nat) {
    forall i :: 0 <= i < |polls| ==> NextFits(polls[..i], polls[i], duration)
  }

  ghost predicate RowTells(row: Row, p: Poll) {
    row.ns == p.elapsed && p.boot == Some(row.boot) && CensusOf(p.entries, p.owners) == Some(row.census)
  }

  ghost predicate Holds(s: State, polls: seq<Poll>, duration: nat) {
    var sampled := LastSampled(polls, duration);
    && s.duration == duration && s.count == |s.rows| == |Sampled(polls, duration)|
    && (forall i :: 0 <= i < |s.rows| ==> RowTells(s.rows[i], Sampled(polls, duration)[i]))
    && (s.lastNs.Some? <==> sampled.Some?) && (s.boot.Some? <==> sampled.Some?)
    && (sampled.Some? ==> s.lastNs.value == sampled.value.elapsed && s.boot == sampled.value.boot)
  }

  lemma {:induction false} SampledOn(polls: seq<Poll>, p: Poll, duration: nat)
    ensures var sampled := LastSampled(polls, duration);
            && LastSampled(polls + [p], duration) == (if Due(sampled, p, duration) then Some(p) else sampled)
            && Sampled(polls + [p], duration)
               == Sampled(polls, duration) + if Due(sampled, p, duration) then [p] else []
  {
    assert (polls + [p])[..|polls|] == polls;
  }

  lemma {:induction false} StepIff(s: State, p: Poll, polls: seq<Poll>, duration: nat)
    requires Holds(s, polls, duration)
    ensures Step(s, p).Some? <==> NextFits(polls, p, duration)
    ensures Step(s, p).Some? ==> Holds(Step(s, p).value, polls + [p], duration)
  {
    SampledOn(polls, p, duration);
    if CensusOf(p.entries, p.owners).Some? {
      QuietCensus(p.entries, p.owners);
    }
  }

  lemma {:induction false} StoryOn(polls: seq<Poll>, p: Poll, duration: nat)
    ensures Story(polls + [p], duration) <==> Story(polls, duration) && NextFits(polls, p, duration)
  {
    var more := polls + [p];
    assert more[..|polls|] == polls;
    forall i | 0 <= i < |polls|
      ensures more[..i] == polls[..i] && more[i] == polls[i]
    {
    }
    if Story(more, duration) {
      assert NextFits(more[..|polls|], more[|polls|], duration);
      forall i | 0 <= i < |polls|
        ensures NextFits(polls[..i], polls[i], duration)
      {
        assert NextFits(more[..i], more[i], duration);
      }
    }
  }

  /** The sampler comes through unfailed exactly on these polls, and then holds a row for each sample taken. */
  lemma {:induction false} UnfailedIff(durationS: nat, polls: seq<Poll>)
    ensures Run(Initial(durationS), polls).Some? <==> Story(polls, durationS * SECOND)
    ensures Run(Initial(durationS), polls).Some? ==>
              Holds(Run(Initial(durationS), polls).value, polls, durationS * SECOND)
    decreases |polls|
  {
    var start := Initial(durationS);
    if |polls| > 0 {
      var before, last := polls[..|polls| - 1], polls[|polls| - 1];
      assert polls == before + [last];
      RunLast(start, before, last);
      UnfailedIff(durationS, before);
      StoryOn(before, last, durationS * SECOND);
      if Run(start, before).Some? {
        StepIff(Run(start, before).value, last, before, durationS * SECOND);
      }
    }
  }
}
