/**
 * Which histories of replies an operation comes through unfailed, said without its state: the
 * order of its calls, its clock, and what each reply must agree on with the others.
 */
module MaintenanceStory {
  import opened Prelude
  import opened Maintenance

  const PHASES := [Accepted, Draining, Offline, ArtifactPublished, Validating, Succeeded]

  /** One phase is the other or comes later. */
  ghost predicate NotBefore(p: Phase, q: Phase) {
    exists i, j :: 0 <= i <= j < |PHASES| && PHASES[i] == p && PHASES[j] == q
  }

  lemma {:induction false} RankOrders(p: Phase, q: Phase)
    ensures NotBefore(p, q) <==> Rank(p) <= Rank(q)
  {
    assert PHASES[Rank(p)] == p && PHASES[Rank(q)] == q;
    forall i | 0 <= i < |PHASES|
      ensures Rank(PHASES[i]) == i
    {
    }
  }

  // --- the histories -------------------------------------------------------

  /** A receipt of this very operation, as the command that asked for it gets one. */
  predicate Genuine(reply: Reply, kind: Kind, name: string, polling: bool) {
    && reply.Receipt? && reply.wellFormed && reply.kind == kind && reply.name == name
    && (if polling then reply.status == Found
        else reply.status == NewlyAccepted || reply.status == AlreadyAccepted || reply.status == Terminal)
  }

  /** The mutation may be answered with its bare name, a poll with nothing. */
  predicate Understood(reply: Reply, kind: Kind, name: string, polling: bool) {
    Genuine(reply, kind, name, polling) || (if polling then reply.Unavailable? else reply.Uncertain?)
  }

  predicate Names(reply: Reply) {
    reply.Receipt? || reply.Uncertain?
  }

  ghost predicate CallFits(kind: Kind, name: string, startedNs: nat, deadlineNs: nat, calls: seq<Call>, i: int)
    requires 0 <= i < |calls|
  {
    && (calls[i].StartCall? <==> i == 0) && i <= MAX_POLLS
    && (if i == 0 then startedNs else calls[i - 1].responded) <= calls[i].now <= calls[i].responded < deadlineNs
    && Understood(calls[i].reply, kind, name, i > 0)
  }

  /** What a later reply must agree on with an earlier one; nothing follows the last phase. */
  ghost predicate Agrees(earlier: Reply, later: Reply) {
    && (Names(earlier) && Names(later) ==> later.operation == earlier.operation)
    && (earlier.Receipt? && later.Receipt? ==>
          later.inputHash == earlier.inputHash && NotBefore(earlier.phase, later.phase))
    && !(earlier.Receipt? && earlier.phase == Succeeded)
  }

  ghost predicate Story(kind: Kind, name: string, startedNs: nat, deadlineNs: nat, calls: seq<Call>) {
    && (forall i :: 0 <= i < |calls| ==> CallFits(kind, name, startedNs, deadlineNs, calls, i))
    && forall i, j :: 0 <= i < j < |calls| ==> Agrees(calls[i].reply, calls[j].reply)
  }

  // --- what the operation then holds ---------------------------------------

  ghost function LastReceipt(calls: seq<Call>): Option<Reply> {
    if |calls| == 0 then None
    else if calls[|calls| - 1].reply.Receipt? then Some(calls[|calls| - 1].reply)
    else LastReceipt(calls[..|calls| - 1])
  }

  /** The operation its first reply named, and what the last receipt said of it. */
  ghost predicate Holds(s: State, kind: Kind, name: string, startedNs: nat, deadlineNs: nat, calls: seq<Call>) {
    && s.kind == kind && s.name == name && s.startedNs == startedNs && s.deadlineNs == deadlineNs && !s.failed
    && s.lastNs == (if |calls| == 0 then startedNs else calls[|calls| - 1].responded)
    && s.started == (|calls| > 0) && s.polls == (if |calls| == 0 then 0 else |calls| - 1)
    && (s.operation.Some? <==> |calls| > 0)
    && (|calls| > 0 ==> Names(calls[0].reply) && s.operation == Some(calls[0].reply.operation))
    && (s.phase.Some? <==> LastReceipt(calls).Some?) && (s.inputHash.Some? <==> LastReceipt(calls).Some?)
    && (LastReceipt(calls).Some? ==>
          var last := LastReceipt(calls).value;
          last.Receipt? && s.phase == Some(last.phase) && s.inputHash == Some(last.inputHash))
    && (s.complete <==> LastReceipt(calls).Some? && LastReceipt(calls).value.phase == Succeeded)
  }

  lemma {:induction false} RunOn(s: State, calls: seq<Call>, call: Call)
    ensures Run(s, calls + [call]) == Step(Run(s, calls), call)
    decreases |calls|
  {
    var more := calls + [call];
    if |calls| == 0 {
      assert more[0] == call && |more[1..]| == 0;
    } else {
      assert more[0] == calls[0] && more[1..] == calls[1..] + [call];
      RunOn(Step(s, calls[0]), calls[1..], call);
    }
  }

  lemma {:induction false} FailedStays(s: State, call: Call)
    requires s.failed
    ensures Step(s, call).failed
  {
  }

  /** Where the last receipt stands among the calls. */
  lemma {:induction false} LastReceiptAt(calls: seq<Call>) returns (k: int)
    ensures LastReceipt(calls).None? ==> forall i :: 0 <= i < |calls| ==> !calls[i].reply.Receipt?
    ensures LastReceipt(calls).Some? ==>
              && 0 <= k < |calls| && calls[k].reply == LastReceipt(calls).value && calls[k].reply.Receipt?
              && forall i :: k < i < |calls| ==> !calls[i].reply.Receipt?
  {
    k := |calls| - 1;
    if |calls| > 0 && !calls[k].reply.Receipt? {
      var n := k;
      k := LastReceiptAt(calls[..n]);
      forall i | 0 <= i < n && (LastReceipt(calls).None? || k < i)
        ensures !calls[i].reply.Receipt?
      {
        assert calls[..n][i] == calls[i];
      }
    }
  }

  lemma {:induction false} LastReceiptOn(calls: seq<Call>, call: Call)
    ensures LastReceipt(calls + [call]) == if call.reply.Receipt? then Some(call.reply) else LastReceipt(calls)
  {
    assert (calls + [call])[..|calls|] == calls;
  }

  /** The next call fits in exactly when it fits by itself and agrees with what is held. */
  ghost predicate NextFits(s: State, call: Call, n: nat) {
    && (call.StartCall? <==> n == 0) && n <= MAX_POLLS && s.lastNs <= call.now <= call.responded < s.deadlineNs
    && Understood(call.reply, s.kind, s.name, n > 0) && !s.complete
    && (Names(call.reply) && s.operation.Some? ==> call.reply.operation == s.operation.value)
    && (call.reply.Receipt? && s.phase.Some? && s.inputHash.Some? ==>
          call.reply.inputHash == s.inputHash.value && NotBefore(s.phase.value, call.reply.phase))
  }

  lemma {:induction false} StepIff(s: State, call: Call, kind: Kind, name: string, startedNs: nat, deadlineNs: nat,
                                   calls: seq<Call>)
    requires Inv(s) && Holds(s, kind, name, startedNs, deadlineNs, calls)
    ensures !Step(s, call).failed <==> NextFits(s, call, |calls|)
    ensures !Step(s, call).failed ==> Holds(Step(s, call), kind, name, startedNs, deadlineNs, calls + [call])
  {
    LastReceiptOn(calls, call);
    if call.reply.Receipt? && s.phase.Some? {
      RankOrders(s.phase.value, call.reply.phase);
    }
  }

  lemma {:induction false} EarlierAgrees(kind: Kind, name: string, startedNs: nat, deadlineNs: nat, calls: seq<Call>,
                                         s: State, call: Call, i: nat)
    requires Story(kind, name, startedNs, deadlineNs, calls) && Holds(s, kind, name, startedNs, deadlineNs, calls)
    requires NextFits(s, call, |calls|) && i < |calls|
    ensures Agrees(calls[i].reply, call.reply)
  {
    var k := LastReceiptAt(calls);
    assert i > 0 ==> Agrees(calls[0].reply, calls[i].reply);
    assert i < |calls| - 1 ==> Agrees(calls[i].reply, calls[|calls| - 1].reply);
    if calls[i].reply.Receipt? {
      assert i < k ==> Agrees(calls[i].reply, calls[k].reply);
      RankOrders(calls[i].reply.phase, calls[k].reply.phase);
      if call.reply.Receipt? {
        RankOrders(calls[k].reply.phase, call.reply.phase);
        RankOrders(calls[i].reply.phase, call.reply.phase);
      }
    }
  }

  lemma {:induction false} StoryGrows(kind: Kind, name: string, startedNs: nat, deadlineNs: nat, calls: seq<Call>,
                                      s: State, call: Call)
    requires Story(kind, name, startedNs, deadlineNs, calls) && Holds(s, kind, name, startedNs, deadlineNs, calls)
    requires NextFits(s, call, |calls|)
    ensures Story(kind, name, startedNs, deadlineNs, calls + [call])
  {
    var more := calls + [call];
    forall i | 0 <= i < |more|
      ensures CallFits(kind, name, startedNs, deadlineNs, more, i)
    {
      if i < |calls| {
        assert CallFits(kind, name, startedNs, deadlineNs, calls, i);
      }
    }
    forall i, j | 0 <= i < j < |more|
      ensures Agrees(more[i].reply, more[j].reply)
    {
      if j < |calls| {
        assert Agrees(calls[i].reply, calls[j].reply);
      } else {
        EarlierAgrees(kind, name, startedNs, deadlineNs, calls, s, call, i);
      }
    }
  }

  lemma {:induction false} StoryShrinks(kind: Kind, name: string, startedNs: nat, deadlineNs: nat, calls: seq<Call>,
                                        call: Call)
    requires Story(kind, name, startedNs, deadlineNs, calls + [call])
    ensures Story(kind, name, startedNs, deadlineNs, calls)
  {
    var more := calls + [call];
    forall i | 0 <= i < |calls|
      ensures CallFits(kind, name, startedNs, deadlineNs, calls, i)
    {
      assert CallFits(kind, name, startedNs, deadlineNs, more, i);
    }
    forall i, j | 0 <= i < j < |calls|
      ensures Agrees(calls[i].reply, calls[j].reply)
    {
      assert Agrees(more[i].reply, more[j].reply);
    }
  }

  lemma {:induction false} StoryNext(kind: Kind, name: string, startedNs: nat, deadlineNs: nat, calls: seq<Call>,
                                     s: State, call: Call)
    requires Story(kind, name, startedNs, deadlineNs, calls + [call])
    requires Holds(s, kind, name, startedNs, deadlineNs, calls)
    ensures NextFits(s, call, |calls|)
  {
    var more, n := calls + [call], |calls|;
    var k := LastReceiptAt(calls);
    assert CallFits(kind, name, startedNs, deadlineNs, more, n);
    if n > 0 {
      assert Agrees(more[0].reply, more[n].reply);
    }
    if LastReceipt(calls).Some? {
      assert Agrees(more[k].reply, more[n].reply);
    }
  }

  /** An operation comes through unfailed exactly on these histories, and then holds what they say. */
  lemma {:induction false} UnfailedIff(kind: Kind, name: string, startedNs: nat, deadlineNs: nat, calls: seq<Call>)
    requires ClockAdmits(startedNs, deadlineNs)
    ensures var s := Run(Initial(kind, name, startedNs, deadlineNs), calls);
            && (!s.failed <==> Story(kind, name, startedNs, deadlineNs, calls))
            && (!s.failed ==> Holds(s, kind, name, startedNs, deadlineNs, calls))
    decreases |calls|
  {
    var first := Initial(kind, name, startedNs, deadlineNs);
    if |calls| > 0 {
      var before, last := calls[..|calls| - 1], calls[|calls| - 1];
      assert calls == before + [last];
      RunOn(first, before, last);
      RunKeeps(first, before);
      UnfailedIff(kind, name, startedNs, deadlineNs, before);
      var s := Run(first, before);
      if s.failed {
        FailedStays(s, last);
        if Story(kind, name, startedNs, deadlineNs, calls) {
          StoryShrinks(kind, name, startedNs, deadlineNs, before, last);
        }
      } else {
        StepIff(s, last, kind, name, startedNs, deadlineNs, before);
        if NextFits(s, last, |before|) {
          StoryGrows(kind, name, startedNs, deadlineNs, before, s, last);
        } else if Story(kind, name, startedNs, deadlineNs, calls) {
          StoryNext(kind, name, startedNs, deadlineNs, before, s, last);
        }
      }
    }
  }
}
