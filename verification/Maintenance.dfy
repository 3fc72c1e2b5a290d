/**
 * One public maintenance operation on the fault's clock: a single mutation, then
 * bounded polls of the operation it named, whatever the transport answers.
 */
module Maintenance {
  import opened Prelude

  const MAX_POLLS := 16
  const LIMIT: int := 240_000_000_000

  datatype Kind = Create | Restore

  datatype Phase = Accepted | Draining | Offline | ArtifactPublished | Validating | Succeeded

  function Rank(p: Phase): nat {
    match p
    case Accepted => 0
    case Draining => 1
    case Offline => 2
    case ArtifactPublished => 3
    case Validating => 4
    case Succeeded => 5
  }

  datatype Status = NewlyAccepted | AlreadyAccepted | Terminal | Found | OtherStatus

  /** What the operator's output decodes to; `wellFormed` covers its identifiers' text forms. */
  datatype Reply =
    | Malformed
    | Uncertain(operation: string)
    | Unavailable
    | Receipt(status: Status, kind: Kind, name: string, operation: string, inputHash: string, phase: Phase,
              wellFormed: bool)

  datatype Command = Mutate(kind: Kind) | PollOperation(operation: string)

  /** `issued` records the commands sent to the operator, in order. */
  datatype State = State(kind: Kind, name: string, startedNs: nat, deadlineNs: nat, lastNs: nat,
                         operation: Option<string>, inputHash: Option<string>, started: bool, complete: bool,
                         failed: bool, polls: nat, phase: Option<Phase>, issued: seq<Command>)

  predicate ClockAdmits(startedNs: int, deadlineNs: int) {
    0 <= startedNs < deadlineNs <= startedNs + LIMIT
  }

  function Initial(kind: Kind, name: string, startedNs: nat, deadlineNs: nat): State {
    State(kind, name, startedNs, deadlineNs, startedNs, None, None, false, false, false, 0, None, [])
  }

  predicate Ticks(s: State, now: int) {
    !s.failed && s.lastNs <= now < s.deadlineNs
  }

  predicate ReceiptFits(s: State, reply: Reply, polling: bool) {
    && reply.Receipt? && reply.wellFormed
    && (if polling then reply.status == Found else reply.status in {NewlyAccepted, AlreadyAccepted, Terminal})
    && reply.kind == s.kind && reply.name == s.name
    && (s.operation.Some? ==> reply.operation == s.operation.value)
    && (s.inputHash.Some? ==> reply.inputHash == s.inputHash.value)
    && (s.phase.Some? ==> Rank(reply.phase) >= Rank(s.phase.value))
  }

  /** Take one answer. An unknown outcome changes nothing but, at first, the operation's name. */
  function Observed(s: State, reply: Reply, polling: bool): State {
    if reply.Uncertain? && !polling then s.(operation := Some(reply.operation))
    else if reply.Unavailable? && polling then s
    else if ReceiptFits(s, reply, polling)
    then s.(phase := Some(reply.phase), operation := Some(reply.operation), inputHash := Some(reply.inputHash),
            complete := reply.phase == Succeeded)
    else s.(failed := true)
  }

  /** After the operator returned at `responded`. */
  function Answered(s: State, reply: Reply, responded: int, polling: bool): State {
    if Ticks(s, responded) then Observed(s.(lastNs := responded), reply, polling) else s.(failed := true)
  }

  function Start(s: State, now: int, reply: Reply, responded: int): State {
    if !Ticks(s, now) || s.started then s.(failed := true)
    else Answered(s.(lastNs := now, started := true, issued := s.issued + [Mutate(s.kind)]), reply, responded, false)
  }

  predicate MayPoll(s: State) {
    s.started && !s.complete && s.operation.Some? && s.polls < MAX_POLLS
  }

  function Poll(s: State, now: int, reply: Reply, responded: int): State {
    if !Ticks(s, now) || !MayPoll(s) then s.(failed := true)
    else Answered(s.(lastNs := now, polls := s.polls + 1, issued := s.issued + [PollOperation(s.operation.value)]),
                  reply, responded, true)
  }

  datatype Call = StartCall(now: int, reply: Reply, responded: int) | PollCall(now: int, reply: Reply, responded: int)

  function Step(s: State, call: Call): State {
    match call
    case StartCall(now, reply, responded) => Start(s, now, reply, responded)
    case PollCall(now, reply, responded) => Poll(s, now, reply, responded)
  }

  function Run(s: State, calls: seq<Call>): State
    decreases |calls|
  {
    if |calls| == 0 then s else Run(Step(s, calls[0]), calls[1..])
  }

  // --- what every reply sequence keeps -------------------------------------

  ghost predicate Inv(s: State) {
    && ClockAdmits(s.startedNs, s.deadlineNs) && s.startedNs <= s.lastNs < s.deadlineNs
    && s.polls <= MAX_POLLS && |s.issued| == (if s.started then 1 + s.polls else 0)
    && (s.started ==> s.issued[0] == Mutate(s.kind))
    && (!s.started ==> s.operation.None? && s.phase.None? && s.polls == 0)
    && (s.polls > 0 ==> s.operation.Some?)
    && (forall i :: 1 <= i < |s.issued| ==> s.issued[i] == PollOperation(s.operation.value))
    && (s.complete <==> s.phase == Some(Succeeded))
    && (s.phase.Some? <==> s.inputHash.Some?) && (s.phase.Some? ==> s.operation.Some?)
    && (s.started && !s.failed ==> s.operation.Some?)
  }

  /** Names stay fixed once known, phases never go back, completion and failure are final. */
  ghost predicate Grows(s: State, next: State) {
    && next.kind == s.kind && next.name == s.name && next.startedNs == s.startedNs && next.deadlineNs == s.deadlineNs
    && s.lastNs <= next.lastNs && s.issued <= next.issued && s.polls <= next.polls
    && (s.operation.Some? ==> next.operation == s.operation)
    && (s.inputHash.Some? ==> next.inputHash == s.inputHash)
    && (s.phase.Some? ==> next.phase.Some? && Rank(s.phase.value) <= Rank(next.phase.value))
    && (s.complete ==> next.complete) && (s.failed ==> next.failed) && (s.started ==> next.started)
  }

  lemma {:induction false} StepKeeps(s: State, call: Call)
    requires Inv(s)
    ensures Inv(Step(s, call)) && Grows(s, Step(s, call))
    ensures s.failed ==> Step(s, call) == s
  {
  }

  /**
   * Over every reply sequence: one mutation, first and alone; at most sixteen polls, all
   * of the one operation; identity and input hash fixed once known; phases in order;
   * complete exactly on the final phase.
   */
  lemma {:induction false} RunKeeps(s: State, calls: seq<Call>)
    requires Inv(s)
    ensures Inv(Run(s, calls)) && Grows(s, Run(s, calls))
    decreases |calls|
  {
    if calls != [] {
      StepKeeps(s, calls[0]);
      RunKeeps(Step(s, calls[0]), calls[1..]);
    }
  }

  lemma {:induction false} OneMutation(kind: Kind, name: string, startedNs: nat, deadlineNs: nat, calls: seq<Call>,
                                       i: nat)
    requires ClockAdmits(startedNs, deadlineNs) && i < |Run(Initial(kind, name, startedNs, deadlineNs), calls).issued|
    ensures |Run(Initial(kind, name, startedNs, deadlineNs), calls).issued| <= 1 + MAX_POLLS
    ensures Run(Initial(kind, name, startedNs, deadlineNs), calls).issued[i].Mutate? <==> i == 0
  {
    RunKeeps(Initial(kind, name, startedNs, deadlineNs), calls);
  }

  /** Some sequence of calls and answers leaves the operation in this state. */
  ghost predicate Reachable(s: State) {
    && ClockAdmits(s.startedNs, s.deadlineNs)
    && exists calls :: s == Run(Initial(s.kind, s.name, s.startedNs, s.deadlineNs), calls)
  }

  lemma {:induction false} ReachableInv(s: State)
    requires Reachable(s)
    ensures Inv(s)
  {
    var calls :| s == Run(Initial(s.kind, s.name, s.startedNs, s.deadlineNs), calls);
    RunKeeps(Initial(s.kind, s.name, s.startedNs, s.deadlineNs), calls);
  }

  /** What the answers so far have said about the operation. */
  datatype Known = Known(operation: Option<string>, inputHash: Option<string>, phase: Option<Phase>)

  class Operation {
    const kind: Kind
    const name: string
    const startedNs: nat
    const deadlineNs: nat
    var lastNs: nat
    var known: Known
    var started: bool
    var complete: bool
    var failed: bool
    var polls: nat
    ghost var issued: seq<Command>

    ghost function View(): State
      reads this
    {
      State(kind, name, startedNs, deadlineNs, lastNs, known.operation, known.inputHash, started, complete, failed,
            polls,
            known.phase, issued)
    }

    constructor (kind: Kind, name: string, startedNs: nat, deadlineNs: nat)
      requires ClockAdmits(startedNs, deadlineNs)
      ensures View() == Initial(kind, name, startedNs, deadlineNs)
    {
      this.kind, this.name, this.startedNs, this.deadlineNs := kind, name, startedNs, deadlineNs;
      lastNs, known := startedNs, Known(None, None, None);
      started, complete, failed, polls := false, false, false, 0;
      issued := [];
    }

    method Answer(reply: Reply, responded: int, polling: bool)
      modifies this`lastNs, this`known, this`complete, this`failed
      ensures View() == Answered(old(View()), reply, responded, polling)
    {
      var ticks := !failed && lastNs <= responded < deadlineNs;
      if ticks {
        lastNs := responded;
      }
      var unknown := if polling then reply.Unavailable? else reply.Uncertain?;
      var fits := && reply.Receipt? && reply.wellFormed
                  && (if polling then reply.status == Found
                      else reply.status in {NewlyAccepted, AlreadyAccepted, Terminal})
                  && reply.kind == kind && reply.name == name
                  && (known.operation.Some? ==> reply.operation == known.operation.value)
                  && (known.inputHash.Some? ==> reply.inputHash == known.inputHash.value)
                  && (known.phase.Some? ==> Rank(reply.phase) >= Rank(known.phase.value));
      failed := !ticks || !(unknown || fits);
      if ticks && fits {
        known := Known(Some(reply.operation), Some(reply.inputHash), Some(reply.phase));
        complete := reply.phase == Succeeded;
      } else if ticks && unknown && !polling {
        known := known.(operation := Some(reply.operation));
      }
    }

    method StartOnce(now: int, reply: Reply, responded: int)
      modifies this
      ensures View() == Start(old(View()), now, reply, responded)
    {
      if failed || now < lastNs || now >= deadlineNs || started {
        failed := true;
        return;
      }
      lastNs, started := now, true;
      issued := issued + [Mutate(kind)];
      Answer(reply, responded, false);
    }

    method PollOnce(now: int, reply: Reply, responded: int)
      modifies this
      ensures View() == Poll(old(View()), now, reply, responded)
    {
      if failed || now < lastNs || now >= deadlineNs || !started || complete || known.operation.None?
         || polls >= MAX_POLLS {
        failed := true;
        return;
      }
      lastNs, polls := now, polls + 1;
      issued := issued + [PollOperation(known.operation.value)];
      Answer(reply, responded, true);
    }
  }

  // --- the shared poll budget ----------------------------------------------

  /** One of `parts` equal shares of `rest`, to the nanosecond. */
  ghost predicate EvenShare(rest: nat, parts: nat, share: nat) {
    share * parts <= rest < (share + 1) * parts
  }

  lemma {:induction false} QuotientShares(rest: nat, parts: nat)
    requires parts >= 2
    ensures EvenShare(rest, parts, rest / parts) && (rest > 0 ==> rest / parts < rest)
  {
    var share := rest / parts;
    assert rest == share * parts + rest % parts && (share + 1) * parts == share * parts + parts;
    assert share * parts >= share * 2;
  }

  lemma {:induction false} MulOrder(k: nat, a: int, b: int)
    requires a <= b
    ensures k * a <= k * b
  {
  }

  /** As long as the share or longer is exactly long enough to leave less than the parts of it. */
  lemma {:induction false} SharePassed(rest: nat, parts: nat, share: nat, waited: nat)
    requires EvenShare(rest, parts, share)
    ensures share <= waited <==> rest < (waited + 1) * parts
  {
    if share <= waited {
      MulOrder(parts, share + 1, waited + 1);
    } else {
      MulOrder(parts, waited + 1, share);
    }
  }

  /** One of `parts` equal shares of what is left, to the nanosecond; never all of it. */
  function Share(rest: nat, parts: nat): (share: nat)
    requires parts >= 2
    ensures EvenShare(rest, parts, share) && (rest > 0 ==> share < rest)
  {
    QuotientShares(rest, parts);
    rest / parts
  }

  /** When the `index`th poll becomes due. */
  function Until(now: nat, deadline: nat, index: nat): nat
    requires now <= deadline && index < MAX_POLLS
  {
    now + Share(deadline - now, MAX_POLLS - index + 1)
  }

  /** The next poll is always due strictly before the deadline, and at the first instant with a share passed. */
  lemma {:induction false} PollDueInTime(now: nat, deadline: nat, index: nat)
    requires now < deadline && index < MAX_POLLS
    ensures now <= Until(now, deadline, index) < deadline
    ensures EvenShare(deadline - now, 17 - index, Until(now, deadline, index) - now)
  {
    assert Share(deadline - now, MAX_POLLS - index + 1) < deadline - now;
  }

  /** What is left of the budget after `index` polls, each answered the moment it was due. */
  function Left(budget: nat, index: nat): (left: nat)
    requires index <= MAX_POLLS
  {
    if index == 0 then budget
    else
      var rest := Left(budget, index - 1);
      rest - Share(rest, MAX_POLLS - (index - 1) + 1)
  }

  lemma {:induction false} CancelLeft(k: nat, a: int, b: int)
    requires k > 0 && k * a <= k * b
    ensures a <= b
  {
    assert k * (b + 1) == k * b + k;
    if b < a {
      MulOrder(k, b + 1, a);
    }
  }

  lemma {:induction false} ShareStep(rest: nat, share: nat, parts: nat, whole: nat)
    requires parts >= 2 && share * parts <= rest && 17 * rest >= parts * whole
    ensures 17 * (rest - share) >= (parts - 1) * whole
  {
    // parts * (rest - share) >= (parts - 1) * rest, so multiply out and divide by parts.
    var left := rest - share;
    assert parts * left == parts * rest - share * parts;
    assert parts * left >= (parts - 1) * rest;
    assert parts * (17 * left) == 17 * (parts * left);
    assert 17 * ((parts - 1) * rest) == (parts - 1) * (17 * rest);
    MulOrder(parts - 1, parts * whole, 17 * rest);
    assert (parts - 1) * (parts * whole) == parts * ((parts - 1) * whole);
    CancelLeft(parts, (parts - 1) * whole, 17 * left);
  }

  lemma {:induction false} ShareStepAbove(rest: nat, share: nat, parts: nat, whole: nat)
    requires parts >= 2 && rest < (share + 1) * parts && 17 * rest <= parts * whole
    ensures 17 * (rest - share) <= (parts - 1) * (whole + 17)
  {
    // parts * (rest - share) <= (parts - 1) * (rest + 1), so multiply out and divide by parts.
    var left := rest - share;
    assert (share + 1) * parts == share * parts + parts && parts * left == parts * rest - share * parts;
    assert parts * left <= (parts - 1) * (rest + 1);
    assert parts * (17 * left) == 17 * (parts * left);
    assert 17 * ((parts - 1) * (rest + 1)) == (parts - 1) * (17 * rest + 17);
    assert parts * (whole + 17) == parts * whole + parts * 17;
    MulOrder(parts - 1, 17 * rest + 17, parts * (whole + 17));
    assert (parts - 1) * (parts * (whole + 17)) == parts * ((parts - 1) * (whole + 17));
    CancelLeft(parts, 17 * left, (parts - 1) * (whole + 17));
  }

  /**
   * Sharing the remaining budget among the remaining polls and one final response
   * spreads it evenly: after `index` prompt polls at least (17 - index) seventeenths of
   * it are left, so a whole seventeenth still waits for the last response. No more than the
   * same seventeenths of the budget and 17 nanoseconds a poll are left either.
   */
  lemma {:induction false} BudgetSharedEvenly(budget: nat, index: nat)
    requires index <= MAX_POLLS
    ensures (17 - index) * budget <= 17 * Left(budget, index) <= (17 - index) * (budget + 17 * index)
    decreases index
  {
    if index > 0 {
      BudgetSharedEvenly(budget, index - 1);
      var rest, parts := Left(budget, index - 1), 18 - index;
      ShareStep(rest, Share(rest, parts), parts, budget);
      ShareStepAbove(rest, Share(rest, parts), parts, budget + 17 * (index - 1));
    }
  }

  /** One scheduled poll: the clock when it was planned, when it woke, the answer and its instant. */
  datatype Turn = Turn(now: nat, woke: nat, reply: Reply, responded: int)

  /** A turn wakes no earlier than its due time and, like every wait, before the deadline. */
  predicate TurnOk(turn: Turn, deadline: nat, index: nat)
    requires index < MAX_POLLS
  {
    turn.now < deadline && Until(turn.now, deadline, index) <= turn.woke < deadline
  }

  /** At least one share of the budget left at `now`, split among the polls left and one response, was waited for. */
  predicate Waited(turn: Turn, deadline: nat, index: nat) {
    turn.now <= turn.woke && deadline - turn.now < (turn.woke - turn.now + 1) * (17 - index)
  }

  lemma {:induction false} TurnOkIff(turn: Turn, deadline: nat, index: nat)
    requires index < MAX_POLLS
    ensures TurnOk(turn, deadline, index) <==> turn.woke < deadline && Waited(turn, deadline, index)
  {
    if turn.now < deadline && turn.now <= turn.woke {
      PollDueInTime(turn.now, deadline, index);
      var share := Until(turn.now, deadline, index) - turn.now;
      SharePassed(deadline - turn.now, 17 - index, share, turn.woke - turn.now);
    }
  }

  /** One turn for each poll the driver may make. */
  type Turns = turns: seq<Turn> | |turns| == MAX_POLLS witness seq(MAX_POLLS, _ => Turn(0, 0, Malformed, 0))

  /** Whether the driver polls once more. */
  predicate PollsOn(s: State, turns: Turns)
  {
    !s.failed && !s.complete && s.polls < MAX_POLLS && TurnOk(turns[s.polls], s.deadlineNs, s.polls)
  }

  function Polled(s: State, turn: Turn): State {
    Poll(s, turn.woke, turn.reply, turn.responded)
  }

  /** The operation after the driver's remaining polls. */
  function Driven(s: State, turns: Turns): State
    decreases MAX_POLLS - Min(s.polls, MAX_POLLS), !s.failed
  {
    if PollsOn(s, turns) then Driven(Polled(s, turns[s.polls]), turns) else s
  }

  /** The states in which the driver polls. */
  ghost function Attempts(s: State, turns: Turns): seq<State>
    decreases MAX_POLLS - Min(s.polls, MAX_POLLS), !s.failed
  {
    if PollsOn(s, turns) then [s] + Attempts(Polled(s, turns[s.polls]), turns) else []
  }

  /** The poll made in this state is admitted, and its share of the budget was waited for. */
  ghost predicate DuePoll(a: State, turns: Turns) {
    MayPoll(a) && Waited(turns[a.polls], a.deadlineNs, a.polls)
  }

  /**
   * No poll the driver makes is one too many, too soon, or of an operation not started, not
   * named or already done.
   */
  lemma {:induction false} NoPollTooMany(s: State, turns: Turns)
    requires Inv(s) && (s.failed || s.started)
    ensures forall a :: a in Attempts(s, turns) ==> DuePoll(a, turns)
    ensures |Attempts(s, turns)| <= MAX_POLLS - s.polls
    ensures Inv(Driven(s, turns)) && Grows(s, Driven(s, turns))
    decreases MAX_POLLS - s.polls, !s.failed
  {
    if PollsOn(s, turns) {
      var turn := turns[s.polls];
      StepKeeps(s, PollCall(turn.woke, turn.reply, turn.responded));
      TurnOkIff(turn, s.deadlineNs, s.polls);
      NoPollTooMany(Polled(s, turn), turns);
    }
  }

  /** Everything the driver meets: the answer to its mutation, and its turns. */
  datatype Errand = Errand(now: int, reply: Reply, responded: int, turns: Turns)

  /** The operation the driver leaves. */
  function Carried(s: State, e: Errand): State {
    Driven(Start(s, e.now, e.reply, e.responded), e.turns)
  }

  lemma {:induction false} DrivenRuns(s: State, turns: Turns) returns (calls: seq<Call>)
    ensures Run(s, calls) == Driven(s, turns)
    decreases MAX_POLLS - Min(s.polls, MAX_POLLS), !s.failed
  {
    calls := [];
    if PollsOn(s, turns) {
      var turn := turns[s.polls];
      var rest := DrivenRuns(Polled(s, turn), turns);
      calls := [PollCall(turn.woke, turn.reply, turn.responded)] + rest;
      assert calls[1..] == rest;
    }
  }

  /** What the driver leaves is what some sequence of calls leaves. */
  lemma {:induction false} CarriedReachable(kind: Kind, name: string, startedNs: nat, deadlineNs: nat, e: Errand)
    requires ClockAdmits(startedNs, deadlineNs)
    ensures var s := Carried(Initial(kind, name, startedNs, deadlineNs), e);
            Reachable(s) && s.kind == kind && s.name == name && s.startedNs == startedNs && s.deadlineNs == deadlineNs
  {
    var first := Initial(kind, name, startedNs, deadlineNs);
    var rest := DrivenRuns(Start(first, e.now, e.reply, e.responded), e.turns);
    var calls := [StartCall(e.now, e.reply, e.responded)] + rest;
    assert calls[1..] == rest && Run(first, calls) == Carried(first, e);
    RunKeeps(first, calls);
  }

  /** The driver's loop, from a started operation. */
  method DrivePolls(op: Operation, turns: Turns)
    requires (op.failed || op.polls == 0)
    modifies op
    ensures op.View() == Driven(old(op.View()), turns)
  {
    for index := 0 to MAX_POLLS
      invariant Driven(op.View(), turns) == Driven(old(op.View()), turns)
      invariant op.failed || op.polls == index
    {
      if op.failed || op.complete || !TurnOk(turns[index], op.deadlineNs, index) {
        break;
      }
      op.PollOnce(turns[index].woke, turns[index].reply, turns[index].responded);
    }
  }

  /**
   * The driver: one mutation, then scheduled polls until completion, failure or the last
   * of them. It succeeds exactly on a completed, unfailed operation, all before the deadline.
   */
  method Drive(op: Operation, e: Errand) returns (done: bool)
    requires op.View() == Initial(op.kind, op.name, op.startedNs, op.deadlineNs)
    requires ClockAdmits(op.startedNs, op.deadlineNs)
    modifies op
    ensures op.View() == Carried(old(op.View()), e) && Inv(op.View())
    ensures var begun := Start(old(op.View()), e.now, e.reply, e.responded);
            forall a :: a in Attempts(begun, e.turns) ==> DuePoll(a, e.turns)
    ensures done <==> op.complete && !op.failed
    ensures done ==> op.known.phase == Some(Succeeded) && op.lastNs < op.deadlineNs
  {
    op.StartOnce(e.now, e.reply, e.responded);
    StepKeeps(old(op.View()), StartCall(e.now, e.reply, e.responded));
    NoPollTooMany(op.View(), e.turns);
    DrivePolls(op, e.turns);
    return op.complete && !op.failed;
  }
}
