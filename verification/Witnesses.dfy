/**
 * Runs from the empty store, on the shipped policy, in which every body answers a claim of its own:
 * clearing one hold twice, resuming a debit late, and executors that raise or put off without end.
 */
module Witnesses {
  import opened Sequences
  import opened Models
  import opened Policies
  import opened Tables
  import opened Agent
  import opened Runs
  import opened Histories
  import opened Allowance
  import opened OneBodyPerClaim
  import DebitCalls
  import Limits
  import Replies
  import Runner
  import Taxonomies
  import Windows

  const SIGNAL := FailureSignal(1, None, 7, 49900, None, None, None, None, 0, None)
  const ENV := Env(SHIPPED, Taxonomies.RawTaxonomy([], map[]))

  /** Eight in the morning: the first minute of contact hours, and clear of every band. */
  function Morning(day: Date): Instant {
    At(day, 8 * HOUR)
  }

  lemma MorningIsClear(day: Date, rail: Rail)
    ensures DateOf(Morning(day)) == day && Windows.NextExecution(SHIPPED, Morning(day), rail) == Morning(day)
  {
    Calendar(day, 8 * HOUR);
  }

  // -- the moves ---------------------------------------------------------------

  /** A failure that says nothing of its cause, which is held for a person. */
  const HELD := Webhook(None, SIGNAL, 0, 0)

  /** The customer promises to pay today. */
  function Promise(known: Case, day: Date): Move {
    Reply(0, known, Promising(day), Morning(day))
  }

  function Promising(day: Date): Replies.ParsedReply {
    Replies.ParsedReply(
      [Replies.DetectedIntent(Replies.PromiseToPay, 1.0)], Replies.ADate(day), Replies.Neutral, false)
  }

  function Taking(id: nat, worker: Worker, now: Instant): Move {
    Claim(now, worker, 1, [id])
  }

  function Running(id: nat, worker: Worker, answer: Runner.Response, now: Instant): Move {
    Dispatch(id, worker, {Retry}, answer, now)
  }

  const DONE := Runner.Returned(Runner.Outcome(Done, None, false))

  function PutOff(until: Instant): Runner.Response {
    Runner.Returned(Runner.Outcome(Pending, Some(until), false))
  }

  // -- growing a run -------------------------------------------------------------

  /** A careful run in which every body answers a claim. */
  predicate Good(moves: seq<Move>) {
    CarefulRun(ENV, moves) && Answers(moves)
  }

  function Now(moves: seq<Move>): Db {
    StateAt(ENV, EMPTY, moves, |moves|)
  }

  function CallsIn(moves: seq<Move>): nat {
    DebitCalls.Calls(ENV, moves, |moves|, 0)
  }

  function Owed(moves: seq<Move>, i: nat): set<Worker> {
    Owing(moves, |moves|, i)
  }

  lemma CallsOfPrefix(moves: seq<Move>, m: Move, k: nat)
    requires k <= |moves|
    ensures DebitCalls.Calls(ENV, moves + [m], k, 0) == DebitCalls.Calls(ENV, moves, k, 0)
    decreases k
  {
    hide DebitCalls.CallsFor, StateAt;
    if k > 0 {
      CallsOfPrefix(moves, m, k - 1);
      StateOfPrefix(ENV, EMPTY, moves, [m], k - 1);
    }
  }

  /** A good run goes on by any move that is enabled, careful, and owed if it is a body. */
  lemma Grow(moves: seq<Move>, m: Move)
    requires Good(moves) && Enabled(Now(moves), m) && Careful(ENV, Now(moves), m)
    requires m.Dispatch? ==> m.worker in Owed(moves, m.id)
    ensures Good(moves + [m])
    ensures Now(moves + [m]) == Apply(ENV, Now(moves), m)
    ensures CallsIn(moves + [m]) == CallsIn(moves) + (if DebitCalls.CallsFor(Now(moves), m, 0) then 1 else 0)
    ensures Owed(moves + [m], 0) == OwingAfter(Owed(moves, 0), m, 0)
    ensures m.Claim? ==> forall i :: i in m.ids ==> m.worker in Owed(moves + [m], i)
  {
    hide Enabled, Apply, Careful, DebitCalls.CallsFor, StateAt, Owing;
    OneMoreMove(ENV, moves, m);
    forall k | 0 <= k <= |moves|
      ensures Careful(ENV, StateAt(ENV, EMPTY, moves + [m], k), (moves + [m])[k])
    {
      StateOfPrefix(ENV, EMPTY, moves, [m], k);
    }
    CallsOfPrefix(moves, m, |moves|);
    OneMoreAnswer(moves, m);
    if m.Claim? {
      forall i | i in m.ids
        ensures m.worker in Owed(moves + [m], i)
      {
        assert Owing(moves + [m], |moves| + 1, i) == OwingAfter(Owing(moves, |moves|, i), m, i);
      }
    }
  }

  lemma NothingYet()
    ensures Good([]) && Now([]) == EMPTY && CallsIn([]) == 0 && Owed([], 0) == {}
  {
  }

  // -- the case, and its debits -----------------------------------------------------

  /** The one case, under no stop, with so many attempts counted. */
  predicate OneCase(s: Db, count: nat) {
    && s.cases.Keys == {0}
    && s.cases[0].customer == 7 && s.cases[0].amountPaise == 49900 && s.cases[0].retryCount == count
    && SignalOf(s, 0) == Some(SIGNAL)
    && s.suppressions == []
  }

  predicate ItsDebit(row: Row) {
    row.kind == Retry && row.caseId == 0 && row.customer == 7
  }

  /** In the queue, only debits for the case that are settled. */
  predicate Idle(s: Db, count: nat) {
    && OneCase(s, count)
    && forall i :: 0 <= i < |s.rows| ==> ItsDebit(s.rows[i]) && (s.rows[i].state.Failed? || s.rows[i].state.Done?)
  }

  lemma Holding()
    ensures Enabled(EMPTY, HELD) && Careful(ENV, EMPTY, HELD)
    ensures var s := Apply(ENV, EMPTY, HELD);
            Idle(s, 0) && s.rows == [] && s.cases[0].state == HeldForHuman
  {
    hide LadderEntered;
    var d := Taxonomies.Diagnose(ENV.tx, SIGNAL);
    assert d == Taxonomies.Diagnose(ENV.tx, SIGNAL) && d.confidence == 0.0;
  }

  lemma HeldOnce() returns (moves: seq<Move>)
    ensures moves == [HELD] && Good(moves) && CallsIn(moves) == 0 && Owed(moves, 0) == {}
    ensures Idle(Now(moves), 0) && Now(moves).rows == [] && Now(moves).cases[0].state == HeldForHuman
  {
    hide Enabled, Apply, Careful, Idle, Good, Now, CallsIn, Owed;
    NothingYet();
    Holding();
    Grow([], HELD);
    assert [] + [HELD] == [HELD];
    moves := [HELD];
  }

  lemma PromisingIsClear(day: Date)
    ensures var out := Replies.Decision(SHIPPED, Promising(day), day, None);
            out.realignTo == Some(day) && out.stopCode.None? && !out.needsHuman
  {
    hide Replies.Decision;
    var parsed := Promising(day);
    assert parsed.intents[0] in parsed.intents;
    Replies.MoneyMovesOnlyOnAClearPromise(SHIPPED, parsed, day, None, day);
    Replies.NoReplyIsDropped(SHIPPED, parsed, day, None);
  }

  lemma NothingToCancel(s: Db, now: Instant)
    requires Idle(s, 0)
    ensures CancelRows(s.rows, OnCase(0), Tables.RealignedTo, Some(now)) == s.rows
    ensures LiveRetries(s.rows, 0) == 0
  {
    CountZero(s.rows, LiveRetry(0));
  }

  function Debit(at: Instant): Row {
    NewRow(0, 7, Retry, Some(at), at, None)
  }

  /** A promise of today, on an idle case, queues one debit that is due at once. */
  lemma PromiseArms(s: Db, day: Date)
    requires Idle(s, 0)
    ensures var r := Agent.RealignedTo(SHIPPED, s, 0, s.cases[0], day, Morning(day));
            OneCase(r, 0) && r.rows == s.rows + [Debit(Morning(day))]
  {
    hide Windows.NextExecution, CancelRows, EscalatedBeyondCap, LiveRetries;
    MorningIsClear(day, Unrecognised);
    NothingToCancel(s, Morning(day));
    assert AmountOk(SHIPPED, Some(SIGNAL));
  }

  lemma Promised(s: Db, day: Date)
    requires Idle(s, 0)
    ensures var m := Promise(s.cases[0], day);
            && Enabled(s, m) && Careful(ENV, s, m)
            && OneCase(Apply(ENV, s, m), 0) && Apply(ENV, s, m).rows == s.rows + [Debit(Morning(day))]
  {
    hide Replies.Decision, Agent.RealignedTo, Limits.MayDebit;
    MorningIsClear(day, Unrecognised);
    PromisingIsClear(day);
    var out := Replies.Decision(SHIPPED, Promising(day), day, None);
    var read := Recorded(s, 0, Morning(day), ReplyRead(out.rules));
    PromiseArms(read, day);
  }

  lemma TheOnlyOneDue(rows: seq<Row>, row: Row, now: Instant)
    requires Due(row, now) && forall i :: 0 <= i < |rows| ==> !Due(rows[i], now)
    ensures IsClaim(rows + [row], now, 1, [|rows|])
  {
  }

  lemma LeasingTheLast(rows: seq<Row>, row: Row, until: Instant, who: Worker)
    ensures LeaseRows(rows + [row], [|rows|], until, who) == rows + [LeaseRow(row, until, who)]
  {
    hide LeaseRow;
  }

  /** The last row, pending and due, is the one a claim takes. */
  lemma Taken(s: Db, rows: seq<Row>, row: Row, worker: Worker, now: Instant)
    requires s.rows == rows + [row] && Due(row, now)
    requires forall i :: 0 <= i < |rows| ==> !rows[i].state.Pending?
    ensures var m := Taking(|rows|, worker, now);
            && Enabled(s, m) && Careful(ENV, s, m)
            && Apply(ENV, s, m) == s.(rows := rows + [LeaseRow(row, now + Runner.LEASE, worker)])
  {
    hide IsClaim, LeaseRow, LeaseRows;
    TheOnlyOneDue(rows, row, now);
    LeasingTheLast(rows, row, now + Runner.LEASE, worker);
  }

  // -- clearing one hold twice --------------------------------------------------------

  lemma Reopened(s: Db)
    requires OneCase(s, 0)
    ensures var m := Ruling(0, Open);
            && Enabled(s, m) && Careful(ENV, s, m)
            && OneCase(Apply(ENV, s, m), 0) && Apply(ENV, s, m).rows == s.rows
            && Apply(ENV, s, m).cases[0] == s.cases[0].(state := Open)
  {
  }

  lemma MidnightIsClear(rail: Rail)
    ensures Windows.NextExecution(SHIPPED, 0, rail) == 0
  {
  }

  /** Clearing a hold queues one debit, and is careful exactly when none was live. */
  lemma ClearedArms(s: Db, known: Case)
    requires OneCase(s, 0) && known.customer == 7 && known.amountPaise == 49900 && known.retryCount == 0
    ensures var m := Review(0, known, 0);
            && Enabled(s, m)
            && (Careful(ENV, s, m) <==> LiveRetries(s.rows, 0) == 0)
            && OneCase(Apply(ENV, s, m), 0) && Apply(ENV, s, m).rows == s.rows + [Debit(0)]
  {
    hide LiveRetries, Windows.NextExecution, EscalatedBeyondCap;
    MidnightIsClear(Unrecognised);
    assert AmountOk(SHIPPED, Some(SIGNAL));
  }

  lemma NoneOrOneLive(rows: seq<Row>)
    ensures rows == [] ==> LiveRetries(rows, 0) == 0
    ensures rows == [Debit(0)] ==> LiveRetries(rows, 0) != 0
  {
    CountZero(rows, LiveRetry(0));
  }

  const OPENED := Case(7, 49900, Open, 0, 0, None)

  /**
   * A failure is held; one person clears it, and another who saw the same hold clears it again. The
   * case is left with two live retries.
   */
  lemma ReviewingTwiceOverdraws() returns (moves: seq<Move>)
    ensures var clearing := [Ruling(0, Open), Review(0, OPENED, 0)];
            moves == [HELD] + clearing + clearing
    ensures StateAt(ENV, EMPTY, moves, 1).cases.Keys == {0}
    ensures StateAt(ENV, EMPTY, moves, 1).cases[0].state == HeldForHuman
    ensures IsRun(ENV, moves) && Answers(moves) && CarefulRun(ENV, moves[..|moves| - 1])
    ensures !Kept(ENV.p, Now(moves))
  {
    hide Enabled, Apply, Careful, Idle, CallsIn, Owed, Kept, StateAt, Consistent, IsRun, LiveRetries;
    var held := HeldOnce();
    var s := Now(held);
    assert OneCase(s, 0) by { IdleIsOneCase(s, 0); }
    Reopened(s);
    Grow(held, Ruling(0, Open));
    var one := held + [Ruling(0, Open)];
    NoneOrOneLive(Now(one).rows);
    ClearedArms(Now(one), OPENED);
    Grow(one, Review(0, OPENED, 0));
    var two := one + [Review(0, OPENED, 0)];
    Reopened(Now(two));
    Grow(two, Ruling(0, Open));
    var three := two + [Ruling(0, Open)];
    NoneOrOneLive(Now(three).rows);
    assert Now(three).rows == [Debit(0)];
    ClearedArms(Now(three), OPENED);
    moves := Overdrawn(three, Review(0, OPENED, 0));
    assert moves[..|moves| - 1] == three;
    assert moves == held + moves[1..];
    StateOfPrefix(ENV, EMPTY, held, moves[1..], 1);
  }

  lemma IdleIsOneCase(s: Db, count: nat)
    requires Idle(s, count)
    ensures OneCase(s, count)
  {
  }

  /** A good run taken one move further than care allows. */
  lemma Overdrawn(moves: seq<Move>, m: Move) returns (more: seq<Move>)
    requires Good(moves) && Enabled(Now(moves), m) && !Careful(ENV, Now(moves), m)
    requires m.Dispatch? ==> m.worker in Owed(moves, m.id)
    ensures more == moves + [m] && IsRun(ENV, more) && Answers(more)
    ensures !Kept(ENV.p, Now(more))
  {
    hide Enabled, Apply, Careful, StateAt, Kept, Consistent;
    more := moves + [m];
    OneMoreMove(ENV, moves, m);
    OneMoreAnswer(moves, m);
    RunsAreConsistent(ENV, moves, |moves|);
    RetryAllowance(ENV, moves, |moves|);
    MoveIsExact(ENV, Now(moves), m);
  }

  // -- resuming late -----------------------------------------------------------------

  /** The one debit, under a lease of this worker. */
  predicate LeasedTo(s: Db, worker: Worker, until: Instant) {
    && OneCase(s, 0)
    && |s.rows| == 1 && ItsDebit(s.rows[0])
    && s.rows[0].state.Leased? && s.rows[0].leasedUntil == Some(until) && s.rows[0].worker == Some(worker)
    && s.rows[0].scheduledFor.Some? && s.rows[0].scheduledFor.value <= until
  }

  lemma ArmedOnce() returns (moves: seq<Move>)
    ensures Good(moves) && CallsIn(moves) == 0 && Owed(moves, 0) == {}
    ensures OneCase(Now(moves), 0) && Now(moves).rows == [Debit(Morning(0))]
  {
    hide Enabled, Apply, Careful, Idle, Good, Now, CallsIn, Owed, DebitCalls.CallsFor, OneCase;
    var held := HeldOnce();
    var s := Now(held);
    assert 0 in s.cases by { IdleIsOneCase(s, 0); HasTheCase(s, 0); }
    Promised(s, 0);
    Grow(held, Promise(s.cases[0], 0));
    NotACall(s, Promise(s.cases[0], 0));
    moves := held + [Promise(s.cases[0], 0)];
  }

  lemma HasTheCase(s: Db, count: nat)
    requires OneCase(s, count)
    ensures 0 in s.cases
  {
  }

  lemma NotACall(s: Db, m: Move)
    requires !m.Dispatch?
    ensures !DebitCalls.CallsFor(s, m, 0)
  {
  }

  lemma FirstLeased() returns (moves: seq<Move>)
    ensures Good(moves) && CallsIn(moves) == 0 && Owed(moves, 0) == {0}
    ensures LeasedTo(Now(moves), 0, Morning(0) + Runner.LEASE)
  {
    hide Enabled, Apply, Careful, Good, Now, CallsIn, Owed, DebitCalls.CallsFor;
    var armed := ArmedOnce();
    var s, m := Now(armed), Taking(0, 0, Morning(0));
    assert s.rows == [] + [Debit(Morning(0))];
    Taken(s, [], Debit(Morning(0)), 0, Morning(0));
    Grow(armed, m);
    NotACall(s, m);
    moves := armed + [m];
  }

  lemma Freed(s: Db, worker: Worker, until: Instant)
    requires LeasedTo(s, worker, until)
    ensures var m := Release(until);
            && Enabled(s, m) && Careful(ENV, s, m)
            && OneCase(Apply(ENV, s, m), 0)
            && Apply(ENV, s, m).rows == [s.rows[0].(state := Pending, leasedUntil := None, worker := None)]
  {
  }

  /** The lease runs out, and the next worker takes the row from one that never ran it. */
  lemma TakenOver(moves: seq<Move>, worker: Worker, until: Instant) returns (more: seq<Move>)
    requires Good(moves) && LeasedTo(Now(moves), worker, until)
    ensures Good(more) && CallsIn(more) == CallsIn(moves) && Owed(more, 0) == Owed(moves, 0) + {worker + 1}
    ensures LeasedTo(Now(more), worker + 1, until + Runner.LEASE)
  {
    hide Enabled, Apply, Careful, Good, Now, CallsIn, Owed, DebitCalls.CallsFor;
    var s := Now(moves);
    Freed(s, worker, until);
    Grow(moves, Release(until));
    NotACall(s, Release(until));
    var freed := moves + [Release(until)];
    var t, m := Now(freed), Taking(0, worker + 1, until);
    assert t.rows == [] + [t.rows[0]];
    Taken(t, [], t.rows[0], worker + 1, until);
    Grow(freed, m);
    NotACall(t, m);
    more := freed + [m];
  }

  /** The body of the worker that still holds the row. */
  lemma HolderRuns(s: Db, worker: Worker, until: Instant, now: Instant)
    requires LeasedTo(s, worker, until)
    ensures var m := Running(0, worker, DONE, now);
            && Enabled(s, m) && Careful(ENV, s, m) && DebitCalls.CallsFor(s, m, 0)
            && Idle(Apply(ENV, s, m), 1) && |Apply(ENV, s, m).rows| == 1
  {
  }

  /** A body resumed after the row was settled: it runs again, and has room only below the cap. */
  lemma LateRuns(s: Db, count: nat, worker: Worker, now: Instant)
    requires Idle(s, count) && |s.rows| == 1
    ensures var m := Running(0, worker, DONE, now);
            && Enabled(s, m) && DebitCalls.CallsFor(s, m, 0)
            && (Careful(ENV, s, m) <==> count < SHIPPED.retryCap)
            && Idle(Apply(ENV, s, m), count + 1) && |Apply(ENV, s, m).rows| == 1
  {
    hide Count;
    CountZero(s.rows, LiveRetry(0));
  }

  lemma Resumed(moves: seq<Move>, count: nat, worker: Worker, now: Instant) returns (more: seq<Move>)
    requires Good(moves) && worker in Owed(moves, 0) && count < SHIPPED.retryCap
    requires Idle(Now(moves), count) && |Now(moves).rows| == 1
    ensures Good(more) && CallsIn(more) == CallsIn(moves) + 1 && Owed(more, 0) == Owed(moves, 0) - {worker}
    ensures Idle(Now(more), count + 1) && |Now(more).rows| == 1
  {
    hide Enabled, Apply, Careful, Idle, Good, Now, CallsIn, Owed, DebitCalls.CallsFor;
    LateRuns(Now(moves), count, worker, now);
    Grow(moves, Running(0, worker, DONE, now));
    more := moves + [Running(0, worker, DONE, now)];
  }

  /**
   * One debit is claimed by four workers in turn, each after the lease before it ran out; then each
   * comes back and runs its body. The first three are within the cap, and the fourth is not.
   */
  lemma ResumingLateOverdraws() returns (moves: seq<Move>)
    ensures IsRun(ENV, moves) && Answers(moves) && |moves| > 0 && CarefulRun(ENV, moves[..|moves| - 1])
    ensures CallsIn(moves[..|moves| - 1]) == SHIPPED.retryCap
    ensures !Kept(ENV.p, Now(moves))
  {
    hide Enabled, Apply, Careful, Idle, CallsIn, Owed, Kept, StateAt, LeasedTo, IsRun, DebitCalls.CallsFor;
    var late := Morning(0) + 4 * Runner.LEASE;
    var first := FirstLeased();
    var second := TakenOver(first, 0, Morning(0) + Runner.LEASE);
    var third := TakenOver(second, 1, Morning(0) + 2 * Runner.LEASE);
    var fourth := TakenOver(third, 2, Morning(0) + 3 * Runner.LEASE);
    HolderRuns(Now(fourth), 3, late, late);
    Grow(fourth, Running(0, 3, DONE, late));
    var once := fourth + [Running(0, 3, DONE, late)];
    var twice := Resumed(once, 1, 2, late);
    var thrice := Resumed(twice, 2, 1, late);
    LateRuns(Now(thrice), 3, 0, late);
    moves := Overdrawn(thrice, Running(0, 0, DONE, late));
    assert moves[..|moves| - 1] == thrice;
  }

  // -- executors that do not conclude ----------------------------------------------------

  /** A claimed debit whose executor raises: the row fails, the case is idle again, nothing is counted. */
  lemma RaisedIt(s: Db, rows: seq<Row>, row: Row, now: Instant)
    requires OneCase(s, 0) && s.rows == rows + [row] && ItsDebit(row) && row.state.Leased?
    requires forall i :: 0 <= i < |rows| ==>
               ItsDebit(rows[i]) && (rows[i].state.Failed? || rows[i].state.Done?)
    ensures var m := Running(|rows|, 0, Runner.Raised, now);
            && Enabled(s, m) && Careful(ENV, s, m) && DebitCalls.CallsFor(s, m, 0)
            && Idle(Apply(ENV, s, m), 0)
  {
  }

  /** A promise, a claim and a body that raises: one more call, and the case as idle as before. */
  lemma OneMoreRaised(moves: seq<Move>, day: Date) returns (more: seq<Move>)
    requires Good(moves) && Idle(Now(moves), 0)
    ensures Good(more) && Idle(Now(more), 0) && CallsIn(more) == CallsIn(moves) + 1
  {
    hide Enabled, Apply, Careful, Good, Now, CallsIn, Owed, DebitCalls.CallsFor, LeaseRow, NewRow, Debit;
    var s, at := Now(moves), Morning(day);
    var rows, promise := s.rows, Promise(s.cases[0], day);
    Promised(s, day);
    Grow(moves, promise);
    NotACall(s, promise);
    var armed := moves + [promise];
    DebitIsDue(at);
    Taken(Now(armed), rows, Debit(at), 0, at);
    Grow(armed, Taking(|rows|, 0, at));
    NotACall(Now(armed), Taking(|rows|, 0, at));
    var taken := armed + [Taking(|rows|, 0, at)];
    DebitLeased(at);
    assert |rows| in Taking(|rows|, 0, at).ids;
    RaisedIt(Now(taken), rows, LeaseRow(Debit(at), at + Runner.LEASE, 0), at);
    Grow(taken, Running(|rows|, 0, Runner.Raised, at));
    more := taken + [Running(|rows|, 0, Runner.Raised, at)];
  }

  lemma DebitIsDue(at: Instant)
    ensures Due(Debit(at), at)
  {
  }

  lemma DebitLeased(at: Instant)
    ensures var row := LeaseRow(Debit(at), at + Runner.LEASE, 0); ItsDebit(row) && row.state.Leased?
  {
  }

  /** However many: a careful run may call an executor that raises any number of times for one case. */
  lemma {:induction false} RaisingIsUnbounded(n: nat) returns (moves: seq<Move>)
    ensures CarefulRun(ENV, moves) && Answers(moves) && CallsIn(moves) == n
    ensures Idle(Now(moves), 0)
  {
    hide Enabled, Apply, Careful, Idle, Now, CallsIn, Owed, CarefulRun, Answers;
    if n == 0 {
      moves := HeldOnce();
    } else {
      var before := RaisingIsUnbounded(n - 1);
      moves := OneMoreRaised(before, n);
    }
  }

  /** The one debit, waiting for a morning. */
  predicate Waiting(s: Db, day: Date) {
    && OneCase(s, 0)
    && |s.rows| == 1 && ItsDebit(s.rows[0])
    && s.rows[0].state.Pending? && s.rows[0].scheduledFor == Some(Morning(day))
  }

  lemma PutOffIt(s: Db, row: Row, day: Date)
    requires OneCase(s, 0) && s.rows == [row] && ItsDebit(row) && row.state.Leased?
    ensures var m := Running(0, 0, PutOff(Morning(day + 1)), Morning(day));
            && Enabled(s, m) && Careful(ENV, s, m) && DebitCalls.CallsFor(s, m, 0)
            && Waiting(Apply(ENV, s, m), day + 1)
  {
  }

  lemma OneMorePutOff(moves: seq<Move>, day: Date) returns (more: seq<Move>)
    requires Good(moves) && Waiting(Now(moves), day)
    ensures Good(more) && Waiting(Now(more), day + 1) && CallsIn(more) == CallsIn(moves) + 1
  {
    hide Enabled, Apply, Careful, Good, Now, CallsIn, Owed, DebitCalls.CallsFor;
    var s, m := Now(moves), Taking(0, 0, Morning(day));
    assert s.rows == [] + [s.rows[0]];
    Taken(s, [], s.rows[0], 0, Morning(day));
    Grow(moves, m);
    NotACall(s, m);
    var taken := moves + [m];
    assert 0 in m.ids;
    PutOffIt(Now(taken), LeaseRow(s.rows[0], Morning(day) + Runner.LEASE, 0), day);
    var body := Running(0, 0, PutOff(Morning(day + 1)), Morning(day));
    Grow(taken, body);
    more := taken + [body];
  }

  /** And one that puts its debit off to the next morning, any number of times for one debit. */
  lemma {:induction false} PuttingOffIsUnbounded(n: nat) returns (moves: seq<Move>)
    ensures CarefulRun(ENV, moves) && Answers(moves) && CallsIn(moves) == n
    ensures Waiting(Now(moves), n)
  {
    hide Enabled, Apply, Careful, Now, CallsIn, Owed, CarefulRun, Answers;
    if n == 0 {
      moves := ArmedOnce();
    } else {
      var before := PuttingOffIsUnbounded(n - 1);
      moves := OneMorePutOff(before, n - 1);
    }
  }
}
