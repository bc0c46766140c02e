/** What one move does to each row already in the queue, and to the rows it adds. */
module Histories {
  import opened Sequences
  import opened Models
  import opened Tables
  import opened Effects
  import opened Runs
  import Policies
  import Runner

  /** What becomes of one row: only the queue's own moves do more to it than cancel it. */
  predicate RowMoves(env: Env, s: Db, m: Move, i: nat, after: Row)
    requires i < |s.rows|
  {
    var row := s.rows[i];
    match m
    case Release(now) => after == ReleaseRow(row, now)
    case Claim(now, worker, _, ids) =>
      after == if i in ids then LeaseRow(row, now + Runner.LEASE, worker) else row
    case Dispatch(id, _, table, response, now) =>
      if id != i then after == row else RanTo(env, s, m, after)
    case Ruling(_, _) => after == row
    case Lift(_, _, _) => after == row
    case Interrupted(_, _, _) => after == row
    case _ => SameButCancelled(row, after)
  }

  predicate RanTo(env: Env, s: Db, m: Move, after: Row)
    requires m.Dispatch? && m.id < |s.rows|
  {
    var rows := Runner.RunRow(env.p, s, m.id, m.table, m.response, m.now).0.rows;
    m.id < |rows| && after == rows[m.id]
  }

  /** The moves that may queue new work, and who they do it for. */
  predicate Queues(m: Move) {
    Decides(m) || m.Webhook? || m.Failure?
  }

  function MoveActor(s: Db, m: Move): Actor
    requires Queues(m) && Enabled(s, m)
  {
    if Decides(m) then ActorOf(s, m) else FailureActor(s, m)
  }

  predicate NewRowOf(env: Env, s: Db, m: Move, row: Row)
    requires Enabled(s, m)
  {
    && Queues(m)
    && var who := MoveActor(s, m);
       NewFor(env.p, row, who.c, who.customer, who.checked, who.now)
  }

  predicate RowsMove(env: Env, s: Db, m: Move, r: Db)
    requires Enabled(s, m)
  {
    && |s.rows| <= |r.rows|
    && (forall i :: 0 <= i < |s.rows| ==> RowMoves(env, s, m, i, r.rows[i]))
    && (forall i :: |s.rows| <= i < |r.rows| ==> NewRowOf(env, s, m, r.rows[i]))
  }

  lemma EffectMovesRows(env: Env, s: Db, m: Move, e: Db, r: Db)
    requires Enabled(s, m) && Queues(m) && e.rows == s.rows
    requires Effect(env.p, e, r, MoveActor(s, m))
    ensures RowsMove(env, s, m, r)
  {
    hide LegalDebit, AuditGrows, CasesKept, ActorOf, FailureActor;
    assert RowsGrow(
      env.p, s.rows, r.rows, MoveActor(s, m).c, MoveActor(s, m).customer, MoveActor(s, m).checked,
      MoveActor(s, m).now);
    forall i | 0 <= i < |s.rows|
      ensures RowMoves(env, s, m, i, r.rows[i])
    {
      assert SameButCancelled(s.rows[i], r.rows[i]);
    }
  }

  lemma BodyMovesRows(env: Env, s: Db, m: Move)
    requires m.Dispatch?
    ensures RowsMove(env, s, m, Apply(env, s, m))
  {
    hide Runner.RunRow;
    RowBodyFrame(env.p, s, m.id, m.table, m.response, m.now);
  }

  lemma EveryRowMoves(env: Env, s: Db, m: Move)
    requires Consistent(s) && Enabled(s, m)
    ensures RowsMove(env, s, m, Apply(env, s, m))
  {
    hide Effect, Consistent, RowsMove, ActorOf, FailureActor;
    if Decides(m) {
      DecisionEffect(env, s, m);
      EffectMovesRows(env, s, m, s, Apply(env, s, m));
    } else if m.Webhook? || m.Failure? {
      if Duplicate(s, m) {
        NothingMoves(env, s, m);
      } else {
        FailureEffect(env, s, m);
        EnteringKeepsConsistent(s, m);
        EffectMovesRows(env, s, m, Entering(s, m), Apply(env, s, m));
      }
    } else if m.Dispatch? {
      BodyMovesRows(env, s, m);
    } else {
      PlainlyMoves(env, s, m);
    }
  }

  lemma NothingMoves(env: Env, s: Db, m: Move)
    requires Enabled(s, m) && (m.Webhook? || m.Failure?)
    ensures RowsMove(env, s, m, s)
  {
  }

  lemma PlainlyMoves(env: Env, s: Db, m: Move)
    requires Enabled(s, m) && !Queues(m) && !m.Dispatch?
    ensures RowsMove(env, s, m, Apply(env, s, m))
  {
    hide IsClaim;
  }

  /** What each fate makes of the row: a cancelled one stays, the rest are settled or put off. */
  predicate Ended(row: Row, fate: Runner.Fate, after: Row) {
    match fate
    case CancelledFirst => row.state.Cancelled? && after == row
    case ContactBarred => after == row.(state := Cancelled, leasedUntil := None)
    case Unregistered => after == row.(state := NoAdapter, leasedUntil := None)
    case Crashed => after == row.(state := Failed, leasedUntil := None)
    case Moved(due) =>
      after == row.(state := Pending, leasedUntil := None, worker := None, scheduledFor := Some(due))
    case Closed(state, _) => after == row.(state := state, leasedUntil := None)
  }

  lemma SettledRow(s: Db, id: nat, o: Runner.Outcome, now: Instant)
    requires id < |s.rows|
    ensures var r := Runner.Settled(s, id, s.rows[id], o, now);
            && |r.rows| == |s.rows|
            && Ended(
                 s.rows[id],
                 if Runner.Deferred(o) then Runner.Moved(o.retryAt.value) else Runner.Closed(o.state, o.holdCase),
                 r.rows[id])
  {
  }

  lemma BodyEnds(p: Policies.Policy, s: Db, id: nat, table: set<ActionKind>, response: Runner.Response, now: Instant)
    requires id < |s.rows|
    ensures var (r, fate) := Runner.RunRow(p, s, id, table, response, now);
            && |r.rows| == |s.rows| && r.rows == s.rows[id := r.rows[id]]
            && Ended(s.rows[id], fate, r.rows[id])
            && (fate.CancelledFirst? <==> s.rows[id].state.Cancelled?)
  {
    hide Runner.Executes, CaseSuppressed, Runner.Settled;
    RowBodyFrame(p, s, id, table, response, now);
    var run := Runner.Executes(p, s, s.rows[id], response, now);
    if run.Returned? {
      SettledRow(s, id, run.outcome, now);
    }
    var r := Runner.RunRow(p, s, id, table, response, now).0;
    assert forall i :: 0 <= i < |s.rows| && i != id ==> r.rows[i] == s.rows[i];
  }

  // -- when an executor is called --------------------------------------------------

  /** A body calls an executor: the row is not cancelled, not under a stop, and its kind is registered. */
  predicate Calls(s: Db, m: Move)
    requires m.Dispatch?
  {
    && m.id < |s.rows|
    && !s.rows[m.id].state.Cancelled?
    && !CaseSuppressed(s, s.rows[m.id].caseId, s.rows[m.id].customer)
    && s.rows[m.id].kind in m.table
  }

  predicate CallsDebit(s: Db, m: Move)
    requires m.Dispatch?
  {
    Calls(s, m) && s.rows[m.id].kind == Retry
  }

  lemma CallsAreDispatches(env: Env, s: Db, m: Move)
    requires m.Dispatch?
    ensures Runner.Dispatched(Runner.RunRow(env.p, s, m.id, m.table, m.response, m.now).1) <==> Calls(s, m)
  {
    hide Runner.NudgeOutcome, CaseSuppressed, Runner.Settled;
  }

  /** A debit that is called is decided by its executor's answer alone. */
  lemma DebitsFollowTheAnswer(env: Env, s: Db, m: Move)
    requires m.Dispatch? && CallsDebit(s, m)
    ensures var (r, fate) := Runner.RunRow(env.p, s, m.id, m.table, m.response, m.now);
            match m.response
            case Raised => fate == Runner.Crashed && r == s.(rows := FinishRow(s.rows, m.id, Failed))
            case Returned(o) =>
              && r == Runner.Settled(s, m.id, s.rows[m.id], o, m.now)
              && fate == if Runner.Deferred(o) then Runner.Moved(o.retryAt.value)
                         else Runner.Closed(o.state, o.holdCase)
  {
    hide CaseSuppressed, Runner.Settled;
  }

  /** Whether a body holds its case: only a debit, or an executor beyond these two, that asked for it. */
  predicate HoldsItsCase(s: Db, m: Move)
    requires m.Dispatch?
  {
    && Calls(s, m)
    && s.rows[m.id].kind != NUDGE
    && m.response.Returned?
    && !Runner.Deferred(m.response.outcome)
    && m.response.outcome.holdCase
  }

  /** A body leaves every case's state as it was, but for the one its executor asked to be held. */
  lemma BodiesHoldExactly(env: Env, s: Db, m: Move, c: CaseId)
    requires m.Dispatch? && c in s.cases
    ensures c in Apply(env, s, m).cases
    ensures Apply(env, s, m).cases[c].state ==
            if HoldsItsCase(s, m) && s.rows[m.id].caseId == c then HeldForHuman else s.cases[c].state
  {
    hide CaseSuppressed, Runner.NudgeOutcome, Runner.Settled;
    if m.id < |s.rows| {
      var row := s.rows[m.id];
      NudgesNeverHold(env.p, s, row.caseId, m.now);
      var run := Runner.Executes(env.p, s, row, m.response, m.now);
      if run.Returned? {
        SettledState(s, m.id, run.outcome, m.now, c);
      }
    }
  }

  lemma SettledState(s: Db, id: nat, o: Runner.Outcome, now: Instant, c: CaseId)
    requires id < |s.rows| && c in s.cases
    ensures var r := Runner.Settled(s, id, s.rows[id], o, now);
            && c in r.cases
            && r.cases[c].state ==
               if !Runner.Deferred(o) && o.holdCase && s.rows[id].caseId == c then HeldForHuman else s.cases[c].state
  {
  }

  lemma NudgesNeverHold(p: Policies.Policy, s: Db, c: CaseId, now: Instant)
    ensures !Runner.NudgeOutcome(p, s, c, now).holdCase
  {
  }

  /** A debit of the system as it ships, once called, is finished for want of an adapter and holds its case. */
  lemma AShippedDebitHoldsItsCase(env: Env, s: Db, m: Move)
    requires m.Dispatch? && CallsDebit(s, m) && m.response == Runner.NO_DEBIT_ADAPTER
    requires s.rows[m.id].caseId in s.cases
    ensures var r, c := Apply(env, s, m), s.rows[m.id].caseId;
            && m.id < |r.rows| && r.rows[m.id].state == NoAdapter
            && c in r.cases
            && r.cases[c].state == HeldForHuman && r.cases[c].retryCount == s.cases[c].retryCount + 1
  {
    hide CaseSuppressed;
  }

  // -- a row over a stretch of a run ---------------------------------------------

  /** No row is ever lost, and what it was queued for never changes. */
  predicate Preserved(a: seq<Row>, b: seq<Row>) {
    && |a| <= |b|
    && forall i :: 0 <= i < |a| ==> SameRow(a[i], b[i]) && (a[i].state.Cancelled? ==> b[i] == a[i])
  }

  lemma MovePreservesRow(env: Env, s: Db, m: Move, i: nat, after: Row)
    requires i < |s.rows| && RowMoves(env, s, m, i, after) && Enabled(s, m)
    ensures SameRow(s.rows[i], after) && (s.rows[i].state.Cancelled? ==> after == s.rows[i])
  {
    hide Runner.RunRow;
    if m.Dispatch? && m.id == i {
      BodyEnds(env.p, s, m.id, m.table, m.response, m.now);
    }
  }

  lemma MovePreserves(env: Env, s: Db, m: Move)
    requires Consistent(s) && Enabled(s, m)
    ensures Preserved(s.rows, Apply(env, s, m).rows)
  {
    hide Consistent, RowMoves, NewRowOf, Apply, Enabled;
    EveryRowMoves(env, s, m);
    forall i | 0 <= i < |s.rows|
      ensures SameRow(s.rows[i], Apply(env, s, m).rows[i])
      ensures s.rows[i].state.Cancelled? ==> Apply(env, s, m).rows[i] == s.rows[i]
    {
      MovePreservesRow(env, s, m, i, Apply(env, s, m).rows[i]);
    }
  }

  /** Over any stretch of a run rows are only added, and a cancelled one stays as it was cancelled. */
  lemma {:induction false} NoRowIsLost(env: Env, moves: seq<Move>, j: nat, k: nat)
    requires IsRun(env, moves) && j <= k <= |moves|
    ensures Preserved(StateAt(env, EMPTY, moves, j).rows, StateAt(env, EMPTY, moves, k).rows)
    decreases k
  {
    hide Consistent, Apply, Enabled;
    if j < k {
      NoRowIsLost(env, moves, j, k - 1);
      RunsAreConsistent(env, moves, k - 1);
      MovePreserves(env, StateAt(env, EMPTY, moves, k - 1), moves[k - 1]);
    }
  }

  /** A case keeps its customer and the signal it was opened on. */
  lemma {:induction false} NoCaseIsLost(env: Env, moves: seq<Move>, j: nat, k: nat)
    requires IsRun(env, moves) && j <= k <= |moves|
    ensures var s, r := StateAt(env, EMPTY, moves, j), StateAt(env, EMPTY, moves, k);
            forall c :: c in s.cases ==> c in r.cases && r.cases[c].customer == s.cases[c].customer
    ensures var s, r := StateAt(env, EMPTY, moves, j), StateAt(env, EMPTY, moves, k);
            forall c :: c in s.signals ==> c in r.signals && r.signals[c] == s.signals[c]
    decreases k
  {
    hide Consistent, Apply, Enabled;
    if j < k {
      NoCaseIsLost(env, moves, j, k - 1);
      RunsAreConsistent(env, moves, k - 1);
      MoveKeepsCases(env, StateAt(env, EMPTY, moves, k - 1), moves[k - 1]);
    }
  }

  lemma MoveKeepsCases(env: Env, s: Db, m: Move)
    requires Consistent(s) && Enabled(s, m)
    ensures var r := Apply(env, s, m);
            && (forall c :: c in s.cases ==> c in r.cases && r.cases[c].customer == s.cases[c].customer)
            && (forall c :: c in s.signals ==> c in r.signals && r.signals[c] == s.signals[c])
  {
    hide Consistent, Effect;
    if Decides(m) {
      DecisionEffect(env, s, m);
      EffectKeepsCases(env.p, s, Apply(env, s, m), ActorOf(s, m));
    } else if m.Webhook? || m.Failure? {
      if !Duplicate(s, m) {
        FailureEffect(env, s, m);
        EnteringKeepsConsistent(s, m);
        SignalsAreCases(Entering(s, m));
        EffectKeepsCases(env.p, Entering(s, m), Apply(env, s, m), FailureActor(s, m));
        SignalsAreCases(s);
      }
    } else if m.Dispatch? {
      RowBodyFrame(env.p, s, m.id, m.table, m.response, m.now);
    } else if m.Interrupted? {
      OpeningIsStable(s, m.signal, m.newId);
      SignalsAreCases(s);
    }
  }

  lemma SignalsAreCases(s: Db)
    requires Consistent(s)
    ensures s.signals.Keys == s.cases.Keys
  {
  }

  lemma EffectKeepsCases(p: Policies.Policy, s: Db, r: Db, who: Actor)
    requires Effect(p, s, r, who)
    ensures r.signals == s.signals
    ensures forall c :: c in s.cases ==> c in r.cases && r.cases[c].customer == s.cases[c].customer
  {
  }
}
