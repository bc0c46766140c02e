/**
 * What the allowance counts, and what it does not. Over a careful run every call of a debit executor
 * is a counted attempt, a call that raised or one that was put back; only the first is bounded.
 */
module DebitCalls {
  import opened Sequences
  import opened Models
  import opened Policies
  import opened Tables
  import opened Agent
  import opened Runs
  import opened Histories
  import opened Allowance
  import Runner

  // -- every call, by its answer -----------------------------------------------------

  predicate CallsFor(s: Db, m: Move, c: CaseId) {
    m.Dispatch? && CallsDebit(s, m) && s.rows[m.id].caseId == c
  }

  predicate RaisesFor(s: Db, m: Move, c: CaseId) {
    CallsFor(s, m, c) && m.response.Raised?
  }

  /** The debit came back pending: put off to a time or, which no careful run allows, to none. */
  predicate PutsBackFor(s: Db, m: Move, c: CaseId) {
    CallsFor(s, m, c) && m.response.Returned? && m.response.outcome.state.Pending?
  }

  function Calls(env: Env, moves: seq<Move>, k: nat, c: CaseId): nat
    requires k <= |moves|
  {
    if k == 0 then 0
    else
      Calls(env, moves, k - 1, c)
      + (if CallsFor(StateAt(env, EMPTY, moves, k - 1), moves[k - 1], c) then 1 else 0)
  }

  function Raised(env: Env, moves: seq<Move>, k: nat, c: CaseId): nat
    requires k <= |moves|
  {
    if k == 0 then 0
    else
      Raised(env, moves, k - 1, c)
      + (if RaisesFor(StateAt(env, EMPTY, moves, k - 1), moves[k - 1], c) then 1 else 0)
  }

  function PutBack(env: Env, moves: seq<Move>, k: nat, c: CaseId): nat
    requires k <= |moves|
  {
    if k == 0 then 0
    else
      PutBack(env, moves, k - 1, c)
      + (if PutsBackFor(StateAt(env, EMPTY, moves, k - 1), moves[k - 1], c) then 1 else 0)
  }

  /** Each call runs a debit to an outcome, raises, or puts it back, and nothing else does. */
  lemma OneAnswerPerCall(env: Env, s: Db, m: Move, c: CaseId)
    ensures CallsFor(s, m, c) <==>
              AttemptsDebit(env, s, m, c) || RaisesFor(s, m, c) || PutsBackFor(s, m, c)
    ensures !(AttemptsDebit(env, s, m, c) && (RaisesFor(s, m, c) || PutsBackFor(s, m, c)))
  {
    hide CaseSuppressed, Runner.RunRow;
    if m.Dispatch? {
      CallsAreDispatches(env, s, m);
      if CallsDebit(s, m) {
        DebitsFollowTheAnswer(env, s, m);
      }
    }
  }

  /** Over every run, careful or not: the calls are the debits run, the calls that raised and those put back. */
  lemma {:induction false} EveryCallHasItsAnswer(env: Env, moves: seq<Move>, k: nat, c: CaseId)
    requires k <= |moves|
    ensures Calls(env, moves, k, c)
            == DebitsRun(env, moves, k, c) + Raised(env, moves, k, c) + PutBack(env, moves, k, c)
    decreases k
  {
    hide StateAt, CallsFor, RaisesFor, PutsBackFor, AttemptsDebit;
    if k > 0 {
      var s, m := StateAt(env, EMPTY, moves, k - 1), moves[k - 1];
      EveryCallHasItsAnswer(env, moves, k - 1, c);
      OneAnswerPerCall(env, s, m, c);
      NotBothBack(s, m, c);
    }
  }

  lemma NotBothBack(s: Db, m: Move, c: CaseId)
    ensures !(RaisesFor(s, m, c) && PutsBackFor(s, m, c))
  {
  }

  /** Every answer to this case's debits so far was an outcome: returned, and not pending. */
  predicate AllConcluded(env: Env, moves: seq<Move>, k: nat, c: CaseId)
    requires k <= |moves|
  {
    forall n :: 0 <= n < k && CallsFor(StateAt(env, EMPTY, moves, n), moves[n], c) ==>
      moves[n].response.Returned? && !moves[n].response.outcome.state.Pending?
  }

  lemma {:induction false} ConcludedMeansNothingBeyond(env: Env, moves: seq<Move>, k: nat, c: CaseId)
    requires k <= |moves|
    ensures Raised(env, moves, k, c) + PutBack(env, moves, k, c) == 0 <==> AllConcluded(env, moves, k, c)
    decreases k
  {
    hide StateAt;
    if k > 0 {
      ConcludedMeansNothingBeyond(env, moves, k - 1, c);
    }
  }

  /**
   * Over a careful run the calls exceed the counter by exactly those that raised or were put back.
   * They equal it if and only if every answer was an outcome, and then they are within the cap. No
   * other kind of answer is bounded at all.
   */
  lemma CallsAndTheCap(env: Env, moves: seq<Move>, k: nat, c: CaseId)
    requires CarefulRun(env, moves) && k <= |moves|
    ensures var s := StateAt(env, EMPTY, moves, k);
            c in s.cases ==>
              var count := s.cases[c].retryCount;
              && count <= env.p.retryCap
              && Calls(env, moves, k, c) == count + Raised(env, moves, k, c) + PutBack(env, moves, k, c)
              && (Calls(env, moves, k, c) == count <==> AllConcluded(env, moves, k, c))
              && (AllConcluded(env, moves, k, c) ==> Calls(env, moves, k, c) <= env.p.retryCap)
  {
    hide StateAt, CarefulRun, Calls, Raised, PutBack, DebitsRun, LiveRetries, AllConcluded;
    EveryCallHasItsAnswer(env, moves, k, c);
    DebitsNeverPassTheCap(env, moves, k, c);
    ConcludedMeansNothingBeyond(env, moves, k, c);
  }

  /** A debit executor that raises was called, but draws nothing on the allowance. */
  lemma RaisingDrawsNothing(env: Env, s: Db, m: Move)
    requires m.Dispatch? && CallsDebit(s, m) && m.response.Raised?
    ensures Runner.Dispatched(Runner.RunRow(env.p, s, m.id, m.table, m.response, m.now).1)
    ensures Apply(env, s, m) == s.(rows := FinishRow(s.rows, m.id, Failed))
    ensures LiveRetries(Apply(env, s, m).rows, s.rows[m.id].caseId)
            == LiveRetries(s.rows, s.rows[m.id].caseId) - (if Live(s.rows[m.id]) then 1 else 0)
  {
    hide Runner.RunRow, LiveRetries;
    CallsAreDispatches(env, s, m);
    DebitsFollowTheAnswer(env, s, m);
    UpdateRetries(s.rows, m.id, s.rows[m.id].(state := Failed, leasedUntil := None), s.rows[m.id].caseId);
  }

  /**
   * A debit already settled runs again when a late worker resumes it, and the allowance survives
   * that if and only if there is still room for one more attempt.
   */
  lemma ASettledDebitRunsAgain(env: Env, s: Db, m: Move)
    requires m.Dispatch? && m.id < |s.rows| && !Live(s.rows[m.id]) && CallsDebit(s, m)
    requires m.response.Returned? && m.response.outcome.state.Done?
    requires Consistent(s) && Kept(env.p, s)
    ensures !HeldByRunner(s, m)
    ensures var c := s.rows[m.id].caseId;
            Kept(env.p, Apply(env, s, m)) <==> CountOn(s, c) + LiveRetries(s.rows, c) < env.p.retryCap
  {
    hide Consistent, Kept, Runner.RunRow, LiveRetries, CaseSuppressed;
    BodyIsExact(env, s, m);
  }
}
