/**
 * Every debit is queued legally. Whichever path queues a retry, its case's amount passed the limits
 * and its time lies outside the bands that govern its rail, at or after the moment it was queued.
 */
module LegalRetries {
  import opened Sequences
  import opened Models
  import opened Policies
  import opened Windows
  import opened Tables
  import opened Agent
  import opened Effects
  import opened Runs
  import opened Histories
  import Allowance
  import Ladder
  import Limits
  import OneBodyPerClaim
  import Redelivery
  import Runner
  import Scheduler
  import Taxonomies

  // -- at birth ----------------------------------------------------------------

  /** A row first found after move `j`, as that move left it. */
  predicate BornBy(env: Env, moves: seq<Move>, j: nat, i: nat)
    requires j < |moves|
  {
    |StateAt(env, EMPTY, moves, j).rows| <= i < |StateAt(env, EMPTY, moves, j + 1).rows|
  }

  /** The signal a move that queues a debit has checked: the one it brings, or the one on file. */
  function Checked(s: Db, m: Move): Option<FailureSignal>
    requires Queues(m) && Enabled(s, m)
  {
    if Decides(m) then SignalOf(s, m.c) else Some(m.signal)
  }

  lemma NewRetriesAreLegal(env: Env, s: Db, m: Move, i: nat)
    requires Consistent(s) && Enabled(s, m)
    requires |s.rows| <= i < |Apply(env, s, m).rows| && Apply(env, s, m).rows[i].kind == Retry
    ensures Queues(m) && LegalDebit(env.p, Apply(env, s, m).rows[i], Checked(s, m))
    ensures Apply(env, s, m).rows[i].createdAt == m.now
  {
    hide Consistent, Apply, LegalDebit;
    EveryRowMoves(env, s, m);
    assert NewRowOf(env, s, m, Apply(env, s, m).rows[i]);
  }

  /** Every retry of every run was queued by some move, and that move queued it legally. */
  lemma {:induction false} EveryRetryWasQueuedLegally(env: Env, moves: seq<Move>, k: nat, i: nat) returns (j: nat)
    requires IsRun(env, moves) && k <= |moves|
    requires i < |StateAt(env, EMPTY, moves, k).rows| && StateAt(env, EMPTY, moves, k).rows[i].kind == Retry
    ensures j < k && BornBy(env, moves, j, i)
    ensures var s, row := StateAt(env, EMPTY, moves, j), StateAt(env, EMPTY, moves, j + 1).rows[i];
            && Enabled(s, moves[j]) && Queues(moves[j])
            && row.createdAt == moves[j].now
            && LegalDebit(env.p, row, Checked(s, moves[j]))
    decreases k
  {
    hide Consistent, Apply, Enabled, LegalDebit, Checked;
    if k == 0 {
      assert false;
    }
    var s := StateAt(env, EMPTY, moves, k - 1);
    NextState(env, moves, k - 1);
    RunsAreConsistent(env, moves, k - 1);
    if i < |s.rows| {
      MovePreserves(env, s, moves[k - 1]);
      j := EveryRetryWasQueuedLegally(env, moves, k - 1, i);
    } else {
      NewRetriesAreLegal(env, s, moves[k - 1], i);
      j := k - 1;
    }
  }

  // -- and after ---------------------------------------------------------------

  /** A retry row legal for the signal its case was opened on. */
  predicate LegalRow(p: Policy, s: Db, row: Row) {
    row.kind == Retry ==> LegalDebit(p, row, SignalOf(s, row.caseId))
  }

  predicate AllLegal(p: Policy, s: Db) {
    forall i :: 0 <= i < |s.rows| ==> LegalRow(p, s, s.rows[i])
  }

  /** The signal a failure's case was opened on: the one it brings, unless it was filed before. */
  function OnFile(s: Db, m: Move): FailureSignal
    requires m.Webhook? || m.Failure?
  {
    var c := CaseFor(s, m.signal, m.newId);
    if m.signal.paymentId in s.filed && c in s.signals then s.signals[c] else m.signal
  }

  /** Where an executor's answer to a called debit puts it, if it puts it off at all. */
  predicate DefersLegally(env: Env, s: Db, m: Move)
    requires m.Dispatch?
  {
    CallsDebit(s, m) && m.response.Returned? && Runner.Deferred(m.response.outcome) ==>
      LegalDebit(
        env.p, s.rows[m.id].(scheduledFor := m.response.outcome.retryAt), SignalOf(s, s.rows[m.id].caseId))
  }

  /** Only the fields the law reads matter to it. */
  lemma LegalityReads(p: Policy, a: Row, b: Row, checked: Option<FailureSignal>)
    requires a.scheduledFor == b.scheduledFor && a.createdAt == b.createdAt
    ensures LegalDebit(p, a, checked) == LegalDebit(p, b, checked)
  {
  }

  /** What a body does to its row's legality is decided by where, if anywhere, it is put off. */
  lemma BodyLegality(env: Env, s: Db, m: Move)
    requires m.Dispatch? && AllLegal(env.p, s)
    ensures AllLegal(env.p, Apply(env, s, m)) <==> DefersLegally(env, s, m)
  {
    hide LegalDebit, Runner.RunRow, Calls;
    var (r, fate) := Runner.RunRow(env.p, s, m.id, m.table, m.response, m.now);
    RowBodyFrame(env.p, s, m.id, m.table, m.response, m.now);
    assert r.signals == s.signals;
    forall i | 0 <= i < |s.rows| && i != m.id
      ensures LegalRow(env.p, r, r.rows[i])
    {
      assert LegalRow(env.p, s, s.rows[i]);
    }
    CallsAreDispatches(env, s, m);
    if m.id < |s.rows| {
      BodyEnds(env.p, s, m.id, m.table, m.response, m.now);
      assert LegalRow(env.p, s, s.rows[m.id]);
      var checked := SignalOf(s, s.rows[m.id].caseId);
      if CallsDebit(s, m) {
        DebitsFollowTheAnswer(env, s, m);
      }
      if fate.Moved? {
        LegalityReads(env.p, r.rows[m.id], s.rows[m.id].(scheduledFor := Some(fate.due)), checked);
      } else {
        LegalityReads(env.p, r.rows[m.id], s.rows[m.id], checked);
      }
      assert AllLegal(env.p, r) <==> LegalRow(env.p, r, r.rows[m.id]);
    } else {
      assert !Calls(s, m) by { NothingToCall(s, m); }
    }
  }

  lemma NothingToCall(s: Db, m: Move)
    requires m.Dispatch? && m.id >= |s.rows|
    ensures !Calls(s, m)
  {
  }

  // -- where a failure puts its debit ------------------------------------------------

  /** How long a debit waits: its class's backoff, and for an empty account a reply's grace first. */
  function WaitFor(p: Policy, klass: DiagnosisClass, attempt: nat): Duration {
    (if klass == RecoverableBalance then p.replyGrace else 0) + Scheduler.BackoffFor(p, Some(klass), attempt)
  }

  function LandingOf(env: Env, retryCount: nat, signal: FailureSignal, now: Instant): Instant {
    var wait := WaitFor(env.p, Taxonomies.Diagnose(env.tx, signal).klass, retryCount);
    Scheduler.Placed(env.p, now + wait, Some(now), RailOf(signal.methodName))
  }

  /** The instant a failure's debit lands on, should it queue one: known before it is handled. */
  function Landing(env: Env, s: Db, m: Move): Instant
    requires m.Webhook? || m.Failure?
  {
    var c := CaseFor(s, m.signal, m.newId);
    LandingOf(env, if c in s.cases then s.cases[c].retryCount else 0, m.signal, m.now)
  }

  predicate LandsAt(a: seq<Row>, b: seq<Row>, at: Instant) {
    && |a| <= |b|
    && forall i :: |a| <= i < |b| && b[i].kind == Retry ==> b[i].scheduledFor == Some(at)
  }

  predicate Extends(a: seq<Row>, b: seq<Row>) {
    |a| <= |b| && forall i :: 0 <= i < |a| ==> b[i] == a[i]
  }

  lemma LandThenExtend(a: seq<Row>, b: seq<Row>, c: seq<Row>, at: Instant)
    requires LandsAt(a, b, at) && Extends(b, c) && LandsAt(b, c, at)
    ensures LandsAt(a, c, at)
  {
    forall i | |a| <= i < |c| && c[i].kind == Retry
      ensures c[i].scheduledFor == Some(at)
    {
      if i < |b| {
        assert c[i] == b[i];
      }
    }
  }

  lemma ArmedLands(p: Policy, s: Db, c: CaseId, known: Case, requested: Instant, rail: Rail, now: Instant)
    ensures LandsAt(
      s.rows, RetryArmed(p, s, c, known, requested, rail, now).rows, Scheduler.Placed(p, requested, Some(now), rail))
  {
    hide Scheduler.Placed;
  }

  lemma EscalationLands(
    p: Policy, s: Db, c: CaseId, known: Case, klass: Option<DiagnosisClass>, now: Instant, at: Instant)
    ensures var r := EscalatedBeyondCap(p, s, c, known, klass, now);
            Extends(s.rows, r.rows) && LandsAt(s.rows, r.rows, at)
  {
    hide Climb, Ladder.Worthwhile, ExhaustedSent;
  }

  lemma FirstRetryLands(
    p: Policy, s: Db, c: CaseId, known: Case, klass: DiagnosisClass, signal: FailureSignal, now: Instant)
    ensures var at := now + Scheduler.BackoffFor(p, Some(klass), known.retryCount);
            LandsAt(
              s.rows, FirstRetryArmed(p, s, c, known, klass, signal, now).rows,
              Scheduler.Placed(p, at, Some(now), RailOf(signal.methodName)))
  {
    hide RetryArmed, EscalatedBeyondCap, Limits.MayDebit, Scheduler.BackoffFor, Scheduler.Placed;
    var at := now + Scheduler.BackoffFor(p, Some(klass), known.retryCount);
    var rail := RailOf(signal.methodName);
    var armed := RetryArmed(p, s, c, known, at, rail, now);
    var lands := Scheduler.Placed(p, at, Some(now), rail);
    ArmedLands(p, s, c, known, at, rail, now);
    EscalationLands(p, armed, c, known, Some(klass), now, lands);
    LandThenExtend(s.rows, armed.rows, EscalatedBeyondCap(p, armed, c, known, Some(klass), now).rows, lands);
  }

  lemma FallbackLands(
    p: Policy, s: Db, c: CaseId, known: Case, klass: DiagnosisClass, signal: FailureSignal, now: Instant)
    ensures var at := now + p.replyGrace + Scheduler.BackoffFor(p, Some(klass), known.retryCount);
            var r := BalanceFallback(p, s, c, known, klass, signal, now);
            && Extends(s.rows, r.rows)
            && LandsAt(s.rows, r.rows, Scheduler.Placed(p, at, Some(now), RailOf(signal.methodName)))
  {
    hide Limits.MayDebit, Scheduler.BackoffFor, Scheduler.Placed;
  }

  lemma LadderLands(
    p: Policy, s: Db, c: CaseId, known: Case, klass: DiagnosisClass, signal: FailureSignal, now: Instant)
    ensures LandsAt(
      s.rows, LadderEntered(p, s, c, known, klass, signal, now).rows,
      Scheduler.Placed(p, now + WaitFor(p, klass, known.retryCount), Some(now), RailOf(signal.methodName)))
  {
    hide FirstRetryArmed, BalanceFallback, Limits.MayDebit, Scheduler.BackoffFor, Scheduler.Placed,
      Ladder.Worthwhile, Extends;
    var r, rung := LadderEntered(p, s, c, known, klass, signal, now), Ladder.Entry(klass);
    var lands := Scheduler.Placed(
      p, now + WaitFor(p, klass, known.retryCount), Some(now), RailOf(signal.methodName));
    if rung.Some? && Ladder.Worthwhile(p, rung.value, known.amountPaise) {
      var entered := Recorded(s, c, now, EnteredAt(rung.value));
      if rung.value == SilentRetry {
        FirstRetryLands(p, entered, c, known, klass, signal, now);
      } else if klass == RecoverableBalance {
        var queued := Scheduled(entered, c, known.customer, Step(rung.value), Some(now), now, Some(AskDate));
        FallbackLands(p, queued, c, known, klass, signal, now);
        assert now + p.replyGrace + Scheduler.BackoffFor(p, Some(klass), known.retryCount)
            == now + WaitFor(p, klass, known.retryCount);
        LandThenExtend(s.rows, queued.rows, r.rows, lands);
      }
    }
  }

  lemma WorkingLands(env: Env, s: Db, c: CaseId, known: Case, signal: FailureSignal, now: Instant)
    ensures LandsAt(
      s.rows, DiagnosedAndWorked(env.p, env.tx, s, c, known, signal, now).rows,
      LandingOf(env, known.retryCount, signal, now))
  {
    hide LadderEntered, Taxonomies.Diagnose, Taxonomies.AuthorityOf, Scheduler.Placed, WaitFor;
    var d := Taxonomies.Diagnose(env.tx, signal);
    var filed := Recorded(
      DiagnosisFiled(s, c, d), c, now, Diagnosed(d.klass, Taxonomies.AuthorityOf(env.p, d)));
    LadderLands(env.p, filed, c, known, d.klass, signal, now);
  }

  lemma FirstWorkingLands(
    env: Env, s: Db, c: CaseId, known: Case, signal: FailureSignal, verdict: Verdict, now: Instant)
    ensures LandsAt(
      s.rows, FirstWorked(env.p, env.tx, s, c, known, signal, verdict, now).rows,
      LandingOf(env, known.retryCount, signal, now))
  {
    hide DiagnosedAndWorked, LandingOf, Taxonomies.NeedsVerification;
    WorkingLands(env, s, c, known, signal, now);
    WorkingLands(
      env, Recorded(Recorded(s, c, now, VerifyFirst), c, now, ConfirmedUnpaid), c, known, signal, now);
  }

  /** Whatever debit a failure queues lands where it was always going to. */
  lemma FailureLands(env: Env, s: Db, m: Move)
    requires Consistent(s) && (m.Webhook? || m.Failure?) && Enabled(s, m) && !Duplicate(s, m)
    ensures LandsAt(s.rows, Apply(env, s, m).rows, Landing(env, s, m))
  {
    hide Consistent, FirstWorked, Entering, LandingOf, LandsAt;
    EnteringKeepsConsistent(s, m);
    Redelivery.WorkedFromEntering(env, s, m);
    var e, c := Entering(s, m), CaseFor(s, m.signal, m.newId);
    SameCount(s, m);
    FirstWorkingLands(
      env, Recorded(e, c, m.now, Ingested(false)), c, e.cases[c], m.signal, Redelivery.VerdictOf(m), m.now);
    assert LandsAt(s.rows, s.rows, Landing(env, s, m)) by { NothingLands(s.rows, Landing(env, s, m)); }
  }

  lemma NothingLands(rows: seq<Row>, at: Instant)
    ensures LandsAt(rows, rows, at)
  {
  }

  lemma SameCount(s: Db, m: Move)
    requires Consistent(s) && (m.Webhook? || m.Failure?) && Enabled(s, m)
    ensures var e, c := Entering(s, m), CaseFor(s, m.signal, m.newId);
            c in e.cases && e.cases[c].retryCount == if c in s.cases then s.cases[c].retryCount else 0
  {
  }

  // -- a failure ---------------------------------------------------------------

  /**
   * A failure that queues a debit does so for an amount its case's own signal permits, landing at
   * an instant that signal's own rail allows.
   */
  predicate FiledLegally(env: Env, s: Db, m: Move) {
    (m.Webhook? || m.Failure?) && Allowance.ArmsOnFailure(env, s, m) ==>
      && Limits.MayDebit(env.p, OnFile(s, m))
      && BandsPermit(env.p, OnFile(s, m).methodName, Landing(env, s, m))
  }

  lemma FiledSignal(env: Env, s: Db, m: Move)
    requires Consistent(s) && (m.Webhook? || m.Failure?) && Enabled(s, m)
    ensures SignalOf(Entering(s, m), CaseFor(s, m.signal, m.newId)) == Some(OnFile(s, m))
  {
  }

  /** A failure queues a retry exactly when it arms. */
  lemma ArmedMeansQueued(env: Env, s: Db, m: Move)
    requires Consistent(s) && Enabled(s, m) && (m.Webhook? || m.Failure?)
    ensures |s.rows| <= |Apply(env, s, m).rows|
    ensures Allowance.ArmsOnFailure(env, s, m)
            <==> exists i :: |s.rows| <= i < |Apply(env, s, m).rows| && Apply(env, s, m).rows[i].kind == Retry
  {
    hide Consistent, Apply, Allowance.ArmsOnFailure;
    Allowance.FailureRetries(env, s, m);
    var rows, n := Apply(env, s, m).rows, |s.rows|;
    CountZero(rows[n..], Allowance.IsRetry());
    assert forall i :: 0 <= i < |rows[n..]| ==> rows[n..][i] == rows[n + i];
    assert forall i :: n <= i < |rows| ==> rows[i] == rows[n..][i - n];
  }

  lemma OldRowsStayLegal(env: Env, s: Db, m: Move, i: nat)
    requires Consistent(s) && AllLegal(env.p, s) && Queues(m) && Enabled(s, m) && i < |s.rows|
    ensures i < |Apply(env, s, m).rows| && LegalRow(env.p, Apply(env, s, m), Apply(env, s, m).rows[i])
  {
    hide Consistent, LegalDebit, Apply, Effects.SameButCancelled;
    var r := Apply(env, s, m);
    EveryRowMoves(env, s, m);
    MoveKeepsCases(env, s, m);
    assert LegalRow(env.p, s, s.rows[i]) && SameButCancelled(s.rows[i], r.rows[i]);
    RowIsOwned(s, i);
    SignalsAreCases(s);
    CancelledKeepsLaw(env.p, s.rows[i], r.rows[i], SignalOf(s, s.rows[i].caseId));
  }

  lemma CancelledKeepsLaw(p: Policy, row: Row, after: Row, checked: Option<FailureSignal>)
    requires SameButCancelled(row, after)
    ensures (after.kind, after.caseId) == (row.kind, row.caseId)
    ensures LegalDebit(p, after, checked) == LegalDebit(p, row, checked)
  {
  }

  lemma LegalOnFile(p: Policy, row: Row, checked: FailureSignal, filed: FailureSignal, at: Instant)
    requires LegalDebit(p, row, Some(checked)) && row.scheduledFor == Some(at)
    ensures LegalDebit(p, row, Some(filed))
            <==> Limits.MayDebit(p, filed) && BandsPermit(p, filed.methodName, at)
  {
  }

  lemma NewRowLegality(env: Env, s: Db, m: Move, i: nat)
    requires Consistent(s) && Enabled(s, m) && (m.Webhook? || m.Failure?) && !Duplicate(s, m)
    requires |s.rows| <= i < |Apply(env, s, m).rows|
    ensures var r := Apply(env, s, m);
            LegalRow(env.p, r, r.rows[i]) <==>
              (r.rows[i].kind == Retry ==>
                 && Limits.MayDebit(env.p, OnFile(s, m))
                 && BandsPermit(env.p, OnFile(s, m).methodName, Landing(env, s, m)))
  {
    hide Consistent, LegalDebit, Apply, Entering, OnFile, Limits.MayDebit, Landing, BandsPermit;
    var r, who := Apply(env, s, m), FailureActor(s, m);
    EveryRowMoves(env, s, m);
    assert NewRowOf(env, s, m, r.rows[i]);
    FiledSignal(env, s, m);
    SignalsStay(env, s, m);
    FailureLands(env, s, m);
    if r.rows[i].kind == Retry {
      LegalOnFile(env.p, r.rows[i], m.signal, OnFile(s, m), Landing(env, s, m));
    }
  }

  lemma SignalsStay(env: Env, s: Db, m: Move)
    requires Consistent(s) && Enabled(s, m) && (m.Webhook? || m.Failure?) && !Duplicate(s, m)
    ensures Apply(env, s, m).signals == Entering(s, m).signals
  {
    hide Apply, FailureActor;
    FailureEffect(env, s, m);
  }

  /**
   * The code checks the signal it is handed. On any rail, a failure keeps every queued retry legal
   * for its own case if and only if, when it queues one, the signal on file permits the amount and
   * its rail allows the instant the debit lands on.
   */
  lemma FailureLegality(env: Env, s: Db, m: Move)
    requires Consistent(s) && AllLegal(env.p, s) && (m.Webhook? || m.Failure?) && Enabled(s, m)
    ensures AllLegal(env.p, Apply(env, s, m)) <==> FiledLegally(env, s, m)
  {
    hide Consistent, Apply, LegalRow, OnFile, Limits.MayDebit, Landing, BandsPermit,
      Allowance.ArmsOnFailure, Enabled;
    var r := Apply(env, s, m);
    ArmedMeansQueued(env, s, m);
    if Duplicate(s, m) {
      DuplicatesChangeNothing(env, s, m);
    } else {
      forall i | 0 <= i < |s.rows|
        ensures LegalRow(env.p, r, r.rows[i])
      {
        OldRowsStayLegal(env, s, m, i);
      }
      forall i | |s.rows| <= i < |r.rows|
        ensures LegalRow(env.p, r, r.rows[i]) <==>
                  (r.rows[i].kind == Retry ==>
                     && Limits.MayDebit(env.p, OnFile(s, m))
                     && BandsPermit(env.p, OnFile(s, m).methodName, Landing(env, s, m)))
      {
        NewRowLegality(env, s, m, i);
      }
    }
  }

  lemma DecisionStaysLegal(env: Env, s: Db, m: Move)
    requires Consistent(s) && AllLegal(env.p, s) && Decides(m) && Enabled(s, m)
    ensures AllLegal(env.p, Apply(env, s, m))
  {
    hide Consistent, LegalDebit, Apply, AllLegal;
    var r := Apply(env, s, m);
    EveryRowMoves(env, s, m);
    MoveKeepsCases(env, s, m);
    SignalsAreCases(s);
    forall i | 0 <= i < |r.rows|
      ensures LegalRow(env.p, r, r.rows[i])
    {
      if i < |s.rows| {
        OldRowsStayLegal(env, s, m, i);
      } else {
        assert NewRowOf(env, s, m, r.rows[i]);
      }
    }
    assert AllLegal(env.p, r) by { EachLegal(env.p, r); }
  }

  lemma EachLegal(p: Policy, s: Db)
    requires forall i :: 0 <= i < |s.rows| ==> LegalRow(p, s, s.rows[i])
    ensures AllLegal(p, s)
  {
  }

  lemma QuietMovesAddNothing(env: Env, s: Db, m: Move)
    requires Enabled(s, m) && !Queues(m)
    ensures |Apply(env, s, m).rows| == |s.rows|
  {
    hide IsClaim, Runner.RunRow;
    if m.Dispatch? {
      RowBodyFrame(env.p, s, m.id, m.table, m.response, m.now);
    }
  }

  lemma QuietMoveStaysLegal(env: Env, s: Db, m: Move)
    requires Consistent(s) && AllLegal(env.p, s) && Enabled(s, m) && !Queues(m) && !m.Dispatch?
    ensures AllLegal(env.p, Apply(env, s, m))
  {
    hide Consistent, LegalDebit, Apply;
    var r := Apply(env, s, m);
    EveryRowMoves(env, s, m);
    QuietMovesAddNothing(env, s, m);
    MoveKeepsCases(env, s, m);
    SignalsAreCases(s);
    forall i | 0 <= i < |s.rows|
      ensures LegalRow(env.p, r, r.rows[i])
    {
      assert LegalRow(env.p, s, s.rows[i]) && RowMoves(env, s, m, i, r.rows[i]);
      RowIsOwned(s, i);
      LegalityReads(env.p, r.rows[i], s.rows[i], SignalOf(s, s.rows[i].caseId));
    }
  }

  /** What keeps a queue legal: failures legal as they were filed, and debits put off only to legal times. */
  predicate Lawful(env: Env, s: Db, m: Move) {
    && FiledLegally(env, s, m)
    && (m.Dispatch? ==> DefersLegally(env, s, m))
  }

  predicate LawfulRun(env: Env, moves: seq<Move>) {
    && IsRun(env, moves)
    && forall k :: 0 <= k < |moves| ==> Lawful(env, StateAt(env, EMPTY, moves, k), moves[k])
  }

  /** A first delivery, and a redelivery of the very signal on file, are always lawful. */
  lemma FaithfulDeliveryIsLawful(env: Env, s: Db, m: Move)
    requires m.Webhook? || m.Failure?
    requires OnFile(s, m) == m.signal
    ensures Lawful(env, s, m)
  {
    hide OnFile, Limits.MayDebit, BandsPermit, Landing, Allowance.ArmsOnFailure;
    if Allowance.ArmsOnFailure(env, s, m) {
      ArmingPermits(env, s, m);
      LandingIsAllowed(env, s, m);
    }
  }

  /** A debit lands where its own signal's rail allows one. */
  lemma LandingIsAllowed(env: Env, s: Db, m: Move)
    requires m.Webhook? || m.Failure?
    ensures BandsPermit(env.p, m.signal.methodName, Landing(env, s, m))
  {
    hide CaseFor, Taxonomies.Diagnose, WaitFor, ExecutionAllowed, BandsPermit, NextExecution, RailOf;
    var c := CaseFor(s, m.signal, m.newId);
    var attempt := if c in s.cases then s.cases[c].retryCount else 0;
    var at := m.now + WaitFor(env.p, Taxonomies.Diagnose(env.tx, m.signal).klass, attempt);
    NextExecutionIsLeast(env.p, Max(at, m.now), RailOf(m.signal.methodName));
    BandsGovernByName(env.p, m.signal.methodName, Landing(env, s, m));
  }

  lemma ArmingPermits(env: Env, s: Db, m: Move)
    requires (m.Webhook? || m.Failure?) && Allowance.ArmsOnFailure(env, s, m)
    ensures Limits.MayDebit(env.p, m.signal)
  {
    hide Entering, Limits.MayDebit, CaseFor, CaseSuppressed;
  }

  /** And so is any redelivery that queues nothing, on whatever rail and for whatever amount. */
  lemma QuietDeliveryIsLawful(env: Env, s: Db, m: Move)
    requires (m.Webhook? || m.Failure?) && !Allowance.ArmsOnFailure(env, s, m)
    ensures Lawful(env, s, m)
  {
    hide Allowance.ArmsOnFailure;
  }

  lemma MoveStaysLegal(env: Env, s: Db, m: Move)
    requires Consistent(s) && AllLegal(env.p, s) && Enabled(s, m)
    requires Lawful(env, s, m)
    ensures AllLegal(env.p, Apply(env, s, m))
  {
    hide Consistent, AllLegal, FiledLegally, DefersLegally, Apply, Enabled;
    if m.Dispatch? {
      BodyLegality(env, s, m);
    } else if Decides(m) {
      DecisionStaysLegal(env, s, m);
    } else if m.Webhook? || m.Failure? {
      FailureLegality(env, s, m);
    } else {
      QuietMoveStaysLegal(env, s, m);
    }
  }

  /** At every point of a lawful run, every retry in the queue is legal for the case it belongs to. */
  lemma {:induction false} EveryRetryStaysLegal(env: Env, moves: seq<Move>, k: nat)
    requires LawfulRun(env, moves) && k <= |moves|
    ensures AllLegal(env.p, StateAt(env, EMPTY, moves, k))
    decreases k
  {
    hide Consistent, AllLegal, Lawful, Apply, Enabled;
    if k == 0 {
      NoRowsAllLegal(env.p);
    } else {
      EveryRetryStaysLegal(env, moves, k - 1);
      RunsAreConsistent(env, moves, k - 1);
      NextState(env, moves, k - 1);
      MoveStaysLegal(env, StateAt(env, EMPTY, moves, k - 1), moves[k - 1]);
    }
  }

  lemma NoRowsAllLegal(p: Policy)
    ensures AllLegal(p, EMPTY)
  {
  }

  // -- a redelivery that breaks it -----------------------------------------------------

  /** A taxonomy in which one reason is a plain technical failure, whatever else is said of it. */
  lemma PlainlyTechnical(signal: FailureSignal) returns (tx: Taxonomies.Taxonomy)
    requires signal.errorReason == Some("r")
    requires signal.methodName.None? && signal.errorSource.None? && signal.errorStep.None?
    ensures Taxonomies.Diagnose(tx, signal) == Diagnosis(RecoverableTechnical, 1.0)
  {
    var key := Taxonomies.Key(Taxonomies.ANY, "r", Taxonomies.ANY, Taxonomies.ANY);
    tx := Taxonomies.RawTaxonomy([], map[key := Taxonomies.Rule(RecoverableTechnical, 1.0)]);
    assert Taxonomies.Candidates(None, "r", None, None)[0] == key;
    assert Taxonomies.DocumentedCauses(tx, None, "r") == 1;
  }

  /**
   * From the empty store: a payment filed for an amount nobody may debit, its delivery cut short,
   * and then delivered again for less. A debit is queued that the case's own signal refuses.
   */
  lemma AMismatchedRedeliveryIsIllegal() returns (env: Env, moves: seq<Move>)
    ensures IsRun(env, moves) && OneBodyPerClaim.Answers(moves)
    ensures !AllLegal(env.p, StateAt(env, EMPTY, moves, |moves|))
  {
    hide Consistent, AllLegal, FailureHandled, Taxonomies.Diagnose, LandingOf;
    var filed := FailureSignal(1, None, 7, 1_00_00_000_00, None, None, None, None, 0, None);
    var again := FailureSignal(1, None, 7, 49900, None, Some("r"), None, None, 0, None);
    var tx := PlainlyTechnical(again);
    env := Env(SHIPPED, tx);
    var first, second := Interrupted(None, filed, 0), Failure(again, NoVerifier, 0, 0);
    moves := [first, second];
    var s := Apply(env, EMPTY, first);
    assert StateAt(env, EMPTY, moves, 1) == s;
    EmptyIsConsistent();
    NoRowsAllLegal(env.p);
    MoveKeepsConsistent(env, EMPTY, first);
    MoveStaysLegal(env, EMPTY, first);
    assert OnFile(s, second) == filed && Entering(s, second) == s;
    assert Allowance.ArmsOnFailure(env, s, second);
    FailureLegality(env, s, second);
    assert StateAt(env, EMPTY, moves, 2) == Apply(env, s, second);
  }

  /** The shipped debit executor puts nothing off, so nothing it is given needs the second condition. */
  lemma ShippedDebitDefersNothing(env: Env, s: Db, m: Move)
    requires m.Dispatch? && m.response == Runner.NO_DEBIT_ADAPTER
    ensures DefersLegally(env, s, m)
  {
    hide LegalDebit, CaseSuppressed, Runner.NudgeOutcome;
  }

  /**
   * As the system ships, with each payment redelivered as it was filed, every queued debit stays
   * legal for its own case over every run.
   */
  lemma ShippedRunsStayLegal(env: Env, moves: seq<Move>, k: nat)
    requires IsRun(env, moves) && k <= |moves|
    requires forall n :: 0 <= n < |moves| ==>
               && (moves[n].Dispatch? ==> moves[n].response == Runner.NO_DEBIT_ADAPTER)
               && (moves[n].Webhook? || moves[n].Failure? ==>
                     OnFile(StateAt(env, EMPTY, moves, n), moves[n]) == moves[n].signal)
    ensures AllLegal(env.p, StateAt(env, EMPTY, moves, k))
  {
    hide StateAt, Apply, Enabled, OnFile, AllLegal, FiledLegally, DefersLegally;
    forall n | 0 <= n < |moves|
      ensures Lawful(env, StateAt(env, EMPTY, moves, n), moves[n])
    {
      var s := StateAt(env, EMPTY, moves, n);
      if moves[n].Dispatch? {
        ShippedDebitDefersNothing(env, s, moves[n]);
        OnlyFailuresAreFiled(env, s, moves[n]);
      } else if moves[n].Webhook? || moves[n].Failure? {
        FaithfulDeliveryIsLawful(env, s, moves[n]);
      } else {
        OnlyFailuresAreFiled(env, s, moves[n]);
      }
    }
    EveryRetryStaysLegal(env, moves, k);
  }

  lemma OnlyFailuresAreFiled(env: Env, s: Db, m: Move)
    requires !m.Webhook? && !m.Failure?
    ensures FiledLegally(env, s, m)
  {
  }
}
