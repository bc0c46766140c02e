/**
 * What working a failure leaves of its case: closed cases have nothing live, held ones gained
 * nothing, and an open one has something queued that can be run, except in exactly three places.
 */
module Outcomes {
  import opened Sequences
  import opened Models
  import opened Policies
  import opened Tables
  import opened Agent
  import opened Effects
  import opened Runs
  import Escalation
  import Ladder
  import Limits
  import ReplyQueue
  import Runner
  import Scheduler
  import StopsLast
  import Taxonomies
  import Windows

  /** A row that is still to come and that this deployment has an executor for. */
  function Runnable(c: CaseId): Row -> bool {
    (row: Row) => Live(row) && row.caseId == c && row.kind in Runner.EXECUTORS
  }

  /** An open case for which nothing will happen. */
  predicate Quiet(s: Db, c: CaseId) {
    c in s.cases && s.cases[c].state == Open && Count(s.rows, Runnable(c)) == 0
  }

  /**
   * The ladder has no rung for the class; or its rung is a debit whose amount is not permitted; or
   * its rung is one this deployment has no executor for.
   */
  predicate NothingToTry(p: Policy, known: Case, klass: DiagnosisClass, signal: FailureSignal) {
    var rung := Ladder.Entry(klass);
    || rung.None?
    || (&& Ladder.Worthwhile(p, rung.value, known.amountPaise)
        && if rung.value == SilentRetry then !AmountOk(p, Some(signal)) else Step(rung.value) !in Runner.EXECUTORS)
  }

  /** The third is one class: of those that start above the silent retry, only a broken mandate's rung is absent. */
  lemma OnlyABrokenMandateHasNoExecutor(klass: DiagnosisClass)
    ensures var rung := Ladder.Entry(klass);
            rung.Some? && rung.value != SilentRetry && Step(rung.value) !in Runner.EXECUTORS
            <==> klass == MandateStateBroken
  {
  }

  /** What a pass makes of such a row: it is finished, and its case is neither held nor told to anyone. */
  lemma NoExecutorNoHold(env: Env, s: Db, m: Move)
    requires m.Dispatch? && m.id < |s.rows| && s.rows[m.id].kind !in m.table
    requires Live(s.rows[m.id]) && !CaseSuppressed(s, s.rows[m.id].caseId, s.rows[m.id].customer)
    ensures Apply(env, s, m) == s.(rows := FinishRow(s.rows, m.id, NoAdapter))
  {
    hide CaseSuppressed;
  }

  // -- closing ---------------------------------------------------------------------

  /** Money that arrives, or turns out to have arrived, ends everything queued for its case. */
  lemma APaymentClearsItsCase(s: Db, c: CaseId, now: Instant)
    requires c in s.cases
    ensures var r := MarkedRecovered(s, c, now);
            && ReplyQueue.LiveOn(r.rows, c) == 0
            && r.cases == s.cases[c := s.cases[c].(state := Recovered)]
            && |r.rows| == |s.rows|
            && (forall i :: 0 <= i < |s.rows| && s.rows[i].caseId != c ==> r.rows[i] == s.rows[i])
            && r.audit == s.audit + [Entry(c, now, PaidViaLink(ReplyQueue.LiveOn(s.rows, c)))]
  {
    ReplyQueue.ClearedCase(s.rows, OnCase(c), c, PaidByLink, Some(now));
  }

  // -- the ladder --------------------------------------------------------------------

  lemma OneMoreRunnable(rows: seq<Row>, row: Row, c: CaseId)
    ensures Count(rows + [row], Runnable(c)) == Count(rows, Runnable(c)) + (if Runnable(c)(row) then 1 else 0)
  {
    CountAppend(rows, row, Runnable(c));
  }

  /** Queueing a row that can be run makes a case not quiet, and nothing else in the tables matters. */
  lemma QueuedIsNotQuiet(s: Db, c: CaseId, row: Row)
    requires s.rows != [] && s.rows[|s.rows| - 1] == row && Runnable(c)(row)
    ensures !Quiet(s, c)
  {
    hide Count, Runnable;
    assert s.rows == s.rows[..|s.rows| - 1] + [row];
    OneMoreRunnable(s.rows[..|s.rows| - 1], row, c);
  }

  /** Queueing one that cannot changes nothing. */
  lemma UnrunnableIsAsQuiet(s: Db, c: CaseId, row: Row)
    requires !Runnable(c)(row)
    ensures Quiet(s.(rows := s.rows + [row]), c) == Quiet(s, c)
  {
    hide Count, Runnable;
    OneMoreRunnable(s.rows, row, c);
  }

  lemma ArmedOrEscalated(
    p: Policy, s: Db, c: CaseId, known: Case, klass: DiagnosisClass, signal: FailureSignal, now: Instant)
    requires Quiet(s, c)
    ensures Quiet(FirstRetryArmed(p, s, c, known, klass, signal, now), c) <==> !AmountOk(p, Some(signal))
  {
    hide Quiet, RetryArmed, EscalatedBeyondCap, Limits.MayDebit, Scheduler.BackoffFor, Escalation.NotQuiet;
    var r := FirstRetryArmed(p, s, c, known, klass, signal, now);
    if AmountOk(p, Some(signal)) {
      var at := now + Scheduler.BackoffFor(p, Some(klass), known.retryCount);
      var rail := RailOf(signal.methodName);
      var armed := RetryArmed(p, s, c, known, at, rail, now);
      if CapSpent(p, known) {
        assert c in s.cases by { QuietIsOnFile(s, c); }
        Escalation.ARefusedFirstRetryIsNotQuiet(p, s, c, known, klass, signal, now);
        SpokenFor(r, c, now);
      } else {
        ArmedIsLast(p, s, c, known, at, rail, now);
        QueuedIsNotQuiet(armed, c, armed.rows[|s.rows|]);
      }
    } else {
      SameQuiet(s, r, c);
    }
  }

  lemma QuietIsOnFile(s: Db, c: CaseId)
    requires Quiet(s, c)
    ensures c in s.cases
  {
  }

  lemma SameQuiet(s: Db, r: Db, c: CaseId)
    requires r.rows == s.rows && r.cases == s.cases
    ensures Quiet(r, c) == Quiet(s, c)
  {
  }

  lemma ArmedIsLast(p: Policy, s: Db, c: CaseId, known: Case, at: Instant, rail: Rail, now: Instant)
    requires !CapSpent(p, known)
    ensures var r := RetryArmed(p, s, c, known, at, rail, now);
            |r.rows| == |s.rows| + 1 && Runnable(c)(r.rows[|s.rows|])
  {
    hide Scheduler.Placed;
  }

  /** A case with something due now, or that is held or written off, is not quiet. */
  lemma SpokenFor(s: Db, c: CaseId, now: Instant)
    requires Escalation.NotQuiet(s, c, now)
    ensures !Quiet(s, c)
  {
    CountZero(s.rows, Runnable(c));
  }

  lemma ContactIsNotQuiet(
    p: Policy, s: Db, c: CaseId, known: Case, klass: DiagnosisClass, signal: FailureSignal, row: Row, now: Instant)
    requires Runnable(c)(row)
    ensures !Quiet(s.(rows := s.rows + [row]), c)
    ensures !Quiet(BalanceFallback(p, s.(rows := s.rows + [row]), c, known, klass, signal, now), c)
  {
    hide Limits.MayDebit, Scheduler.BackoffFor, Scheduler.RetryDecision, Count;
    var queued := s.(rows := s.rows + [row]);
    QueuedIsNotQuiet(queued, c, row);
    var at := now + p.replyGrace + Scheduler.BackoffFor(p, Some(klass), known.retryCount);
    var d := Scheduler.RetryDecision(p, at, known.retryCount, Some(now), RailOf(signal.methodName));
    OneMoreRunnable(queued.rows, NewRow(c, known.customer, Retry, d.scheduledFor, now, None), c);
  }

  lemma LadderQuiet(
    p: Policy, s: Db, c: CaseId, known: Case, klass: DiagnosisClass, signal: FailureSignal, now: Instant)
    requires Quiet(s, c)
    ensures Quiet(LadderEntered(p, s, c, known, klass, signal, now), c) <==> NothingToTry(p, known, klass, signal)
  {
    hide Quiet, FirstRetryArmed, BalanceFallback, Limits.MayDebit, Ladder.Worthwhile;
    var r, rung := LadderEntered(p, s, c, known, klass, signal, now), Ladder.Entry(klass);
    assert c in s.cases by { QuietIsOnFile(s, c); }
    if rung.None? {
      SameQuiet(s, r, c);
    } else if !Ladder.Worthwhile(p, rung.value, known.amountPaise) {
      NotOpen(r, c);
    } else {
      var entered := Recorded(s, c, now, EnteredAt(rung.value));
      SameQuiet(s, entered, c);
      if rung.value == SilentRetry {
        ArmedOrEscalated(p, entered, c, known, klass, signal, now);
      } else {
        var variant := if klass == RecoverableBalance then Some(AskDate) else None;
        var row := NewRow(c, known.customer, Step(rung.value), Some(now), now, variant);
        if Step(rung.value) in Runner.EXECUTORS {
          ContactIsNotQuiet(p, entered, c, known, klass, signal, row, now);
        } else {
          OnlyABrokenMandateHasNoExecutor(klass);
          UnrunnableIsAsQuiet(entered, c, row);
        }
      }
    }
  }

  lemma NotOpen(s: Db, c: CaseId)
    requires c in s.cases && s.cases[c].state != Open
    ensures !Quiet(s, c)
  {
  }

  // -- a first failure -----------------------------------------------------------------

  /** What must be so for a failure to be worked as far as the ladder. */
  predicate ReachesTheLadder(env: Env, s: Db, c: CaseId, known: Case, signal: FailureSignal, verdict: Verdict) {
    && !CaseSuppressed(s, c, known.customer)
    && (Taxonomies.NeedsVerification(signal) ==> verdict == Unpaid)
    && Taxonomies.Diagnose(env.tx, signal).confidence >= env.p.sampledQa
  }

  /**
   * A failure worked for the first time leaves its case open with nothing queued that can be run
   * exactly when it reaches the ladder and the ladder has nothing to try: no rung for its class, a
   * debit to try first whose amount is not permitted, or a rung with no executor. Everywhere else
   * something will run, or the case is held or closed.
   */
  lemma AFirstFailureGoesQuietExactlyWhen(
    env: Env, s: Db, c: CaseId, signal: FailureSignal, verdict: Verdict, now: Instant)
    requires Quiet(s, c)
    ensures Quiet(FirstWorked(env.p, env.tx, s, c, s.cases[c], signal, verdict, now), c)
            <==>
            (&& ReachesTheLadder(env, s, c, s.cases[c], signal, verdict)
             && NothingToTry(env.p, s.cases[c], Taxonomies.Diagnose(env.tx, signal).klass, signal))
  {
    hide Quiet, DiagnosedAndWorked, NothingToTry, Taxonomies.Diagnose, Taxonomies.AuthorityOf,
      Taxonomies.NeedsVerification;
    assert c in s.cases by { QuietIsOnFile(s, c); }
    var known, r := s.cases[c], FirstWorked(env.p, env.tx, s, c, s.cases[c], signal, verdict, now);
    if CaseSuppressed(s, c, known.customer) {
      NotOpen(r, c);
    } else if !Taxonomies.NeedsVerification(signal) {
      DiagnosedQuiet(env, s, c, known, signal, now);
    } else if verdict == Unpaid {
      var confirmed := Recorded(Recorded(s, c, now, VerifyFirst), c, now, ConfirmedUnpaid);
      SameQuiet(s, confirmed, c);
      DiagnosedQuiet(env, confirmed, c, known, signal, now);
    } else {
      NotOpen(r, c);
    }
  }

  lemma DiagnosedQuiet(env: Env, s: Db, c: CaseId, known: Case, signal: FailureSignal, now: Instant)
    requires Quiet(s, c)
    ensures var d := Taxonomies.Diagnose(env.tx, signal);
            Quiet(DiagnosedAndWorked(env.p, env.tx, s, c, known, signal, now), c)
            <==> d.confidence >= env.p.sampledQa && NothingToTry(env.p, known, d.klass, signal)
  {
    hide Quiet, LadderEntered, NothingToTry, Taxonomies.Diagnose, Taxonomies.AuthorityOf;
    assert c in s.cases by { QuietIsOnFile(s, c); }
    var d := Taxonomies.Diagnose(env.tx, signal);
    var authority := Taxonomies.AuthorityOf(env.p, d);
    Taxonomies.AuthorityByScore(env.p, d);
    var filed := Recorded(DiagnosisFiled(s, c, d), c, now, Diagnosed(d.klass, authority));
    SameQuiet(s, filed, c);
    LadderQuiet(env.p, filed, c, known, d.klass, signal, now);
    if authority == HoldForHuman {
      NotOpen(DiagnosedAndWorked(env.p, env.tx, s, c, known, signal, now), c);
    }
  }

  // -- each answer to a failure, by its score, its reason and its class -------------------

  /**
   * Below the lower bar a diagnosis is filed and the case held, and nothing is queued; at it or above
   * the ladder is worked. The authority on record says which bar the score reached.
   */
  lemma WorkedByScore(env: Env, s: Db, c: CaseId, known: Case, signal: FailureSignal, now: Instant)
    requires c in s.cases
    ensures var d := Taxonomies.Diagnose(env.tx, signal);
            var r := DiagnosedAndWorked(env.p, env.tx, s, c, known, signal, now);
            var authority := if d.confidence >= env.p.autoExecute then AutoExecute
                             else if d.confidence >= env.p.sampledQa then SampledQa else HoldForHuman;
            && (d.confidence < env.p.sampledQa ==>
                  r.rows == s.rows && c in r.cases && r.cases[c] == s.cases[c].(state := HeldForHuman))
            && (d.confidence >= env.p.sampledQa ==>
                  r == LadderEntered(
                         env.p, Recorded(DiagnosisFiled(s, c, d), c, now, Diagnosed(d.klass, authority)),
                         c, known, d.klass, signal, now))
            && |r.audit| > |s.audit| && r.audit[|s.audit|] == Entry(c, now, Diagnosed(d.klass, authority))
  {
    hide LadderEntered, Taxonomies.Diagnose;
    var d := Taxonomies.Diagnose(env.tx, signal);
    Taxonomies.AuthorityByScore(env.p, d);
    var decided := Diagnosed(d.klass, Taxonomies.AuthorityOf(env.p, d));
    var filed := Recorded(DiagnosisFiled(s, c, d), c, now, decided);
    var who := Actor(c, known.customer, Some(signal), now);
    Effects.LadderEffect(env.p, filed, known, d.klass, signal, who);
    TrailKept(env.p, filed, LadderEntered(env.p, filed, c, known, d.klass, signal, now), who, |s.audit|);
  }

  lemma TrailKept(p: Policy, s: Db, r: Db, who: Actor, i: nat)
    requires Effect(p, s, r, who) && i < |s.audit|
    ensures i < |r.audit| && r.audit[i] == s.audit[i]
  {
  }

  /** Reasons a capture may follow: what each verdict settles, where there is an order to ask about. */
  lemma SettledByVerdict(
    env: Env, s: Db, c: CaseId, known: Case, signal: FailureSignal, verdict: Verdict, now: Instant)
    requires c in s.cases && !CaseSuppressed(s, c, known.customer)
    requires signal.orderId.Some? && signal.orderId.value != "" && signal.errorReason.Some?
    requires signal.errorReason.value in
               {"payment_timed_out", "gateway_technical_error", "payment_collect_request_expired"}
    requires verdict != Unpaid
    ensures var r := FirstWorked(env.p, env.tx, s, c, known, signal, verdict, now);
            && r.diagnoses == s.diagnoses && |r.rows| == |s.rows| && c in r.cases
            && (verdict == AlreadyPaid ==>
                  && r.cases[c] == s.cases[c].(state := ClosedFalseFailure)
                  && StopsLast.NothingLiveOn(r, c)
                  && forall i :: 0 <= i < |s.rows| && s.rows[i].caseId != c ==> r.rows[i] == s.rows[i])
            && (verdict != AlreadyPaid ==>
                  r.rows == s.rows && r.cases[c] == s.cases[c].(state := HeldForHuman))
  {
    hide DiagnosedAndWorked, Taxonomies.NeedsVerification, CaseSuppressed;
    Taxonomies.VerificationByReason(signal);
  }

  /** Under a stop a first failure is recorded, its case held, and nothing else. */
  lemma HeldUnderAStop(env: Env, s: Db, c: CaseId, known: Case, signal: FailureSignal, verdict: Verdict, now: Instant)
    requires c in s.cases && CaseSuppressed(s, c, known.customer)
    ensures var r := FirstWorked(env.p, env.tx, s, c, known, signal, verdict, now);
            && r.rows == s.rows && r.diagnoses == s.diagnoses
            && c in r.cases && r.cases[c] == s.cases[c].(state := HeldForHuman)
  {
    hide DiagnosedAndWorked, CaseSuppressed;
  }

  /** The rung a class starts from pays for itself on this amount, at that rung's cost and rate. */
  predicate Pays(p: Policy, klass: DiagnosisClass, amountPaise: int) {
    match klass
    case RecoverableTechnical => Ladder.PaysBack(p.costs.silentRetry, amountPaise, 1, 5)
    case RecoverableBalance => Ladder.PaysBack(p.costs.nudge, amountPaise, 1, 4)
    case NotificationGap => Ladder.PaysBack(p.costs.nudge, amountPaise, 1, 4)
    case MandateStateBroken => Ladder.PaysBack(p.costs.reauthorisation, amountPaise, 3, 10)
    case _ => false
  }

  /** What each class queues, for a case with attempts left and an amount that may be debited. */
  function QueuedFor(
    p: Policy, c: CaseId, known: Case, klass: DiagnosisClass, signal: FailureSignal, now: Instant): seq<Row>
  {
    var rail := RailOf(signal.methodName);
    var backoff := Scheduler.BackoffFor(p, Some(klass), known.retryCount);
    match klass
    case RecoverableTechnical =>
      [NewRow(c, known.customer, Retry, Some(Scheduler.Placed(p, now + backoff, Some(now), rail)), now, None)]
    case RecoverableBalance =>
      [NewRow(c, known.customer, Step(Nudge), Some(now), now, Some(AskDate)),
       NewRow(
         c, known.customer, Retry, Some(Scheduler.Placed(p, now + p.replyGrace + backoff, Some(now), rail)), now, None)]
    case NotificationGap => [NewRow(c, known.customer, Step(Nudge), Some(now), now, None)]
    case MandateStateBroken => [NewRow(c, known.customer, Step(Reauthorisation), Some(now), now, None)]
    case _ => []
  }

  /** What a diagnosis of each class does, when its rung pays for itself and when it does not. */
  lemma WorkedByClass(
    p: Policy, s: Db, c: CaseId, known: Case, klass: DiagnosisClass, signal: FailureSignal, now: Instant)
    requires c in s.cases && Limits.MayDebit(p, signal) && known.retryCount < p.retryCap
    ensures var r := LadderEntered(p, s, c, known, klass, signal, now);
            && (klass in {CustomerIntentRevoked, Unknown} ==> r.rows == s.rows && r.cases == s.cases)
            && (Pays(p, klass, known.amountPaise) ==>
                  r.rows == s.rows + QueuedFor(p, c, known, klass, signal, now) && r.cases == s.cases)
            && (klass !in {CustomerIntentRevoked, Unknown} && !Pays(p, klass, known.amountPaise) ==>
                  && StopsLast.NothingLiveOn(r, c)
                  && c in r.cases && r.cases[c] == s.cases[c].(state := Unrecovered))
  {
    hide Limits.MayDebit, Scheduler.BackoffFor, Scheduler.Placed, Ladder.Worthwhile, Ladder.PaysBack;
    Ladder.WorthwhileByRung(p, known.amountPaise);
  }

  /** A cleared hold asks for its debit now: the least permitted instant from the moment it is cleared. */
  lemma ReviewArmsAtOnce(p: Policy, s: Db, c: CaseId, known: Case, now: Instant)
    requires SignalOf(s, c).Some? && Limits.MayDebit(p, SignalOf(s, c).value) && known.retryCount < p.retryCap
    ensures var r := ReviewResumed(p, s, c, known, now);
            var methodName := SignalOf(s, c).value.methodName;
            && |r.rows| == |s.rows| + 1 && r.rows[..|s.rows|] == s.rows && r.cases == s.cases
            && var row := r.rows[|s.rows|];
               && row == NewRow(c, known.customer, Retry, row.scheduledFor, now, None)
               && row.scheduledFor.Some? && now <= row.scheduledFor.value
               && Windows.BandsPermit(p, methodName, row.scheduledFor.value)
               && forall u :: now <= u < row.scheduledFor.value ==> !Windows.BandsPermit(p, methodName, u)
  {
    hide Limits.MayDebit, Windows.BandsPermit, Windows.ExecutionAllowed, Scheduler.Placed;
    var methodName := SignalOf(s, c).value.methodName;
    Scheduler.RetryIsLeastLegal(p, now, known.retryCount, Some(now), RailOf(methodName));
    forall u: Instant
      ensures Windows.ExecutionAllowed(p, u, RailOf(methodName)) <==> Windows.BandsPermit(p, methodName, u)
    {
      Windows.BandsGovernByName(p, methodName, u);
    }
  }
}
