/**
 * A spent cap never goes quiet: whichever request for a retry the cap refuses, the case is left with
 * a message due now that this deployment can send, or with a person, or written off on the numbers.
 */
module Escalation {
  import opened Sequences
  import opened Models
  import opened Policies
  import opened Tables
  import opened Agent
  import opened Runs
  import Allowance
  import Ladder
  import Limits
  import Replies
  import Runner
  import Scheduler

  /** The rungs above where a class joins the ladder. */
  predicate Above(klass: Option<DiagnosisClass>, q: Rung) {
    && klass.Some?
    && Ladder.Entry(klass.value).Some?
    && Ladder.Height(Ladder.Entry(klass.value).value) < Ladder.Height(q)
  }

  /** The search starts at the least rung above the entry, so it may consider exactly those above it. */
  lemma TheSearchStartsAboveEntry(klass: Option<DiagnosisClass>, q: Rung)
    ensures AtLeast(AboveEntry(klass), q) <==> Above(klass, q)
  {
    if klass.Some? && Ladder.Entry(klass.value).Some? {
      Ladder.NextRungIsLeast(Ladder.Entry(klass.value).value, {});
    }
  }

  predicate Executable(q: Rung) {
    Step(q) in Runner.EXECUTORS
  }

  /** Here the only rung above an entry that can be executed is the message, above a silent retry. */
  predicate MessageIsAbove(klass: Option<DiagnosisClass>) {
    klass.Some? && Ladder.Entry(klass.value) == Some(SilentRetry)
  }

  /** The search finds the least executable rung above entry, and lists exactly those it passes over. */
  lemma TheSearch(klass: Option<DiagnosisClass>)
    ensures var (found, skipped) := Climb(AboveEntry(klass), Runner.EXECUTORS);
            && found == (if MessageIsAbove(klass) then Some(Nudge) else None)
            && (found.Some? ==> Above(klass, found.value) && Executable(found.value))
            && (forall q :: Above(klass, q) && Executable(q) ==>
                  found.Some? && Ladder.Height(found.value) <= Ladder.Height(q))
            && (forall q :: q in skipped <==>
                  Above(klass, q) && (found.Some? ==> Ladder.Height(q) < Ladder.Height(found.value)))
            && (forall i, j :: 0 <= i < j < |skipped| ==> Ladder.Height(skipped[i]) < Ladder.Height(skipped[j]))
  {
    hide Climb, AboveEntry, AtLeast;
    ClimbFindsTheLeast(AboveEntry(klass), Runner.EXECUTORS);
    forall q
      ensures AtLeast(AboveEntry(klass), q) <==> Above(klass, q)
    {
      TheSearchStartsAboveEntry(klass, q);
    }
    if MessageIsAbove(klass) {
      assert Above(klass, Nudge) && Executable(Nudge);
    }
  }

  /** The recovery link, due at once. */
  function LinkFor(c: CaseId, known: Case, now: Instant): Row {
    NewRow(c, known.customer, NUDGE, Some(now), now, Some(Exhausted))
  }

  /**
   * The three ends of an escalation, and exactly when each is reached: a person, once the link has
   * already gone out and nothing above is executable; written off, when the link is not worth its
   * cost; and otherwise the link, due now.
   */
  lemma AfterTheCap(p: Policy, s: Db, c: CaseId, known: Case, klass: Option<DiagnosisClass>, now: Instant)
    requires c in s.cases
    ensures var r := EscalatedBeyondCap(p, s, c, known, klass, now);
            var finished := !MessageIsAbove(klass) && ExhaustedSent(s, c);
            && c in r.cases
            && (finished ==> r.rows == s.rows && r.cases[c].state == HeldForHuman)
            && (!finished && !Ladder.Worthwhile(p, Nudge, known.amountPaise) ==>
                  r.rows == s.rows && r.cases[c].state == Unrecovered)
            && (!finished && Ladder.Worthwhile(p, Nudge, known.amountPaise) ==>
                  r.rows == s.rows + [LinkFor(c, known, now)] && r.cases == s.cases)
            && |r.audit| == |s.audit| + 1
            && r.audit[|s.audit|].caseId == c
            && (r.audit[|s.audit|].decided.EscalatedAfterCap? <==> |r.rows| > |s.rows|)
  {
    hide Climb, Ladder.Worthwhile;
    TheSearch(klass);
  }

  /** An escalation settles at most its own case's state. */
  lemma EscalatingTouchesOneState(
    p: Policy, s: Db, c: CaseId, known: Case, klass: Option<DiagnosisClass>, now: Instant)
    requires c in s.cases
    ensures var r := EscalatedBeyondCap(p, s, c, known, klass, now);
            c in r.cases && r.cases == s.cases[c := s.cases[c].(state := r.cases[c].state)]
  {
    hide Climb, Ladder.Worthwhile, ExhaustedSent;
  }

  /** Something will happen to the case, or a decision about it is on record. */
  predicate NotQuiet(s: Db, c: CaseId, now: Instant) {
    || (c in s.cases && s.cases[c].state in {HeldForHuman, Unrecovered})
    || (exists i :: 0 <= i < |s.rows| &&
          s.rows[i].caseId == c && Due(s.rows[i], now) && s.rows[i].kind in Runner.EXECUTORS)
  }

  lemma EscalatingIsNotQuiet(p: Policy, s: Db, c: CaseId, known: Case, klass: Option<DiagnosisClass>, now: Instant)
    requires c in s.cases
    ensures NotQuiet(EscalatedBeyondCap(p, s, c, known, klass, now), c, now)
  {
    hide EscalatedBeyondCap, Ladder.Worthwhile;
    AfterTheCap(p, s, c, known, klass, now);
    var r := EscalatedBeyondCap(p, s, c, known, klass, now);
    if |r.rows| > |s.rows| {
      assert r.rows[|s.rows|] == LinkFor(c, known, now);
      assert Due(r.rows[|s.rows|], now) && r.rows[|s.rows|].kind in Runner.EXECUTORS;
    }
  }

  /** The moves whose request for a retry the cap refuses. */
  predicate CapRefuses(p: Policy, s: Db, m: Move) {
    && (m.Review? || (m.Reply? && Allowance.Realigns(p, s, m)))
    && AmountOk(p, SignalOf(s, m.c))
    && CapSpent(p, m.known)
  }

  /** A review or a promise the cap refuses is answered, not dropped. */
  lemma ASpentCapIsNeverQuiet(env: Env, s: Db, m: Move)
    requires Enabled(s, m) && CapRefuses(env.p, s, m)
    ensures NotQuiet(Apply(env, s, m), m.c, m.now)
  {
    hide NotQuiet, EscalatedBeyondCap, Limits.MayDebit, Replies.Decision, RetryArmed;
    if m.Review? {
      var armed := RetryArmed(env.p, s, m.c, m.known, m.now, RailOf(SignalOf(s, m.c).value.methodName), m.now);
      ArmingKeepsCases(env.p, s, m.c, m.known, m.now, RailOf(SignalOf(s, m.c).value.methodName), m.now);
      var latest := LatestIn(armed.diagnoses, m.c);
      EscalatingIsNotQuiet(
        env.p, armed, m.c, m.known, if latest.Some? then Some(latest.value.klass) else None, m.now);
    } else {
      var out := Replies.Decision(env.p, m.parsed, DateOf(m.now), None);
      Replies.NoReplyIsDropped(env.p, m.parsed, DateOf(m.now), None);
      RealigningIsNotQuiet(
        env.p, Recorded(s, m.c, m.now, ReplyRead(out.rules)), m.c, m.known, out.realignTo.value, m.now);
    }
  }

  lemma ArmingKeepsCases(
    p: Policy, s: Db, c: CaseId, known: Case, requested: Instant, rail: Rail, now: Instant)
    ensures RetryArmed(p, s, c, known, requested, rail, now).cases == s.cases
  {
    hide Scheduler.RetryDecision;
  }

  lemma RealigningIsNotQuiet(p: Policy, s: Db, c: CaseId, known: Case, day: Date, now: Instant)
    requires c in s.cases && AmountOk(p, SignalOf(s, c)) && CapSpent(p, known)
    ensures NotQuiet(Agent.RealignedTo(p, s, c, known, day, now), c, now)
  {
    hide NotQuiet, EscalatedBeyondCap, Limits.MayDebit, RetryArmed;
    var cleared := Cancels(s, OnCase(c), Tables.RealignedTo, Some(now));
    var rail := RailOf(SignalOf(s, c).value.methodName);
    var armed := RetryArmed(p, cleared, c, known, At(day, p.contactOpen), rail, now);
    ArmingKeepsCases(p, cleared, c, known, At(day, p.contactOpen), rail, now);
    var quieted := Suspended(armed, c, Some(day));
    var latest := LatestIn(quieted.diagnoses, c);
    EscalatingIsNotQuiet(
      p, quieted, c, quieted.cases[c], if latest.Some? then Some(latest.value.klass) else None, now);
  }

  /** The first schedule, too: when the cap refuses it, the ladder answers. */
  lemma ARefusedFirstRetryIsNotQuiet(
    p: Policy, s: Db, c: CaseId, known: Case, klass: DiagnosisClass, signal: FailureSignal, now: Instant)
    requires c in s.cases && AmountOk(p, Some(signal)) && CapSpent(p, known)
    ensures NotQuiet(FirstRetryArmed(p, s, c, known, klass, signal, now), c, now)
  {
    hide NotQuiet, EscalatedBeyondCap, Limits.MayDebit, RetryArmed, Scheduler.BackoffFor;
    var at := now + Scheduler.BackoffFor(p, Some(klass), known.retryCount);
    var armed := RetryArmed(p, s, c, known, at, RailOf(signal.methodName), now);
    ArmingKeepsCases(p, s, c, known, at, RailOf(signal.methodName), now);
    EscalatingIsNotQuiet(p, armed, c, known, Some(klass), now);
  }

  /**
   * And the blind retry behind a question: whether or not the cap or the amount refuses it, the
   * question queued just before it is due now, with a registered executor.
   */
  lemma ARefusedFallbackIsNotQuiet(
    p: Policy, s: Db, c: CaseId, known: Case, signal: FailureSignal, now: Instant)
    requires Ladder.Worthwhile(p, Nudge, known.amountPaise)
    ensures var r := LadderEntered(p, s, c, known, RecoverableBalance, signal, now);
            && NotQuiet(r, c, now)
            && |r.rows| > |s.rows|
            && r.rows[|s.rows|] == NewRow(c, known.customer, NUDGE, Some(now), now, Some(AskDate))
            && (AmountOk(p, Some(signal)) && !CapSpent(p, known) <==> |r.rows| == |s.rows| + 2)
  {
    hide Limits.MayDebit, Ladder.Worthwhile, Scheduler.BackoffFor, Scheduler.Placed;
    var r := LadderEntered(p, s, c, known, RecoverableBalance, signal, now);
    var question := NewRow(c, known.customer, NUDGE, Some(now), now, Some(AskDate));
    assert r.rows[|s.rows|] == question && Due(question, now) && question.kind in Runner.EXECUTORS;
  }
}
