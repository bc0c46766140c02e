/** The control loop, as functions of the tables: what each entry point leaves behind. */
module Agent {
  import opened Sequences
  import opened Models
  import opened Policies
  import opened Stops
  import opened Tables
  import Limits
  import Ladder
  import Replies
  import Runner
  import Scheduler
  import Taxonomies

  // -- asking whether, and when ------------------------------------------------

  /** Whether a debit passes the limits; without a signal there is nothing to pass them with. */
  predicate AmountOk(p: Policy, signal: Option<FailureSignal>) {
    signal.Some? && Limits.MayDebit(p, signal.value)
  }

  /** Ask the scheduler, queue the retry if it accepts, and record which. */
  function RetryArmed(
    p: Policy, s: Db, c: CaseId, known: Case, requested: Instant, rail: Rail, now: Instant): Db
  {
    var d := Scheduler.RetryDecision(p, requested, known.retryCount, Some(now), rail);
    var queued := if d.scheduledFor.Some?
                  then Scheduled(s, c, known.customer, Retry, d.scheduledFor, now, None) else s;
    Recorded(queued, c, now, RetryScheduled(d.accepted))
  }

  predicate CapSpent(p: Policy, known: Case) {
    known.retryCount >= p.retryCap
  }

  function BalanceFallback(
    p: Policy, s: Db, c: CaseId, known: Case, klass: DiagnosisClass, signal: FailureSignal, now: Instant): Db
  {
    if !AmountOk(p, Some(signal)) then Recorded(s, c, now, AmountRefused)
    else
      var at := now + p.replyGrace + Scheduler.BackoffFor(p, Some(klass), known.retryCount);
      var d := Scheduler.RetryDecision(p, at, known.retryCount, Some(now), RailOf(signal.methodName));
      var queued := if d.scheduledFor.Some?
                    then Scheduled(s, c, known.customer, Retry, d.scheduledFor, now, None) else s;
      Recorded(queued, c, now, FallbackScheduled(d.accepted))
  }

  // -- after the cap -----------------------------------------------------------

  /** Climb from a rung to the first with a registered executor, listing the ones passed over. */
  function Climb(rung: Option<Rung>, registered: set<ActionKind>): (Option<Rung>, seq<Rung>)
    decreases if rung.Some? then 6 - Ladder.Height(rung.value) else 0
  {
    if rung.None? || Step(rung.value) in registered then (rung, [])
    else
      Ladder.NextRungIsLeast(rung.value, {});
      var rest := Climb(Ladder.NextRung(rung.value, {}), registered);
      (rest.0, [rung.value] + rest.1)
  }

  /** The rungs a search may consider: those no lower than where it starts. */
  predicate AtLeast(first: Option<Rung>, q: Rung) {
    first.Some? && Ladder.Height(first.value) <= Ladder.Height(q)
  }

  /**
   * The search ends at the least executable rung no lower than its start, and at none only when
   * there is none; what it lists is exactly the rungs below that, in climbing order.
   */
  lemma {:induction false} ClimbFindsTheLeast(first: Option<Rung>, registered: set<ActionKind>)
    ensures var (found, skipped) := Climb(first, registered);
            && (found.Some? ==> AtLeast(first, found.value) && Step(found.value) in registered)
            && (forall q :: AtLeast(first, q) && Step(q) in registered ==>
                  found.Some? && Ladder.Height(found.value) <= Ladder.Height(q))
            && (forall q :: q in skipped <==>
                  AtLeast(first, q) && (found.Some? ==> Ladder.Height(q) < Ladder.Height(found.value)))
            && (forall i, j :: 0 <= i < j < |skipped| ==>
                  Ladder.Height(skipped[i]) < Ladder.Height(skipped[j]))
    decreases if first.Some? then 6 - Ladder.Height(first.value) else 0
  {
    if first.Some? && Step(first.value) !in registered {
      var next := Ladder.NextRung(first.value, {});
      Ladder.NextRungIsLeast(first.value, {});
      ClimbFindsTheLeast(next, registered);
      assert forall q :: AtLeast(first, q) <==> q == first.value || AtLeast(next, q);
      var rest := Climb(next, registered).1;
      assert forall i :: 0 <= i < |rest| ==> rest[i] in rest;
    }
  }

  function AboveEntry(klass: Option<DiagnosisClass>): Option<Rung> {
    var entry := if klass.Some? then Ladder.Entry(klass.value) else None;
    if entry.Some? then Ladder.NextRung(entry.value, {}) else None
  }

  predicate ExhaustedSent(s: Db, c: CaseId) {
    exists i :: 0 <= i < |s.audit| && s.audit[i].caseId == c && s.audit[i].decided.EscalatedAfterCap?
  }

  function EscalatedBeyondCap(
    p: Policy, s: Db, c: CaseId, known: Case, klass: Option<DiagnosisClass>, now: Instant): Db
  {
    var (found, skipped) := Climb(AboveEntry(klass), Runner.EXECUTORS);
    if found.None? && ExhaustedSent(s, c) then
      Recorded(StateSet(s, c, HeldForHuman), c, now, LadderExhausted(skipped))
    else
      var rung := found.GetOr(Nudge);
      if !Ladder.Worthwhile(p, rung, known.amountPaise) then
        Recorded(StateSet(s, c, Unrecovered), c, now, UneconomicAt(rung))
      else
        Recorded(
          Scheduled(s, c, known.customer, Step(rung), Some(now), now, Some(Exhausted)),
          c, now, EscalatedAfterCap(rung, skipped))
  }

  // -- stops -------------------------------------------------------------------

  /** The reach of a stop. Merchant scope behaves as customer scope: there is one merchant. */
  function ScopeOf(code: StopCode, c: CaseId, customer: CustomerRef): Scope {
    if RuleOf(code).scope.CaseScope? then OnCase(c) else OnCustomer(customer)
  }

  function StopApplied(s: Db, code: StopCode, c: CaseId, customer: CustomerRef, now: Instant): Db {
    var rule := RuleOf(code);
    var scope := ScopeOf(code, c, customer);
    var cancelled := Cancels(s, scope, ByStop(code), Some(now));
    var settled := if rule.terminal.Some? then StateSet(cancelled, c, rule.terminal.value) else cancelled;
    var barred := if rule.suppressesContact && !ScopeSuppressed(settled, scope)
                  then Suppresses(settled, scope, code, now) else settled;
    Recorded(barred, c, now, Stopped(code, Count(s.rows, LiveIn(scope))))
  }

  // -- a failure ---------------------------------------------------------------

  /** What asking whether an order has since been paid can come back with. */
  datatype Verdict = NoVerifier | Unavailable | AlreadyPaid | Unpaid

  function FirstRetryArmed(
    p: Policy, s: Db, c: CaseId, known: Case, klass: DiagnosisClass, signal: FailureSignal, now: Instant): Db
  {
    if !AmountOk(p, Some(signal)) then Recorded(s, c, now, AmountRefused)
    else
      var at := now + Scheduler.BackoffFor(p, Some(klass), known.retryCount);
      var armed := RetryArmed(p, s, c, known, at, RailOf(signal.methodName), now);
      if CapSpent(p, known) then EscalatedBeyondCap(p, armed, c, known, Some(klass), now) else armed
  }

  function LadderEntered(
    p: Policy, s: Db, c: CaseId, known: Case, klass: DiagnosisClass, signal: FailureSignal, now: Instant): Db
  {
    var rung := Ladder.Entry(klass);
    if rung.None? then Recorded(s, c, now, NoLadder)
    else if !Ladder.Worthwhile(p, rung.value, known.amountPaise) then
      Recorded(
        Cancels(StateSet(s, c, Unrecovered), OnCase(c), UneconomicRung, Some(now)),
        c, now, UneconomicAt(rung.value))
    else
      var entered := Recorded(s, c, now, EnteredAt(rung.value));
      if rung.value == SilentRetry then FirstRetryArmed(p, entered, c, known, klass, signal, now)
      else
        var balance := klass == RecoverableBalance;
        var queued := Scheduled(
          entered, c, known.customer, Step(rung.value), Some(now), now,
          if balance then Some(AskDate) else None);
        if balance then BalanceFallback(p, queued, c, known, klass, signal, now) else queued
  }

  function DiagnosedAndWorked(
    p: Policy, tx: Taxonomies.Taxonomy, s: Db, c: CaseId, known: Case, signal: FailureSignal, now: Instant): Db
  {
    var d := Taxonomies.Diagnose(tx, signal);
    var authority := Taxonomies.AuthorityOf(p, d);
    var filed := Recorded(DiagnosisFiled(s, c, d), c, now, Diagnosed(d.klass, authority));
    if authority == HoldForHuman then
      Recorded(StateSet(filed, c, HeldForHuman), c, now, HeldOnConfidence)
    else LadderEntered(p, filed, c, known, d.klass, signal, now)
  }

  function FirstWorked(
    p: Policy, tx: Taxonomies.Taxonomy, s: Db, c: CaseId, known: Case, signal: FailureSignal,
    verdict: Verdict, now: Instant): Db
  {
    if CaseSuppressed(s, c, known.customer) then
      Recorded(StateSet(s, c, HeldForHuman), c, now, OpenedUnderStop)
    else if !Taxonomies.NeedsVerification(signal) then DiagnosedAndWorked(p, tx, s, c, known, signal, now)
    else
      var asked := Recorded(s, c, now, VerifyFirst);
      match verdict
      case AlreadyPaid =>
        Recorded(
          Cancels(StateSet(asked, c, ClosedFalseFailure), OnCase(c), FalseFailure, Some(now)),
          c, now, ClosedAsPaid)
      case Unpaid =>
        DiagnosedAndWorked(p, tx, Recorded(asked, c, now, ConfirmedUnpaid), c, known, signal, now)
      case _ => Recorded(StateSet(asked, c, HeldForHuman), c, now, VerificationHeld)
  }

  /** A failure from its arrival to whatever is queued for it; one already diagnosed changes nothing. */
  function FailureHandled(
    p: Policy, tx: Taxonomies.Taxonomy, s: Db, signal: FailureSignal, verdict: Verdict, now: Instant,
    newId: CaseId): Db
  {
    var withCase := Opened(s, signal, newId);
    var c := CaseFor(s, signal, newId);
    var known := LatestIn(withCase.diagnoses, c).Some?;
    var ingested := Recorded(withCase, c, now, Ingested(known));
    if known || c !in withCase.cases then ingested
    else FirstWorked(p, tx, ingested, c, withCase.cases[c], signal, verdict, now)
  }

  /** The webhook: an event seen before is a duplicate; a new one is marked and then worked. */
  function WebhookHandled(
    p: Policy, tx: Taxonomies.Taxonomy, s: Db, event: Option<EventId>, signal: FailureSignal, now: Instant,
    newId: CaseId): Db
  {
    if event.Some? && event.value in s.events then s
    else
      var withCase := Opened(s, signal, newId);
      var marked := if event.Some? then Marked(withCase, event.value, CaseFor(s, signal, newId)) else withCase;
      FailureHandled(p, tx, marked, signal, NoVerifier, now, newId)
  }

  // -- a reply -----------------------------------------------------------------

  function StoppedByReply(
    p: Policy, s: Db, c: CaseId, known: Case, code: StopCode, needsHuman: bool, now: Instant): Db
  {
    var stopped := StopApplied(s, code, c, known.customer, now);
    if needsHuman && RuleOf(code).terminal.None? then
      Recorded(StateSet(stopped, c, HeldForHuman), c, now, HeldAsWellAsStopped)
    else stopped
  }

  function HeldForReply(s: Db, c: CaseId, now: Instant): Db {
    Recorded(
      StateSet(Cancels(s, OnCase(c), HeldForPerson, Some(now)), c, HeldForHuman),
      c, now, HeldByReply(Count(s.rows, LiveIn(OnCase(c)))))
  }

  function RealignedTo(p: Policy, s: Db, c: CaseId, known: Case, day: Date, now: Instant): Db {
    var cleared := Cancels(s, OnCase(c), Tables.RealignedTo, Some(now));
    var signal := SignalOf(cleared, c);
    if !AmountOk(p, signal) then Suspended(Recorded(cleared, c, now, AmountRefused), c, Some(day))
    else
      var target := At(day, p.contactOpen);
      var armed := RetryArmed(p, cleared, c, known, target, RailOf(signal.value.methodName), now);
      var quieted := Suspended(armed, c, Some(day));
      if !CapSpent(p, known) then quieted
      else
        var latest := LatestIn(quieted.diagnoses, c);
        EscalatedBeyondCap(
          p, quieted, c, if c in quieted.cases then quieted.cases[c] else known,
          if latest.Some? then Some(latest.value.klass) else None, now)
  }

  /** A reply and all it sets off. `known` is the case as the caller last read it. */
  function ReplyHandled(
    p: Policy, s: Db, c: CaseId, known: Case, parsed: Replies.ParsedReply, now: Instant): Db
  {
    if CaseSuppressed(s, c, known.customer) then Recorded(s, c, now, ReplyNotActedOn)
    else
      var out := Replies.Decision(p, parsed, DateOf(now), None);
      var read := Recorded(s, c, now, ReplyRead(out.rules));
      if out.stopCode.Some? then
        StoppedByReply(p, read, c, known, out.stopCode.value, out.needsHuman, now)
      else if out.needsHuman then HeldForReply(read, c, now)
      else if out.realignTo.Some? then RealignedTo(p, read, c, known, out.realignTo.value, now)
      else read
  }

  // -- a reviewer, and a payment -------------------------------------------------

  /** A hold is lifted by a person, and a debit asked for at once. */
  function ReviewResumed(p: Policy, s: Db, c: CaseId, known: Case, now: Instant): Db {
    var signal := SignalOf(s, c);
    if !AmountOk(p, signal) then Recorded(s, c, now, AmountRefused)
    else
      var armed := RetryArmed(p, s, c, known, now, RailOf(signal.value.methodName), now);
      if !CapSpent(p, known) then armed
      else
        var latest := LatestIn(armed.diagnoses, c);
        EscalatedBeyondCap(p, armed, c, known, if latest.Some? then Some(latest.value.klass) else None, now)
  }

  function MarkedRecovered(s: Db, c: CaseId, now: Instant): Db {
    Recorded(
      StateSet(Cancels(s, OnCase(c), PaidByLink, Some(now)), c, Recovered),
      c, now, PaidViaLink(Count(s.rows, LiveIn(OnCase(c)))))
  }
}
