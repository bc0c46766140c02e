/**
 * What any decision of the control loop can do to the tables: it cancels live rows and adds
 * pending ones for its own case, appends to the audit trail, and touches nothing an execution
 * would. The relation composes, so each entry point gets it from the pieces it is made of.
 */
module Effects {
  import opened Sequences
  import opened Models
  import opened Policies
  import opened Windows
  import opened Stops
  import opened Tables
  import opened Agent
  import Limits
  import Ladder
  import Replies
  import Runner
  import Scheduler
  import Taxonomies

  /** A debit may be queued only for a permissible amount, at a legal instant, and not in the past. */
  predicate LegalDebit(p: Policy, row: Row, checked: Option<FailureSignal>) {
    && row.scheduledFor.Some?
    && row.createdAt <= row.scheduledFor.value
    && checked.Some?
    && Limits.MayDebit(p, checked.value)
    && BandsPermit(p, checked.value.methodName, row.scheduledFor.value)
  }

  predicate SameButCancelled(row: Row, after: Row) {
    || after == row
    || (Live(row) && after.state.Cancelled?
        && after == row.(state := Cancelled, cancelReason := after.cancelReason, cancelledAt := after.cancelledAt))
  }

  predicate NewFor(p: Policy, row: Row, c: CaseId, customer: CustomerRef, checked: Option<FailureSignal>, now: Instant)
  {
    && row.caseId == c && row.customer == customer
    && row.state.Pending? && row.createdAt == now
    && row.leasedUntil.None? && row.worker.None? && row.attempts == 0
    && (row.kind == Retry ==> LegalDebit(p, row, checked))
  }

  predicate CasesKept(a: map<CaseId, Case>, b: map<CaseId, Case>) {
    && a.Keys == b.Keys
    && forall c :: c in a ==>
         && a[c].customer == b[c].customer
         && a[c].amountPaise == b[c].amountPaise
         && a[c].retryCount == b[c].retryCount
  }

  /** The trail is only appended to, about this case, and never with an execution. */
  predicate AuditGrows(a: seq<Entry>, b: seq<Entry>, c: CaseId) {
    && |a| <= |b|
    && (forall i :: 0 <= i < |a| ==> b[i] == a[i])
    && (forall i :: |a| <= i < |b| ==> b[i].caseId == c && !b[i].decided.Executed?)
  }

  predicate RowsGrow(
    p: Policy, a: seq<Row>, b: seq<Row>, c: CaseId, customer: CustomerRef, checked: Option<FailureSignal>,
    now: Instant)
  {
    && |a| <= |b|
    && (forall i :: 0 <= i < |a| ==> SameButCancelled(a[i], b[i]))
    && (forall i :: |a| <= i < |b| ==> NewFor(p, b[i], c, customer, checked, now))
  }

  /** Who a step acts for, on what checked signal, and when. */
  datatype Actor = Actor(c: CaseId, customer: CustomerRef, checked: Option<FailureSignal>, now: Instant)

  predicate Effect(p: Policy, s: Db, r: Db, who: Actor) {
    && CasesKept(s.cases, r.cases)
    && AuditGrows(s.audit, r.audit, who.c)
    && RowsGrow(p, s.rows, r.rows, who.c, who.customer, who.checked, who.now)
    && (r.signals, r.filed, r.events) == (s.signals, s.filed, s.events)
    && |s.suppressions| <= |r.suppressions|
    && (forall i :: 0 <= i < |s.suppressions| ==> r.suppressions[i] == s.suppressions[i])
    && |s.diagnoses| <= |r.diagnoses|
    && (forall i :: 0 <= i < |s.diagnoses| ==> r.diagnoses[i] == s.diagnoses[i])
    && (forall i :: |s.diagnoses| <= i < |r.diagnoses| ==> r.diagnoses[i].caseId == who.c)
  }

  /** The part of an effect that cancels nothing, stops nothing and diagnoses nothing. */
  predicate Adds(p: Policy, s: Db, r: Db, who: Actor) {
    && Effect(p, s, r, who)
    && (forall i :: 0 <= i < |s.rows| ==> r.rows[i] == s.rows[i])
    && r.suppressions == s.suppressions
    && r.diagnoses == s.diagnoses
  }

  lemma EffectThenAdds(p: Policy, s: Db, m: Db, r: Db, who: Actor)
    requires Effect(p, s, m, who) && Adds(p, m, r, who)
    ensures Effect(p, s, r, who)
  {
  }

  lemma AddsThenEffect(p: Policy, s: Db, m: Db, r: Db, who: Actor)
    requires m.rows == s.rows && Adds(p, s, m, who) && Effect(p, m, r, who)
    ensures Effect(p, s, r, who)
  {
  }

  lemma AddsThenAdds(p: Policy, s: Db, m: Db, r: Db, who: Actor)
    requires Adds(p, s, m, who) && Adds(p, m, r, who)
    ensures Adds(p, s, r, who)
  {
  }

  // -- the pieces --------------------------------------------------------------

  lemma RecordAdds(p: Policy, s: Db, decided: Decided, who: Actor)
    requires !decided.Executed?
    ensures Adds(p, s, Recorded(s, who.c, who.now, decided), who)
  {
  }

  lemma StateAdds(p: Policy, s: Db, state: CaseState, who: Actor)
    ensures Adds(p, s, StateSet(s, who.c, state), who)
  {
  }

  lemma SuspendAdds(p: Policy, s: Db, until: Option<Date>, who: Actor)
    ensures Adds(p, s, Suspended(s, who.c, until), who)
  {
  }

  lemma QueueAdds(p: Policy, s: Db, kind: ActionKind, due: Option<Instant>, variant: Option<Variant>, who: Actor)
    requires kind == Retry ==> LegalDebit(p, NewRow(who.c, who.customer, kind, due, who.now, variant), who.checked)
    ensures Adds(p, s, Scheduled(s, who.c, who.customer, kind, due, who.now, variant), who)
  {
  }

  /** What the scheduler accepts may be queued. */
  lemma AcceptedIsLegal(p: Policy, requested: Instant, retryCount: nat, who: Actor)
    requires AmountOk(p, who.checked)
    ensures var rail := RailOf(who.checked.value.methodName);
            var d := Scheduler.RetryDecision(p, requested, retryCount, Some(who.now), rail);
            d.scheduledFor.Some? ==>
              LegalDebit(p, NewRow(who.c, who.customer, Retry, d.scheduledFor, who.now, None), who.checked)
  {
    var rail := RailOf(who.checked.value.methodName);
    Scheduler.RetryIsLeastLegal(p, requested, retryCount, Some(who.now), rail);
    Scheduler.RetryByName(p, requested, retryCount, Some(who.now), who.checked.value.methodName);
  }

  /** A retry queued when the scheduler accepts one, and a record of it either way. */
  lemma DecidedRetryAdds(p: Policy, s: Db, requested: Instant, retryCount: nat, decided: Decided, who: Actor)
    requires AmountOk(p, who.checked) && !decided.Executed?
    ensures var rail := RailOf(who.checked.value.methodName);
            var d := Scheduler.RetryDecision(p, requested, retryCount, Some(who.now), rail);
            var queued := if d.scheduledFor.Some?
                          then Scheduled(s, who.c, who.customer, Retry, d.scheduledFor, who.now, None) else s;
            Adds(p, s, Recorded(queued, who.c, who.now, decided), who)
  {
    hide Adds, LegalDebit, Scheduler.RetryDecision, Limits.MayDebit;
    AcceptedIsLegal(p, requested, retryCount, who);
    var d := Scheduler.RetryDecision(
      p, requested, retryCount, Some(who.now), RailOf(who.checked.value.methodName));
    RecordAdds(p, s, decided, who);
    if d.scheduledFor.Some? {
      var queued := Scheduled(s, who.c, who.customer, Retry, d.scheduledFor, who.now, None);
      QueueAdds(p, s, Retry, d.scheduledFor, None, who);
      RecordAdds(p, queued, decided, who);
      AddsThenAdds(p, s, queued, Recorded(queued, who.c, who.now, decided), who);
    }
  }

  lemma RetryArmedAdds(p: Policy, s: Db, known: Case, requested: Instant, who: Actor)
    requires known.customer == who.customer && AmountOk(p, who.checked)
    ensures Adds(
      p, s, RetryArmed(p, s, who.c, known, requested, RailOf(who.checked.value.methodName), who.now), who)
  {
    hide Adds, Scheduler.RetryDecision, Limits.MayDebit;
    var d := Scheduler.RetryDecision(
      p, requested, known.retryCount, Some(who.now), RailOf(who.checked.value.methodName));
    DecidedRetryAdds(p, s, requested, known.retryCount, RetryScheduled(d.accepted), who);
  }

  lemma FallbackAdds(p: Policy, s: Db, known: Case, klass: DiagnosisClass, signal: FailureSignal, who: Actor)
    requires known.customer == who.customer && who.checked == Some(signal)
    ensures Adds(p, s, BalanceFallback(p, s, who.c, known, klass, signal, who.now), who)
  {
    hide Adds, Scheduler.RetryDecision, Limits.MayDebit;
    if !AmountOk(p, Some(signal)) {
      RecordAdds(p, s, AmountRefused, who);
    } else {
      var at := who.now + p.replyGrace + Scheduler.BackoffFor(p, Some(klass), known.retryCount);
      var d := Scheduler.RetryDecision(p, at, known.retryCount, Some(who.now), RailOf(signal.methodName));
      DecidedRetryAdds(p, s, at, known.retryCount, FallbackScheduled(d.accepted), who);
    }
  }

  lemma EscalationAdds(p: Policy, s: Db, known: Case, klass: Option<DiagnosisClass>, who: Actor)
    requires known.customer == who.customer
    ensures Adds(p, s, EscalatedBeyondCap(p, s, who.c, known, klass, who.now), who)
  {
    hide Adds;
    var (found, skipped) := Climb(AboveEntry(klass), Runner.EXECUTORS);
    var rung := found.GetOr(Nudge);
    var held, lost := StateSet(s, who.c, HeldForHuman), StateSet(s, who.c, Unrecovered);
    var queued := Scheduled(s, who.c, who.customer, Step(rung), Some(who.now), who.now, Some(Exhausted));
    StateAdds(p, s, HeldForHuman, who);
    RecordAdds(p, held, LadderExhausted(skipped), who);
    AddsThenAdds(p, s, held, Recorded(held, who.c, who.now, LadderExhausted(skipped)), who);
    StateAdds(p, s, Unrecovered, who);
    RecordAdds(p, lost, UneconomicAt(rung), who);
    AddsThenAdds(p, s, lost, Recorded(lost, who.c, who.now, UneconomicAt(rung)), who);
    QueueAdds(p, s, Step(rung), Some(who.now), Some(Exhausted), who);
    RecordAdds(p, queued, EscalatedAfterCap(rung, skipped), who);
    AddsThenAdds(p, s, queued, Recorded(queued, who.c, who.now, EscalatedAfterCap(rung, skipped)), who);
  }

  lemma CancelEffect(p: Policy, s: Db, scope: Scope, reason: CancelReason, who: Actor)
    ensures Effect(p, s, Cancels(s, scope, reason, Some(who.now)), who)
  {
  }

  /** A cancellation followed by a state change and a record, as several paths end. */
  lemma CloseEffect(
    p: Policy, s: Db, scope: Scope, reason: CancelReason, state: CaseState, decided: Decided, who: Actor)
    requires !decided.Executed?
    ensures Effect(
      p, s,
      Recorded(StateSet(Cancels(s, scope, reason, Some(who.now)), who.c, state), who.c, who.now, decided), who)
  {
    hide Effect, Adds;
    var cancelled := Cancels(s, scope, reason, Some(who.now));
    var settled := StateSet(cancelled, who.c, state);
    CancelEffect(p, s, scope, reason, who);
    StateAdds(p, cancelled, state, who);
    RecordAdds(p, settled, decided, who);
    EffectThenAdds(p, s, cancelled, settled, who);
    EffectThenAdds(p, s, settled, Recorded(settled, who.c, who.now, decided), who);
  }

  lemma SuppressEffect(p: Policy, s: Db, m: Db, scope: Scope, code: StopCode, at: Instant, who: Actor)
    requires Effect(p, s, m, who)
    ensures Effect(p, s, Suppresses(m, scope, code, at), who)
  {
  }

  lemma StopEffect(p: Policy, s: Db, code: StopCode, who: Actor)
    ensures Effect(p, s, StopApplied(s, code, who.c, who.customer, who.now), who)
  {
    hide Effect, Adds;
    var rule := RuleOf(code);
    var scope := ScopeOf(code, who.c, who.customer);
    var cancelled := Cancels(s, scope, ByStop(code), Some(who.now));
    CancelEffect(p, s, scope, ByStop(code), who);
    var settled := if rule.terminal.Some? then StateSet(cancelled, who.c, rule.terminal.value) else cancelled;
    if rule.terminal.Some? {
      StateAdds(p, cancelled, rule.terminal.value, who);
      EffectThenAdds(p, s, cancelled, settled, who);
    }
    SuppressEffect(p, s, settled, scope, code, who.now, who);
    var barred := if rule.suppressesContact && !ScopeSuppressed(settled, scope)
                  then Suppresses(settled, scope, code, who.now) else settled;
    var decided := Stopped(code, Count(s.rows, LiveIn(scope)));
    RecordAdds(p, barred, decided, who);
    EffectThenAdds(p, s, barred, Recorded(barred, who.c, who.now, decided), who);
  }

  // -- the entry points ----------------------------------------------------------

  lemma FirstRetryAdds(p: Policy, s: Db, known: Case, klass: DiagnosisClass, signal: FailureSignal, who: Actor)
    requires known.customer == who.customer && who.checked == Some(signal)
    ensures Adds(p, s, FirstRetryArmed(p, s, who.c, known, klass, signal, who.now), who)
  {
    hide Adds, RetryArmed, EscalatedBeyondCap, Limits.MayDebit, Scheduler.BackoffFor;
    RecordAdds(p, s, AmountRefused, who);
    if AmountOk(p, who.checked) {
      var at := who.now + Scheduler.BackoffFor(p, Some(klass), known.retryCount);
      var armed := RetryArmed(p, s, who.c, known, at, RailOf(signal.methodName), who.now);
      RetryArmedAdds(p, s, known, at, who);
      EscalationAdds(p, armed, known, Some(klass), who);
      AddsThenAdds(p, s, armed, EscalatedBeyondCap(p, armed, who.c, known, Some(klass), who.now), who);
    }
  }

  /** Joining the ladder above its bottom: the contact, and for an empty account the fallback too. */
  lemma ContactAdds(p: Policy, s: Db, known: Case, klass: DiagnosisClass, signal: FailureSignal, rung: Rung, who: Actor)
    requires known.customer == who.customer && who.checked == Some(signal)
    ensures var balance := klass == RecoverableBalance;
            var queued := Scheduled(
              s, who.c, who.customer, Step(rung), Some(who.now), who.now,
              if balance then Some(AskDate) else None);
            Adds(
              p, s, if balance then BalanceFallback(p, queued, who.c, known, klass, signal, who.now) else queued,
              who)
  {
    hide Adds;
    var variant := if klass == RecoverableBalance then Some(AskDate) else None;
    var queued := Scheduled(s, who.c, who.customer, Step(rung), Some(who.now), who.now, variant);
    QueueAdds(p, s, Step(rung), Some(who.now), variant, who);
    FallbackAdds(p, queued, known, klass, signal, who);
    AddsThenAdds(p, s, queued, BalanceFallback(p, queued, who.c, known, klass, signal, who.now), who);
  }

  lemma AddsIsEffect(p: Policy, s: Db, r: Db, who: Actor)
    requires Adds(p, s, r, who)
    ensures Effect(p, s, r, who)
  {
  }

  /** A ladder that can be joined is only added to. */
  lemma LadderAdds(p: Policy, s: Db, known: Case, klass: DiagnosisClass, signal: FailureSignal, who: Actor)
    requires known.customer == who.customer && who.checked == Some(signal)
    requires Ladder.Entry(klass).Some? && Ladder.Worthwhile(p, Ladder.Entry(klass).value, known.amountPaise)
    ensures Adds(p, s, LadderEntered(p, s, who.c, known, klass, signal, who.now), who)
  {
    hide Adds;
    var rung := Ladder.Entry(klass).value;
    var entered := Recorded(s, who.c, who.now, EnteredAt(rung));
    RecordAdds(p, s, EnteredAt(rung), who);
    if rung == SilentRetry {
      FirstRetryAdds(p, entered, known, klass, signal, who);
    } else {
      ContactAdds(p, entered, known, klass, signal, rung, who);
    }
    AddsThenAdds(p, s, entered, LadderEntered(p, s, who.c, known, klass, signal, who.now), who);
  }

  lemma LadderEffect(p: Policy, s: Db, known: Case, klass: DiagnosisClass, signal: FailureSignal, who: Actor)
    requires known.customer == who.customer && who.checked == Some(signal)
    ensures Effect(p, s, LadderEntered(p, s, who.c, known, klass, signal, who.now), who)
  {
    hide Effect, Adds;
    var r := LadderEntered(p, s, who.c, known, klass, signal, who.now);
    var rung := Ladder.Entry(klass);
    if rung.None? {
      RecordAdds(p, s, NoLadder, who);
      AddsIsEffect(p, s, r, who);
    } else if !Ladder.Worthwhile(p, rung.value, known.amountPaise) {
      CloseEffect(p, s, OnCase(who.c), UneconomicRung, Unrecovered, UneconomicAt(rung.value), who);
      assert Cancels(StateSet(s, who.c, Unrecovered), OnCase(who.c), UneconomicRung, Some(who.now))
          == StateSet(Cancels(s, OnCase(who.c), UneconomicRung, Some(who.now)), who.c, Unrecovered);
    } else {
      LadderAdds(p, s, known, klass, signal, who);
      AddsIsEffect(p, s, r, who);
    }
  }

  lemma DiagnosisEffect(
    p: Policy, tx: Taxonomies.Taxonomy, s: Db, known: Case, signal: FailureSignal, who: Actor)
    requires known.customer == who.customer && who.checked == Some(signal)
    ensures Effect(p, s, DiagnosedAndWorked(p, tx, s, who.c, known, signal, who.now), who)
  {
    hide Effect, Adds, LadderEntered, Taxonomies.Diagnose, Taxonomies.AuthorityOf;
    var r := DiagnosedAndWorked(p, tx, s, who.c, known, signal, who.now);
    var d := Taxonomies.Diagnose(tx, signal);
    var authority := Taxonomies.AuthorityOf(p, d);
    var filed := Recorded(DiagnosisFiled(s, who.c, d), who.c, who.now, Diagnosed(d.klass, authority));
    if authority == HoldForHuman {
      var held := StateSet(filed, who.c, HeldForHuman);
      StateAdds(p, filed, HeldForHuman, who);
      RecordAdds(p, held, HeldOnConfidence, who);
      AddsThenAdds(p, filed, held, r, who);
      AddsIsEffect(p, filed, r, who);
    } else {
      LadderEffect(p, filed, known, d.klass, signal, who);
    }
    FilingThenEffect(p, s, d, Diagnosed(d.klass, authority), r, who);
  }

  lemma FilingThenEffect(p: Policy, s: Db, d: Diagnosis, decided: Decided, r: Db, who: Actor)
    requires !decided.Executed?
    requires Effect(p, Recorded(DiagnosisFiled(s, who.c, d), who.c, who.now, decided), r, who)
    ensures Effect(p, s, r, who)
  {
    hide LegalDebit;
  }

  lemma FirstWorkedEffect(
    p: Policy, tx: Taxonomies.Taxonomy, s: Db, known: Case, signal: FailureSignal, verdict: Verdict, who: Actor)
    requires known.customer == who.customer && who.checked == Some(signal)
    ensures Effect(p, s, FirstWorked(p, tx, s, who.c, known, signal, verdict, who.now), who)
  {
    hide Effect, Adds, DiagnosedAndWorked;
    var r := FirstWorked(p, tx, s, who.c, known, signal, verdict, who.now);
    var asked := Recorded(s, who.c, who.now, VerifyFirst);
    RecordAdds(p, s, VerifyFirst, who);
    if CaseSuppressed(s, who.c, known.customer) {
      var held := StateSet(s, who.c, HeldForHuman);
      StateAdds(p, s, HeldForHuman, who);
      RecordAdds(p, held, OpenedUnderStop, who);
      AddsThenAdds(p, s, held, r, who);
      AddsIsEffect(p, s, r, who);
    } else if !Taxonomies.NeedsVerification(signal) {
      DiagnosisEffect(p, tx, s, known, signal, who);
    } else {
      match verdict
      case AlreadyPaid =>
        CloseEffect(p, asked, OnCase(who.c), FalseFailure, ClosedFalseFailure, ClosedAsPaid, who);
        assert Cancels(StateSet(asked, who.c, ClosedFalseFailure), OnCase(who.c), FalseFailure, Some(who.now))
            == StateSet(Cancels(asked, OnCase(who.c), FalseFailure, Some(who.now)), who.c, ClosedFalseFailure);
        AddsThenEffect(p, s, asked, r, who);
      case Unpaid =>
        var confirmed := Recorded(asked, who.c, who.now, ConfirmedUnpaid);
        RecordAdds(p, asked, ConfirmedUnpaid, who);
        AddsThenAdds(p, s, asked, confirmed, who);
        DiagnosisEffect(p, tx, confirmed, known, signal, who);
        AddsThenEffect(p, s, confirmed, r, who);
      case _ =>
        var held := StateSet(asked, who.c, HeldForHuman);
        StateAdds(p, asked, HeldForHuman, who);
        AddsThenAdds(p, s, asked, held, who);
        RecordAdds(p, held, VerificationHeld, who);
        AddsThenAdds(p, s, held, r, who);
        AddsIsEffect(p, s, r, who);
    }
  }

  /** A realignment clears the case's queue and then only adds to it. */
  lemma RealignEffect(p: Policy, s: Db, known: Case, day: Date, who: Actor)
    requires who.c in s.cases && s.cases[who.c].customer == known.customer == who.customer
    requires who.checked == SignalOf(s, who.c)
    ensures var cleared := Cancels(s, OnCase(who.c), Tables.RealignedTo, Some(who.now));
            && Effect(p, s, cleared, who)
            && Adds(p, cleared, Agent.RealignedTo(p, s, who.c, known, day, who.now), who)
    ensures Effect(p, s, Agent.RealignedTo(p, s, who.c, known, day, who.now), who)
  {
    hide Effect, Adds, RetryArmed, EscalatedBeyondCap, Limits.MayDebit;
    var r := Agent.RealignedTo(p, s, who.c, known, day, who.now);
    var cleared := Cancels(s, OnCase(who.c), Tables.RealignedTo, Some(who.now));
    CancelEffect(p, s, OnCase(who.c), Tables.RealignedTo, who);
    if AmountOk(p, who.checked) {
      var rail := RailOf(who.checked.value.methodName);
      var armed := RetryArmed(p, cleared, who.c, known, At(day, p.contactOpen), rail, who.now);
      RetryArmedAdds(p, cleared, known, At(day, p.contactOpen), who);
      var quieted := Suspended(armed, who.c, Some(day));
      SuspendAdds(p, armed, Some(day), who);
      AddsThenAdds(p, cleared, armed, quieted, who);
      CustomerKept(p, cleared, quieted, who);
      var latest := LatestIn(quieted.diagnoses, who.c);
      var klass := if latest.Some? then Some(latest.value.klass) else None;
      EscalationAdds(p, quieted, quieted.cases[who.c], klass, who);
      AddsThenAdds(
        p, cleared, quieted,
        EscalatedBeyondCap(p, quieted, who.c, quieted.cases[who.c], klass, who.now), who);
    } else {
      var refused := Recorded(cleared, who.c, who.now, AmountRefused);
      RecordAdds(p, cleared, AmountRefused, who);
      SuspendAdds(p, refused, Some(day), who);
      AddsThenAdds(p, cleared, refused, r, who);
    }
    EffectThenAdds(p, s, cleared, r, who);
  }

  lemma CustomerKept(p: Policy, s: Db, r: Db, who: Actor)
    requires Adds(p, s, r, who) && who.c in s.cases && s.cases[who.c].customer == who.customer
    ensures who.c in r.cases && r.cases[who.c].customer == who.customer
  {
  }

  lemma ReplyEffect(p: Policy, s: Db, known: Case, parsed: Replies.ParsedReply, who: Actor)
    requires who.c in s.cases && s.cases[who.c].customer == known.customer == who.customer
    requires who.checked == SignalOf(s, who.c)
    ensures Effect(p, s, ReplyHandled(p, s, who.c, known, parsed, who.now), who)
  {
    hide Effect, Adds, Replies.Decision, StopApplied, Agent.RealignedTo;
    var r := ReplyHandled(p, s, who.c, known, parsed, who.now);
    if CaseSuppressed(s, who.c, known.customer) {
      RecordAdds(p, s, ReplyNotActedOn, who);
      AddsIsEffect(p, s, r, who);
    } else {
      var out := Replies.Decision(p, parsed, DateOf(who.now), None);
      var read := Recorded(s, who.c, who.now, ReplyRead(out.rules));
      RecordAdds(p, s, ReplyRead(out.rules), who);
      if out.stopCode.Some? {
        var stopped := StopApplied(read, out.stopCode.value, who.c, known.customer, who.now);
        var held := StateSet(stopped, who.c, HeldForHuman);
        StopEffect(p, read, out.stopCode.value, who);
        StateAdds(p, stopped, HeldForHuman, who);
        EffectThenAdds(p, read, stopped, held, who);
        RecordAdds(p, held, HeldAsWellAsStopped, who);
        EffectThenAdds(p, read, held, Recorded(held, who.c, who.now, HeldAsWellAsStopped), who);
        AddsThenEffect(p, s, read, r, who);
      } else if out.needsHuman {
        CloseEffect(
          p, read, OnCase(who.c), HeldForPerson, HeldForHuman,
          HeldByReply(Count(read.rows, LiveIn(OnCase(who.c)))), who);
        AddsThenEffect(p, s, read, r, who);
      } else if out.realignTo.Some? {
        RealignEffect(p, read, known, out.realignTo.value, who);
        AddsThenEffect(p, s, read, r, who);
      } else {
        AddsIsEffect(p, s, r, who);
      }
    }
  }

  lemma ReviewAdds(p: Policy, s: Db, known: Case, who: Actor)
    requires known.customer == who.customer && who.checked == SignalOf(s, who.c)
    ensures Adds(p, s, ReviewResumed(p, s, who.c, known, who.now), who)
  {
    hide Adds, RetryArmed, EscalatedBeyondCap, Limits.MayDebit;
    RecordAdds(p, s, AmountRefused, who);
    if AmountOk(p, who.checked) {
      var armed := RetryArmed(p, s, who.c, known, who.now, RailOf(who.checked.value.methodName), who.now);
      RetryArmedAdds(p, s, known, who.now, who);
      var latest := LatestIn(armed.diagnoses, who.c);
      var klass := if latest.Some? then Some(latest.value.klass) else None;
      EscalationAdds(p, armed, known, klass, who);
      AddsThenAdds(p, s, armed, EscalatedBeyondCap(p, armed, who.c, known, klass, who.now), who);
    }
  }

  lemma RecoveryEffect(p: Policy, s: Db, who: Actor)
    ensures Effect(p, s, MarkedRecovered(s, who.c, who.now), who)
  {
    CancelEffect(p, s, OnCase(who.c), PaidByLink, who);
  }
}
