/** The control loop itself: each entry point as the sequence of store calls it makes. */
module AgentLoop {
  import opened Sequences
  import opened Models
  import opened Policies
  import opened Stops
  import opened Tables
  import opened Stores
  import opened Agent
  import Ladder
  import Replies
  import Runner
  import Scheduler
  import Taxonomies

  method AmountPermitted(p: Policy, store: Store, c: CaseId, signal: Option<FailureSignal>, now: Instant)
    returns (permitted: bool)
    modifies store`audit
    ensures permitted <==> AmountOk(p, signal)
    ensures store.View() == if permitted then old(store.View()) else Recorded(old(store.View()), c, now, AmountRefused)
  {
    permitted := AmountOk(p, signal);
    if !permitted {
      store.Record(c, now, AmountRefused);
    }
  }

  /** The schedule a path asks for: a queued retry if the cap allows one. */
  method ArmRetry(p: Policy, store: Store, c: CaseId, known: Case, requested: Instant, rail: Rail, now: Instant)
    returns (accepted: bool)
    modifies store
    ensures store.View() == RetryArmed(p, old(store.View()), c, known, requested, rail, now)
    ensures accepted <==> !CapSpent(p, known)
  {
    var d := Scheduler.ScheduleRetry(p, requested, known.retryCount, Some(now), rail);
    if d.scheduledFor.Some? {
      var id := store.ScheduleAction(c, known.customer, Retry, d.scheduledFor, now, None);
    }
    store.Record(c, now, RetryScheduled(d.accepted));
    accepted := d.accepted;
  }

  method ScheduleBalanceFallback(
    p: Policy, store: Store, c: CaseId, known: Case, klass: DiagnosisClass, signal: FailureSignal, now: Instant)
    modifies store
    ensures store.View() == BalanceFallback(p, old(store.View()), c, known, klass, signal, now)
  {
    var permitted := AmountPermitted(p, store, c, Some(signal), now);
    if !permitted {
      return;
    }
    var at := now + p.replyGrace + Scheduler.BackoffFor(p, Some(klass), known.retryCount);
    var d := Scheduler.ScheduleRetry(p, at, known.retryCount, Some(now), RailOf(signal.methodName));
    if d.scheduledFor.Some? {
      var id := store.ScheduleAction(c, known.customer, Retry, d.scheduledFor, now, None);
    }
    store.Record(c, now, FallbackScheduled(d.accepted));
  }

  /** The rung search: step up while nothing here can execute the rung, listing those passed over. */
  method FindExecutable(first: Option<Rung>, registered: set<ActionKind>)
    returns (found: Option<Rung>, skipped: seq<Rung>)
    ensures (found, skipped) == Climb(first, registered)
  {
    found, skipped := first, [];
    assert skipped + Climb(first, registered).1 == Climb(first, registered).1;
    while found.Some? && Step(found.value) !in registered
      invariant Climb(first, registered) ==
        (Climb(found, registered).0, skipped + Climb(found, registered).1)
      decreases if found.Some? then 6 - Ladder.Height(found.value) else 0
    {
      var rung := found.value;
      Ladder.NextRungIsLeast(rung, {});
      found := Ladder.NextRung(rung, {});
      ghost var rest := Climb(found, registered).1;
      assert skipped + ([rung] + rest) == (skipped + [rung]) + rest;
      skipped := skipped + [rung];
    }
    assert skipped + [] == skipped;
  }

  method ExhaustedNudgeSent(store: Store, c: CaseId) returns (sent: bool)
    ensures sent <==> ExhaustedSent(store.View(), c)
  {
    for i := 0 to |store.audit|
      invariant forall k :: 0 <= k < i ==>
        !(store.audit[k].caseId == c && store.audit[k].decided.EscalatedAfterCap?)
    {
      if store.audit[i].caseId == c && store.audit[i].decided.EscalatedAfterCap? {
        return true;
      }
    }
    sent := false;
  }

  method EscalateAfterCap(
    p: Policy, store: Store, c: CaseId, known: Case, klass: Option<DiagnosisClass>, now: Instant)
    modifies store
    ensures store.View() == EscalatedBeyondCap(p, old(store.View()), c, known, klass, now)
  {
    var next, skipped := FindExecutable(AboveEntry(klass), Runner.EXECUTORS);
    if next.None? {
      var sent := ExhaustedNudgeSent(store, c);
      if sent {
        store.SetState(c, HeldForHuman);
        store.Record(c, now, LadderExhausted(skipped));
        return;
      }
      next := Some(Nudge);
    }
    var rung := next.value;
    if !Ladder.Worthwhile(p, rung, known.amountPaise) {
      store.SetState(c, Unrecovered);
      store.Record(c, now, UneconomicAt(rung));
      return;
    }
    var id := store.ScheduleAction(c, known.customer, Step(rung), Some(now), now, Some(Exhausted));
    store.Record(c, now, EscalatedAfterCap(rung, skipped));
  }

  method ApplyStop(store: Store, code: StopCode, c: CaseId, customer: CustomerRef, now: Instant)
    returns (cancelled: nat)
    modifies store
    ensures store.View() == StopApplied(old(store.View()), code, c, customer, now)
    ensures cancelled == Count(old(store.rows), LiveIn(ScopeOf(code, c, customer)))
  {
    var rule := RuleOf(code);
    if rule.scope == CaseScope {
      cancelled := store.CancelPending(OnCase(c), ByStop(code), Some(now));
    } else {
      cancelled := store.CancelPending(OnCustomer(customer), ByStop(code), Some(now));
    }
    if rule.terminal.Some? {
      store.SetState(c, rule.terminal.value);
    }
    if rule.suppressesContact {
      var standing;
      if rule.scope == CaseScope {
        standing := store.ContactSuppression(Some(c), None);
      } else {
        standing := store.ContactSuppression(None, Some(customer));
      }
      if standing.None? {
        store.SuppressContact(ScopeOf(code, c, customer), code, now);
      }
    }
    store.Record(c, now, Stopped(code, cancelled));
  }

  /** Whether the case is settled by checking: paid, or unknowable and so held. */
  method Verify(store: Store, c: CaseId, verdict: Verdict, now: Instant) returns (settled: bool)
    modifies store
    ensures settled <==> verdict != Unpaid
    ensures store.View() ==
      match verdict
      case AlreadyPaid =>
        Recorded(Cancels(StateSet(old(store.View()), c, ClosedFalseFailure), OnCase(c), FalseFailure, Some(now)),
                 c, now, ClosedAsPaid)
      case Unpaid => Recorded(old(store.View()), c, now, ConfirmedUnpaid)
      case _ => Recorded(StateSet(old(store.View()), c, HeldForHuman), c, now, VerificationHeld)
  {
    if verdict == NoVerifier || verdict == Unavailable {
      store.SetState(c, HeldForHuman);
      store.Record(c, now, VerificationHeld);
      return true;
    }
    if verdict == AlreadyPaid {
      store.SetState(c, ClosedFalseFailure);
      var n := store.CancelPending(OnCase(c), FalseFailure, Some(now));
      store.Record(c, now, ClosedAsPaid);
      return true;
    }
    store.Record(c, now, ConfirmedUnpaid);
    settled := false;
  }

  /** The part of handling a failure that follows a diagnosis good enough to act on. */
  method WorkLadder(
    p: Policy, store: Store, c: CaseId, known: Case, klass: DiagnosisClass, signal: FailureSignal, now: Instant)
    modifies store
    ensures store.View() == LadderEntered(p, old(store.View()), c, known, klass, signal, now)
  {
    var entry := Ladder.Entry(klass);
    if entry.None? {
      store.Record(c, now, NoLadder);
      return;
    }
    var rung := entry.value;
    if !Ladder.Worthwhile(p, rung, known.amountPaise) {
      store.SetState(c, Unrecovered);
      var n := store.CancelPending(OnCase(c), UneconomicRung, Some(now));
      store.Record(c, now, UneconomicAt(rung));
      return;
    }
    store.Record(c, now, EnteredAt(rung));
    if rung != SilentRetry {
      var balance := klass == RecoverableBalance;
      var id := store.ScheduleAction(
        c, known.customer, Step(rung), Some(now), now, if balance then Some(AskDate) else None);
      if balance {
        ScheduleBalanceFallback(p, store, c, known, klass, signal, now);
      }
      return;
    }
    var permitted := AmountPermitted(p, store, c, Some(signal), now);
    if !permitted {
      return;
    }
    var wait := Scheduler.BackoffFor(p, Some(klass), known.retryCount);
    var accepted := ArmRetry(p, store, c, known, now + wait, RailOf(signal.methodName), now);
    if !accepted {
      EscalateAfterCap(p, store, c, known, Some(klass), now);
    }
  }

  method DiagnoseAndWork(
    p: Policy, tx: Taxonomies.Taxonomy, store: Store, c: CaseId, known: Case, signal: FailureSignal, now: Instant)
    modifies store
    ensures store.View() == DiagnosedAndWorked(p, tx, old(store.View()), c, known, signal, now)
  {
    var d := Taxonomies.Diagnose(tx, signal);
    var authority := Taxonomies.AuthorityOf(p, d);
    store.RecordDiagnosis(c, d);
    store.Record(c, now, Diagnosed(d.klass, authority));
    if authority == HoldForHuman {
      store.SetState(c, HeldForHuman);
      store.Record(c, now, HeldOnConfidence);
      return;
    }
    WorkLadder(p, store, c, known, d.klass, signal, now);
  }

  method HandleFailure(
    p: Policy, tx: Taxonomies.Taxonomy, store: Store, signal: FailureSignal, verdict: Verdict, now: Instant,
    newId: CaseId) returns (c: CaseId)
    requires if signal.paymentId in store.filed then store.filed[signal.paymentId] in store.cases
             else newId !in store.cases
    modifies store
    ensures store.View() == FailureHandled(p, tx, old(store.View()), signal, verdict, now, newId)
    ensures c == CaseFor(old(store.View()), signal, newId)
  {
    var created;
    c, created := store.OpenCaseOrGet(signal, newId);
    var known := store.cases[c];
    var latest := store.LatestDiagnosis(c);
    store.Record(c, now, Ingested(latest.Some?));
    if latest.Some? {
      return;
    }
    var standing := store.ContactSuppression(Some(c), Some(known.customer));
    if standing.Some? {
      store.SetState(c, HeldForHuman);
      store.Record(c, now, OpenedUnderStop);
      return;
    }
    if Taxonomies.NeedsVerification(signal) {
      store.Record(c, now, VerifyFirst);
      var settled := Verify(store, c, verdict, now);
      if settled {
        return;
      }
    }
    DiagnoseAndWork(p, tx, store, c, known, signal, now);
  }

  /** The webhook: case and event are on file first, and only then is the failure worked. */
  method ReceiveWebhook(
    p: Policy, tx: Taxonomies.Taxonomy, store: Store, event: Option<EventId>, signal: FailureSignal,
    now: Instant, newId: CaseId) returns (c: CaseId)
    requires if signal.paymentId in store.filed then store.filed[signal.paymentId] in store.cases
             else newId !in store.cases
    modifies store
    ensures store.View() == WebhookHandled(p, tx, old(store.View()), event, signal, now, newId)
  {
    if event.Some? {
      var seen := store.EventSeen(event.value);
      if seen.Some? {
        return seen.value;
      }
    }
    var created;
    c, created := store.OpenCaseOrGet(signal, newId);
    if event.Some? {
      store.MarkEvent(event.value, c);
    }
    c := HandleFailure(p, tx, store, signal, NoVerifier, now, newId);
  }

  method HandleReply(p: Policy, store: Store, c: CaseId, known: Case, parsed: Replies.ParsedReply, now: Instant)
    returns (out: Option<Replies.ReplyOutcome>)
    modifies store
    ensures store.View() == ReplyHandled(p, old(store.View()), c, known, parsed, now)
    ensures out == if CaseSuppressed(old(store.View()), c, known.customer) then None
                   else Some(Replies.Decision(p, parsed, DateOf(now), None))
  {
    var standing := store.ContactSuppression(Some(c), Some(known.customer));
    if standing.Some? {
      store.Record(c, now, ReplyNotActedOn);
      return None;
    }
    var o := Replies.Decide(p, parsed, DateOf(now), None);
    out := Some(o);
    store.Record(c, now, ReplyRead(o.rules));
    if o.stopCode.Some? {
      var n := ApplyStop(store, o.stopCode.value, c, known.customer, now);
      if o.needsHuman && RuleOf(o.stopCode.value).terminal.None? {
        store.SetState(c, HeldForHuman);
        store.Record(c, now, HeldAsWellAsStopped);
      }
      return;
    }
    if o.needsHuman {
      var n := store.CancelPending(OnCase(c), HeldForPerson, Some(now));
      store.SetState(c, HeldForHuman);
      store.Record(c, now, HeldByReply(n));
      return;
    }
    if o.realignTo.Some? {
      Realign(p, store, c, known, o.realignTo.value, now);
    }
  }

  method Realign(p: Policy, store: Store, c: CaseId, known: Case, day: Date, now: Instant)
    modifies store
    ensures store.View() == Agent.RealignedTo(p, old(store.View()), c, known, day, now)
  {
    var n := store.CancelPending(OnCase(c), Tables.RealignedTo, Some(now));
    var signal := if c in store.signals then Some(store.signals[c]) else None;
    var permitted := AmountPermitted(p, store, c, signal, now);
    if !permitted {
      store.SuspendNudgesUntil(c, Some(day));
      return;
    }
    var rail := RailOf(signal.value.methodName);
    var accepted := ArmRetry(p, store, c, known, At(day, p.contactOpen), rail, now);
    store.SuspendNudgesUntil(c, Some(day));
    if !accepted {
      var latest := store.LatestDiagnosis(c);
      var current := if c in store.cases then store.cases[c] else known;
      EscalateAfterCap(p, store, c, current, if latest.Some? then Some(latest.value.klass) else None, now);
    }
  }

  method ResumeAfterReview(p: Policy, store: Store, c: CaseId, known: Case, now: Instant)
    modifies store
    ensures store.View() == ReviewResumed(p, old(store.View()), c, known, now)
  {
    var signal := if c in store.signals then Some(store.signals[c]) else None;
    var permitted := AmountPermitted(p, store, c, signal, now);
    if !permitted {
      return;
    }
    var accepted := ArmRetry(p, store, c, known, now, RailOf(signal.value.methodName), now);
    if !accepted {
      var latest := store.LatestDiagnosis(c);
      EscalateAfterCap(p, store, c, known, if latest.Some? then Some(latest.value.klass) else None, now);
    }
  }

  method MarkRecovered(store: Store, c: CaseId, now: Instant) returns (cancelled: nat)
    modifies store
    ensures store.View() == MarkedRecovered(old(store.View()), c, now)
    ensures cancelled == Count(old(store.rows), LiveIn(OnCase(c)))
  {
    cancelled := store.CancelPending(OnCase(c), PaidByLink, Some(now));
    store.SetState(c, Recovered);
    store.Record(c, now, PaidViaLink(cancelled));
  }
}
