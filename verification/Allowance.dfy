/**
 * The retry allowance. A case has at most one live retry, the attempts already counted and the one
 * still to come never pass the cap, and the counter is exactly the attempts that came back.
 */
module Allowance {
  import opened Sequences
  import opened Models
  import opened Policies
  import opened Stops
  import opened Tables
  import opened Agent
  import opened Effects
  import opened Runs
  import opened Histories
  import Ladder
  import Limits
  import Replies
  import Runner
  import Scheduler
  import Taxonomies

  function LiveRetry(c: CaseId): Row -> bool {
    row => Live(row) && row.kind == Retry && row.caseId == c
  }

  function LiveRetries(rows: seq<Row>, c: CaseId): nat {
    Count(rows, LiveRetry(c))
  }

  /** A debit attempt on record: an execution that was not put off. */
  function AttemptOn(c: CaseId): Entry -> bool {
    (e: Entry) => e.caseId == c && e.decided.Executed? && e.decided.kind == Retry && !e.decided.state.Pending?
  }

  function Attempts(audit: seq<Entry>, c: CaseId): nat {
    Count(audit, AttemptOn(c))
  }

  predicate WithinAllowance(p: Policy, s: Db, c: CaseId)
    requires c in s.cases
  {
    && LiveRetries(s.rows, c) <= 1
    && s.cases[c].retryCount + LiveRetries(s.rows, c) <= p.retryCap
    && s.cases[c].retryCount == Attempts(s.audit, c)
  }

  predicate Kept(p: Policy, s: Db) {
    forall c :: c in s.cases ==> WithinAllowance(p, s, c)
  }

  // -- counting retries through an effect ----------------------------------------

  function IsRetry(): Row -> bool {
    (row: Row) => row.kind == Retry
  }

  /** How many retry rows a step added. */
  function NewRetries(a: seq<Row>, b: seq<Row>): nat
    requires |a| <= |b|
  {
    Count(b[|a|..], IsRetry())
  }

  lemma NewRetriesAdd(a: seq<Row>, b: seq<Row>, c: seq<Row>)
    requires |a| <= |b| <= |c|
    requires forall i :: 0 <= i < |b| ==> c[i].kind == b[i].kind
    ensures NewRetries(a, c) == NewRetries(a, b) + NewRetries(b, c)
  {
    var middle := c[|a|..|b|];
    assert c[|a|..] == middle + c[|b|..];
    CountConcat(middle, c[|b|..], IsRetry());
    var was := b[|a|..];
    assert forall i :: 0 <= i < |was| ==> was[i] == b[|a| + i] && middle[i] == c[|a| + i];
    CountMonotone(was, middle, IsRetry(), IsRetry());
    CountMonotone(middle, was, IsRetry(), IsRetry());
  }

  /** Only the step's own case can gain a live retry, and only as many as it added. */
  lemma GrowthBoundsLive(
    p: Policy, a: seq<Row>, b: seq<Row>, who: Actor, d: CaseId)
    requires RowsGrow(p, a, b, who.c, who.customer, who.checked, who.now)
    ensures LiveRetries(b, d) <= LiveRetries(a, d) + (if d == who.c then NewRetries(a, b) else 0)
  {
    hide LegalDebit, Count;
    var old_, added := b[..|a|], b[|a|..];
    assert b == old_ + added;
    CountConcat(old_, added, LiveRetry(d));
    assert forall i :: 0 <= i < |a| ==> SameButCancelled(a[i], old_[i]);
    CountMonotone(old_, a, LiveRetry(d), LiveRetry(d));
    forall i | 0 <= i < |added|
      ensures added[i] == b[|a| + i] && added[i].caseId == who.c
    {
      assert NewFor(p, b[|a| + i], who.c, who.customer, who.checked, who.now);
    }
    if d == who.c {
      CountMonotone(added, added, LiveRetry(d), IsRetry());
    } else {
      CountZero(added, LiveRetry(d));
    }
  }

  /** An addition leaves the rows it found and adds pending ones for its own case. */
  lemma AdditionExtends(p: Policy, s: Db, r: Db, who: Actor)
    requires Adds(p, s, r, who)
    ensures |s.rows| <= |r.rows| && r.rows[..|s.rows|] == s.rows
    ensures forall i :: |s.rows| <= i < |r.rows| ==> r.rows[i].caseId == who.c && r.rows[i].state.Pending?
  {
    hide LegalDebit, AuditGrows, CasesKept;
    assert RowsGrow(p, s.rows, r.rows, who.c, who.customer, who.checked, who.now);
    forall i | |s.rows| <= i < |r.rows|
      ensures r.rows[i].caseId == who.c && r.rows[i].state.Pending?
    {
      assert NewFor(p, r.rows[i], who.c, who.customer, who.checked, who.now);
    }
  }

  lemma ExtensionCountsLive(a: seq<Row>, b: seq<Row>, c: CaseId)
    requires |a| <= |b| && b[..|a|] == a
    requires forall i :: |a| <= i < |b| ==> b[i].caseId == c && b[i].state.Pending?
    ensures LiveRetries(b, c) == LiveRetries(a, c) + NewRetries(a, b)
  {
    var added := b[|a|..];
    assert b == a + added;
    CountConcat(a, added, LiveRetry(c));
    assert forall i :: 0 <= i < |added| ==> added[i] == b[|a| + i];
    CountMonotone(added, added, LiveRetry(c), IsRetry());
    CountMonotone(added, added, IsRetry(), LiveRetry(c));
  }

  /** When nothing is cancelled the count is exact. */
  lemma AdditionCountsLive(p: Policy, s: Db, r: Db, who: Actor)
    requires Adds(p, s, r, who)
    ensures |s.rows| <= |r.rows|
    ensures LiveRetries(r.rows, who.c) == LiveRetries(s.rows, who.c) + NewRetries(s.rows, r.rows)
  {
    hide Adds, LiveRetries, NewRetries;
    AdditionExtends(p, s, r, who);
    ExtensionCountsLive(s.rows, r.rows, who.c);
  }

  /** Records that are not executions are not attempts. */
  lemma EffectAttemptsNothing(p: Policy, s: Db, r: Db, who: Actor, d: CaseId)
    requires Effect(p, s, r, who)
    ensures Attempts(r.audit, d) == Attempts(s.audit, d)
  {
    var added := r.audit[|s.audit|..];
    assert r.audit[..|s.audit|] == s.audit;
    assert r.audit == s.audit + added;
    CountConcat(s.audit, added, AttemptOn(d));
    forall i | 0 <= i < |added|
      ensures !AttemptOn(d)(added[i])
    {
      assert added[i] == r.audit[|s.audit| + i];
    }
    CountZero(added, AttemptOn(d));
  }

  /**
   * An effect keeps the allowance whenever it adds no retry, or adds one where none is live and
   * the cap has room.
   */
  lemma EffectKeepsAllowance(p: Policy, s: Db, r: Db, who: Actor)
    requires Kept(p, s) && Effect(p, s, r, who) && who.c in s.cases
    requires NewRetries(s.rows, r.rows) <= 1
    requires NewRetries(s.rows, r.rows) == 1 ==>
               LiveRetries(r.rows, who.c) <= 1 && s.cases[who.c].retryCount < p.retryCap
    ensures Kept(p, r)
  {
    forall c | c in r.cases
      ensures WithinAllowance(p, r, c)
    {
      assert c in s.cases && WithinAllowance(p, s, c);
      GrowthBoundsLive(p, s.rows, r.rows, who, c);
      EffectAttemptsNothing(p, s, r, who, c);
    }
  }

  // -- how many retries each entry point queues ------------------------------------

  lemma OneMore(rows: seq<Row>, row: Row)
    ensures NewRetries(rows, rows) == 0
    ensures NewRetries(rows, rows + [row]) == if row.kind == Retry then 1 else 0
  {
    assert rows[|rows|..] == [];
    assert (rows + [row])[|rows|..] == [row];
    assert [row][..0] == [];
  }

  lemma ArmedRetries(p: Policy, s: Db, c: CaseId, known: Case, requested: Instant, rail: Rail, now: Instant)
    ensures var r := RetryArmed(p, s, c, known, requested, rail, now);
            && |s.rows| <= |r.rows|
            && NewRetries(s.rows, r.rows) == if CapSpent(p, known) then 0 else 1
  {
    hide Scheduler.Placed;
    var d := Scheduler.RetryDecision(p, requested, known.retryCount, Some(now), rail);
    OneMore(s.rows, NewRow(c, known.customer, Retry, d.scheduledFor, now, None));
  }

  lemma EscalationRetries(p: Policy, s: Db, c: CaseId, known: Case, klass: Option<DiagnosisClass>, now: Instant)
    ensures var r := EscalatedBeyondCap(p, s, c, known, klass, now);
            && |s.rows| <= |r.rows|
            && (forall i :: 0 <= i < |s.rows| ==> r.rows[i] == s.rows[i])
            && NewRetries(s.rows, r.rows) == 0
  {
    hide Climb, Ladder.Worthwhile, NewRetries, ExhaustedSent;
    var (found, skipped) := Climb(AboveEntry(klass), Runner.EXECUTORS);
    OneMore(s.rows, NewRow(c, known.customer, Step(found.GetOr(Nudge)), Some(now), now, Some(Exhausted)));
  }

  /** A retry asked for, and the ladder behind it when the cap refuses. */
  lemma ArmedThenEscalated(
    p: Policy, s: Db, m: Db, r: Db, c: CaseId, known: Case, read: Case, requested: Instant, rail: Rail,
    klass: Option<DiagnosisClass>, now: Instant)
    requires var armed := RetryArmed(p, s, c, known, requested, rail, now); m.rows == armed.rows
    requires r == if CapSpent(p, known) then EscalatedBeyondCap(p, m, c, read, klass, now) else m
    ensures |s.rows| <= |r.rows| && NewRetries(s.rows, r.rows) == if CapSpent(p, known) then 0 else 1
  {
    hide RetryArmed, EscalatedBeyondCap, NewRetries;
    ArmedRetries(p, s, c, known, requested, rail, now);
    EscalationRetries(p, m, c, read, klass, now);
    NewRetriesAdd(s.rows, m.rows, r.rows);
    OneMore(m.rows, NewRow(c, known.customer, Retry, None, now, None));
  }

  lemma ReviewRetries(p: Policy, s: Db, c: CaseId, known: Case, now: Instant)
    ensures var r := ReviewResumed(p, s, c, known, now);
            && |s.rows| <= |r.rows|
            && NewRetries(s.rows, r.rows)
               == (if AmountOk(p, SignalOf(s, c)) && !CapSpent(p, known) then 1 else 0)
  {
    hide RetryArmed, EscalatedBeyondCap, Limits.MayDebit, NewRetries;
    var r, signal := ReviewResumed(p, s, c, known, now), SignalOf(s, c);
    if AmountOk(p, signal) {
      var rail := RailOf(signal.value.methodName);
      var armed := RetryArmed(p, s, c, known, now, rail, now);
      var latest := LatestIn(armed.diagnoses, c);
      var klass := if latest.Some? then Some(latest.value.klass) else None;
      ArmedThenEscalated(p, s, armed, r, c, known, known, now, rail, klass, now);
    } else {
      OneMore(s.rows, NewRow(c, known.customer, Retry, None, now, None));
    }
  }

  lemma RealignRetries(p: Policy, s: Db, c: CaseId, known: Case, day: Date, now: Instant)
    ensures var r := Agent.RealignedTo(p, s, c, known, day, now);
            && |s.rows| <= |r.rows|
            && NewRetries(s.rows, r.rows)
               == (if AmountOk(p, SignalOf(s, c)) && !CapSpent(p, known) then 1 else 0)
  {
    hide RetryArmed, EscalatedBeyondCap, Limits.MayDebit, NewRetries;
    var r, signal := Agent.RealignedTo(p, s, c, known, day, now), SignalOf(s, c);
    var cleared := Cancels(s, OnCase(c), Tables.RealignedTo, Some(now));
    var none := NewRow(c, known.customer, Retry, None, now, None);
    SameLength(s.rows, cleared.rows);
    if AmountOk(p, signal) {
      var rail := RailOf(signal.value.methodName);
      var armed := RetryArmed(p, cleared, c, known, At(day, p.contactOpen), rail, now);
      var quieted := Suspended(armed, c, Some(day));
      var latest := LatestIn(quieted.diagnoses, c);
      var klass := if latest.Some? then Some(latest.value.klass) else None;
      var read := if c in quieted.cases then quieted.cases[c] else known;
      ArmedThenEscalated(p, cleared, quieted, r, c, known, read, At(day, p.contactOpen), rail, klass, now);
      SameTail(s.rows, cleared.rows, r.rows);
    }
  }

  lemma SameLength(a: seq<Row>, b: seq<Row>)
    requires |a| == |b|
    ensures NewRetries(a, b) == 0
  {
    assert b[|a|..] == [];
  }

  lemma SameTail(a: seq<Row>, b: seq<Row>, r: seq<Row>)
    requires |a| == |b| <= |r|
    ensures NewRetries(a, r) == NewRetries(b, r)
  {
  }

  /** A reply moves the debit when no standing stop bars it and its promise is clear. */
  predicate Realigns(p: Policy, s: Db, m: Move)
    requires m.Reply?
  {
    !CaseSuppressed(s, m.c, m.known.customer) && Replies.Decision(p, m.parsed, DateOf(m.now), None).realignTo.Some?
  }

  lemma StopQueuesNothing(s: Db, code: StopCode, c: CaseId, customer: CustomerRef, now: Instant)
    ensures var r := StopApplied(s, code, c, customer, now);
            |r.rows| == |s.rows| && NewRetries(s.rows, r.rows) == 0
  {
    SameLength(s.rows, StopApplied(s, code, c, customer, now).rows);
  }

  lemma ReplyRetries(p: Policy, s: Db, m: Move)
    requires m.Reply?
    ensures var r := ReplyHandled(p, s, m.c, m.known, m.parsed, m.now);
            && |s.rows| <= |r.rows|
            && NewRetries(s.rows, r.rows)
               == (if Realigns(p, s, m) && AmountOk(p, SignalOf(s, m.c)) && !CapSpent(p, m.known) then 1 else 0)
  {
    hide Agent.RealignedTo, Replies.Decision, NewRetries, Limits.MayDebit, StopApplied;
    var r := ReplyHandled(p, s, m.c, m.known, m.parsed, m.now);
    var out := Replies.Decision(p, m.parsed, DateOf(m.now), None);
    var read := Recorded(s, m.c, m.now, ReplyRead(out.rules));
    Replies.NoReplyIsDropped(p, m.parsed, DateOf(m.now), None);
    if !CaseSuppressed(s, m.c, m.known.customer) {
      if out.stopCode.Some? {
        StopQueuesNothing(read, out.stopCode.value, m.c, m.known.customer, m.now);
      } else if out.realignTo.Some? {
        RealignRetries(p, read, m.c, m.known, out.realignTo.value, m.now);
        assert SignalOf(read, m.c) == SignalOf(s, m.c);
      }
    }
    if |r.rows| == |s.rows| {
      SameLength(s.rows, r.rows);
    }
  }

  // -- a failure ---------------------------------------------------------------

  /** The classes and amounts that end with a debit queued. */
  predicate ArmsOnLadder(p: Policy, known: Case, klass: DiagnosisClass, signal: FailureSignal) {
    var rung := Ladder.Entry(klass);
    && rung.Some?
    && Ladder.Worthwhile(p, rung.value, known.amountPaise)
    && (rung.value == SilentRetry || klass == RecoverableBalance)
    && AmountOk(p, Some(signal))
    && !CapSpent(p, known)
  }

  lemma FallbackRetries(
    p: Policy, s: Db, c: CaseId, known: Case, klass: DiagnosisClass, signal: FailureSignal, now: Instant)
    ensures var r := BalanceFallback(p, s, c, known, klass, signal, now);
            && |s.rows| <= |r.rows|
            && (forall i :: 0 <= i < |s.rows| ==> r.rows[i] == s.rows[i])
            && NewRetries(s.rows, r.rows)
               == (if AmountOk(p, Some(signal)) && !CapSpent(p, known) then 1 else 0)
  {
    hide Scheduler.Placed, Limits.MayDebit, NewRetries;
    var at := now + p.replyGrace + Scheduler.BackoffFor(p, Some(klass), known.retryCount);
    var d := Scheduler.RetryDecision(p, at, known.retryCount, Some(now), RailOf(signal.methodName));
    OneMore(s.rows, NewRow(c, known.customer, Retry, d.scheduledFor, now, None));
  }

  lemma FirstRetryRetries(
    p: Policy, s: Db, c: CaseId, known: Case, klass: DiagnosisClass, signal: FailureSignal, now: Instant)
    ensures var r := FirstRetryArmed(p, s, c, known, klass, signal, now);
            && |s.rows| <= |r.rows|
            && NewRetries(s.rows, r.rows)
               == (if AmountOk(p, Some(signal)) && !CapSpent(p, known) then 1 else 0)
  {
    hide RetryArmed, EscalatedBeyondCap, Limits.MayDebit, NewRetries, Scheduler.BackoffFor;
    var r := FirstRetryArmed(p, s, c, known, klass, signal, now);
    if AmountOk(p, Some(signal)) {
      var at := now + Scheduler.BackoffFor(p, Some(klass), known.retryCount);
      var rail := RailOf(signal.methodName);
      var armed := RetryArmed(p, s, c, known, at, rail, now);
      ArmedThenEscalated(p, s, armed, r, c, known, known, at, rail, Some(klass), now);
    } else {
      SameLength(s.rows, r.rows);
    }
  }

  /** A contact is no retry, but for an empty account the fallback behind it is. */
  lemma ContactRetries(
    p: Policy, s: Db, c: CaseId, known: Case, klass: DiagnosisClass, signal: FailureSignal, contact: Row,
    now: Instant)
    requires contact.kind != Retry
    ensures var queued := s.(rows := s.rows + [contact]);
            var r := BalanceFallback(p, queued, c, known, klass, signal, now);
            && NewRetries(s.rows, queued.rows) == 0
            && |s.rows| <= |r.rows|
            && NewRetries(s.rows, r.rows)
               == (if AmountOk(p, Some(signal)) && !CapSpent(p, known) then 1 else 0)
  {
    hide BalanceFallback, Limits.MayDebit, NewRetries;
    var queued := s.(rows := s.rows + [contact]);
    OneMore(s.rows, contact);
    FallbackRetries(p, queued, c, known, klass, signal, now);
    NewRetriesAdd(s.rows, queued.rows, BalanceFallback(p, queued, c, known, klass, signal, now).rows);
  }

  lemma LadderRetries(
    p: Policy, s: Db, c: CaseId, known: Case, klass: DiagnosisClass, signal: FailureSignal, now: Instant)
    ensures var r := LadderEntered(p, s, c, known, klass, signal, now);
            && |s.rows| <= |r.rows|
            && NewRetries(s.rows, r.rows) == (if ArmsOnLadder(p, known, klass, signal) then 1 else 0)
  {
    hide FirstRetryArmed, BalanceFallback, Limits.MayDebit, NewRetries, Ladder.Worthwhile, CancelRows, CapSpent;
    var r, rung := LadderEntered(p, s, c, known, klass, signal, now), Ladder.Entry(klass);
    if rung.Some? && Ladder.Worthwhile(p, rung.value, known.amountPaise) {
      var entered := Recorded(s, c, now, EnteredAt(rung.value));
      if rung.value == SilentRetry {
        FirstRetryRetries(p, entered, c, known, klass, signal, now);
      } else {
        var variant := if klass == RecoverableBalance then Some(AskDate) else None;
        var contact := NewRow(c, known.customer, Step(rung.value), Some(now), now, variant);
        ContactRetries(p, entered, c, known, klass, signal, contact, now);
      }
    } else {
      CancellingKeepsLength(s.rows, OnCase(c), UneconomicRung, Some(now));
      SameLength(s.rows, r.rows);
    }
  }

  /** What a first working of a failure queues a debit on: no stop, no doubt, authority and a ladder. */
  predicate ArmsFirst(env: Env, s: Db, c: CaseId, known: Case, signal: FailureSignal, verdict: Verdict) {
    var d := Taxonomies.Diagnose(env.tx, signal);
    && !CaseSuppressed(s, c, known.customer)
    && (Taxonomies.NeedsVerification(signal) ==> verdict == Unpaid)
    && d.confidence >= env.p.sampledQa
    && ArmsOnLadder(env.p, known, d.klass, signal)
  }

  lemma DiagnosedRetries(env: Env, s: Db, c: CaseId, known: Case, signal: FailureSignal, now: Instant)
    ensures var r := DiagnosedAndWorked(env.p, env.tx, s, c, known, signal, now);
            var d := Taxonomies.Diagnose(env.tx, signal);
            && |s.rows| <= |r.rows|
            && NewRetries(s.rows, r.rows)
               == (if d.confidence >= env.p.sampledQa && ArmsOnLadder(env.p, known, d.klass, signal)
                   then 1 else 0)
  {
    hide LadderEntered, ArmsOnLadder, Taxonomies.AuthorityOf, Taxonomies.Diagnose, NewRetries;
    var r := DiagnosedAndWorked(env.p, env.tx, s, c, known, signal, now);
    var d := Taxonomies.Diagnose(env.tx, signal);
    var authority := Taxonomies.AuthorityOf(env.p, d);
    Taxonomies.AuthorityByScore(env.p, d);
    var filed := Recorded(DiagnosisFiled(s, c, d), c, now, Diagnosed(d.klass, authority));
    if authority == HoldForHuman {
      SameLength(s.rows, r.rows);
    } else {
      LadderRetries(env.p, filed, c, known, d.klass, signal, now);
    }
  }

  lemma FirstWorkedRetries(
    env: Env, s: Db, c: CaseId, known: Case, signal: FailureSignal, verdict: Verdict, now: Instant)
    ensures var r := FirstWorked(env.p, env.tx, s, c, known, signal, verdict, now);
            && |s.rows| <= |r.rows|
            && NewRetries(s.rows, r.rows) == (if ArmsFirst(env, s, c, known, signal, verdict) then 1 else 0)
  {
    hide DiagnosedAndWorked, ArmsOnLadder, Taxonomies.AuthorityOf, Taxonomies.Diagnose, NewRetries,
      Taxonomies.NeedsVerification;
    var r := FirstWorked(env.p, env.tx, s, c, known, signal, verdict, now);
    if !CaseSuppressed(s, c, known.customer) {
      DiagnosedRetries(env, s, c, known, signal, now);
      var confirmed := Recorded(Recorded(s, c, now, VerifyFirst), c, now, ConfirmedUnpaid);
      DiagnosedRetries(env, confirmed, c, known, signal, now);
    }
    if |r.rows| == |s.rows| {
      SameLength(s.rows, r.rows);
    }
  }

  /** Whether handling a failure queues a debit, decided before it is handled. */
  predicate ArmsOnFailure(env: Env, s: Db, m: Move)
    requires m.Webhook? || m.Failure?
  {
    var e, c := Entering(s, m), CaseFor(s, m.signal, m.newId);
    && !Duplicate(s, m)
    && LatestIn(e.diagnoses, c).None?
    && c in e.cases
    && ArmsFirst(env, e, c, e.cases[c], m.signal, if m.Webhook? then NoVerifier else m.verdict)
  }

  lemma FailureRetries(env: Env, s: Db, m: Move)
    requires Consistent(s) && Enabled(s, m) && (m.Webhook? || m.Failure?)
    ensures var r := Apply(env, s, m);
            && |s.rows| <= |r.rows|
            && NewRetries(s.rows, r.rows) == (if ArmsOnFailure(env, s, m) then 1 else 0)
  {
    hide FirstWorked, ArmsFirst, NewRetries;
    var r := Apply(env, s, m);
    EnteringKeepsConsistent(s, m);
    var e, c := Entering(s, m), CaseFor(s, m.signal, m.newId);
    if !Duplicate(s, m) {
      var verdict := if m.Webhook? then NoVerifier else m.verdict;
      assert r == FailureHandled(env.p, env.tx, e, m.signal, verdict, m.now, m.newId);
      var ingested := Recorded(e, c, m.now, Ingested(LatestIn(e.diagnoses, c).Some?));
      FirstWorkedRetries(env, ingested, c, e.cases[c], m.signal, verdict, m.now);
      SameArming(env, e, ingested, c, e.cases[c], m.signal, verdict);
    }
    if |r.rows| == |s.rows| {
      SameLength(s.rows, r.rows);
    }
  }

  lemma SameArming(env: Env, s: Db, r: Db, c: CaseId, known: Case, signal: FailureSignal, verdict: Verdict)
    requires r.suppressions == s.suppressions
    ensures ArmsFirst(env, r, c, known, signal, verdict) == ArmsFirst(env, s, c, known, signal, verdict)
  {
    hide ArmsOnLadder, Taxonomies.AuthorityOf, Taxonomies.Diagnose;
  }

  // -- row bodies --------------------------------------------------------------

  /** The worker runs a row it still holds, or one cancelled under it, and never resumes later. */
  predicate HeldByRunner(s: Db, m: Move)
    requires m.Dispatch?
  {
    m.id < |s.rows| ==>
      s.rows[m.id].state.Cancelled? || (s.rows[m.id].state.Leased? && s.rows[m.id].worker == Some(m.worker))
  }

  /** An executor's answer settles the row, or names the time it should be tried again. */
  predicate Concludes(response: Runner.Response) {
    response.Returned? ==>
      Runner.Deferred(response.outcome) || !(response.outcome.state.Pending? || response.outcome.state.Leased?)
  }

  lemma UpdateRetries(rows: seq<Row>, id: nat, row: Row, c: CaseId)
    requires id < |rows| && SameRow(rows[id], row)
    ensures LiveRetries(rows[id := row], c) ==
            LiveRetries(rows, c)
            - (if LiveRetry(c)(rows[id]) then 1 else 0) + (if LiveRetry(c)(row) then 1 else 0)
  {
    CountUpdate(rows, id, row, LiveRetry(c));
  }

  lemma RecordAttempts(audit: seq<Entry>, e: Entry, c: CaseId)
    ensures Attempts(audit + [e], c) == Attempts(audit, c) + (if AttemptOn(c)(e) then 1 else 0)
  {
    CountAppend(audit, e, AttemptOn(c));
  }

  function CountOn(s: Db, c: CaseId): nat {
    if c in s.cases then s.cases[c].retryCount else 0
  }

  /**
   * What an executor's answer to a debit needs of its case. Putting the debit off needs a place for
   * it; running it needs an attempt left beside whatever else is live; and an answer that leaves it
   * claimed needs both. An answer that is neither an outcome nor a time is counted, but not as run.
   */
  predicate AnswerHasRoom(p: Policy, s: Db, id: nat, o: Runner.Outcome)
    requires id < |s.rows|
  {
    var c := s.rows[id].caseId;
    var held, live, count := Live(s.rows[id]), LiveRetries(s.rows, c), CountOn(s, c);
    if Runner.Deferred(o) then held || (live == 0 && count < p.retryCap)
    else
      match o.state
      case Pending => false
      case Leased => (held || live == 0) && count + 1 < p.retryCap
      case _ => held || count + live < p.retryCap
  }

  /** What settling a debit does to everything the allowance is made of. */
  lemma SettlingCounts(s: Db, id: nat, o: Runner.Outcome, now: Instant, c: CaseId)
    requires id < |s.rows| && s.rows[id].kind == Retry && c in s.cases
    ensures var r, mine := Runner.Settled(s, id, s.rows[id], o, now), s.rows[id].caseId == c;
            && c in r.cases
            && r.cases[c].retryCount == s.cases[c].retryCount + (if mine && !Runner.Deferred(o) then 1 else 0)
            && Attempts(r.audit, c) == Attempts(s.audit, c) + (if mine && !o.state.Pending? then 1 else 0)
            && LiveRetries(r.rows, c)
               == LiveRetries(s.rows, c)
                  - (if mine && Live(s.rows[id]) then 1 else 0)
                  + (if mine && (o.state.Pending? || o.state.Leased?) then 1 else 0)
  {
    hide LiveRetries, Attempts;
    var row, r := s.rows[id], Runner.Settled(s, id, s.rows[id], o, now);
    var entry := Entry(row.caseId, now, Executed(row.kind, o.state));
    assert r.audit == s.audit + [entry];
    assert r.rows == s.rows[id := r.rows[id]];
    UpdateRetries(s.rows, id, r.rows[id], c);
    RecordAttempts(s.audit, entry, c);
  }

  lemma HeldIsTheLiveOne(p: Policy, s: Db, id: nat)
    requires Kept(p, s) && id < |s.rows| && s.rows[id].caseId in s.cases
    requires s.rows[id].kind == Retry && Live(s.rows[id])
    ensures LiveRetries(s.rows, s.rows[id].caseId) == 1
  {
    var c := s.rows[id].caseId;
    assert WithinAllowance(p, s, c);
    CountZero(s.rows, LiveRetry(c));
  }

  /** Settling a debit keeps the allowance if and only if the answer had room. */
  lemma SettlingIsExact(p: Policy, s: Db, id: nat, o: Runner.Outcome, now: Instant)
    requires Consistent(s) && Kept(p, s) && id < |s.rows| && s.rows[id].kind == Retry
    ensures Kept(p, Runner.Settled(s, id, s.rows[id], o, now)) <==> AnswerHasRoom(p, s, id, o)
  {
    hide Consistent, LiveRetries, Attempts, Runner.Settled, Kept;
    RowIsOwned(s, id);
    var c, r := s.rows[id].caseId, Runner.Settled(s, id, s.rows[id], o, now);
    KeptAt(p, s, c);
    SettlingCounts(s, id, o, now, c);
    if Live(s.rows[id]) {
      HeldIsTheLiveOne(p, s, id);
    }
    assert WithinAllowance(p, r, c) <==> AnswerHasRoom(p, s, id, o);
    SettlingSparesOthers(p, s, id, o, now);
  }

  lemma SettlingSparesOthers(p: Policy, s: Db, id: nat, o: Runner.Outcome, now: Instant)
    requires Kept(p, s) && id < |s.rows| && s.rows[id].kind == Retry && s.rows[id].caseId in s.cases
    ensures var r, c := Runner.Settled(s, id, s.rows[id], o, now), s.rows[id].caseId;
            c in r.cases && (Kept(p, r) <==> WithinAllowance(p, r, c))
  {
    hide LiveRetries, Attempts;
    var r, c := Runner.Settled(s, id, s.rows[id], o, now), s.rows[id].caseId;
    assert r.cases.Keys == s.cases.Keys;
    forall d | d in r.cases && d != c
      ensures WithinAllowance(p, r, d)
    {
      assert WithinAllowance(p, s, d);
      SettlingCounts(s, id, o, now, d);
    }
  }

  /** Settling anything but a debit touches nothing the allowance is made of. */
  lemma SettlingOthersKeeps(p: Policy, s: Db, id: nat, o: Runner.Outcome, now: Instant)
    requires Kept(p, s) && id < |s.rows| && s.rows[id].kind != Retry
    ensures Kept(p, Runner.Settled(s, id, s.rows[id], o, now))
  {
    hide LiveRetries, Attempts;
    var row, r := s.rows[id], Runner.Settled(s, id, s.rows[id], o, now);
    var entry := Entry(row.caseId, now, Executed(row.kind, o.state));
    assert r.audit == s.audit + [entry];
    assert r.rows == s.rows[id := r.rows[id]];
    forall c | c in r.cases
      ensures WithinAllowance(p, r, c)
    {
      assert c in s.cases && WithinAllowance(p, s, c);
      UpdateRetries(s.rows, id, r.rows[id], c);
      RecordAttempts(s.audit, entry, c);
    }
  }

  lemma FinishingKeepsAllowance(p: Policy, s: Db, id: nat, state: RowState)
    requires Kept(p, s) && (state.Cancelled? || state.NoAdapter? || state.Failed?)
    ensures Kept(p, s.(rows := FinishRow(s.rows, id, state)))
  {
    if id < |s.rows| {
      forall c | c in s.cases
        ensures WithinAllowance(p, s.(rows := FinishRow(s.rows, id, state)), c)
      {
        assert WithinAllowance(p, s, c);
        UpdateRetries(s.rows, id, s.rows[id].(state := state, leasedUntil := None), c);
      }
    }
  }

  /** What a row body needs for the allowance to survive it: nothing, unless it runs a debit. */
  predicate BodyHasRoom(env: Env, s: Db, m: Move)
    requires m.Dispatch?
  {
    CallsDebit(s, m) && m.response.Returned? ==> AnswerHasRoom(env.p, s, m.id, m.response.outcome)
  }

  /** A row body keeps the allowance if and only if it has room, whoever runs it and whenever. */
  lemma BodyIsExact(env: Env, s: Db, m: Move)
    requires Consistent(s) && Kept(env.p, s) && m.Dispatch?
    ensures Kept(env.p, Apply(env, s, m)) <==> BodyHasRoom(env, s, m)
  {
    hide Consistent, Kept, AnswerHasRoom, Calls, Runner.RunRow;
    if CallsDebit(s, m) {
      CalledIsARow(s, m);
      DebitsFollowTheAnswer(env, s, m);
      if m.response.Returned? {
        SettlingIsExact(env.p, s, m.id, m.response.outcome, m.now);
      } else {
        FinishingKeepsAllowance(env.p, s, m.id, Failed);
      }
    } else {
      OtherBodiesKeep(env, s, m);
    }
  }

  lemma CalledIsARow(s: Db, m: Move)
    requires m.Dispatch? && Calls(s, m)
    ensures m.id < |s.rows|
  {
  }

  lemma OtherBodiesKeep(env: Env, s: Db, m: Move)
    requires Kept(env.p, s) && m.Dispatch? && !CallsDebit(s, m)
    ensures Kept(env.p, Apply(env, s, m))
  {
    hide Kept, Runner.NudgeOutcome, Runner.Settled, CaseSuppressed;
    FinishingKeepsAllowance(env.p, s, m.id, Cancelled);
    FinishingKeepsAllowance(env.p, s, m.id, NoAdapter);
    FinishingKeepsAllowance(env.p, s, m.id, Failed);
    if Calls(s, m) {
      var run := Runner.Executes(env.p, s, s.rows[m.id], m.response, m.now);
      if run.Returned? {
        SettlingOthersKeeps(env.p, s, m.id, run.outcome, m.now);
      }
    }
  }

  /** A worker that runs the row it still holds, to an outcome or a later time, always has room. */
  lemma BodyKeepsAllowance(env: Env, s: Db, m: Move)
    requires Consistent(s) && Kept(env.p, s) && m.Dispatch? && HeldByRunner(s, m)
    requires m.id < |s.rows| && s.rows[m.id].kind == Retry ==> Concludes(m.response)
    ensures BodyHasRoom(env, s, m) && Kept(env.p, Apply(env, s, m))
  {
    hide Consistent, Kept, LiveRetries;
    BodyIsExact(env, s, m);
  }

  // -- every move --------------------------------------------------------------

  /** What a caller checks before a move for the allowance to survive it. */
  predicate Careful(env: Env, s: Db, m: Move)
    requires Enabled(s, m)
  {
    match m
    case Webhook(_, _, _, _) => ArmsOnFailure(env, s, m) ==> NoLiveRetry(s, m)
    case Failure(_, _, _, _) => ArmsOnFailure(env, s, m) ==> NoLiveRetry(s, m)
    case Reply(c, known, _, _) =>
      Realigns(env.p, s, m) && AmountOk(env.p, SignalOf(s, c)) && !CapSpent(env.p, known) ==>
        !CapSpent(env.p, s.cases[c])
    case Review(c, known, _) =>
      AmountOk(env.p, SignalOf(s, c)) && !CapSpent(env.p, known) ==>
        LiveRetries(s.rows, c) == 0 && !CapSpent(env.p, s.cases[c])
    case Dispatch(_, _, _, _, _) => BodyHasRoom(env, s, m)
    case _ => true
  }

  predicate NoLiveRetry(s: Db, m: Move)
    requires m.Webhook? || m.Failure?
  {
    LiveRetries(s.rows, CaseFor(s, m.signal, m.newId)) == 0
  }

  lemma ReviewIsExact(env: Env, s: Db, m: Move)
    requires Consistent(s) && Kept(env.p, s) && m.Review? && Enabled(s, m)
    ensures Kept(env.p, Apply(env, s, m)) <==> Careful(env, s, m)
  {
    hide Consistent, Effect, Adds, ReviewResumed, Kept;
    var r, who := Apply(env, s, m), ActorOf(s, m);
    ReviewAdds(env.p, s, m.known, who);
    AddsIsEffect(env.p, s, r, who);
    ReviewRetries(env.p, s, m.c, m.known, m.now);
    AdditionCountsLive(env.p, s, r, who);
    KeptAt(env.p, s, m.c);
    SameCounter(env.p, s, r, who);
    if Careful(env, s, m) {
      EffectKeepsAllowance(env.p, s, r, who);
    } else if Kept(env.p, r) {
      KeptAt(env.p, r, m.c);
    }
  }

  lemma KeptAt(p: Policy, s: Db, c: CaseId)
    requires Kept(p, s) && c in s.cases
    ensures WithinAllowance(p, s, c)
  {
  }

  lemma SameCounter(p: Policy, s: Db, r: Db, who: Actor)
    requires Effect(p, s, r, who) && who.c in s.cases
    ensures who.c in r.cases && r.cases[who.c].retryCount == s.cases[who.c].retryCount
    ensures |s.rows| <= |r.rows|
  {
  }

  lemma NoneLeftLive(rows: seq<Row>, c: CaseId, reason: CancelReason, now: Option<Instant>)
    ensures LiveRetries(CancelRows(rows, OnCase(c), reason, now), c) == 0
  {
    CountZero(CancelRows(rows, OnCase(c), reason, now), LiveRetry(c));
  }

  /** A realigned case keeps exactly the retries its realignment queued. */
  lemma RealignedLive(p: Policy, s: Db, c: CaseId, known: Case, day: Date, now: Instant)
    requires ReadOf(s, c, known)
    ensures var r := Agent.RealignedTo(p, s, c, known, day, now);
            && |s.rows| <= |r.rows|
            && LiveRetries(r.rows, c) == NewRetries(s.rows, r.rows)
  {
    hide Effect, Adds, Agent.RealignedTo, LiveRetries, NewRetries;
    var who := Actor(c, known.customer, SignalOf(s, c), now);
    var r := Agent.RealignedTo(p, s, c, known, day, now);
    var cleared := Cancels(s, OnCase(c), Tables.RealignedTo, Some(now));
    RealignEffect(p, s, known, day, who);
    RealignRetries(p, s, c, known, day, now);
    NoneLeftLive(s.rows, c, Tables.RealignedTo, Some(now));
    AdditionCountsLive(p, cleared, r, who);
    SameTail(s.rows, cleared.rows, r.rows);
  }

  lemma ReplyLive(env: Env, s: Db, m: Move)
    requires m.Reply? && Enabled(s, m) && Realigns(env.p, s, m)
    ensures var r := Apply(env, s, m);
            |s.rows| <= |r.rows| && LiveRetries(r.rows, m.c) == NewRetries(s.rows, r.rows)
  {
    hide Agent.RealignedTo, Replies.Decision, LiveRetries, NewRetries;
    Replies.NoReplyIsDropped(env.p, m.parsed, DateOf(m.now), None);
    var out := Replies.Decision(env.p, m.parsed, DateOf(m.now), None);
    var read := Recorded(s, m.c, m.now, ReplyRead(out.rules));
    RealignedLive(env.p, read, m.c, m.known, out.realignTo.value, m.now);
  }

  lemma ReplyIsExact(env: Env, s: Db, m: Move)
    requires Consistent(s) && Kept(env.p, s) && m.Reply? && Enabled(s, m)
    ensures Kept(env.p, Apply(env, s, m)) <==> Careful(env, s, m)
  {
    hide Consistent, Effect, Adds, ReplyHandled, Kept, LiveRetries, NewRetries, Realigns, Limits.MayDebit;
    var r, who := Apply(env, s, m), ActorOf(s, m);
    ReplyEffect(env.p, s, m.known, m.parsed, who);
    ReplyRetries(env.p, s, m);
    SameCounter(env.p, s, r, who);
    if Realigns(env.p, s, m) {
      ReplyLive(env, s, m);
    }
    if Careful(env, s, m) {
      EffectKeepsAllowance(env.p, s, r, who);
    } else if Kept(env.p, r) {
      KeptAt(env.p, r, m.c);
    }
  }

  lemma EnteringKeepsAllowance(env: Env, s: Db, m: Move)
    requires Consistent(s) && Kept(env.p, s) && (m.Webhook? || m.Failure?) && Enabled(s, m)
    ensures Kept(env.p, Entering(s, m))
  {
    var e, c := Entering(s, m), CaseFor(s, m.signal, m.newId);
    EnteringKeepsConsistent(s, m);
    assert (e.rows, e.audit) == (s.rows, s.audit);
    forall d | d in e.cases
      ensures WithinAllowance(env.p, e, d)
    {
      if d in s.cases {
        assert WithinAllowance(env.p, s, d);
      } else {
        NothingYet(s, d);
        assert e.cases[d].retryCount == 0;
      }
    }
  }

  /** A case not on file has no rows and no attempts. */
  lemma NothingYet(s: Db, d: CaseId)
    requires Consistent(s) && d !in s.cases
    ensures LiveRetries(s.rows, d) == 0 && Attempts(s.audit, d) == 0
  {
    CountZero(s.rows, LiveRetry(d));
    CountZero(s.audit, AttemptOn(d));
  }

  lemma FailureLive(p: Policy, e: Db, r: Db, who: Actor)
    requires Effect(p, e, r, who) && LiveRetries(e.rows, who.c) == 0 && NewRetries(e.rows, r.rows) <= 1
    ensures LiveRetries(r.rows, who.c) <= 1
  {
    GrowthBoundsLive(p, e.rows, r.rows, who, who.c);
  }

  lemma FailureKeepsAllowance(env: Env, s: Db, m: Move)
    requires Consistent(s) && Kept(env.p, s) && (m.Webhook? || m.Failure?)
    requires Enabled(s, m) && Careful(env, s, m)
    ensures Kept(env.p, Apply(env, s, m))
  {
    if !Duplicate(s, m) {
      hide Consistent, Effect, Kept, LiveRetries, NewRetries, Entering, ArmsOnFailure, FailureHandled, WebhookHandled;
      var e, r, who := Entering(s, m), Apply(env, s, m), FailureActor(s, m);
      FailureEffect(env, s, m);
      EnteringKeepsConsistent(s, m);
      EnteringKeepsAllowance(env, s, m);
      FailureRetries(env, s, m);
      SameTail(s.rows, e.rows, r.rows);
      if ArmsOnFailure(env, s, m) {
        FailureLive(env.p, e, r, who);
        ArmingHasRoom(env, s, m);
      }
      EffectKeepsAllowance(env.p, e, r, who);
    }
  }

  /** A first working that queues a debit cancels nothing, so it adds to whatever was live. */
  lemma ArmingCountsLive(
    env: Env, s: Db, known: Case, signal: FailureSignal, verdict: Verdict, who: Actor)
    requires known.customer == who.customer && who.checked == Some(signal)
    requires ArmsFirst(env, s, who.c, known, signal, verdict)
    ensures var r := FirstWorked(env.p, env.tx, s, who.c, known, signal, verdict, who.now);
            |s.rows| <= |r.rows| && LiveRetries(r.rows, who.c) == LiveRetries(s.rows, who.c) + 1
  {
    hide Adds, LadderEntered, Taxonomies.AuthorityOf, Taxonomies.Diagnose, Taxonomies.NeedsVerification,
      LiveRetries, NewRetries, Limits.MayDebit, Ladder.Worthwhile;
    var d := Taxonomies.Diagnose(env.tx, signal);
    Taxonomies.AuthorityByScore(env.p, d);
    var asked := if Taxonomies.NeedsVerification(signal)
                 then Recorded(Recorded(s, who.c, who.now, VerifyFirst), who.c, who.now, ConfirmedUnpaid) else s;
    var filed := Recorded(
      DiagnosisFiled(asked, who.c, d), who.c, who.now, Diagnosed(d.klass, Taxonomies.AuthorityOf(env.p, d)));
    var r := LadderEntered(env.p, filed, who.c, known, d.klass, signal, who.now);
    assert r == FirstWorked(env.p, env.tx, s, who.c, known, signal, verdict, who.now);
    LadderAdds(env.p, filed, known, d.klass, signal, who);
    LadderRetries(env.p, filed, who.c, known, d.klass, signal, who.now);
    AdditionCountsLive(env.p, filed, r, who);
  }

  lemma ArmedFailureLive(env: Env, s: Db, m: Move)
    requires Consistent(s) && Enabled(s, m) && (m.Webhook? || m.Failure?) && ArmsOnFailure(env, s, m)
    ensures var c := CaseFor(s, m.signal, m.newId);
            LiveRetries(Apply(env, s, m).rows, c) == LiveRetries(s.rows, c) + 1
  {
    hide FirstWorked, ArmsFirst, LiveRetries, Consistent;
    EnteringKeepsConsistent(s, m);
    var e, who := Entering(s, m), FailureActor(s, m);
    var verdict := if m.Webhook? then NoVerifier else m.verdict;
    var ingested := Recorded(e, who.c, m.now, Ingested(false));
    SameArming(env, e, ingested, who.c, e.cases[who.c], m.signal, verdict);
    ArmingCountsLive(env, ingested, e.cases[who.c], m.signal, verdict, who);
    assert Apply(env, s, m) == FailureHandled(env.p, env.tx, e, m.signal, verdict, m.now, m.newId);
  }

  /** A failure keeps the allowance exactly when it queues no debit on top of a live one. */
  lemma FailureIsExact(env: Env, s: Db, m: Move)
    requires Consistent(s) && Kept(env.p, s) && (m.Webhook? || m.Failure?) && Enabled(s, m)
    ensures Kept(env.p, Apply(env, s, m)) <==> Careful(env, s, m)
  {
    hide Consistent, Effect, Kept, LiveRetries, ArmsOnFailure, Apply;
    if Careful(env, s, m) {
      FailureKeepsAllowance(env, s, m);
    } else {
      ArmedFailureLive(env, s, m);
      if Kept(env.p, Apply(env, s, m)) {
        ArmedCaseStays(env, s, m);
        KeptAt(env.p, Apply(env, s, m), CaseFor(s, m.signal, m.newId));
      }
    }
  }

  lemma ArmedCaseStays(env: Env, s: Db, m: Move)
    requires Consistent(s) && Enabled(s, m) && (m.Webhook? || m.Failure?) && ArmsOnFailure(env, s, m)
    ensures CaseFor(s, m.signal, m.newId) in Apply(env, s, m).cases
  {
    hide Consistent, ArmsFirst;
    EnteringKeepsConsistent(s, m);
    FailureEffect(env, s, m);
  }

  lemma ArmingHasRoom(env: Env, s: Db, m: Move)
    requires (m.Webhook? || m.Failure?) && ArmsOnFailure(env, s, m)
    ensures var e, c := Entering(s, m), CaseFor(s, m.signal, m.newId);
            c in e.cases && e.cases[c].retryCount < env.p.retryCap
  {
  }

  /** Rows that keep their case, their kind and their liveness keep every count. */
  lemma SameLiveness(a: seq<Row>, b: seq<Row>, c: CaseId)
    requires |a| == |b| && forall i :: 0 <= i < |a| ==> SameRow(a[i], b[i]) && (Live(a[i]) <==> Live(b[i]))
    ensures LiveRetries(a, c) == LiveRetries(b, c)
  {
    CountMonotone(a, b, LiveRetry(c), LiveRetry(c));
    CountMonotone(b, a, LiveRetry(c), LiveRetry(c));
  }

  lemma SameCountsKeep(p: Policy, s: Db, r: Db)
    requires Consistent(s) && Kept(p, s)
    requires r.audit == s.audit && |r.rows| == |s.rows|
    requires forall i :: 0 <= i < |s.rows| ==>
               SameRow(s.rows[i], r.rows[i]) && (Live(s.rows[i]) <==> Live(r.rows[i]))
    requires forall c :: c in r.cases ==> r.cases[c].retryCount == if c in s.cases then s.cases[c].retryCount else 0
    ensures Kept(p, r)
  {
    hide Consistent, LiveRetries, Attempts;
    forall c | c in r.cases
      ensures WithinAllowance(p, r, c)
    {
      SameLiveness(s.rows, r.rows, c);
      if c in s.cases {
        assert WithinAllowance(p, s, c);
      } else {
        NothingYet(s, c);
      }
    }
  }

  lemma QuietMoveKeepsAllowance(env: Env, s: Db, m: Move)
    requires Consistent(s) && Kept(env.p, s) && Enabled(s, m)
    requires m.Ruling? || m.Lift? || m.Release? || m.Claim? || m.Interrupted?
    ensures Kept(env.p, Apply(env, s, m))
  {
    hide Consistent, Kept;
    SameCountsKeep(env.p, s, Apply(env, s, m));
  }

  lemma ClosingKeepsAllowance(env: Env, s: Db, m: Move)
    requires Consistent(s) && Kept(env.p, s) && Enabled(s, m) && (m.Stop? || m.Payment?)
    ensures Kept(env.p, Apply(env, s, m))
  {
    hide Consistent, Effect, Kept;
    DecisionEffect(env, s, m);
    SameLength(s.rows, Apply(env, s, m).rows);
    EffectKeepsAllowance(env.p, s, Apply(env, s, m), ActorOf(s, m));
  }

  /** Every move, from every consistent state: the allowance survives if and only if it is careful. */
  lemma MoveIsExact(env: Env, s: Db, m: Move)
    requires Consistent(s) && Kept(env.p, s) && Enabled(s, m)
    ensures Kept(env.p, Apply(env, s, m)) <==> Careful(env, s, m)
  {
    hide Consistent, Kept, Apply, Enabled, ArmsOnFailure, BodyHasRoom, Realigns, LiveRetries;
    match m
    case Webhook(_, _, _, _) => FailureIsExact(env, s, m);
    case Failure(_, _, _, _) => FailureIsExact(env, s, m);
    case Reply(_, _, _, _) => ReplyIsExact(env, s, m);
    case Review(_, _, _) => ReviewIsExact(env, s, m);
    case Stop(_, _, _) => ClosingKeepsAllowance(env, s, m);
    case Payment(_, _) => ClosingKeepsAllowance(env, s, m);
    case Dispatch(_, _, _, _, _) => BodyIsExact(env, s, m);
    case _ => QuietMoveKeepsAllowance(env, s, m);
  }

  // -- over whole runs ---------------------------------------------------------

  predicate CarefulRun(env: Env, moves: seq<Move>) {
    IsRun(env, moves) &&
    forall k :: 0 <= k < |moves| ==> Careful(env, StateAt(env, EMPTY, moves, k), moves[k])
  }

  lemma EmptyKept(p: Policy)
    ensures Kept(p, EMPTY)
  {
  }

  /** At every point of a careful run no case has drawn, or stands to draw, more than the cap. */
  lemma {:induction false} RetryAllowance(env: Env, moves: seq<Move>, k: nat)
    requires CarefulRun(env, moves) && k <= |moves|
    ensures Kept(env.p, StateAt(env, EMPTY, moves, k))
    decreases k
  {
    hide Consistent, Kept, Apply, Enabled, Careful;
    if k == 0 {
      EmptyKept(env.p);
    } else {
      RetryAllowance(env, moves, k - 1);
      RunsAreConsistent(env, moves, k - 1);
      MoveIsExact(env, StateAt(env, EMPTY, moves, k - 1), moves[k - 1]);
    }
  }

  // -- what the counter counts ---------------------------------------------------

  /** Whether a move runs a debit for this case to an outcome, rather than putting it off. */
  predicate AttemptsDebit(env: Env, s: Db, m: Move, c: CaseId) {
    && m.Dispatch?
    && m.id < |s.rows|
    && s.rows[m.id].kind == Retry && s.rows[m.id].caseId == c
    && var fate := Runner.RunRow(env.p, s, m.id, m.table, m.response, m.now).1;
       fate.Closed? && !fate.state.Pending?
  }

  lemma BodyAttempts(env: Env, s: Db, m: Move, c: CaseId)
    requires m.Dispatch?
    ensures Attempts(Apply(env, s, m).audit, c)
            == Attempts(s.audit, c) + (if AttemptsDebit(env, s, m, c) then 1 else 0)
  {
    hide Runner.NudgeOutcome, Attempts;
    if m.id < |s.rows| {
      var row := s.rows[m.id];
      var run := Runner.Executes(env.p, s, row, m.response, m.now);
      if run.Returned? {
        RecordAttempts(s.audit, Entry(row.caseId, m.now, Executed(row.kind, run.outcome.state)), c);
      }
    }
  }

  lemma MoveAttempts(env: Env, s: Db, m: Move, c: CaseId)
    requires Consistent(s) && Enabled(s, m)
    ensures Attempts(Apply(env, s, m).audit, c)
            == Attempts(s.audit, c) + (if AttemptsDebit(env, s, m, c) then 1 else 0)
  {
    hide Consistent, Effect, Attempts;
    if m.Dispatch? {
      BodyAttempts(env, s, m, c);
    } else if m.Webhook? || m.Failure? {
      if !Duplicate(s, m) {
        FailureEffect(env, s, m);
        EnteringKeepsConsistent(s, m);
        EffectAttemptsNothing(env.p, Entering(s, m), Apply(env, s, m), FailureActor(s, m), c);
      }
    } else if Decides(m) {
      DecisionEffect(env, s, m);
      EffectAttemptsNothing(env.p, s, Apply(env, s, m), ActorOf(s, m), c);
    }
  }

  /** How many of the first `k` moves ran a debit for the case. */
  function DebitsRun(env: Env, moves: seq<Move>, k: nat, c: CaseId): nat
    requires k <= |moves|
  {
    if k == 0 then 0
    else
      DebitsRun(env, moves, k - 1, c)
      + (if AttemptsDebit(env, StateAt(env, EMPTY, moves, k - 1), moves[k - 1], c) then 1 else 0)
  }

  lemma {:induction false} AttemptsAreTheDebitsRun(env: Env, moves: seq<Move>, k: nat, c: CaseId)
    requires IsRun(env, moves) && k <= |moves|
    ensures Attempts(StateAt(env, EMPTY, moves, k).audit, c) == DebitsRun(env, moves, k, c)
    decreases k
  {
    hide Consistent, Attempts, Apply, Enabled, AttemptsDebit;
    if k == 0 {
      NoAttempts(c);
    } else {
      AttemptsAreTheDebitsRun(env, moves, k - 1, c);
      RunsAreConsistent(env, moves, k - 1);
      MoveAttempts(env, StateAt(env, EMPTY, moves, k - 1), moves[k - 1], c);
    }
  }

  lemma NoAttempts(c: CaseId)
    ensures Attempts(EMPTY.audit, c) == 0
  {
  }

  /** Over a whole careful run, no case is debited more times than the cap allows. */
  lemma DebitsNeverPassTheCap(env: Env, moves: seq<Move>, k: nat, c: CaseId)
    requires CarefulRun(env, moves) && k <= |moves|
    ensures var s := StateAt(env, EMPTY, moves, k);
            c in s.cases ==>
              && DebitsRun(env, moves, k, c) == s.cases[c].retryCount
              && DebitsRun(env, moves, k, c) + LiveRetries(s.rows, c) <= env.p.retryCap
  {
    hide StateAt, Attempts, LiveRetries, Careful;
    AttemptsAreTheDebitsRun(env, moves, k, c);
    RetryAllowance(env, moves, k);
    var s := StateAt(env, EMPTY, moves, k);
    if c in s.cases {
      KeptAt(env.p, s, c);
    }
  }
}
