/**
 * The contact ceiling over whole runs. Whatever clock each pass is given, any half-open stretch as
 * long as the contact window holds no more delivered nudges to one customer than the policy allows,
 * counted across all their cases.
 */
module Ceiling {
  import opened Sequences
  import opened Models
  import opened Policies
  import opened Windows
  import opened Tables
  import opened Effects
  import opened Runs
  import Runner

  function From(x: Instant, w: Duration): Instant -> bool {
    t => x <= t < x + w
  }

  function UpTo(x: Instant, w: Duration): Instant -> bool {
    t => x < t <= x + w
  }

  /** How many of the messages before the `i`th fell inside its window. */
  function Before(log: seq<Instant>, i: nat, w: Duration): nat
    requires i < |log|
  {
    Count(log[..i], After(log[i] - w))
  }

  /** Each message, when it went out, saw fewer than the limit after its own window's start. */
  predicate Spaced(p: Policy, log: seq<Instant>) {
    forall i :: 0 <= i < |log| ==> Before(log, i, p.contactWindow) < p.maxPerWindow
  }

  lemma BeforeOfPrefix(log: seq<Instant>, t: Instant, i: nat, w: Duration)
    requires i < |log|
    ensures Before(log + [t], i, w) == Before(log, i, w)
  {
    assert (log + [t])[..i] == log[..i];
  }

  lemma SpacedAppend(p: Policy, log: seq<Instant>, t: Instant)
    requires Count(log, After(t - p.contactWindow)) < p.maxPerWindow
    ensures Spaced(p, log) ==> Spaced(p, log + [t])
    ensures Spaced(p, log + [t]) ==> Spaced(p, log)
  {
    hide Before;
    forall i | 0 <= i < |log|
      ensures Before(log + [t], i, p.contactWindow) == Before(log, i, p.contactWindow)
    {
      BeforeOfPrefix(log, t, i, p.contactWindow);
    }
    assert Before(log + [t], |log|, p.contactWindow) < p.maxPerWindow by {
      LastBefore(log, t, p.contactWindow);
    }
  }

  lemma LastBefore(log: seq<Instant>, t: Instant, w: Duration)
    ensures Before(log + [t], |log|, w) == Count(log, After(t - w))
  {
    hide Count, After;
    assert (log + [t])[..|log|] == log && (log + [t])[|log|] == t;
  }

  /** A window holding the last message holds only those of the others that message saw. */
  lemma WindowOfTheLast(log: seq<Instant>, last: Instant, x: Instant, w: Duration)
    ensures From(x, w)(last) ==> Count(log, From(x, w)) <= Count(log, After(last - w))
    ensures UpTo(x, w)(last) ==> Count(log, UpTo(x, w)) <= Count(log, After(last - w))
  {
    if From(x, w)(last) {
      CountMonotone(log, log, From(x, w), After(last - w));
    }
    if UpTo(x, w)(last) {
      CountMonotone(log, log, UpTo(x, w), After(last - w));
    }
  }

  /** However the clock jumped between them, spaced messages never crowd a window of either kind. */
  lemma {:induction false} SpacedMeansCeiling(p: Policy, log: seq<Instant>, x: Instant)
    requires Spaced(p, log)
    ensures Count(log, From(x, p.contactWindow)) <= p.maxPerWindow
    ensures Count(log, UpTo(x, p.contactWindow)) <= p.maxPerWindow
    decreases |log|
  {
    if log != [] {
      var front, last := log[..|log| - 1], log[|log| - 1];
      assert log == front + [last];
      LastBefore(front, last, p.contactWindow);
      assert Before(log, |log| - 1, p.contactWindow) < p.maxPerWindow;
      SpacedAppend(p, front, last);
      SpacedMeansCeiling(p, front, x);
      WindowOfTheLast(front, last, x, p.contactWindow);
    }
  }

  // -- what each move does to the delivered log --------------------------------

  /** Everything delivered to a customer, in the order it was. */
  function Log(s: Db, customer: CustomerRef): seq<Instant> {
    Deliveries(s.audit, s.cases, customer)
  }

  /** Records that are not executions deliver nothing, and new cases have delivered nothing yet. */
  lemma {:induction false} LogKept(
    a: seq<Entry>, b: seq<Entry>, old_: map<CaseId, Case>, new_: map<CaseId, Case>, customer: CustomerRef)
    requires |a| <= |b| && (forall i :: 0 <= i < |a| ==> b[i] == a[i])
    requires forall i :: |a| <= i < |b| ==> !b[i].decided.Executed?
    requires forall i :: 0 <= i < |a| ==>
               a[i].caseId in old_ && a[i].caseId in new_
               && old_[a[i].caseId].customer == new_[a[i].caseId].customer
    ensures Deliveries(b, new_, customer) == Deliveries(a, old_, customer)
    decreases |b|
  {
    if b != [] {
      var n := |b| - 1;
      if |a| == |b| {
        LogKept(a[..n], b[..n], old_, new_, customer);
      } else {
        LogKept(a, b[..n], old_, new_, customer);
      }
    }
  }

  lemma EffectDeliversNothing(p: Policy, s: Db, r: Db, who: Actor, customer: CustomerRef)
    requires Consistent(s) && Effect(p, s, r, who)
    ensures Log(r, customer) == Log(s, customer)
  {
    LogKept(s.audit, r.audit, s.cases, r.cases, customer);
  }

  /** Whether a move sends a nudge, and the row it sends it for. */
  predicate Delivers(env: Env, s: Db, m: Move) {
    && m.Dispatch?
    && m.id < |s.rows|
    && s.rows[m.id].kind == NUDGE
    && Runner.RunRow(env.p, s, m.id, m.table, m.response, m.now).1 == Runner.Closed(Done, false)
  }

  predicate DeliversTo(env: Env, s: Db, m: Move, customer: CustomerRef) {
    Delivers(env, s, m) && s.rows[m.id].customer == customer
  }

  /** A nudge goes out only inside hours, not before a promised date, and under the ceiling. */
  lemma DeliveryIsAdmissible(env: Env, s: Db, m: Move)
    requires Consistent(s) && Delivers(env, s, m)
    ensures env.p.contactOpen <= m.now % 86_400_000_000 < env.p.contactClose
    ensures s.rows[m.id].caseId in s.cases
    ensures var known := s.cases[s.rows[m.id].caseId];
            && (known.suspendedUntil.Some? ==> known.suspendedUntil.value <= DateOf(m.now))
            && Count(Log(s, known.customer), After(m.now - env.p.contactWindow)) < env.p.maxPerWindow
  {
    var row := s.rows[m.id];
    var known := s.cases[row.caseId];
    var recent := Runner.Recent(env.p, s, known.customer, m.now);
    assert Runner.NudgeOutcome(env.p, s, row.caseId, m.now).state.Done?;
    assert ContactBudget(env.p, recent, m.now).allowed;
    InsideCounts(recent, m.now - env.p.contactWindow);
    OldestFirstIsExact(
      Log(s, known.customer), m.now - env.p.contactWindow, m.now - env.p.contactWindow);
  }

  lemma RecordedExecution(s: Db, r: Db, e: Entry, customer: CustomerRef)
    requires Consistent(s) && r.audit == s.audit + [e] && r.cases.Keys == s.cases.Keys
    requires forall c :: c in s.cases ==> r.cases[c].customer == s.cases[c].customer
    requires e.caseId in s.cases
    ensures Log(r, customer) ==
            if s.cases[e.caseId].customer == customer && e.decided == Executed(NUDGE, Done)
            then Log(s, customer) + [e.at] else Log(s, customer)
  {
    assert r.audit[..|r.audit| - 1] == s.audit;
    LogKept(s.audit, s.audit, s.cases, r.cases, customer);
  }

  /** The record a nudge's body leaves when it was executed, and whether that was a delivery. */
  lemma BodyRecords(env: Env, s: Db, m: Move)
    requires m.Dispatch?
    ensures var (r, fate) := Runner.RunRow(env.p, s, m.id, m.table, m.response, m.now);
            if !fate.Moved? && !fate.Closed? then r.audit == s.audit
            else
              && m.id < |s.rows|
              && exists state: RowState ::
                   && r.audit == s.audit + [Entry(s.rows[m.id].caseId, m.now, Executed(s.rows[m.id].kind, state))]
                   && (s.rows[m.id].kind == NUDGE ==> (state.Done? <==> fate == Runner.Closed(Done, false)))
  {
    hide Runner.NudgeOutcome, CaseSuppressed, Deliveries;
    var (r, fate) := Runner.RunRow(env.p, s, m.id, m.table, m.response, m.now);
    if fate.Moved? || fate.Closed? {
      var row := s.rows[m.id];
      var state := Runner.Executes(env.p, s, row, m.response, m.now).outcome.state;
      NudgesDoNotHold(env.p, s, row.caseId, m.now);
      assert r.audit == s.audit + [Entry(row.caseId, m.now, Executed(row.kind, state))];
    }
  }

  /** A row body adds to the log exactly when it delivers, and then its own time. */
  lemma BodyAndTheLog(env: Env, s: Db, m: Move, customer: CustomerRef)
    requires Consistent(s) && m.Dispatch?
    ensures Log(Apply(env, s, m), customer) ==
            if DeliversTo(env, s, m, customer) then Log(s, customer) + [m.now] else Log(s, customer)
  {
    hide Runner.RunRow, Consistent, Log, BodyFrame;
    RowBodyFrame(env.p, s, m.id, m.table, m.response, m.now);
    BodyRecords(env, s, m);
    var (r, fate) := Runner.RunRow(env.p, s, m.id, m.table, m.response, m.now);
    FramedCases(s, r, m.id, m.now);
    if !fate.Moved? && !fate.Closed? {
      SameEntries(s, r, customer);
    } else {
      var row := s.rows[m.id];
      RowIsOwned(s, m.id);
      var state: RowState :|
        && r.audit == s.audit + [Entry(row.caseId, m.now, Executed(row.kind, state))]
        && (row.kind == NUDGE ==> (state.Done? <==> fate == Runner.Closed(Done, false)));
      RecordedExecution(s, r, Entry(row.caseId, m.now, Executed(row.kind, state)), customer);
    }
  }

  lemma FramedCases(s: Db, r: Db, id: nat, now: Instant)
    requires BodyFrame(s, r, id, now)
    ensures r.cases.Keys == s.cases.Keys && forall c :: c in s.cases ==> r.cases[c].customer == s.cases[c].customer
  {
  }

  lemma NudgesDoNotHold(p: Policy, s: Db, c: CaseId, now: Instant)
    ensures !Runner.NudgeOutcome(p, s, c, now).holdCase
    ensures Runner.NudgeOutcome(p, s, c, now).state.Done? ==> !Runner.Deferred(Runner.NudgeOutcome(p, s, c, now))
  {
  }

  // -- over whole runs ---------------------------------------------------------

  ghost predicate CeilingKept(p: Policy, s: Db) {
    forall customer :: Spaced(p, Log(s, customer))
  }

  lemma OtherMovesDeliverNothing(env: Env, s: Db, m: Move, customer: CustomerRef)
    requires Consistent(s) && Enabled(s, m) && !m.Dispatch?
    ensures Log(Apply(env, s, m), customer) == Log(s, customer)
  {
    hide Consistent, Effect, Log;
    if m.Webhook? || m.Failure? {
      if !Duplicate(s, m) {
        FailureEffect(env, s, m);
        EnteringKeepsConsistent(s, m);
        EffectDeliversNothing(env.p, Entering(s, m), Apply(env, s, m), FailureActor(s, m), customer);
        SameEntries(s, Entering(s, m), customer);
      }
    } else if Decides(m) {
      DecisionEffect(env, s, m);
      EffectDeliversNothing(env.p, s, Apply(env, s, m), ActorOf(s, m), customer);
    } else {
      SameEntries(s, Apply(env, s, m), customer);
    }
  }

  lemma SameEntries(s: Db, r: Db, customer: CustomerRef)
    requires Consistent(s) && r.audit == s.audit
    requires forall c :: c in s.cases ==> c in r.cases && r.cases[c].customer == s.cases[c].customer
    ensures Log(r, customer) == Log(s, customer)
  {
    LogKept(s.audit, r.audit, s.cases, r.cases, customer);
  }

  lemma MoveKeepsCeiling(env: Env, s: Db, m: Move)
    requires Consistent(s) && Enabled(s, m) && CeilingKept(env.p, s)
    ensures CeilingKept(env.p, Apply(env, s, m))
  {
    hide Consistent, Apply, Spaced, Log, Delivers;
    var r := Apply(env, s, m);
    forall customer
      ensures Spaced(env.p, Log(r, customer))
    {
      if !m.Dispatch? {
        OtherMovesDeliverNothing(env, s, m, customer);
      } else {
        BodyAndTheLog(env, s, m, customer);
        if DeliversTo(env, s, m, customer) {
          DeliveryIsAdmissible(env, s, m);
          RowIsOwned(s, m.id) by { assert m.id < |s.rows| by { DeliversARow(env, s, m); } }
          SpacedAppend(env.p, Log(s, customer), m.now);
        }
      }
    }
  }

  lemma DeliversARow(env: Env, s: Db, m: Move)
    requires Delivers(env, s, m)
    ensures m.Dispatch? && m.id < |s.rows|
  {
  }

  lemma {:induction false} RunsKeepCeiling(env: Env, moves: seq<Move>, k: nat)
    requires IsRun(env, moves) && k <= |moves|
    ensures CeilingKept(env.p, StateAt(env, EMPTY, moves, k))
    decreases k
  {
    hide Consistent, Apply, CeilingKept, Enabled;
    if k == 0 {
      NothingIsSpaced(env.p);
    } else {
      RunsAreConsistent(env, moves, k - 1);
      RunsKeepCeiling(env, moves, k - 1);
      MoveKeepsCeiling(env, StateAt(env, EMPTY, moves, k - 1), moves[k - 1]);
    }
  }

  lemma NothingIsSpaced(p: Policy)
    ensures CeilingKept(p, EMPTY)
  {
  }

  /** The ceiling: at every point of every run, for every customer and every window. */
  lemma ContactCeiling(env: Env, moves: seq<Move>, k: nat, customer: CustomerRef, x: Instant)
    requires IsRun(env, moves) && k <= |moves|
    ensures var log := Log(StateAt(env, EMPTY, moves, k), customer);
            && Count(log, From(x, env.p.contactWindow)) <= env.p.maxPerWindow
            && Count(log, UpTo(x, env.p.contactWindow)) <= env.p.maxPerWindow
  {
    RunsKeepCeiling(env, moves, k);
    SpacedMeansCeiling(env.p, Log(StateAt(env, EMPTY, moves, k), customer), x);
  }

  /**
   * The log `contacts_since` is read from is exactly the deliveries of the run: each move adds its
   * own time when it delivers to this customer, at an admissible time, and nothing otherwise.
   */
  lemma LogIsExactlyTheDeliveries(env: Env, moves: seq<Move>, k: nat, customer: CustomerRef)
    requires IsRun(env, moves) && k < |moves|
    ensures var s, m := StateAt(env, EMPTY, moves, k), moves[k];
            var delivers := DeliversTo(env, s, m, customer);
            && Log(StateAt(env, EMPTY, moves, k + 1), customer)
               == (if delivers then Log(s, customer) + [m.now] else Log(s, customer))
            && (delivers ==>
                  && env.p.contactOpen <= m.now % 86_400_000_000 < env.p.contactClose
                  && s.rows[m.id].caseId in s.cases)
            && (delivers ==>
                  var promised := s.cases[s.rows[m.id].caseId].suspendedUntil;
                  promised.Some? ==> promised.value <= DateOf(m.now))
  {
    hide Consistent, Apply, Log;
    var s, m := StateAt(env, EMPTY, moves, k), moves[k];
    RunsAreConsistent(env, moves, k);
    if m.Dispatch? {
      BodyAndTheLog(env, s, m, customer);
      if Delivers(env, s, m) {
        DeliveryIsAdmissible(env, s, m);
      }
    } else {
      OtherMovesDeliverNothing(env, s, m, customer);
    }
  }

  // -- the deferral on a steady clock --------------------------------------------

  /** Row bodies run at times that never go back. */
  predicate SteadyClock(moves: seq<Move>) {
    forall i, j :: 0 <= i < j < |moves| && moves[i].Dispatch? && moves[j].Dispatch? ==> moves[i].now <= moves[j].now
  }

  predicate AllBy(log: seq<Instant>, now: Instant) {
    forall i :: 0 <= i < |log| ==> log[i] <= now
  }

  lemma {:induction false} DeliveriesPrecede(
    env: Env, moves: seq<Move>, k: nat, n: nat, customer: CustomerRef)
    requires IsRun(env, moves) && SteadyClock(moves)
    requires k <= n < |moves| && moves[n].Dispatch?
    ensures AllBy(Log(StateAt(env, EMPTY, moves, k), customer), moves[n].now)
    decreases k
  {
    hide Log, Delivers, StateAt, IsRun;
    if k == 0 {
      EmptyLog(env, moves, customer);
    } else {
      var s := StateAt(env, EMPTY, moves, k - 1);
      DeliveriesPrecede(env, moves, k - 1, n, customer);
      LogIsExactlyTheDeliveries(env, moves, k - 1, customer);
      if DeliversTo(env, s, moves[k - 1], customer) {
        DeliversARow(env, s, moves[k - 1]);
      }
    }
  }

  lemma EmptyLog(env: Env, moves: seq<Move>, customer: CustomerRef)
    ensures Log(StateAt(env, EMPTY, moves, 0), customer) == []
  {
  }

  /**
   * With clocks that do not go back, a budget is never spent past its limit, so a nudge refused on
   * the budget is deferred to the very first instant at which the same history lets it go.
   */
  lemma SteadyDeferralIsExact(env: Env, moves: seq<Move>, k: nat, customer: CustomerRef)
    requires IsRun(env, moves) && SteadyClock(moves) && k < |moves| && moves[k].Dispatch?
    ensures var recent := Runner.Recent(env.p, StateAt(env, EMPTY, moves, k), customer, moves[k].now);
            var budget := ContactBudget(env.p, recent, moves[k].now);
            && budget.used <= env.p.maxPerWindow
            && (!budget.allowed ==>
                  && moves[k].now < budget.freeAt.value
                  && MayMessage(env.p, recent, budget.freeAt.value)
                  && forall u :: moves[k].now < u < budget.freeAt.value ==> !MayMessage(env.p, recent, u))
  {
    hide StateAt, Log, IsRun, SteadyClock, OldestFirst;
    var s, now := StateAt(env, EMPTY, moves, k), moves[k].now;
    DeliveriesPrecede(env, moves, k, k, customer);
    ContactCeiling(env, moves, k, customer, now - env.p.contactWindow);
    assert Runner.Recent(env.p, s, customer, now) == OldestFirst(Log(s, customer), now - env.p.contactWindow) by {
      LogIsDeliveries(s, customer);
    }
    NeverOverspent(env.p, Log(s, customer), now);
    if !ContactBudget(env.p, Runner.Recent(env.p, s, customer, now), now).allowed {
      DeferralIsExact(env.p, Runner.Recent(env.p, s, customer, now), now);
      SpentToTheLimitIsExact(env.p, Runner.Recent(env.p, s, customer, now), now);
    }
  }

  lemma LogIsDeliveries(s: Db, customer: CustomerRef)
    ensures Log(s, customer) == Deliveries(s.audit, s.cases, customer)
  {
  }

  lemma NeverOverspent(p: Policy, log: seq<Instant>, now: Instant)
    requires AllBy(log, now)
    requires Count(log, UpTo(now - p.contactWindow, p.contactWindow)) <= p.maxPerWindow
    ensures var recent := OldestFirst(log, now - p.contactWindow);
            Sorted(recent) && |Inside(recent, now - p.contactWindow)| <= p.maxPerWindow
  {
    var cutoff := now - p.contactWindow;
    CountMonotone(log, log, After(cutoff), UpTo(cutoff, p.contactWindow));
    OldestFirstIsExact(log, cutoff, cutoff);
    InsideCounts(OldestFirst(log, cutoff), cutoff);
  }

  // -- every answer to a nudge -------------------------------------------------------

  /**
   * A nudge is sent exactly when its case is on file, no promised day is still to come, fewer than
   * the limit went to the customer inside the window, and the hour is a contact hour. Otherwise it
   * waits: for the promised morning, for the budget, or for the next contact hour, in that order.
   */
  lemma ANudgeIsSentExactlyWhen(p: Policy, s: Db, c: CaseId, now: Instant)
    ensures var o := Runner.NudgeOutcome(p, s, c, now);
            if c !in s.cases then o == Runner.Outcome(Failed, None, false)
            else
              var known := s.cases[c];
              var room := Count(Log(s, known.customer), After(now - p.contactWindow)) < p.maxPerWindow;
              var promised := known.suspendedUntil.Some? && now / 86_400_000_000 < known.suspendedUntil.value;
              && !o.holdCase
              && (promised ==>
                    o.state == Pending
                    && o.retryAt == Some(known.suspendedUntil.value * 86_400_000_000 + p.contactOpen))
              && (!promised && !room ==>
                    o.state == Pending && o.retryAt.Some? && now < o.retryAt.value)
              && (!promised && room && !(p.contactOpen <= now % 86_400_000_000 < p.contactClose) ==>
                    o.state == Pending && o.retryAt == Some(NextContact(p, now)))
              && (o.state == Done <==>
                    !promised && room && p.contactOpen <= now % 86_400_000_000 < p.contactClose)
  {
    hide NextContact, OldestFirst, Deliveries;
    if c in s.cases {
      var customer := s.cases[c].customer;
      var recent := Runner.Recent(p, s, customer, now);
      LogIsDeliveries(s, customer);
      InsideCounts(recent, now - p.contactWindow);
      OldestFirstIsExact(Log(s, customer), now - p.contactWindow, now - p.contactWindow);
      if !ContactBudget(p, recent, now).allowed {
        DeferralIsExact(p, recent, now);
      }
    }
  }
}
