/**
 * Stops win, and last. A stop leaves no live row in its scope and disturbs none outside it; a
 * suppression it leaves standing keeps every executor away from the scope, whatever is opened, armed
 * or already claimed there, until that suppression is lifted; and a scope never has two.
 */
module StopsLast {
  import opened Sequences
  import opened Models
  import opened Policies
  import opened Stops
  import opened Tables
  import opened Agent
  import opened Effects
  import opened Runs
  import opened Histories
  import Allowance
  import Ladder
  import Leases
  import Limits
  import Replies
  import Runner
  import Taxonomies

  // -- one stop ----------------------------------------------------------------

  lemma StopRows(s: Db, code: StopCode, c: CaseId, customer: CustomerRef, now: Instant)
    ensures var r, scope := StopApplied(s, code, c, customer, now), ScopeOf(code, c, customer);
            && r.rows == CancelRows(s.rows, scope, ByStop(code), Some(now))
            && r.audit == s.audit + [Entry(c, now, Stopped(code, Count(s.rows, LiveIn(scope))))]
  {
    hide CancelRows, Count, ScopeSuppressed;
  }

  /** A stop cancels exactly the live rows in its scope, says how many, and leaves none. */
  lemma StopClearsItsScope(s: Db, code: StopCode, c: CaseId, customer: CustomerRef, now: Instant)
    ensures var r, scope := StopApplied(s, code, c, customer, now), ScopeOf(code, c, customer);
            && Count(r.rows, LiveIn(scope)) == 0
            && |r.rows| == |s.rows|
            && (forall i :: 0 <= i < |s.rows| ==>
                  if Live(s.rows[i]) && RowInScope(scope, s.rows[i])
                  then r.rows[i].state.Cancelled? && r.rows[i].cancelReason == Some(ByStop(code))
                  else r.rows[i] == s.rows[i])
            && r.audit == s.audit + [Entry(c, now, Stopped(code, Count(s.rows, LiveIn(scope))))]
  {
    hide Count, StopApplied;
    StopRows(s, code, c, customer, now);
    var r, scope := StopApplied(s, code, c, customer, now), ScopeOf(code, c, customer);
    CountZero(r.rows, LiveIn(scope));
  }

  /** A stop closes or holds its own case when its rule says so, and never another. */
  lemma StopSettlesItsCase(s: Db, code: StopCode, c: CaseId, customer: CustomerRef, now: Instant)
    requires c in s.cases
    ensures var r, terminal := StopApplied(s, code, c, customer, now), RuleOf(code).terminal;
            r.cases == if terminal.Some? then s.cases[c := s.cases[c].(state := terminal.value)] else s.cases
  {
    hide CancelRows, Count, ScopeSuppressed;
  }

  // -- suppressions through a move -------------------------------------------------

  predicate StandsOn(s: Db, i: nat, scope: Scope) {
    i < |s.suppressions| && Stands(s.suppressions[i]) && s.suppressions[i].scope == scope
  }

  /** A scope is suppressed exactly when one of its own suppressions stands. */
  lemma SuppressedMeansStanding(s: Db, scope: Scope)
    ensures ScopeSuppressed(s, scope) <==> exists i :: 0 <= i < |s.suppressions| && StandsOn(s, i, scope)
  {
    if ScopeSuppressed(s, scope) {
      var c := if scope.OnCase? then Some(scope.caseId) else None;
      var customer := if scope.OnCustomer? then Some(scope.customer) else None;
      var i :| 0 <= i < |s.suppressions| && Stands(s.suppressions[i]) && Matches(s.suppressions[i], c, customer);
      assert StandsOn(s, i, scope);
    }
    if i :| 0 <= i < |s.suppressions| && StandsOn(s, i, scope) {
      assert Stands(s.suppressions[i]) && s.suppressions[i].scope == scope;
    }
  }

  predicate OneStanding(s: Db) {
    forall i, j :: 0 <= i < j < |s.suppressions| && Stands(s.suppressions[i]) && Stands(s.suppressions[j]) ==>
      s.suppressions[i].scope != s.suppressions[j].scope
  }

  /** Suppressions are only added to, by one at a time and only on a scope with none standing. */
  predicate AtMostOneMore(a: seq<Suppression>, b: seq<Suppression>) {
    || b == a
    || (&& |b| == |a| + 1
        && b[..|a|] == a
        && Stands(b[|a|])
        && forall i :: 0 <= i < |a| && Stands(a[i]) ==> a[i].scope != b[|a|].scope)
  }

  /** What a stop does to the suppressions: one more, when it suppresses and none stands there yet. */
  lemma StopSuppressions(s: Db, code: StopCode, c: CaseId, customer: CustomerRef, now: Instant)
    ensures var scope := ScopeOf(code, c, customer);
            var already := ScopeSuppressed(s, scope);
            StopApplied(s, code, c, customer, now).suppressions
            == if RuleOf(code).suppressesContact && !already
               then s.suppressions + [Suppression(scope, code, now, None, None)] else s.suppressions
    ensures AtMostOneMore(s.suppressions, StopApplied(s, code, c, customer, now).suppressions)
  {
    hide Count, LiveIn, ScopeSuppressed;
    var r, scope := StopApplied(s, code, c, customer, now), ScopeOf(code, c, customer);
    SuppressedMeansStanding(s, scope);
    var cancelled := Cancels(s, scope, ByStop(code), Some(now));
    var terminal := RuleOf(code).terminal;
    SameSuppressions(s, if terminal.Some? then StateSet(cancelled, c, terminal.value) else cancelled, scope);
    assert forall i :: 0 <= i < |s.suppressions| && !StandsOn(s, i, scope) && Stands(s.suppressions[i]) ==>
      s.suppressions[i].scope != scope;
  }

  lemma SameSuppressions(s: Db, r: Db, scope: Scope)
    requires r.suppressions == s.suppressions
    ensures ScopeSuppressed(r, scope) == ScopeSuppressed(s, scope)
  {
  }

  /** A stop that suppresses contact leaves exactly one suppression standing on its scope. */
  lemma StopLeavesOneStanding(s: Db, code: StopCode, c: CaseId, customer: CustomerRef, now: Instant)
    requires OneStanding(s) && RuleOf(code).suppressesContact
    ensures var r, scope := StopApplied(s, code, c, customer, now), ScopeOf(code, c, customer);
            && OneStanding(r)
            && exists i :: 0 <= i < |r.suppressions| && StandsOn(r, i, scope)
  {
    hide StopApplied, AtMostOneMore, OneStanding, ScopeSuppressed;
    var r, scope := StopApplied(s, code, c, customer, now), ScopeOf(code, c, customer);
    StopSuppressions(s, code, c, customer, now);
    OneMoreKeepsOne(s, r);
    SuppressedMeansStanding(s, scope);
    if ScopeSuppressed(s, scope) {
      var i :| 0 <= i < |s.suppressions| && StandsOn(s, i, scope);
      assert StandsOn(r, i, scope);
    } else {
      assert StandsOn(r, |s.suppressions|, scope);
    }
  }

  // -- each stop by its code ----------------------------------------------------------

  /** The stops that reach everything a customer has, and not one case alone. */
  const REACHING: set<StopCode> := {REVOKED, OPT_OUT, DISPUTE, CHARGEBACK, MERCHANT_PAUSE}

  /** How far a stop reaches. */
  function Reach(code: StopCode, c: CaseId, customer: CustomerRef): Scope {
    if code in REACHING then OnCustomer(customer) else OnCase(c)
  }

  lemma ReachIsTheScope(code: StopCode, c: CaseId, customer: CustomerRef)
    ensures ScopeOf(code, c, customer) == Reach(code, c, customer)
    ensures RuleOf(code).suppressesContact <==> code != RETRY_CAP
  {
  }

  /** What a stop makes of its case: closed, held, written off, or as it was. */
  function SettledAs(code: StopCode, was: CaseState): CaseState {
    if code == REVOKED then ClosedRevoked
    else if code in {DISPUTE, DISTRESS, CHARGEBACK, REG_HOLD} then HeldForHuman
    else if code == LADDER_END then Unrecovered
    else was
  }

  predicate NothingLiveOf(s: Db, customer: CustomerRef) {
    forall i :: 0 <= i < |s.rows| && s.rows[i].customer == customer ==>
      !s.rows[i].state.Pending? && !s.rows[i].state.Leased?
  }

  predicate NothingLiveOn(s: Db, c: CaseId) {
    forall i :: 0 <= i < |s.rows| && s.rows[i].caseId == c ==>
      !s.rows[i].state.Pending? && !s.rows[i].state.Leased?
  }

  predicate Barred(s: Db, scope: Scope) {
    exists i :: 0 <= i < |s.suppressions| && s.suppressions[i].scope == scope && s.suppressions[i].liftedAt.None?
  }

  /**
   * By the code alone. Five bar the whole customer and leave nothing of theirs live; the spent cap
   * clears its case and bars nobody; the rest bar their case and leave nothing of it live.
   */
  lemma EachStopByItsCode(s: Db, code: StopCode, c: CaseId, customer: CustomerRef, now: Instant)
    ensures var r := StopApplied(s, code, c, customer, now);
            && (code in {REVOKED, OPT_OUT, DISPUTE, CHARGEBACK, MERCHANT_PAUSE} ==>
                  Barred(r, OnCustomer(customer)) && NothingLiveOf(r, customer))
            && (code in {DISTRESS, LADDER_END, REG_HOLD} ==> Barred(r, OnCase(c)) && NothingLiveOn(r, c))
            && (code == RETRY_CAP ==> r.suppressions == s.suppressions && NothingLiveOn(r, c))
            && (forall i :: 0 <= i < |s.rows| ==>
                  if && Live(s.rows[i])
                     && (if code in REACHING then s.rows[i].customer == customer else s.rows[i].caseId == c)
                  then i < |r.rows| && r.rows[i].state.Cancelled? && r.rows[i].cancelledAt == Some(now)
                  else i < |r.rows| && r.rows[i] == s.rows[i])
            && (c in s.cases ==>
                  c in r.cases && r.cases[c] == s.cases[c].(state := SettledAs(code, s.cases[c].state)))
            && (forall d :: d in s.cases && d != c ==> d in r.cases && r.cases[d] == s.cases[d])
  {
    hide StopApplied, Count, ScopeSuppressed, AtMostOneMore;
    var r, scope := StopApplied(s, code, c, customer, now), Reach(code, c, customer);
    ReachIsTheScope(code, c, customer);
    StopRows(s, code, c, customer, now);
    StopSuppressions(s, code, c, customer, now);
    if code != RETRY_CAP {
      SuppressedMeansStanding(s, scope);
      if ScopeSuppressed(s, scope) {
        var i :| 0 <= i < |s.suppressions| && StandsOn(s, i, scope);
        assert r.suppressions[i].scope == scope && r.suppressions[i].liftedAt.None?;
      } else {
        assert r.suppressions[|s.suppressions|].scope == scope;
      }
    }
    if c in s.cases {
      StopSettlesItsCase(s, code, c, customer, now);
    } else {
      StopOfAStranger(s, code, c, customer, now);
    }
  }

  lemma StopOfAStranger(s: Db, code: StopCode, c: CaseId, customer: CustomerRef, now: Instant)
    requires c !in s.cases
    ensures StopApplied(s, code, c, customer, now).cases == s.cases
  {
    hide CancelRows, Count, ScopeSuppressed;
  }

  /** A bar is what every gate reads: a case is suppressed when it, or its customer, is barred, and only then. */
  lemma BarsAreWhatGatesRead(s: Db, c: CaseId, customer: CustomerRef)
    ensures CaseSuppressed(s, c, customer) <==> Barred(s, OnCase(c)) || Barred(s, OnCustomer(customer))
  {
    if i :| 0 <= i < |s.suppressions| && Stands(s.suppressions[i])
            && Matches(s.suppressions[i], Some(c), Some(customer)) {
      assert s.suppressions[i].scope == OnCase(c) || s.suppressions[i].scope == OnCustomer(customer);
    }
    if Barred(s, OnCase(c)) {
      var i :| 0 <= i < |s.suppressions| && s.suppressions[i].scope == OnCase(c) && s.suppressions[i].liftedAt.None?;
      assert Stands(s.suppressions[i]) && Matches(s.suppressions[i], Some(c), Some(customer));
    }
    if Barred(s, OnCustomer(customer)) {
      var i :| 0 <= i < |s.suppressions| && s.suppressions[i].scope == OnCustomer(customer)
        && s.suppressions[i].liftedAt.None?;
      assert Stands(s.suppressions[i]) && Matches(s.suppressions[i], Some(c), Some(customer));
    }
  }

  lemma ReplySuppressions(p: Policy, s: Db, c: CaseId, known: Case, parsed: Replies.ParsedReply, now: Instant)
    requires ReadOf(s, c, known)
    ensures AtMostOneMore(s.suppressions, ReplyHandled(p, s, c, known, parsed, now).suppressions)
  {
    hide Replies.Decision, StopApplied, Agent.RealignedTo, Effect, AtMostOneMore;
    assert AtMostOneMore(s.suppressions, s.suppressions) by { NoMore(s.suppressions); }
    if !CaseSuppressed(s, c, known.customer) {
      var out := Replies.Decision(p, parsed, DateOf(now), None);
      var read := Recorded(s, c, now, ReplyRead(out.rules));
      if out.stopCode.Some? {
        StopSuppressions(read, out.stopCode.value, c, known.customer, now);
      } else if out.realignTo.Some? {
        var who := Actor(c, known.customer, SignalOf(read, c), now);
        RealignEffect(p, read, known, out.realignTo.value, who);
      }
    }
  }

  lemma NoMore(a: seq<Suppression>)
    ensures AtMostOneMore(a, a)
  {
  }

  lemma LadderSuppressions(
    p: Policy, s: Db, c: CaseId, known: Case, klass: DiagnosisClass, signal: FailureSignal, now: Instant)
    ensures LadderEntered(p, s, c, known, klass, signal, now).suppressions == s.suppressions
  {
    hide Ladder.Worthwhile, Limits.MayDebit;
    var rung := Ladder.Entry(klass);
    if rung.Some? && Ladder.Worthwhile(p, rung.value, known.amountPaise) {
      LadderAdds(p, s, known, klass, signal, Actor(c, known.customer, Some(signal), now));
    }
  }

  lemma FailureSuppressions(
    p: Policy, tx: Taxonomies.Taxonomy, s: Db, signal: FailureSignal, verdict: Verdict, now: Instant,
    newId: CaseId)
    ensures FailureHandled(p, tx, s, signal, verdict, now, newId).suppressions == s.suppressions
  {
    hide LadderEntered, Taxonomies.Diagnose, Taxonomies.AuthorityOf, Taxonomies.NeedsVerification;
    var e, c := Opened(s, signal, newId), CaseFor(s, signal, newId);
    if c in e.cases {
      var d := Taxonomies.Diagnose(tx, signal);
      var ingested := Recorded(e, c, now, Ingested(false));
      var asked := Recorded(Recorded(ingested, c, now, VerifyFirst), c, now, ConfirmedUnpaid);
      var decided := Diagnosed(d.klass, Taxonomies.AuthorityOf(p, d));
      LadderSuppressions(
        p, Recorded(DiagnosisFiled(ingested, c, d), c, now, decided), c, e.cases[c], d.klass, signal, now);
      LadderSuppressions(
        p, Recorded(DiagnosisFiled(asked, c, d), c, now, decided), c, e.cases[c], d.klass, signal, now);
    }
  }

  lemma MoveSuppressions(env: Env, s: Db, m: Move)
    requires Consistent(s) && Enabled(s, m) && !m.Lift?
    ensures AtMostOneMore(s.suppressions, Apply(env, s, m).suppressions)
  {
    hide Consistent, Effect, AtMostOneMore, StopApplied, ReplyHandled, ReviewResumed, FailureHandled, IsClaim,
      Runner.RunRow, Opened;
    NoMore(s.suppressions);
    match m
    case Stop(code, c, now) => StopSuppressions(s, code, c, s.cases[c].customer, now);
    case Reply(c, known, parsed, now) => ReplySuppressions(env.p, s, c, known, parsed, now);
    case Review(c, known, now) => ReviewAdds(env.p, s, known, ActorOf(s, m));
    case Webhook(event, signal, now, newId) =>
      if !Duplicate(s, m) {
        EnteringKeepsConsistent(s, m);
        FailureSuppressions(env.p, env.tx, Entering(s, m), signal, NoVerifier, now, newId);
      }
    case Failure(signal, verdict, now, newId) =>
      FailureSuppressions(env.p, env.tx, s, signal, verdict, now, newId);
    case Dispatch(id, _, table, response, now) => RowBodyFrame(env.p, s, id, table, response, now);
    case Interrupted(_, _, _) => OpeningSuppressesNothing(s, m.signal, m.newId);
    case _ =>
  }

  lemma OpeningSuppressesNothing(s: Db, signal: FailureSignal, newId: CaseId)
    ensures Opened(s, signal, newId).suppressions == s.suppressions
  {
  }

  lemma LiftKeepsOne(s: Db, id: nat, who: string, at: Instant)
    requires OneStanding(s)
    ensures OneStanding(Lifted(s, id, who, at))
  {
  }

  lemma OneMoreKeepsOne(s: Db, r: Db)
    requires OneStanding(s) && AtMostOneMore(s.suppressions, r.suppressions)
    ensures OneStanding(r)
  {
    var n := |s.suppressions|;
    assert forall i :: 0 <= i < n ==> r.suppressions[i] == r.suppressions[..n][i];
  }

  /** At every point of every run, at most one suppression stands on each scope. */
  lemma {:induction false} AtMostOneStanding(env: Env, moves: seq<Move>, k: nat)
    requires IsRun(env, moves) && k <= |moves|
    ensures OneStanding(StateAt(env, EMPTY, moves, k))
    decreases k
  {
    hide Consistent, Apply, Enabled, OneStanding, AtMostOneMore;
    if k == 0 {
      NoneStanding();
    } else {
      AtMostOneStanding(env, moves, k - 1);
      RunsAreConsistent(env, moves, k - 1);
      var s, m := StateAt(env, EMPTY, moves, k - 1), moves[k - 1];
      NextState(env, moves, k - 1);
      if m.Lift? {
        LiftApplies(env, s, m);
        LiftKeepsOne(s, m.id, m.who, m.now);
      } else {
        MoveSuppressions(env, s, m);
        OneMoreKeepsOne(s, Apply(env, s, m));
      }
    }
  }

  lemma NoneStanding()
    ensures OneStanding(EMPTY)
  {
  }

  lemma LiftApplies(env: Env, s: Db, m: Move)
    requires m.Lift?
    ensures Enabled(s, m) && Apply(env, s, m) == Lifted(s, m.id, m.who, m.now)
  {
  }

  /** So lifting the one that stands frees its scope, and no other: the next stop there starts anew. */
  lemma LiftFreesExactlyItsScope(s: Db, id: nat, who: string, at: Instant, scope: Scope)
    requires OneStanding(s) && id < |s.suppressions| && Stands(s.suppressions[id])
    ensures ScopeSuppressed(Lifted(s, id, who, at), scope)
            <==> ScopeSuppressed(s, scope) && scope != s.suppressions[id].scope
  {
    hide ScopeSuppressed;
    var r := Lifted(s, id, who, at);
    SuppressedMeansStanding(s, scope);
    SuppressedMeansStanding(r, scope);
    if ScopeSuppressed(s, scope) && scope != s.suppressions[id].scope {
      var i :| 0 <= i < |s.suppressions| && StandsOn(s, i, scope);
      assert StandsOn(r, i, scope);
    }
    if ScopeSuppressed(r, scope) {
      var i :| 0 <= i < |r.suppressions| && StandsOn(r, i, scope);
      assert StandsOn(s, i, scope);
    }
  }

  // -- a standing suppression over a run --------------------------------------------

  predicate LiftsOn(s: Db, m: Move, scope: Scope) {
    m.Lift? && StandsOn(s, m.id, scope)
  }

  /** From `j` up to `k` nobody lifts a suppression standing on the scope. */
  predicate NotLifted(env: Env, moves: seq<Move>, j: nat, k: nat, scope: Scope)
    requires j <= k <= |moves|
  {
    forall n :: j <= n < k ==> !LiftsOn(StateAt(env, EMPTY, moves, n), moves[n], scope)
  }

  lemma StandingSurvivesMove(env: Env, s: Db, m: Move, i: nat, scope: Scope)
    requires Consistent(s) && Enabled(s, m) && StandsOn(s, i, scope) && !LiftsOn(s, m, scope)
    ensures StandsOn(Apply(env, s, m), i, scope)
  {
    hide Consistent, Apply;
    if m.Lift? {
      LiftApplies(env, s, m);
    } else {
      MoveSuppressions(env, s, m);
      var n := |s.suppressions|;
      assert Apply(env, s, m).suppressions[..n] == s.suppressions;
      assert Apply(env, s, m).suppressions[..n][i] == s.suppressions[i];
    }
  }

  lemma {:induction false} StandsUntilLifted(env: Env, moves: seq<Move>, j: nat, k: nat, i: nat, scope: Scope)
    requires IsRun(env, moves) && j <= k <= |moves|
    requires StandsOn(StateAt(env, EMPTY, moves, j), i, scope)
    requires NotLifted(env, moves, j, k, scope)
    ensures StandsOn(StateAt(env, EMPTY, moves, k), i, scope)
    decreases k
  {
    hide Consistent, Apply, Enabled, StandsOn, LiftsOn;
    if j < k {
      StandsUntilLifted(env, moves, j, k - 1, i, scope);
      RunsAreConsistent(env, moves, k - 1);
      NextState(env, moves, k - 1);
      StandingSurvivesMove(env, StateAt(env, EMPTY, moves, k - 1), moves[k - 1], i, scope);
    }
  }

  predicate CaseInScope(s: Db, scope: Scope, c: CaseId) {
    c in s.cases && InScope(scope, c, s.cases[c].customer)
  }

  lemma StandingSuppresses(s: Db, i: nat, scope: Scope, c: CaseId)
    requires StandsOn(s, i, scope) && CaseInScope(s, scope, c)
    ensures CaseSuppressed(s, c, s.cases[c].customer)
  {
    assert Matches(s.suppressions[i], Some(c), Some(s.cases[c].customer));
  }

  /** Whether a move calls an executor for a row of a case in scope. */
  predicate Reaches(env: Env, s: Db, m: Move, scope: Scope) {
    && m.Dispatch?
    && m.id < |s.rows|
    && CaseInScope(s, scope, s.rows[m.id].caseId)
    && Runner.Dispatched(Runner.RunRow(env.p, s, m.id, m.table, m.response, m.now).1)
  }

  lemma StandingBarsExecutors(env: Env, s: Db, m: Move, i: nat, scope: Scope)
    requires Consistent(s) && StandsOn(s, i, scope)
    ensures !Reaches(env, s, m, scope)
  {
    hide StandsOn;
    if m.Dispatch? && m.id < |s.rows| && CaseInScope(s, scope, s.rows[m.id].caseId) {
      StandingSuppresses(s, i, scope, s.rows[m.id].caseId);
    }
  }

  /**
   * No executor reaches a case in scope while the suppression stands: not one claimed before the
   * stop, nor one armed after it, nor any case the customer opens later.
   */
  lemma NothingIsDispatchedUntilLifted(env: Env, moves: seq<Move>, j: nat, k: nat, i: nat, scope: Scope)
    requires IsRun(env, moves) && j <= k < |moves|
    requires StandsOn(StateAt(env, EMPTY, moves, j), i, scope)
    requires NotLifted(env, moves, j, k, scope)
    ensures !Reaches(env, StateAt(env, EMPTY, moves, k), moves[k], scope)
  {
    hide Consistent, StateAt, IsRun, StandsOn, Reaches;
    StandsUntilLifted(env, moves, j, k, i, scope);
    RunsAreConsistent(env, moves, k);
    StandingBarsExecutors(env, StateAt(env, EMPTY, moves, k), moves[k], i, scope);
  }

  /** The stop a move applies: its own, or the one a reply is decided to be. */
  function StopOf(env: Env, s: Db, m: Move): Option<StopCode> {
    match m
    case Stop(code, _, _) => Some(code)
    case Reply(c, known, parsed, now) =>
      if CaseSuppressed(s, c, known.customer) then None
      else Replies.Decision(env.p, parsed, DateOf(now), None).stopCode
    case _ => None
  }

  /** A reply raises the stop that was detected in it, unless its case is barred already. */
  lemma RepliesStopByDetection(env: Env, s: Db, m: Move)
    requires m.Reply? && Enabled(s, m)
    ensures var barred := Barred(s, OnCase(m.c)) || Barred(s, OnCustomer(s.cases[m.c].customer));
            var parsed, p := m.parsed, env.p;
            && (StopOf(env, s, m) == Some(DISTRESS) <==>
                  !barred && !parsed.failed && Replies.Distressing(p, parsed))
            && (StopOf(env, s, m) == Some(DISPUTE) <==>
                  !barred && !parsed.failed && !Replies.Distressing(p, parsed) && Replies.Disputing(p, parsed))
            && (StopOf(env, s, m) == Some(OPT_OUT) <==>
                  !barred && !parsed.failed && !Replies.Distressing(p, parsed) && !Replies.Disputing(p, parsed)
                  && Replies.OptingOut(p, parsed))
            && (StopOf(env, s, m).None? <==> barred || parsed.failed || Replies.Unstopped(p, parsed))
  {
    hide Replies.Decision, CaseSuppressed, Barred, Replies.Distressing, Replies.Disputing, Replies.OptingOut,
      Replies.Unstopped;
    BarsAreWhatGatesRead(s, m.c, s.cases[m.c].customer);
    Replies.StopsByDetection(env.p, m.parsed, DateOf(m.now), None);
  }

  /** Whoever raises it, a stop does the same to the queue and to the suppressions. */
  lemma AppliesTheStop(env: Env, s: Db, m: Move)
    requires (m.Stop? || m.Reply?) && Enabled(s, m) && StopOf(env, s, m).Some?
    ensures var r, code := Apply(env, s, m), StopOf(env, s, m).value;
            var stopped := StopApplied(s, code, m.c, s.cases[m.c].customer, m.now);
            (r.rows, r.suppressions) == (stopped.rows, stopped.suppressions)
  {
    hide Replies.Decision, ScopeSuppressed, Count;
    var customer := s.cases[m.c].customer;
    if m.Reply? {
      var code := StopOf(env, s, m).value;
      var read := Recorded(s, m.c, m.now, ReplyRead(Replies.Decision(env.p, m.parsed, DateOf(m.now), None).rules));
      RecordFirst(s, read, code, m.c, customer, m.now);
    }
  }

  lemma RecordFirst(s: Db, read: Db, code: StopCode, c: CaseId, customer: CustomerRef, now: Instant)
    requires (read.rows, read.suppressions) == (s.rows, s.suppressions)
    ensures StopApplied(read, code, c, customer, now).rows == StopApplied(s, code, c, customer, now).rows
    ensures StopApplied(read, code, c, customer, now).suppressions
            == StopApplied(s, code, c, customer, now).suppressions
  {
    hide StopApplied, ScopeSuppressed, AtMostOneMore;
    StopRows(s, code, c, customer, now);
    StopRows(read, code, c, customer, now);
    StopSuppressions(s, code, c, customer, now);
    StopSuppressions(read, code, c, customer, now);
    SameSuppressions(s, read, ScopeOf(code, c, customer));
  }

  /** From the stop itself: it clears its scope, and nothing is dispatched there until it is lifted. */
  lemma AStopWins(env: Env, moves: seq<Move>, j: nat, k: nat, code: StopCode)
    requires IsRun(env, moves) && j < k < |moves| && (moves[j].Stop? || moves[j].Reply?)
    requires StopOf(env, StateAt(env, EMPTY, moves, j), moves[j]) == Some(code)
    requires code != RETRY_CAP
    ensures moves[j].c in StateAt(env, EMPTY, moves, j).cases
    ensures var scope := Reach(code, moves[j].c, StateAt(env, EMPTY, moves, j).cases[moves[j].c].customer);
            && Count(StateAt(env, EMPTY, moves, j + 1).rows, LiveIn(scope)) == 0
            && (NotLifted(env, moves, j + 1, k, scope) ==>
                  !Reaches(env, StateAt(env, EMPTY, moves, k), moves[k], scope))
  {
    hide Consistent, StateAt, IsRun, StandsOn, Reaches, StopApplied, OneStanding, StopOf, NotLifted, Count, LiveIn,
      Live, RowInScope;
    var s, m := StateAt(env, EMPTY, moves, j), moves[j];
    NextState(env, moves, j);
    AtMostOneStanding(env, moves, j);
    AppliesTheStop(env, s, m);
    var customer := s.cases[m.c].customer;
    ReachIsTheScope(code, m.c, customer);
    StopClearsItsScope(s, code, m.c, customer, m.now);
    StopLeavesOneStanding(s, code, m.c, customer, m.now);
    var r, scope := StopApplied(s, code, m.c, customer, m.now), ScopeOf(code, m.c, customer);
    var i :| 0 <= i < |r.suppressions| && StandsOn(r, i, scope);
    SameStanding(r, StateAt(env, EMPTY, moves, j + 1), i, scope);
    if NotLifted(env, moves, j + 1, k, scope) {
      NothingIsDispatchedUntilLifted(env, moves, j + 1, k, i, scope);
    }
  }

  lemma SameStanding(s: Db, r: Db, i: nat, scope: Scope)
    requires r.suppressions == s.suppressions && StandsOn(s, i, scope)
    ensures StandsOn(r, i, scope)
  {
  }

  // -- work that arrives under a stop ------------------------------------------------

  /** A failure on a stopped case, new or old, queues nothing and cancels nothing. */
  lemma FailureUnderAStop(env: Env, s: Db, m: Move, i: nat, scope: Scope)
    requires Consistent(s) && (m.Webhook? || m.Failure?) && Enabled(s, m)
    requires StandsOn(s, i, scope)
    requires InScope(scope, CaseFor(s, m.signal, m.newId), CustomerFor(s, m))
    ensures Apply(env, s, m).rows == s.rows
  {
    hide Consistent, Opened, DiagnosedAndWorked;
    EnteringKeepsConsistent(s, m);
    var e, c := Entering(s, m), CaseFor(s, m.signal, m.newId);
    assert Matches(e.suppressions[i], Some(c), Some(e.cases[c].customer));
    if !Duplicate(s, m) {
      var verdict := if m.Webhook? then NoVerifier else m.verdict;
      assert Apply(env, s, m) == FailureHandled(env.p, env.tx, e, m.signal, verdict, m.now, m.newId);
    }
  }

  /** A reply on a stopped case is recorded and not acted on. */
  lemma ReplyUnderAStop(env: Env, s: Db, m: Move, i: nat, scope: Scope)
    requires m.Reply? && Enabled(s, m) && StandsOn(s, i, scope) && CaseInScope(s, scope, m.c)
    ensures Apply(env, s, m) == Recorded(s, m.c, m.now, ReplyNotActedOn)
  {
    StandingSuppresses(s, i, scope, m.c);
  }

  // -- a stop taken apart -----------------------------------------------------------

  predicate NoneLive(s: Db, scope: Scope) {
    forall i :: 0 <= i < |s.rows| ==> !(Live(s.rows[i]) && RowInScope(scope, s.rows[i]))
  }

  /** What workers do: reclaim, claim, and run rows they hold. */
  predicate WorkersMove(s: Db, m: Move) {
    m.Release? || m.Claim? || (m.Dispatch? && Allowance.HeldByRunner(s, m))
  }

  /** Once nothing in scope is live, workers that hold their rows reach nothing there, and revive nothing. */
  lemma WorkersReachNothing(env: Env, s: Db, m: Move, scope: Scope)
    requires Consistent(s) && Enabled(s, m) && NoneLive(s, scope) && WorkersMove(s, m)
    ensures NoneLive(Apply(env, s, m), scope) && !Reaches(env, s, m, scope)
  {
    hide Consistent, NewRowOf, Runner.RunRow, CaseSuppressed, IsClaim;
    EveryRowMoves(env, s, m);
    MovePreserves(env, s, m);
    WorkersAddNothing(env, s, m);
    if m.Dispatch? && m.id < |s.rows| {
      RowIsOwned(s, m.id);
      BodyEnds(env.p, s, m.id, m.table, m.response, m.now);
    }
    var r := Apply(env, s, m);
    forall i | 0 <= i < |r.rows|
      ensures !(Live(r.rows[i]) && RowInScope(scope, r.rows[i]))
    {
      assert RowMoves(env, s, m, i, r.rows[i]) && SameRow(s.rows[i], r.rows[i]);
      if m.Claim? && i in m.ids {
        Leases.ClaimGivesLease(env, s, m, i);
      }
    }
  }

  lemma WorkersAddNothing(env: Env, s: Db, m: Move)
    requires Enabled(s, m) && WorkersMove(s, m)
    ensures |Apply(env, s, m).rows| == |s.rows|
  {
    hide IsClaim, Runner.RunRow;
    if m.Dispatch? {
      RowBodyFrame(env.p, s, m.id, m.table, m.response, m.now);
    }
  }

  /** The workers' moves between the cancelling of a stop and its suppressing, each enabled where it falls. */
  predicate WorkersBetween(env: Env, s: Db, moves: seq<Move>) {
    forall k :: 0 <= k < |moves| ==>
      Enabled(StateAt(env, s, moves, k), moves[k]) && WorkersMove(StateAt(env, s, moves, k), moves[k])
  }

  lemma {:induction false} NothingRunsBetween(env: Env, s: Db, moves: seq<Move>, k: nat, scope: Scope)
    requires Consistent(s) && NoneLive(s, scope) && WorkersBetween(env, s, moves) && k <= |moves|
    ensures Consistent(StateAt(env, s, moves, k)) && NoneLive(StateAt(env, s, moves, k), scope)
    ensures k < |moves| ==> !Reaches(env, StateAt(env, s, moves, k), moves[k], scope)
    decreases k
  {
    hide Consistent, NoneLive, Enabled, Apply, WorkersMove, Reaches;
    if k > 0 {
      NothingRunsBetween(env, s, moves, k - 1, scope);
      WorkersReachNothing(env, StateAt(env, s, moves, k - 1), moves[k - 1], scope);
      MoveKeepsConsistent(env, StateAt(env, s, moves, k - 1), moves[k - 1]);
    }
    if k < |moves| {
      WorkersReachNothing(env, StateAt(env, s, moves, k), moves[k], scope);
    }
  }

  /**
   * A stop wins even where it is not one step. Between the transaction that cancels and the one that
   * suppresses, workers that hold their rows may reclaim, claim and run as they like: nothing in
   * scope is dispatched, nothing there is live when the suppression lands, and it then stands.
   */
  lemma AStopWinsPieceByPiece(
    env: Env, s: Db, scope: Scope, code: StopCode, now: Instant, moves: seq<Move>, k: nat)
    requires Consistent(s)
    requires WorkersBetween(env, Cancels(s, scope, ByStop(code), Some(now)), moves) && k <= |moves|
    ensures var cancelled := Cancels(s, scope, ByStop(code), Some(now));
            var here := StateAt(env, cancelled, moves, k);
            && NoneLive(here, scope)
            && (k < |moves| ==> !Reaches(env, here, moves[k], scope))
            && StandsOn(Suppresses(here, scope, code, now), |here.suppressions|, scope)
  {
    hide Enabled, Apply, Consistent, WorkersMove, Reaches, StateAt;
    var cancelled := Cancels(s, scope, ByStop(code), Some(now));
    assert Consistent(cancelled) by { CancellingIsConsistent(s, scope, ByStop(code), Some(now)); }
    NothingRunsBetween(env, cancelled, moves, k, scope);
  }

  lemma CancellingIsConsistent(s: Db, scope: Scope, reason: CancelReason, now: Option<Instant>)
    requires Consistent(s)
    ensures Consistent(Cancels(s, scope, reason, now))
  {
    SameRowsConsistent(s, Cancels(s, scope, reason, now));
  }
}
