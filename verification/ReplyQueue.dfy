/**
 * What a reply leaves in the queue. A stop or a hold leaves the case nothing live; a promise kept to
 * leaves it one debit, on or after the day promised; a promise the cap refuses leaves at most the
 * recovery link; and every other reply leaves the queue alone.
 */
module ReplyQueue {
  import opened Sequences
  import opened Models
  import opened Policies
  import opened Stops
  import opened Tables
  import opened Agent
  import opened Runs
  import Escalation
  import Ladder
  import Limits
  import Replies
  import Scheduler
  import StopsLast

  function LiveOn(rows: seq<Row>, c: CaseId): nat {
    Count(rows, LiveIn(OnCase(c)))
  }

  lemma ClearedCase(rows: seq<Row>, scope: Scope, c: CaseId, reason: CancelReason, now: Option<Instant>)
    requires forall i :: 0 <= i < |rows| && rows[i].caseId == c ==> RowInScope(scope, rows[i])
    ensures LiveOn(CancelRows(rows, scope, reason, now), c) == 0
  {
    CountZero(CancelRows(rows, scope, reason, now), LiveIn(OnCase(c)));
  }

  lemma OneMoreLive(rows: seq<Row>, row: Row, c: CaseId)
    ensures LiveOn(rows + [row], c) == LiveOn(rows, c) + (if Live(row) && row.caseId == c then 1 else 0)
  {
    CountAppend(rows, row, LiveIn(OnCase(c)));
  }

  // -- a promise ---------------------------------------------------------------

  /** The debit a promise is moved to: the least legal instant from contact-open on the day promised. */
  predicate Promised(p: Policy, row: Row, c: CaseId, day: Date, rail: Rail, now: Instant) {
    && row.kind == Retry && row.caseId == c && row.state.Pending?
    && row.scheduledFor == Some(Scheduler.Placed(p, At(day, p.contactOpen), Some(now), rail))
    && At(day, p.contactOpen) <= row.scheduledFor.value
    && now <= row.scheduledFor.value
  }

  lemma ArmedRow(p: Policy, s: Db, c: CaseId, known: Case, day: Date, rail: Rail, now: Instant)
    ensures var r := RetryArmed(p, s, c, known, At(day, p.contactOpen), rail, now);
            if CapSpent(p, known) then r.rows == s.rows
            else
              && |r.rows| == |s.rows| + 1 && r.rows[..|s.rows|] == s.rows
              && Promised(p, r.rows[|s.rows|], c, day, rail, now)
  {
    hide Scheduler.Placed;
    Scheduler.RetryIsLeastLegal(p, At(day, p.contactOpen), known.retryCount, Some(now), rail);
  }

  lemma RealignedQueue(p: Policy, s: Db, c: CaseId, known: Case, day: Date, now: Instant)
    requires c in s.cases
    ensures var r, n := Agent.RealignedTo(p, s, c, known, day, now), |s.rows|;
            && n <= |r.rows| <= n + 1
            && LiveOn(r.rows, c) == |r.rows| - n
            && (!AmountOk(p, SignalOf(s, c)) ==> |r.rows| == n)
            && (AmountOk(p, SignalOf(s, c)) && !CapSpent(p, known) ==>
                  && |r.rows| == n + 1
                  && Promised(p, r.rows[n], c, day, RailOf(SignalOf(s, c).value.methodName), now))
            && (AmountOk(p, SignalOf(s, c)) && CapSpent(p, known) && |r.rows| == n + 1 ==>
                  r.rows[n] == Escalation.LinkFor(c, s.cases[c], now))
  {
    hide EscalatedBeyondCap, Limits.MayDebit, RetryArmed, LiveOn, CancelRows, Promised, Ladder.Worthwhile;
    var cleared := Cancels(s, OnCase(c), Tables.RealignedTo, Some(now));
    ClearedCase(s.rows, OnCase(c), c, Tables.RealignedTo, Some(now));
    assert |cleared.rows| == |s.rows| by { CancellingKeepsLength(s.rows, OnCase(c), Tables.RealignedTo, Some(now)); }
    if AmountOk(p, SignalOf(s, c)) {
      var rail := RailOf(SignalOf(s, c).value.methodName);
      var armed := RetryArmed(p, cleared, c, known, At(day, p.contactOpen), rail, now);
      ArmedRow(p, cleared, c, known, day, rail, now);
      Escalation.ArmingKeepsCases(p, cleared, c, known, At(day, p.contactOpen), rail, now);
      if CapSpent(p, known) {
        var quieted := Suspended(armed, c, Some(day));
        var latest := LatestIn(quieted.diagnoses, c);
        var klass := if latest.Some? then Some(latest.value.klass) else None;
        Escalation.AfterTheCap(p, quieted, c, quieted.cases[c], klass, now);
        OneMoreLive(cleared.rows, Escalation.LinkFor(c, quieted.cases[c], now), c);
      } else {
        assert armed.rows == cleared.rows + [armed.rows[|s.rows|]];
        OneMoreLive(cleared.rows, armed.rows[|s.rows|], c);
        PromisedIsLive(p, armed.rows[|s.rows|], c, day, rail, now);
      }
    }
  }

  lemma PromisedIsLive(p: Policy, row: Row, c: CaseId, day: Date, rail: Rail, now: Instant)
    requires Promised(p, row, c, day, rail, now)
    ensures Live(row) && row.caseId == c
  {
  }

  // -- any reply -----------------------------------------------------------------

  lemma StoppedQueue(s: Db, code: StopCode, c: CaseId, customer: CustomerRef, now: Instant)
    requires Consistent(s) && c in s.cases && s.cases[c].customer == customer
    ensures LiveOn(StopApplied(s, code, c, customer, now).rows, c) == 0
  {
    hide StopApplied, LiveOn, CancelRows;
    StopsLast.StopRows(s, code, c, customer, now);
    ClearedCase(s.rows, ScopeOf(code, c, customer), c, ByStop(code), Some(now));
  }

  /** What is left live on the case after a reply, by what was detected in it. */
  lemma AReplyBoundsTheQueue(p: Policy, s: Db, c: CaseId, known: Case, parsed: Replies.ParsedReply, now: Instant)
    requires Consistent(s) && ReadOf(s, c, known)
    ensures var r, n := ReplyHandled(p, s, c, known, parsed, now), |s.rows|;
            if CaseSuppressed(s, c, known.customer) then r.rows == s.rows
            else if !Replies.Unstopped(p, parsed) || Replies.ForAPerson(p, parsed) then LiveOn(r.rows, c) == 0
            else if !Replies.PromisesADay(p, parsed, DateOf(now)) then r.rows == s.rows
            else if !AmountOk(p, SignalOf(s, c)) then LiveOn(r.rows, c) == 0
            else if CapSpent(p, known) then
              LiveOn(r.rows, c) == |r.rows| - n <= 1
              && (|r.rows| == n + 1 ==> r.rows[n] == Escalation.LinkFor(c, s.cases[c], now))
            else
              LiveOn(r.rows, c) == |r.rows| - n == 1
              && Promised(p, r.rows[n], c, parsed.date.date, RailOf(SignalOf(s, c).value.methodName), now)
  {
    hide Replies.Decision, StopApplied, Agent.RealignedTo, Consistent, LiveOn, Limits.MayDebit, Promised, CancelRows,
      Replies.Unstopped, Replies.ForAPerson, Replies.PromisesADay;
    var out := Replies.Decision(p, parsed, DateOf(now), None);
    var read := Recorded(s, c, now, ReplyRead(out.rules));
    Replies.StopsByDetection(p, parsed, DateOf(now), None);
    Replies.PeopleByDetection(p, parsed, DateOf(now), None);
    Replies.DaysByDetection(p, parsed, DateOf(now));
    assert parsed.failed ==> Replies.ForAPerson(p, parsed) by { Replies.TheUnreadAreForAPerson(p, parsed); }
    if !CaseSuppressed(s, c, known.customer) {
      if out.stopCode.Some? {
        RecordKeepsConsistent(s, c, now, ReplyRead(out.rules));
        StoppedQueue(read, out.stopCode.value, c, known.customer, now);
      } else if out.needsHuman {
        ClearedCase(s.rows, OnCase(c), c, HeldForPerson, Some(now));
      } else if out.realignTo.Some? {
        RealignedQueue(p, read, c, known, out.realignTo.value, now);
      }
    }
  }

  /** A promise is honoured by silence until its day, whatever becomes of the debit. */
  lemma ARealignmentSilences(p: Policy, s: Db, c: CaseId, known: Case, day: Date, now: Instant)
    requires c in s.cases
    ensures var r := Agent.RealignedTo(p, s, c, known, day, now);
            && c in r.cases
            && r.cases == s.cases[c := s.cases[c].(suspendedUntil := Some(day), state := r.cases[c].state)]
  {
    hide EscalatedBeyondCap, Limits.MayDebit, RetryArmed, CancelRows;
    var cleared := Cancels(s, OnCase(c), Tables.RealignedTo, Some(now));
    if AmountOk(p, SignalOf(s, c)) {
      var rail := RailOf(SignalOf(s, c).value.methodName);
      var armed := RetryArmed(p, cleared, c, known, At(day, p.contactOpen), rail, now);
      Escalation.ArmingKeepsCases(p, cleared, c, known, At(day, p.contactOpen), rail, now);
      var quieted := Suspended(armed, c, Some(day));
      var latest := LatestIn(quieted.diagnoses, c);
      var klass := if latest.Some? then Some(latest.value.klass) else None;
      Escalation.EscalatingTouchesOneState(p, quieted, c, quieted.cases[c], klass, now);
    }
  }

  /**
   * What a reply makes of the case: a reply that needs a person reaches one, whatever stop came with
   * it; a promise silences nudges until its day; and no other case is touched.
   */
  lemma AReplySettlesItsCase(p: Policy, s: Db, c: CaseId, known: Case, parsed: Replies.ParsedReply, now: Instant)
    requires ReadOf(s, c, known) && !CaseSuppressed(s, c, known.customer)
    ensures var r := ReplyHandled(p, s, c, known, parsed, now);
            var held, promised := Replies.ForAPerson(p, parsed), Replies.PromisesADay(p, parsed, DateOf(now));
            && c in r.cases
            && (forall d :: d in s.cases && d != c ==> d in r.cases && r.cases[d] == s.cases[d])
            && (held ==> r.cases[c] == s.cases[c].(state := HeldForHuman))
            && (promised ==> r.cases[c].suspendedUntil == Some(parsed.date.date))
            && (!held && !promised ==> r.cases == s.cases)
  {
    hide Replies.Decision, StopApplied, Agent.RealignedTo, CancelRows, Replies.ForAPerson, Replies.PromisesADay;
    var out := Replies.Decision(p, parsed, DateOf(now), None);
    var read := Recorded(s, c, now, ReplyRead(out.rules));
    Replies.NoReplyIsDropped(p, parsed, DateOf(now), None);
    Replies.StopsOfAReply(p, parsed, DateOf(now), None);
    Replies.PeopleByDetection(p, parsed, DateOf(now), None);
    Replies.DaysByDetection(p, parsed, DateOf(now));
    if out.stopCode.Some? {
      StopsLast.StopSettlesItsCase(read, out.stopCode.value, c, known.customer, now);
    } else if out.realignTo.Some? {
      ARealignmentSilences(p, read, c, known, out.realignTo.value, now);
    }
  }

  lemma RecordKeepsConsistent(s: Db, c: CaseId, at: Instant, decided: Decided)
    requires Consistent(s) && c in s.cases
    ensures Consistent(Recorded(s, c, at, decided))
  {
  }

  /**
   * A complaint's own reason says recovery is paused, but nothing pauses: it leaves every action on
   * the case as it was.
   */
  lemma AComplaintPausesNothing(p: Policy, s: Db, c: CaseId, known: Case, parsed: Replies.ParsedReply, now: Instant)
    requires Consistent(s) && ReadOf(s, c, known)
    requires Replies.Unstopped(p, parsed) && !Replies.Cancelling(p, parsed) && Replies.Complaining(p, parsed)
    ensures Replies.Decision(p, parsed, DateOf(now), None).routeToSupport
    ensures ReplyHandled(p, s, c, known, parsed, now).rows == s.rows
  {
    hide Replies.Decision, ReplyHandled, Consistent;
    AReplyBoundsTheQueue(p, s, c, known, parsed, now);
    Replies.RoutesByDetection(p, parsed, DateOf(now), None);
  }
}
