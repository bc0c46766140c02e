/**
 * A pass drains. It leaves exactly the due rows its limit kept it from and those an executor sent
 * straight back; with executors that settle what they are given, enough passes at one time reach a
 * point where a further pass changes nothing.
 */
module Draining {
  import opened Sequences
  import opened Models
  import opened Policies
  import opened Windows
  import opened Tables
  import opened Runs
  import opened Histories
  import opened Leases
  import Allowance
  import Runner

  // -- what one body leaves --------------------------------------------------------

  /** A row whose body left it due again at the very time it ran. */
  predicate ComesBack(fate: Runner.Fate, now: Instant) {
    (fate.Moved? && fate.due <= now) || (fate.Closed? && fate.state.Pending?)
  }

  function Again(now: Instant): Runner.Fate -> bool {
    fate => ComesBack(fate, now)
  }

  /** A claimed row is out of the due pool, and back in it exactly when its fate sends it back. */
  lemma BodyDue(
    p: Policy, s: Db, id: nat, table: set<ActionKind>, response: Runner.Response, now: Instant)
    requires id < |s.rows| && s.rows[id].state.Leased?
    requires s.rows[id].scheduledFor.Some? && s.rows[id].scheduledFor.value <= now
    ensures var (r, fate) := Runner.RunRow(p, s, id, table, response, now);
            DueCount(r.rows, now) == DueCount(s.rows, now) + (if ComesBack(fate, now) then 1 else 0)
  {
    hide Runner.RunRow, DueCount;
    var (r, fate) := Runner.RunRow(p, s, id, table, response, now);
    BodyEnds(p, s, id, table, response, now);
    ReplacingDue(s.rows, id, r.rows[id], now);
  }

  lemma ReplacingDue(rows: seq<Row>, id: nat, row: Row, now: Instant)
    requires id < |rows|
    ensures DueCount(rows[id := row], now) + (if Due(rows[id], now) then 1 else 0)
            == DueCount(rows, now) + (if Due(row, now) then 1 else 0)
  {
    CountUpdate(rows, id, row, DueAt(now));
  }

  // -- what a pass leaves ------------------------------------------------------------

  predicate HeldNow(rows: seq<Row>, ids: seq<nat>, now: Instant) {
    forall k :: 0 <= k < |ids| ==>
      && ids[k] < |rows| && rows[ids[k]].state.Leased?
      && rows[ids[k]].scheduledFor.Some? && rows[ids[k]].scheduledFor.value <= now
  }

  /** Rows a pass did not claim are untouched, and each it did ended as its fate says. */
  predicate PassEnded(rows: seq<Row>, ids: seq<nat>, after: seq<Row>, fates: seq<Runner.Fate>)
    requires forall k :: 0 <= k < |ids| ==> ids[k] < |rows|
  {
    && |after| == |rows|
    && |fates| == |ids|
    && (forall i :: 0 <= i < |rows| && i !in ids ==> after[i] == rows[i])
    && (forall k :: 0 <= k < |ids| ==> Ended(rows[ids[k]], fates[k], after[ids[k]]))
  }

  lemma {:induction false} RunRowsEnd(
    p: Policy, s: Db, ids: seq<nat>, table: set<ActionKind>, responses: nat -> Runner.Response, now: Instant)
    requires Distinct(ids) && HeldNow(s.rows, ids, now)
    ensures var (r, fates) := Runner.RunRows(p, s, ids, table, responses, now);
            && PassEnded(s.rows, ids, r.rows, fates)
            && DueCount(r.rows, now) == DueCount(s.rows, now) + Count(fates, Again(now))
    decreases |ids|
  {
    if ids != [] {
      hide Runner.RunRow, DueCount, Ended;
      var n := |ids| - 1;
      var (m, before) := Runner.RunRows(p, s, ids[..n], table, responses, now);
      RunRowsEnd(p, s, ids[..n], table, responses, now);
      assert ids[n] !in ids[..n];
      BodyEnds(p, m, ids[n], table, responses(ids[n]), now);
      BodyDue(p, m, ids[n], table, responses(ids[n]), now);
      var (r, fate) := Runner.RunRow(p, m, ids[n], table, responses(ids[n]), now);
      CountAppend(before, fate, Again(now));
      NextEnded(s.rows, ids, m.rows, r.rows, before, fate);
    } else {
      assert DueCount(s.rows, now) == DueCount(s.rows, now) + Count<Runner.Fate>([], Again(now));
    }
  }

  lemma NextEnded(
    rows: seq<Row>, ids: seq<nat>, mid: seq<Row>, after: seq<Row>, before: seq<Runner.Fate>, fate: Runner.Fate)
    requires ids != [] && Distinct(ids) && forall k :: 0 <= k < |ids| ==> ids[k] < |rows|
    requires var n := |ids| - 1;
             && PassEnded(rows, ids[..n], mid, before)
             && |after| == |rows|
             && after == mid[ids[n] := after[ids[n]]]
             && Ended(rows[ids[n]], fate, after[ids[n]])
    ensures PassEnded(rows, ids, after, before + [fate])
  {
    hide Ended;
    var n := |ids| - 1;
    assert forall i :: i !in ids ==> i !in ids[..n] && i != ids[n];
    forall k | 0 <= k < |ids|
      ensures Ended(rows[ids[k]], (before + [fate])[k], after[ids[k]])
    {
      if k < n {
        assert ids[..n][k] == ids[k] && ids[k] != ids[n];
      }
    }
  }

  /** The rows a pass starts from, once it has reclaimed and claimed. */
  lemma ClaimedAreHeld(rows: seq<Row>, now: Instant, limit: nat, ids: seq<nat>, until: Instant, who: Worker)
    requires IsClaim(rows, now, limit, ids)
    ensures HeldNow(LeaseRows(rows, ids, until, who), ids, now) && Distinct(ids)
  {
    forall k | 0 <= k < |ids|
      ensures ids[k] < |rows| && Due(rows[ids[k]], now) && ids[k] in ids
    {
    }
  }

  /** Each row of a pass, after it. */
  predicate Left(row: Row, fate: Runner.Fate) {
    && (row.state.Leased? <==> fate.Closed? && fate.state.Leased?)
    && row.leasedUntil.None?
    && (fate.Moved? ==> row.state.Pending? && row.scheduledFor == Some(fate.due))
  }

  lemma EndedLeaves(row: Row, fate: Runner.Fate, after: Row)
    requires row.state.Leased? && Ended(row, fate, after)
    ensures Left(after, fate)
  {
  }

  /** What a pass claims, in the state it claims it in. */
  lemma TheClaim(s: Db, ids: seq<nat>, limit: nat, now: Instant, who: Worker)
    requires IsClaim(ReleaseRows(s.rows, now), now, limit, ids)
    ensures var c := Runner.Claimed(Runner.Reclaimed(s, now), now, ids, who);
            && |c.rows| == |s.rows|
            && HeldNow(c.rows, ids, now) && Distinct(ids)
            && DueCount(c.rows, now) == Max(0, DueCount(ReleaseRows(s.rows, now), now) - limit)
            && (forall i :: 0 <= i < |s.rows| && i !in ids ==> c.rows[i] == ReleaseRow(s.rows[i], now))
            && (forall i :: 0 <= i < |s.rows| ==> c.rows[i].kind == s.rows[i].kind)
            && (forall k :: 0 <= k < |ids| ==> c.rows[ids[k]].worker == Some(who))
  {
    hide DueCount, IsClaim;
    ClaimedAreHeld(ReleaseRows(s.rows, now), now, limit, ids, now + Runner.LEASE, who);
    ClaimTakesWhatItCan(ReleaseRows(s.rows, now), now, limit, ids, now + Runner.LEASE, who);
  }

  /**
   * A pass over a claim: the rows it did not take are as the reclaim left them, none of its rows
   * is still leased unless its executor said so, a deferred row waits for the time it was given,
   * and what is left due is what the limit left behind and what was sent straight back.
   */
  lemma APassDrains(
    p: Policy, s: Db, ids: seq<nat>, limit: nat, table: set<ActionKind>,
    responses: nat -> Runner.Response, now: Instant, who: Worker)
    requires IsClaim(ReleaseRows(s.rows, now), now, limit, ids)
    ensures var (r, fates) := Runner.Pass(p, s, ids, table, responses, now, who);
            && |r.rows| == |s.rows| && |fates| == |ids|
            && (forall i :: 0 <= i < |s.rows| && i !in ids ==> r.rows[i] == ReleaseRow(s.rows[i], now))
            && (forall k :: 0 <= k < |ids| ==> ids[k] < |r.rows| && Left(r.rows[ids[k]], fates[k]))
            && DueCount(r.rows, now)
               == Max(0, DueCount(ReleaseRows(s.rows, now), now) - limit) + Count(fates, Again(now))
  {
    hide Runner.RunRows, Runner.Claimed, Runner.Reclaimed, DueCount, IsClaim, Count, Left, Ended;
    TheClaim(s, ids, limit, now, who);
    var c := Runner.Claimed(Runner.Reclaimed(s, now), now, ids, who);
    RunRowsEnd(p, c, ids, table, responses, now);
    var (r, fates) := Runner.RunRows(p, c, ids, table, responses, now);
    forall k | 0 <= k < |ids|
      ensures ids[k] < |r.rows| && Left(r.rows[ids[k]], fates[k])
    {
      EndedLeaves(c.rows[ids[k]], fates[k], r.rows[ids[k]]);
    }
  }

  // -- executors that settle what they are given ----------------------------------------

  /** An answer that settles a row, or puts it off to a later time. */
  predicate Settles(response: Runner.Response, now: Instant) {
    response.Returned? ==>
      if Runner.Deferred(response.outcome) then response.outcome.retryAt.value > now
      else !(response.outcome.state.Pending? || response.outcome.state.Leased?)
  }

  /** A refused nudge is always put off to a later time: no clock or history makes it come straight back. */
  lemma NudgesSettle(p: Policy, s: Db, c: CaseId, now: Instant)
    ensures Settles(Runner.Returned(Runner.NudgeOutcome(p, s, c, now)), now)
  {
    if c in s.cases {
      var recent := Runner.Recent(p, s, s.cases[c].customer, now);
      var since := now - p.contactWindow;
      RecentIsSorted(p, s, s.cases[c].customer, now);
      NextContactIsLeast(p, now);
      if s.cases[c].suspendedUntil.Some? {
        LaterDay(p, now, s.cases[c].suspendedUntil.value);
      }
      if !ContactBudget(p, recent, now).allowed {
        DeferralIsExact(p, recent, now);
      }
    }
  }

  lemma RecentIsSorted(p: Policy, s: Db, customer: CustomerRef, now: Instant)
    ensures Sorted(Runner.Recent(p, s, customer, now))
  {
    OldestFirstIsExact(Deliveries(s.audit, s.cases, customer), now - p.contactWindow, now - p.contactWindow);
  }

  lemma LaterDay(p: Policy, now: Instant, day: Date)
    ensures DateOf(now) < day ==> At(day, p.contactOpen) > now
  {
    Recompose(now);
  }

  /** The debit executor the system ships with settles every row: it hands it to a person. */
  lemma ShippedDebitSettles(now: Instant)
    ensures Settles(Runner.NO_DEBIT_ADAPTER, now)
  {
  }

  predicate AllSettle(responses: nat -> Runner.Response, now: Instant, rows: seq<Row>) {
    forall i :: 0 <= i < |rows| && rows[i].kind != NUDGE ==> Settles(responses(i), now)
  }

  lemma SettledBodies(
    p: Policy, s: Db, id: nat, table: set<ActionKind>, response: Runner.Response, now: Instant)
    requires id < |s.rows| && (s.rows[id].kind != NUDGE ==> Settles(response, now))
    ensures var fate := Runner.RunRow(p, s, id, table, response, now).1;
            !ComesBack(fate, now) && !(fate.Closed? && fate.state.Leased?)
  {
    hide Runner.NudgeOutcome, CaseSuppressed;
    NudgesSettle(p, s, s.rows[id].caseId, now);
  }

  predicate NoneReturn(fates: seq<Runner.Fate>, now: Instant) {
    forall k :: 0 <= k < |fates| ==> !ComesBack(fates[k], now) && !(fates[k].Closed? && fates[k].state.Leased?)
  }

  lemma {:induction false} SettledRows(
    p: Policy, s: Db, ids: seq<nat>, table: set<ActionKind>, responses: nat -> Runner.Response, now: Instant)
    requires forall k :: 0 <= k < |ids| ==> ids[k] < |s.rows|
    requires AllSettle(responses, now, s.rows)
    ensures var (r, fates) := Runner.RunRows(p, s, ids, table, responses, now);
            && |r.rows| == |s.rows|
            && (forall i :: 0 <= i < |s.rows| ==> r.rows[i].kind == s.rows[i].kind)
            && NoneReturn(fates, now)
    decreases |ids|
  {
    if ids != [] {
      hide Runner.RunRow, Settles, ComesBack, BodyFrame;
      var n := |ids| - 1;
      var (m, before) := Runner.RunRows(p, s, ids[..n], table, responses, now);
      SettledRows(p, s, ids[..n], table, responses, now);
      SettledBodies(p, m, ids[n], table, responses(ids[n]), now);
      BodyKeepsKinds(p, m, ids[n], table, responses(ids[n]), now);
    }
  }

  lemma BodyKeepsKinds(
    p: Policy, s: Db, id: nat, table: set<ActionKind>, response: Runner.Response, now: Instant)
    ensures var r := Runner.RunRow(p, s, id, table, response, now).0;
            |r.rows| == |s.rows| && forall i :: 0 <= i < |s.rows| ==> r.rows[i].kind == s.rows[i].kind
  {
    hide Runner.RunRow;
    RowBodyFrame(p, s, id, table, response, now);
  }

  predicate NoneExpired(rows: seq<Row>, now: Instant) {
    forall i :: 0 <= i < |rows| ==> !Expired(rows[i], now)
  }

  /**
   * With executors that settle, a pass leaves due exactly what its limit kept it from, nothing of
   * its own leased, and no lease for a second reclaim at the same time to find.
   */
  lemma SettlingPassDrains(
    p: Policy, s: Db, ids: seq<nat>, limit: nat, table: set<ActionKind>,
    responses: nat -> Runner.Response, now: Instant, who: Worker)
    requires IsClaim(ReleaseRows(s.rows, now), now, limit, ids) && AllSettle(responses, now, s.rows)
    ensures var r := Runner.Pass(p, s, ids, table, responses, now, who).0;
            && |r.rows| == |s.rows|
            && (forall i :: 0 <= i < |s.rows| ==> r.rows[i].kind == s.rows[i].kind)
            && (forall k :: 0 <= k < |ids| ==> ids[k] < |r.rows| && !r.rows[ids[k]].state.Leased?)
            && NoneExpired(r.rows, now)
            && DueCount(r.rows, now) == Max(0, DueCount(ReleaseRows(s.rows, now), now) - limit)
  {
    hide Runner.RunRows, Runner.Claimed, Runner.Reclaimed, DueCount, Settles, IsClaim, Count, Expired, ReleaseRow;
    APassDrains(p, s, ids, limit, table, responses, now, who);
    TheClaim(s, ids, limit, now, who);
    var c := Runner.Claimed(Runner.Reclaimed(s, now), now, ids, who);
    SettledRows(p, c, ids, table, responses, now);
    var (r, fates) := Runner.RunRows(p, c, ids, table, responses, now);
    CountZero(fates, Again(now));
    forall i | 0 <= i < |r.rows|
      ensures !Expired(r.rows[i], now)
    {
      if i in ids {
        var k :| 0 <= k < |ids| && ids[k] == i;
        NotLeasedNotExpired(r.rows[ids[k]], fates[k], now);
      } else {
        ReleasedOnce(s.rows[i], now);
      }
    }
  }

  lemma NotLeasedNotExpired(row: Row, fate: Runner.Fate, now: Instant)
    requires Left(row, fate)
    ensures !Expired(row, now)
  {
  }

  lemma ReleasedOnce(row: Row, now: Instant)
    ensures !Expired(ReleaseRow(row, now), now)
  {
  }

  /** A pass of the system as it ships, whose debits all go to a person, always drains so. */
  lemma AShippedPassDrains(p: Policy, s: Db, ids: seq<nat>, limit: nat, now: Instant, who: Worker)
    requires IsClaim(ReleaseRows(s.rows, now), now, limit, ids)
    ensures var r := Runner.Pass(p, s, ids, Runner.EXECUTORS, (_: nat) => Runner.NO_DEBIT_ADAPTER, now, who).0;
            && (forall k :: 0 <= k < |ids| ==> ids[k] < |r.rows| && !r.rows[ids[k]].state.Leased?)
            && NoneExpired(r.rows, now)
            && DueCount(r.rows, now) == Max(0, DueCount(ReleaseRows(s.rows, now), now) - limit)
  {
    hide Runner.Pass, IsClaim, DueCount, NoneExpired, Settles;
    ShippedDebitSettles(now);
    SettlingPassDrains(p, s, ids, limit, Runner.EXECUTORS, (_: nat) => Runner.NO_DEBIT_ADAPTER, now, who);
  }

  // -- pass after pass -----------------------------------------------------------------

  datatype PassBy = PassBy(who: Worker, ids: seq<nat>, responses: nat -> Runner.Response)

  /** One pass over a claim of its worker's own, made by executors that settle. */
  predicate PassTo(p: Policy, table: set<ActionKind>, now: Instant, limit: nat, s: Db, pass: PassBy, after: Db) {
    && IsClaim(ReleaseRows(s.rows, now), now, limit, pass.ids)
    && AllSettle(pass.responses, now, s.rows)
    && after == Runner.Pass(p, s, pass.ids, table, pass.responses, now, pass.who).0
  }

  /** Passes made one after another at one time. */
  predicate Passes(
    p: Policy, table: set<ActionKind>, now: Instant, limit: nat, states: seq<Db>, passes: seq<PassBy>)
  {
    && |states| == |passes| + 1
    && forall j :: 0 <= j < |passes| ==> PassTo(p, table, now, limit, states[j], passes[j], states[j + 1])
  }

  lemma ReleaseNothing(rows: seq<Row>, now: Instant)
    requires NoneExpired(rows, now)
    ensures ReleaseRows(rows, now) == rows
  {
  }

  /** One pass more: what was due falls by the limit, and no lease is left to reclaim. */
  lemma OnePassMore(p: Policy, table: set<ActionKind>, now: Instant, limit: nat, s: Db, pass: PassBy, after: Db)
    requires PassTo(p, table, now, limit, s, pass, after)
    ensures NoneExpired(after.rows, now)
    ensures DueCount(ReleaseRows(after.rows, now), now)
            == Max(0, DueCount(ReleaseRows(s.rows, now), now) - limit)
  {
    hide Runner.Pass, DueCount, AllSettle, IsClaim, NoneExpired, ReleaseRows;
    SettlingPassDrains(p, s, pass.ids, limit, table, pass.responses, now, pass.who);
    ReleaseNothing(after.rows, now);
  }

  lemma OneLimitMore(n: nat, j: nat, limit: nat)
    ensures Max(0, Max(0, n - j * limit) - limit) == Max(0, n - (j + 1) * limit)
  {
  }

  /** After `j` passes, what is due is what they could not reach. */
  lemma {:induction false} PassesDrain(
    p: Policy, table: set<ActionKind>, now: Instant, limit: nat, states: seq<Db>, passes: seq<PassBy>, j: nat)
    requires Passes(p, table, now, limit, states, passes) && j <= |passes|
    ensures DueCount(ReleaseRows(states[j].rows, now), now)
            == Max(0, DueCount(ReleaseRows(states[0].rows, now), now) - j * limit)
    ensures j > 0 ==> NoneExpired(states[j].rows, now)
    decreases j
  {
    hide DueCount, NoneExpired, ReleaseRows, Max, PassTo;
    if j > 0 {
      PassesDrain(p, table, now, limit, states, passes, j - 1);
      OnePassMore(p, table, now, limit, states[j - 1], passes[j - 1], states[j]);
      OneLimitMore(DueCount(ReleaseRows(states[0].rows, now), now), j - 1, limit);
    } else {
      NothingOff(DueCount(ReleaseRows(states[0].rows, now), now), limit);
    }
  }

  lemma NothingOff(n: nat, limit: nat)
    ensures Max(0, n - 0 * limit) == n
  {
  }

  /**
   * A fixpoint, and no sooner: something is still due exactly while the passes so far could not
   * have reached everything; once nothing is, a further pass claims nothing and changes nothing.
   */
  lemma PassesReachAFixpoint(
    p: Policy, table: set<ActionKind>, now: Instant, limit: nat, states: seq<Db>, passes: seq<PassBy>, j: nat)
    requires Passes(p, table, now, limit, states, passes) && 0 < j < |passes| && limit > 0
    ensures var n := DueCount(ReleaseRows(states[0].rows, now), now);
            && (passes[j].ids == [] <==> n <= j * limit)
            && (n <= j * limit ==> states[j + 1] == states[j])
  {
    hide DueCount, AllSettle, IsClaim, NoneExpired;
    assert PassTo(p, table, now, limit, states[j], passes[j], states[j + 1]);
    PassesDrain(p, table, now, limit, states, passes, j);
    var pass, s := passes[j], states[j];
    ClaimTakesWhatItCan(ReleaseRows(s.rows, now), now, limit, pass.ids, now, pass.who);
    if pass.ids == [] {
      ReleaseNothing(s.rows, now);
      assert LeaseRows(s.rows, [], now + Runner.LEASE, pass.who) == s.rows;
      assert Runner.Reclaimed(s, now) == s;
      assert Runner.Claimed(s, now, [], pass.who) == s;
    }
  }

  // -- the report ------------------------------------------------------------------

  function Deferrals(): Runner.Fate -> bool {
    (fate: Runner.Fate) => fate.Moved?
  }

  function SentOff(): Runner.Fate -> bool {
    (fate: Runner.Fate) => fate == Runner.Closed(Done, false)
  }

  function HandedOver(): Runner.Fate -> bool {
    (fate: Runner.Fate) => fate.Closed? && fate.held
  }

  function StoppedShort(): Runner.Fate -> bool {
    (fate: Runner.Fate) => fate.CancelledFirst? || fate.ContactBarred?
  }

  function WithoutAdapter(): Runner.Fate -> bool {
    (fate: Runner.Fate) => fate.Unregistered? || fate == Runner.Closed(NoAdapter, false)
  }

  function WentWrong(): Runner.Fate -> bool {
    (fate: Runner.Fate) =>
      fate.Crashed? || (fate.Closed? && !fate.held && !fate.state.Done? && !fate.state.NoAdapter?)
  }

  /** Every claimed row is in the report once, under what became of it, or was put off. */
  lemma {:induction false} TheReportAccountsForEveryRow(reclaimed: nat, fates: seq<Runner.Fate>, claimed: nat)
    ensures var r := Runner.Report(reclaimed, fates, claimed);
            && r.claimed == claimed && r.reclaimed == reclaimed
            && r.done == Count(fates, SentOff())
            && r.held == Count(fates, HandedOver())
            && r.cancelled == Count(fates, StoppedShort())
            && r.noAdapter == Count(fates, WithoutAdapter())
            && r.failed == Count(fates, WentWrong())
            && r.done + r.held + r.cancelled + r.noAdapter + r.failed + Count(fates, Deferrals()) == |fates|
    decreases |fates|
  {
    if fates != [] {
      TheReportAccountsForEveryRow(reclaimed, fates[..|fates| - 1], claimed);
    }
  }

  // -- a pass as a run ---------------------------------------------------------------

  /** A pass, move by move. */
  function PassMoves(
    ids: seq<nat>, limit: nat, table: set<ActionKind>, responses: nat -> Runner.Response, now: Instant, who: Worker)
    : seq<Move>
  {
    [Release(now), Claim(now, who, limit, ids)]
    + seq(|ids|, k requires 0 <= k < |ids| => Dispatch(ids[k], who, table, responses(ids[k]), now))
  }

  /** One more body of a pass is one more move of its run. */
  lemma NextBody(
    env: Env, s: Db, c: Db, ids: seq<nat>, moves: seq<Move>, table: set<ActionKind>,
    responses: nat -> Runner.Response, now: Instant, who: Worker, k: nat)
    requires 0 < k <= |ids| && |moves| == |ids| + 2
    requires moves[k + 1] == Dispatch(ids[k - 1], who, table, responses(ids[k - 1]), now)
    requires StateAt(env, s, moves, k + 1) == Runner.RunRows(env.p, c, ids[..k - 1], table, responses, now).0
    ensures StateAt(env, s, moves, k + 2) == Runner.RunRows(env.p, c, ids[..k], table, responses, now).0
  {
    hide Runner.RunRow, Runner.RunRows;
    Runner.RunRowsGrow(env.p, c, ids, k - 1, table, responses, now);
  }

  lemma ReclaimedRows(s: Db, now: Instant)
    ensures Runner.Reclaimed(s, now).rows == ReleaseRows(s.rows, now)
  {
  }

  lemma FirstMoves(
    env: Env, s: Db, ids: seq<nat>, limit: nat, table: set<ActionKind>,
    responses: nat -> Runner.Response, now: Instant, who: Worker)
    requires IsClaim(ReleaseRows(s.rows, now), now, limit, ids)
    ensures StateAt(env, s, PassMoves(ids, limit, table, responses, now, who), 2)
            == Runner.Claimed(Runner.Reclaimed(s, now), now, ids, who)
  {
    hide IsClaim, Runner.Reclaimed, Runner.Claimed, ReleaseRows;
    var moves := PassMoves(ids, limit, table, responses, now, who);
    ReclaimedRows(s, now);
    assert moves[0] == Release(now) && moves[1] == Claim(now, who, limit, ids);
    assert StateAt(env, s, moves, 1) == Runner.Reclaimed(s, now);
  }

  /** Taken one move at a time with nobody else about, the moves of a pass are the pass. */
  lemma {:induction false} APassIsARun(
    env: Env, s: Db, ids: seq<nat>, limit: nat, table: set<ActionKind>,
    responses: nat -> Runner.Response, now: Instant, who: Worker, k: nat)
    requires IsClaim(ReleaseRows(s.rows, now), now, limit, ids) && k <= |ids|
    ensures var moves := PassMoves(ids, limit, table, responses, now, who);
            var c := Runner.Claimed(Runner.Reclaimed(s, now), now, ids, who);
            StateAt(env, s, moves, k + 2) == Runner.RunRows(env.p, c, ids[..k], table, responses, now).0
    decreases k
  {
    hide Runner.RunRow, Runner.Claimed, Runner.Reclaimed, IsClaim, StateAt;
    var moves := PassMoves(ids, limit, table, responses, now, who);
    var c := Runner.Claimed(Runner.Reclaimed(s, now), now, ids, who);
    if k == 0 {
      FirstMoves(env, s, ids, limit, table, responses, now, who);
      assert ids[..0] == [];
    } else {
      APassIsARun(env, s, ids, limit, table, responses, now, who, k - 1);
      NextBody(env, s, c, ids, moves, table, responses, now, who, k);
    }
  }

  /** So the whole pass is such a run, and at every body the row is still this worker's. */
  lemma APassHoldsItsRows(
    env: Env, s: Db, ids: seq<nat>, limit: nat, table: set<ActionKind>,
    responses: nat -> Runner.Response, now: Instant, who: Worker)
    requires IsClaim(ReleaseRows(s.rows, now), now, limit, ids)
    ensures var moves := PassMoves(ids, limit, table, responses, now, who);
            && StateAt(env, s, moves, |moves|) == Runner.Pass(env.p, s, ids, table, responses, now, who).0
            && forall n :: 2 <= n < |moves| ==>
                 moves[n].Dispatch? && Allowance.HeldByRunner(StateAt(env, s, moves, n), moves[n])
  {
    hide StateAt, Runner.RunRows, Runner.Claimed, Runner.Reclaimed, IsClaim;
    var moves := PassMoves(ids, limit, table, responses, now, who);
    APassIsARun(env, s, ids, limit, table, responses, now, who, |ids|);
    assert ids[..|ids|] == ids;
    forall n | 2 <= n < |moves|
      ensures moves[n].Dispatch? && Allowance.HeldByRunner(StateAt(env, s, moves, n), moves[n])
    {
      HeldUntilItsBody(env, s, ids, limit, table, responses, now, who, n - 2);
    }
  }

  lemma HeldUntilItsBody(
    env: Env, s: Db, ids: seq<nat>, limit: nat, table: set<ActionKind>,
    responses: nat -> Runner.Response, now: Instant, who: Worker, k: nat)
    requires IsClaim(ReleaseRows(s.rows, now), now, limit, ids) && k < |ids|
    ensures var moves := PassMoves(ids, limit, table, responses, now, who);
            moves[k + 2].Dispatch? && Allowance.HeldByRunner(StateAt(env, s, moves, k + 2), moves[k + 2])
  {
    hide StateAt, Runner.RunRows, Runner.Claimed, Runner.Reclaimed, IsClaim, DueCount, Count, Ended;
    var c := Runner.Claimed(Runner.Reclaimed(s, now), now, ids, who);
    TheClaim(s, ids, limit, now, who);
    APassIsARun(env, s, ids, limit, table, responses, now, who, k);
    RunRowsEnd(env.p, c, ids[..k], table, responses, now);
    assert ids[k] !in ids[..k];
  }
}
