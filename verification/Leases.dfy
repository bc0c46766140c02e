/**
 * Leases are exclusive. However workers' claims, reclaims and row bodies interleave with everything
 * else, a claimed row is claimed again only after its first lease ran out on some clock or its body
 * ran; and claiming until nothing is left hands out each due row exactly once, earliest first.
 */
module Leases {
  import opened Sequences
  import opened Models
  import opened Tables
  import opened Runs
  import opened Histories
  import Allowance
  import Runner

  // -- the tenure of one lease ---------------------------------------------------

  /** The row is still under the lease it was given, whoever else has been at the queue. */
  predicate Under(row: Row, worker: Worker, until: Instant, attempts: nat) {
    row.state.Leased? && row.worker == Some(worker) && row.leasedUntil == Some(until) && row.attempts == attempts
  }

  /** A move that can take a leased row from its worker: its own body, or a reclaim past its end. */
  predicate EndsLease(m: Move, i: nat, until: Instant) {
    || (m.Dispatch? && m.id == i)
    || (m.Release? && until <= m.now)
  }

  lemma LeaseSurvivesMove(env: Env, s: Db, m: Move, i: nat, worker: Worker, until: Instant, attempts: nat)
    requires Consistent(s) && Enabled(s, m) && i < |s.rows| && Under(s.rows[i], worker, until, attempts)
    requires !EndsLease(m, i, until)
    ensures i < |Apply(env, s, m).rows|
    ensures var after := Apply(env, s, m).rows[i];
            Under(after, worker, until, attempts) || (after.state.Cancelled? && after.attempts == attempts)
  {
    hide Consistent, NewRowOf, Apply, RanTo;
    EveryRowMoves(env, s, m);
    assert RowMoves(env, s, m, i, Apply(env, s, m).rows[i]);
    assert m.Claim? ==> i !in m.ids;
  }

  lemma CancelledStays(env: Env, s: Db, m: Move, i: nat)
    requires Consistent(s) && Enabled(s, m) && i < |s.rows| && s.rows[i].state.Cancelled?
    ensures i < |Apply(env, s, m).rows| && Apply(env, s, m).rows[i] == s.rows[i]
  {
    hide Consistent, Apply, Enabled;
    MovePreserves(env, s, m);
  }

  /** A lease lasts until the row's own body, a cancellation, or a reclaim at or after its end. */
  lemma {:induction false} LeaseTenure(
    env: Env, moves: seq<Move>, j: nat, k: nat, i: nat, worker: Worker, until: Instant, attempts: nat)
    requires IsRun(env, moves) && j <= k <= |moves|
    requires i < |StateAt(env, EMPTY, moves, j).rows|
    requires Under(StateAt(env, EMPTY, moves, j).rows[i], worker, until, attempts)
    requires forall n :: j <= n < k ==> !EndsLease(moves[n], i, until)
    ensures i < |StateAt(env, EMPTY, moves, k).rows|
    ensures var row := StateAt(env, EMPTY, moves, k).rows[i];
            Under(row, worker, until, attempts) || (row.state.Cancelled? && row.attempts == attempts)
    decreases k
  {
    hide Consistent, Apply, Enabled, Under, EndsLease;
    if j < k {
      var s := StateAt(env, EMPTY, moves, k - 1);
      LeaseTenure(env, moves, j, k - 1, i, worker, until, attempts);
      RunsAreConsistent(env, moves, k - 1);
      if s.rows[i].state.Cancelled? {
        CancelledStays(env, s, moves[k - 1], i);
      } else {
        LeaseSurvivesMove(env, s, moves[k - 1], i, worker, until, attempts);
      }
    }
  }

  predicate Takes(m: Move, i: nat) {
    m.Claim? && i in m.ids
  }

  lemma ClaimedWereDue(rows: seq<Row>, now: Instant, limit: nat, ids: seq<nat>, b: nat)
    requires IsClaim(rows, now, limit, ids) && b in ids
    ensures b < |rows| && Due(rows[b], now)
  {
    var k :| 0 <= k < |ids| && ids[k] == b;
    assert Due(rows[ids[k]], now);
  }

  lemma ClaimGivesLease(env: Env, s: Db, m: Move, i: nat)
    requires Enabled(s, m) && Takes(m, i)
    ensures i < |s.rows| && s.rows[i].state.Pending?
    ensures i < |Apply(env, s, m).rows|
    ensures Under(Apply(env, s, m).rows[i], m.worker, m.now + Runner.LEASE, s.rows[i].attempts + 1)
  {
    hide IsClaim;
    ClaimedWereDue(s.rows, m.now, m.limit, m.ids, i);
  }

  /**
   * No row is ever under two unexpired leases: between two claims of it, either its body ran, or
   * some clock had already reached the end of the first lease.
   */
  lemma NoDoubleLease(env: Env, moves: seq<Move>, j: nat, k: nat, i: nat)
    requires IsRun(env, moves) && j < k < |moves|
    requires Takes(moves[j], i) && Takes(moves[k], i)
    ensures exists n :: j < n < k && EndsLease(moves[n], i, moves[j].now + Runner.LEASE)
  {
    hide StateAt, IsRun, Enabled, Apply, EndsLease;
    var s, until := StateAt(env, EMPTY, moves, j), moves[j].now + Runner.LEASE;
    NextState(env, moves, j);
    NextState(env, moves, k);
    ClaimGivesLease(env, s, moves[j], i);
    ClaimGivesLease(env, StateAt(env, EMPTY, moves, k), moves[k], i);
    if forall n :: j + 1 <= n < k ==> !EndsLease(moves[n], i, until) {
      LeaseTenure(env, moves, j + 1, k, i, moves[j].worker, until, s.rows[i].attempts + 1);
    }
  }

  /** A worker that runs its row before any clock reaches the lease's end finds it its own, or cancelled. */
  lemma PromptWorkersHoldTheirRows(env: Env, moves: seq<Move>, j: nat, k: nat)
    requires IsRun(env, moves) && j < k < |moves|
    requires moves[k].Dispatch? && Takes(moves[j], moves[k].id) && moves[j].worker == moves[k].worker
    requires forall n :: j < n < k ==> !EndsLease(moves[n], moves[k].id, moves[j].now + Runner.LEASE)
    ensures Allowance.HeldByRunner(StateAt(env, EMPTY, moves, k), moves[k])
  {
    hide StateAt, IsRun, Enabled, Apply, EndsLease;
    var s, i := StateAt(env, EMPTY, moves, j), moves[k].id;
    NextState(env, moves, j);
    ClaimGivesLease(env, s, moves[j], i);
    LeaseTenure(
      env, moves, j + 1, k, i, moves[j].worker, moves[j].now + Runner.LEASE, s.rows[i].attempts + 1);
  }

  /** The bound is sharp: a reclaim frees a claimed row for another worker from its lease's very end. */
  lemma FreedExactlyAtItsEnd(env: Env, s: Db, m: Move, i: nat, at: Instant, later: Instant)
    requires Enabled(s, m) && Takes(m, i) && m.now <= later
    ensures var claimed := Apply(env, s, m);
            var freed := Runner.Reclaimed(claimed, at);
            && i < |freed.rows|
            && (Due(freed.rows[i], later) <==> m.now + 5 * MINUTE <= at)
  {
    hide IsClaim;
    ClaimGivesLease(env, s, m, i);
    ClaimedWereDue(s.rows, m.now, m.limit, m.ids, i);
    assert Apply(env, s, m).rows[i] == LeaseRow(s.rows[i], m.now + Runner.LEASE, m.worker);
  }

  // -- attempts ----------------------------------------------------------------

  /** How many of the first `k` moves claimed the row. */
  function ClaimsOf(moves: seq<Move>, k: nat, i: nat): nat
    requires k <= |moves|
  {
    if k == 0 then 0 else ClaimsOf(moves, k - 1, i) + (if Takes(moves[k - 1], i) then 1 else 0)
  }

  lemma MoveCountsClaims(env: Env, s: Db, m: Move, i: nat)
    requires Consistent(s) && Enabled(s, m)
    ensures i < |s.rows| ==>
              && i < |Apply(env, s, m).rows|
              && Apply(env, s, m).rows[i].attempts == s.rows[i].attempts + (if Takes(m, i) then 1 else 0)
    ensures |s.rows| <= i < |Apply(env, s, m).rows| ==> Apply(env, s, m).rows[i].attempts == 0
    ensures i >= |s.rows| ==> !Takes(m, i)
  {
    hide Consistent, Apply, Runner.RunRow, ActorOf, FailureActor, Effects.LegalDebit;
    EveryRowMoves(env, s, m);
    var r := Apply(env, s, m);
    if i < |s.rows| {
      assert RowMoves(env, s, m, i, r.rows[i]);
      if m.Dispatch? && m.id == i {
        BodyEnds(env.p, s, m.id, m.table, m.response, m.now);
      }
    } else {
      if Takes(m, i) {
        ClaimGivesLease(env, s, m, i);
      }
      if i < |r.rows| {
        assert NewRowOf(env, s, m, r.rows[i]);
      }
    }
  }

  /** A row's attempts are exactly the claims made of it, over every run. */
  lemma {:induction false} AttemptsAreClaims(env: Env, moves: seq<Move>, k: nat, i: nat)
    requires IsRun(env, moves) && k <= |moves|
    ensures var rows := StateAt(env, EMPTY, moves, k).rows;
            ClaimsOf(moves, k, i) == if i < |rows| then rows[i].attempts else 0
    decreases k
  {
    hide Consistent, Apply, Enabled, Takes;
    if k > 0 {
      AttemptsAreClaims(env, moves, k - 1, i);
      RunsAreConsistent(env, moves, k - 1);
      MoveCountsClaims(env, StateAt(env, EMPTY, moves, k - 1), moves[k - 1], i);
    }
  }

  // -- how much a claim takes ------------------------------------------------------

  function DueAt(now: Instant): Row -> bool {
    row => Due(row, now)
  }

  function DueCount(rows: seq<Row>, now: Instant): nat {
    Count(rows, DueAt(now))
  }

  predicate Distinct(ids: seq<nat>) {
    forall j, k :: 0 <= j < k < |ids| ==> ids[j] != ids[k]
  }

  predicate AllDue(rows: seq<Row>, now: Instant, ids: seq<nat>) {
    forall k :: 0 <= k < |ids| ==> ids[k] < |rows| && Due(rows[ids[k]], now)
  }

  /** Leasing distinct due rows takes exactly that many out of the due pool. */
  lemma {:induction false} LeasingCounts(rows: seq<Row>, ids: seq<nat>, now: Instant, until: Instant, who: Worker)
    requires Distinct(ids) && AllDue(rows, now, ids)
    ensures DueCount(LeaseRows(rows, ids, until, who), now) == DueCount(rows, now) - |ids|
    decreases |ids|
  {
    if ids == [] {
      assert LeaseRows(rows, ids, until, who) == rows;
    } else {
      var n := |ids| - 1;
      var front, id := ids[..n], ids[n];
      LeasingCounts(rows, front, now, until, who);
      var before := LeaseRows(rows, front, until, who);
      assert id !in front;
      assert ids == front + [id];
      assert LeaseRows(rows, ids, until, who) == before[id := LeaseRow(rows[id], until, who)];
      assert before[id] == rows[id];
      CountUpdate(before, id, LeaseRow(rows[id], until, who), DueAt(now));
    }
  }

  /** Nothing due is left exactly when the count is zero. */
  lemma NothingDue(rows: seq<Row>, now: Instant)
    ensures DueCount(rows, now) == 0 <==> forall i :: 0 <= i < |rows| ==> !Due(rows[i], now)
  {
    CountZero(rows, DueAt(now));
  }

  /** A claim takes the limit, or everything due when there is less. */
  lemma ClaimTakesWhatItCan(rows: seq<Row>, now: Instant, limit: nat, ids: seq<nat>, until: Instant, who: Worker)
    requires IsClaim(rows, now, limit, ids)
    ensures |ids| == Min(limit, DueCount(rows, now))
    ensures DueCount(LeaseRows(rows, ids, until, who), now) == Max(0, DueCount(rows, now) - limit)
  {
    LeasingCounts(rows, ids, now, until, who);
    var left := LeaseRows(rows, ids, until, who);
    NothingDue(left, now);
    if |ids| < limit {
      forall i | 0 <= i < |left|
        ensures !Due(left[i], now)
      {
        assert Due(rows[i], now) ==> i in ids;
      }
    }
  }

  // -- claiming until nothing is left ----------------------------------------------

  /** One claim by one worker on its own clock: what it asked for and what it was given. */
  datatype Grab = Grab(worker: Worker, now: Instant, limit: nat, ids: seq<nat>)

  function After(rows: seq<Row>, grabs: seq<Grab>): seq<Row> {
    if grabs == [] then rows
    else
      var g := grabs[|grabs| - 1];
      LeaseRows(After(rows, grabs[..|grabs| - 1]), g.ids, g.now + Runner.LEASE, g.worker)
  }

  /** Claims made one after another, by any workers with any limits, each when its own clock says. */
  predicate Grabs(rows: seq<Row>, grabs: seq<Grab>) {
    grabs == [] ||
    var n := |grabs| - 1;
    Grabs(rows, grabs[..n]) && IsClaim(After(rows, grabs[..n]), grabs[n].now, grabs[n].limit, grabs[n].ids)
  }

  function Handed(grabs: seq<Grab>): seq<nat> {
    if grabs == [] then [] else Handed(grabs[..|grabs| - 1]) + grabs[|grabs| - 1].ids
  }

  /** The claims, as moves. */
  function GrabMoves(grabs: seq<Grab>): seq<Move> {
    seq(|grabs|, k requires 0 <= k < |grabs| =>
      Claim(grabs[k].now, grabs[k].worker, grabs[k].limit, grabs[k].ids))
  }

  /** A stretch of claims in a run is such a sequence, and leaves the table it leaves. */
  lemma {:induction false} GrabsAreARun(env: Env, s: Db, grabs: seq<Grab>, k: nat)
    requires k <= |grabs| && Grabs(s.rows, grabs)
    ensures StateAt(env, s, GrabMoves(grabs), k) == s.(rows := After(s.rows, grabs[..k]))
    ensures k < |grabs| ==> Enabled(StateAt(env, s, GrabMoves(grabs), k), GrabMoves(grabs)[k])
    decreases k
  {
    hide IsClaim, After, Grabs, Apply, Enabled;
    if k == 0 {
      assert grabs[..0] == [] && After(s.rows, []) == s.rows by { NothingGrabbed(s.rows); }
    } else {
      GrabsAreARun(env, s, grabs, k - 1);
      NextGrab(s.rows, grabs, k - 1);
      AsAMove(env, s.(rows := After(s.rows, grabs[..k - 1])), grabs[k - 1]);
    }
    if k < |grabs| {
      GrabbedNext(s.rows, grabs, k);
      AsAMove(env, s.(rows := After(s.rows, grabs[..k])), grabs[k]);
    }
  }

  lemma AsAMove(env: Env, s: Db, g: Grab)
    ensures var m := Claim(g.now, g.worker, g.limit, g.ids);
            && (Enabled(s, m) <==> IsClaim(s.rows, g.now, g.limit, g.ids))
            && (Enabled(s, m) ==>
                  Apply(env, s, m) == s.(rows := LeaseRows(s.rows, g.ids, g.now + Runner.LEASE, g.worker)))
  {
    hide IsClaim;
  }

  lemma NothingGrabbed(rows: seq<Row>)
    ensures After(rows, []) == rows
  {
  }

  lemma NextGrab(rows: seq<Row>, grabs: seq<Grab>, k: nat)
    requires k < |grabs|
    ensures After(rows, grabs[..k + 1])
            == LeaseRows(After(rows, grabs[..k]), grabs[k].ids, grabs[k].now + Runner.LEASE, grabs[k].worker)
  {
    assert grabs[..k + 1][..k] == grabs[..k];
  }

  /** Whatever has been handed out is leased; every other row is as it was. */
  lemma {:induction false} HandedOut(rows: seq<Row>, grabs: seq<Grab>)
    requires Grabs(rows, grabs)
    ensures var left := After(rows, grabs);
            && |left| == |rows|
            && (forall i :: i in Handed(grabs) ==>
                  i < |rows| && rows[i].state.Pending? && rows[i].scheduledFor.Some? && left[i].state.Leased?)
            && (forall i :: 0 <= i < |rows| && i !in Handed(grabs) ==> left[i] == rows[i])
            && Distinct(Handed(grabs))
    decreases |grabs|
  {
    if grabs != [] {
      var n := |grabs| - 1;
      var before, ids := After(rows, grabs[..n]), grabs[n].ids;
      HandedOut(rows, grabs[..n]);
      forall i | i in ids
        ensures i < |rows| && before[i] == rows[i] && Due(rows[i], grabs[n].now) && i !in Handed(grabs[..n])
      {
        var k :| 0 <= k < |ids| && ids[k] == i;
        assert Due(before[ids[k]], grabs[n].now);
      }
      DistinctConcat(Handed(grabs[..n]), ids);
    }
  }

  lemma DistinctConcat(a: seq<nat>, b: seq<nat>)
    requires Distinct(a) && Distinct(b) && forall i :: i in b ==> i !in a
    ensures Distinct(a + b)
  {
    forall j, k | 0 <= j < k < |a + b|
      ensures (a + b)[j] != (a + b)[k]
    {
      if j < |a| <= k {
        assert b[k - |a|] in b && a[j] in a;
      }
    }
  }

  /** The rows a claim is offered are those of the table that no earlier claim was handed. */
  lemma Offered(rows: seq<Row>, grabs: seq<Grab>, i: nat, now: Instant)
    requires Grabs(rows, grabs) && i < |rows|
    ensures |After(rows, grabs)| == |rows|
    ensures Due(After(rows, grabs)[i], now) <==> Due(rows[i], now) && i !in Handed(grabs)
    ensures i !in Handed(grabs) ==> After(rows, grabs)[i] == rows[i]
  {
    HandedOut(rows, grabs);
  }

  /** What a claim is given was due on that worker's own clock. */
  lemma GivenWhenDue(rows: seq<Row>, grabs: seq<Grab>, k: nat, i: nat)
    requires Grabs(rows, grabs) && k < |grabs| && i in grabs[k].ids
    ensures i < |rows| && Due(rows[i], grabs[k].now) && i !in Handed(grabs[..k])
  {
    hide IsClaim, Due, After, Handed;
    GrabbedNext(rows, grabs, k);
    SameTable(rows, grabs, k);
    ClaimedWereDue(After(rows, grabs[..k]), grabs[k].now, grabs[k].limit, grabs[k].ids, i);
    Offered(rows, grabs[..k], i, grabs[k].now);
  }

  /** A worker that asked for something was given nothing. */
  predicate CameBackEmpty(grabs: seq<Grab>) {
    grabs != [] && grabs[|grabs| - 1].limit > 0 && grabs[|grabs| - 1].ids == []
  }

  /** No worker's clock reads later than the last one's. */
  predicate LastIsLatest(grabs: seq<Grab>) {
    forall k :: 0 <= k < |grabs| ==> grabs[k].now <= grabs[|grabs| - 1].now
  }

  lemma {:induction false} HandedByOne(grabs: seq<Grab>, i: nat)
    requires i in Handed(grabs)
    ensures exists k :: 0 <= k < |grabs| && i in grabs[k].ids
    decreases |grabs|
  {
    if grabs != [] {
      var n := |grabs| - 1;
      if i !in grabs[n].ids {
        HandedByOne(grabs[..n], i);
        var k :| 0 <= k < n && i in grabs[..n][k].ids;
        assert i in grabs[k].ids;
      }
    }
  }

  /**
   * Claiming until a claim that asked for something comes back empty hands out every row due at
   * that claim, each exactly once and each to a worker on whose clock it was due. When no worker's
   * clock was later than that last one's, it hands out nothing else.
   */
  lemma EveryDueRowOnce(rows: seq<Row>, grabs: seq<Grab>)
    requires Grabs(rows, grabs) && CameBackEmpty(grabs)
    ensures var last := grabs[|grabs| - 1].now;
            && Distinct(Handed(grabs))
            && (forall i :: 0 <= i < |rows| && Due(rows[i], last) ==> i in Handed(grabs))
            && (forall i :: i in Handed(grabs) ==>
                  && i < |rows|
                  && exists k :: 0 <= k < |grabs| && i in grabs[k].ids && Due(rows[i], grabs[k].now))
            && (LastIsLatest(grabs) ==>
                  && (forall i :: i in Handed(grabs) ==> Due(rows[i], last))
                  && |Handed(grabs)| == DueCount(rows, last))
  {
    hide DueCount;
    var n := |grabs| - 1;
    var last, before := grabs[n].now, After(rows, grabs[..n]);
    HandedOut(rows, grabs);
    HandedOut(rows, grabs[..n]);
    assert forall i :: 0 <= i < |before| ==> !Due(before[i], last);
    assert forall i :: 0 <= i < |rows| && Due(rows[i], last) ==> before[i] != rows[i];
    forall i | i in Handed(grabs)
      ensures i < |rows| && exists k :: 0 <= k < |grabs| && i in grabs[k].ids && Due(rows[i], grabs[k].now)
    {
      HandedByOne(grabs, i);
      var k :| 0 <= k < |grabs| && i in grabs[k].ids;
      GivenWhenDue(rows, grabs, k, i);
    }
    if LastIsLatest(grabs) {
      assert forall i :: i in Handed(grabs) ==> Due(rows[i], last);
      HandedCounts(rows, last, Handed(grabs));
    }
  }

  lemma HandedCounts(rows: seq<Row>, now: Instant, ids: seq<nat>)
    requires Distinct(ids)
    requires forall i :: i in ids <==> 0 <= i < |rows| && Due(rows[i], now)
    ensures |ids| == DueCount(rows, now)
  {
    assert forall k :: 0 <= k < |ids| ==> ids[k] in ids;
    LeasingCounts(rows, ids, now, now, 0);
    NothingDue(LeaseRows(rows, ids, now, 0), now);
  }

  /** What one claim took was due no later than anything due it left behind. */
  lemma ClaimTakesEarliest(rows: seq<Row>, now: Instant, limit: nat, ids: seq<nat>, a: nat, b: nat)
    requires IsClaim(rows, now, limit, ids)
    requires a in ids && b < |rows| && Due(rows[b], now) && b !in ids
    ensures a < |rows| && Due(rows[a], now)
    ensures rows[a].scheduledFor.value <= rows[b].scheduledFor.value
  {
    var k :| 0 <= k < |ids| && ids[k] == a;
    assert Due(rows[ids[k]], now);
  }

  /** Whatever their clocks, an earlier claim is never given a row due later than a later claim is. */
  lemma EarliestFirst(rows: seq<Row>, grabs: seq<Grab>, j: nat, k: nat, a: nat, b: nat)
    requires Grabs(rows, grabs) && j < k < |grabs|
    requires a in grabs[j].ids && b in grabs[k].ids
    ensures a < |rows| && b < |rows| && Due(rows[a], grabs[j].now) && Due(rows[b], grabs[k].now)
    ensures rows[a].scheduledFor.value <= rows[b].scheduledFor.value
  {
    hide IsClaim, After, Handed;
    var early, now := grabs[..j], grabs[j].now;
    GivenWhenDue(rows, grabs, j, a);
    GivenWhenDue(rows, grabs, k, b);
    if Due(rows[b], now) {
      GrabbedNext(rows, grabs, j);
      SameTable(rows, grabs, j);
      HandedEarlier(grabs, j, k, b);
      Offered(rows, early, a, now);
      Offered(rows, early, b, now);
      ClaimTakesEarliest(After(rows, early), now, grabs[j].limit, grabs[j].ids, a, b);
    }
  }

  lemma SameTable(rows: seq<Row>, grabs: seq<Grab>, k: nat)
    requires Grabs(rows, grabs) && k <= |grabs|
    ensures |After(rows, grabs[..k])| == |rows|
  {
    GrabsPrefix(rows, grabs, k);
    HandedOut(rows, grabs[..k]);
  }

  lemma GrabbedNext(rows: seq<Row>, grabs: seq<Grab>, k: nat)
    requires Grabs(rows, grabs) && k < |grabs|
    ensures Grabs(rows, grabs[..k])
    ensures IsClaim(After(rows, grabs[..k]), grabs[k].now, grabs[k].limit, grabs[k].ids)
  {
    hide IsClaim, After;
    GrabsPrefix(rows, grabs, k);
    GrabsPrefix(rows, grabs, k + 1);
    assert grabs[..k + 1][..k] == grabs[..k];
  }

  /** What is handed out by `k` was handed out neither before `j` nor at `j`. */
  lemma HandedEarlier(grabs: seq<Grab>, j: nat, k: nat, b: nat)
    requires j < k <= |grabs| && b !in Handed(grabs[..k])
    ensures b !in Handed(grabs[..j]) && b !in grabs[j].ids
  {
    assert grabs[..j + 1][..j] == grabs[..j];
    assert grabs[..k][..j + 1] == grabs[..j + 1];
    HandedGrows(grabs[..k], j + 1);
  }

  lemma {:induction false} GrabsPrefix(rows: seq<Row>, grabs: seq<Grab>, k: nat)
    requires Grabs(rows, grabs) && k <= |grabs|
    ensures Grabs(rows, grabs[..k])
    decreases |grabs|
  {
    if k == |grabs| {
      assert grabs[..k] == grabs;
    } else {
      var n := |grabs| - 1;
      assert grabs[..n][..k] == grabs[..k];
      GrabsPrefix(rows, grabs[..n], k);
    }
  }

  lemma {:induction false} HandedGrows(grabs: seq<Grab>, k: nat)
    requires k <= |grabs|
    ensures forall i :: i in Handed(grabs[..k]) ==> i in Handed(grabs)
    decreases |grabs|
  {
    if k == |grabs| {
      assert grabs[..k] == grabs;
    } else {
      var n := |grabs| - 1;
      assert grabs[..n][..k] == grabs[..k];
      HandedGrows(grabs[..n], k);
    }
  }

  // -- an empty claim, under any interleaving ----------------------------------------

  /** A move that deals with a row: claims it, or runs its body. */
  predicate DealsWith(m: Move, i: nat) {
    Takes(m, i) || (m.Dispatch? && m.id == i)
  }

  /** A pending row no move deals with stays exactly as it is, or is cancelled. */
  lemma PendingStays(env: Env, s: Db, m: Move, i: nat)
    requires Consistent(s) && Enabled(s, m) && i < |s.rows| && s.rows[i].state.Pending? && !DealsWith(m, i)
    ensures i < |Apply(env, s, m).rows|
    ensures Apply(env, s, m).rows[i] == s.rows[i] || Apply(env, s, m).rows[i].state.Cancelled?
  {
    hide Consistent, NewRowOf, Apply, RanTo;
    EveryRowMoves(env, s, m);
    assert RowMoves(env, s, m, i, Apply(env, s, m).rows[i]);
  }

  lemma {:induction false} PendingUntilDealtWith(env: Env, moves: seq<Move>, j: nat, k: nat, i: nat)
    requires IsRun(env, moves) && j <= k <= |moves|
    requires i < |StateAt(env, EMPTY, moves, j).rows| && StateAt(env, EMPTY, moves, j).rows[i].state.Pending?
    requires forall n :: j <= n < k ==> !DealsWith(moves[n], i)
    ensures i < |StateAt(env, EMPTY, moves, k).rows|
    ensures var row := StateAt(env, EMPTY, moves, k).rows[i];
            row == StateAt(env, EMPTY, moves, j).rows[i] || row.state.Cancelled?
    decreases k
  {
    hide Consistent, Apply, Enabled, DealsWith;
    if j < k {
      var s := StateAt(env, EMPTY, moves, k - 1);
      PendingUntilDealtWith(env, moves, j, k - 1, i);
      RunsAreConsistent(env, moves, k - 1);
      NextState(env, moves, k - 1);
      if s.rows[i].state.Cancelled? {
        CancelledStays(env, s, moves[k - 1], i);
      } else {
        PendingStays(env, s, moves[k - 1], i);
      }
    }
  }

  lemma EmptyClaimLeavesNoneDue(s: Db, m: Move, i: nat)
    requires m.Claim? && Enabled(s, m) && m.limit > 0 && m.ids == []
    ensures i < |s.rows| ==> !Due(s.rows[i], m.now)
  {
  }

  /**
   * When a claim that asked for something comes back empty, every row that was due on its clock at
   * any earlier point of the run has since been claimed, run or cancelled, whatever else went on.
   */
  lemma AnEmptyClaimMeansNothingWaits(env: Env, moves: seq<Move>, j: nat, k: nat, i: nat)
    requires IsRun(env, moves) && j <= k < |moves|
    requires moves[k].Claim? && moves[k].limit > 0 && moves[k].ids == []
    requires i < |StateAt(env, EMPTY, moves, j).rows| && Due(StateAt(env, EMPTY, moves, j).rows[i], moves[k].now)
    ensures i < |StateAt(env, EMPTY, moves, k).rows|
    ensures StateAt(env, EMPTY, moves, k).rows[i].state.Cancelled?
            || exists n :: j <= n < k && DealsWith(moves[n], i)
  {
    hide StateAt, IsRun, Enabled, Apply, DealsWith;
    NoRowIsLost(env, moves, j, k);
    NextState(env, moves, k);
    EmptyClaimLeavesNoneDue(StateAt(env, EMPTY, moves, k), moves[k], i);
    if forall n :: j <= n < k ==> !DealsWith(moves[n], i) {
      PendingUntilDealtWith(env, moves, j, k, i);
    }
  }
}
