/** One pass over the queue: reclaim, claim, and for each claimed row re-check, dispatch and record. */
module Runner {
  import opened Sequences
  import opened Models
  import opened Policies
  import opened Windows
  import opened Tables
  import opened Stores

  const LEASE: Duration := 5 * MINUTE

  /** An executor's account of one row. */
  datatype Outcome = Outcome(state: RowState, retryAt: Option<Instant>, holdCase: bool)

  /** An executor returns an outcome or raises. */
  datatype Response = Raised | Returned(outcome: Outcome)

  // The kinds this deployment registers an executor for.
  const EXECUTORS: set<ActionKind> := {Retry, NUDGE}

  // The shipped debit executor refuses every time: there is no adapter behind it.
  const NO_DEBIT_ADAPTER: Response := Returned(Outcome(NoAdapter, None, true))

  predicate Deferred(o: Outcome) {
    o.state.Pending? && o.retryAt.Some?
  }

  /** What became of one claimed row. */
  datatype Fate =
    | CancelledFirst
    | ContactBarred
    | Unregistered
    | Crashed
    | Moved(due: Instant)
    | Closed(state: RowState, held: bool)

  /** Whether an executor was called at all. */
  predicate Dispatched(fate: Fate) {
    fate.Crashed? || fate.Moved? || fate.Closed?
  }

  // -- executors -------------------------------------------------------------

  /** The message history the ceiling is counted on. */
  function Recent(p: Policy, s: Db, customer: CustomerRef, now: Instant): seq<Instant> {
    OldestFirst(Deliveries(s.audit, s.cases, customer), now - p.contactWindow)
  }

  function NudgeOutcome(p: Policy, s: Db, c: CaseId, now: Instant): Outcome {
    if c !in s.cases then Outcome(Failed, None, false)
    else
      var held := s.cases[c].suspendedUntil;
      var budget := ContactBudget(p, Recent(p, s, s.cases[c].customer, now), now);
      if held.Some? && DateOf(now) < held.value then
        Outcome(Pending, Some(At(held.value, p.contactOpen)), false)
      else if !budget.allowed then Outcome(Pending, budget.freeAt, false)
      else if !ContactAllowed(p, now) then Outcome(Pending, Some(NextContact(p, now)), false)
      else Outcome(Done, None, false)
  }

  method ExecuteNudge(p: Policy, store: Store, c: CaseId, now: Instant) returns (o: Outcome)
    ensures o == NudgeOutcome(p, store.View(), c, now)
  {
    if c !in store.cases {
      return Outcome(Failed, None, false);
    }
    var case_ := store.cases[c];
    if case_.suspendedUntil.Some? && DateOf(now) < case_.suspendedUntil.value {
      return Outcome(Pending, Some(At(case_.suspendedUntil.value, p.contactOpen)), false);
    }
    var recent := store.ContactsSince(case_.customer, now - p.contactWindow);
    var budget := ContactBudget(p, recent, now);
    if !budget.allowed {
      return Outcome(Pending, budget.freeAt, false);
    }
    if !ContactAllowed(p, now) {
      return Outcome(Pending, Some(NextContact(p, now)), false);
    }
    o := Outcome(Done, None, false);
  }

  // -- one row ---------------------------------------------------------------

  /** A nudge that does not raise is decided by the rules above; any other executor is outside them. */
  function Executes(p: Policy, s: Db, row: Row, response: Response, now: Instant): Response {
    if row.kind == NUDGE && response.Returned? then Returned(NudgeOutcome(p, s, row.caseId, now))
    else response
  }

  /** Record the execution, count the attempt, and return or finish the row. */
  function Settled(s: Db, id: nat, row: Row, o: Outcome, now: Instant): Db {
    var recorded := Recorded(s, row.caseId, now, Executed(row.kind, o.state));
    var counted := if row.kind == Retry && !Deferred(o) then Incremented(recorded, row.caseId) else recorded;
    if Deferred(o) then counted.(rows := ReturnRow(counted.rows, id, o.retryAt.value))
    else
      var finished := counted.(rows := FinishRow(counted.rows, id, o.state));
      if o.holdCase then StateSet(finished, row.caseId, HeldForHuman) else finished
  }

  function RunRow(p: Policy, s: Db, id: nat, table: set<ActionKind>, response: Response, now: Instant)
    : (Db, Fate)
  {
    if id >= |s.rows| || s.rows[id].state.Cancelled? then (s, CancelledFirst)
    else
      var row := s.rows[id];
      if CaseSuppressed(s, row.caseId, row.customer) then
        (s.(rows := FinishRow(s.rows, id, Cancelled)), ContactBarred)
      else if row.kind !in table then (s.(rows := FinishRow(s.rows, id, NoAdapter)), Unregistered)
      else
        match Executes(p, s, row, response, now)
        case Raised => (s.(rows := FinishRow(s.rows, id, Failed)), Crashed)
        case Returned(o) =>
          (Settled(s, id, row, o, now),
           if Deferred(o) then Moved(o.retryAt.value) else Closed(o.state, o.holdCase))
  }

  method RunOne(
    p: Policy, store: Store, id: nat, table: set<ActionKind>, response: Response, now: Instant)
    returns (fate: Fate)
    modifies store
    ensures (store.View(), fate) == RunRow(p, old(store.View()), id, table, response, now)
  {
    if id >= |store.rows| || store.rows[id].state.Cancelled? {
      return CancelledFirst;
    }
    var row := store.rows[id];
    var standing := store.ContactSuppression(Some(row.caseId), Some(row.customer));
    if standing.Some? {
      store.FinishAction(id, Cancelled);
      return ContactBarred;
    }
    if row.kind !in table {
      store.FinishAction(id, NoAdapter);
      return Unregistered;
    }
    if response.Raised? {
      store.FinishAction(id, Failed);
      return Crashed;
    }
    var o := response.outcome;
    if row.kind == NUDGE {
      o := ExecuteNudge(p, store, row.caseId, now);
    }
    store.Record(row.caseId, now, Executed(row.kind, o.state));
    if row.kind == Retry && !Deferred(o) {
      var count := store.IncrementRetryCount(row.caseId);
    }
    if Deferred(o) {
      store.ReturnAction(id, o.retryAt.value);
      return Moved(o.retryAt.value);
    }
    store.FinishAction(id, o.state);
    if o.holdCase {
      store.SetState(row.caseId, HeldForHuman);
    }
    fate := Closed(o.state, o.holdCase);
  }

  // -- the pass --------------------------------------------------------------

  datatype RunReport = RunReport(
    reclaimed: nat, claimed: nat, done: nat, held: nat, cancelled: nat, noAdapter: nat, failed: nat)

  function Tallied(report: RunReport, fate: Fate): RunReport {
    match fate
    case CancelledFirst => report.(cancelled := report.cancelled + 1)
    case ContactBarred => report.(cancelled := report.cancelled + 1)
    case Unregistered => report.(noAdapter := report.noAdapter + 1)
    case Crashed => report.(failed := report.failed + 1)
    case Moved(_) => report
    case Closed(state, held) =>
      if held then report.(held := report.held + 1)
      else if state.Done? then report.(done := report.done + 1)
      else if state.NoAdapter? then report.(noAdapter := report.noAdapter + 1)
      else report.(failed := report.failed + 1)
  }

  function RunRows(
    p: Policy, s: Db, ids: seq<nat>, table: set<ActionKind>, responses: nat -> Response, now: Instant)
    : (Db, seq<Fate>)
  {
    if ids == [] then (s, [])
    else
      var id := ids[|ids| - 1];
      var before := RunRows(p, s, ids[..|ids| - 1], table, responses, now);
      var step := RunRow(p, before.0, id, table, responses(id), now);
      (step.0, before.1 + [step.1])
  }

  function Report(reclaimed: nat, fates: seq<Fate>, claimed: nat): RunReport {
    if fates == [] then RunReport(reclaimed, claimed, 0, 0, 0, 0, 0)
    else Tallied(Report(reclaimed, fates[..|fates| - 1], claimed), fates[|fates| - 1])
  }

  function Reclaimed(s: Db, now: Instant): Db {
    s.(rows := ReleaseRows(s.rows, now))
  }

  function Claimed(s: Db, now: Instant, ids: seq<nat>, who: Worker): Db {
    s.(rows := LeaseRows(s.rows, ids, now + LEASE, who))
  }

  /** A whole pass over the rows `ids` it claimed. */
  function Pass(
    p: Policy, s: Db, ids: seq<nat>, table: set<ActionKind>, responses: nat -> Response, now: Instant,
    who: Worker): (Db, seq<Fate>)
  {
    RunRows(p, Claimed(Reclaimed(s, now), now, ids, who), ids, table, responses, now)
  }

  lemma RunRowsGrow(
    p: Policy, s: Db, ids: seq<nat>, k: nat, table: set<ActionKind>, responses: nat -> Response, now: Instant)
    requires k < |ids|
    ensures var before := RunRows(p, s, ids[..k], table, responses, now);
            var step := RunRow(p, before.0, ids[k], table, responses(ids[k]), now);
            RunRows(p, s, ids[..k + 1], table, responses, now) == (step.0, before.1 + [step.1])
  {
    assert ids[..k + 1][..k] == ids[..k];
  }

  method RunClaimed(
    p: Policy, store: Store, claimed: seq<nat>, table: set<ActionKind>, responses: nat -> Response,
    now: Instant, reclaimed: nat) returns (report: RunReport)
    modifies store
    ensures var pass := RunRows(p, old(store.View()), claimed, table, responses, now);
            store.View() == pass.0 && report == Report(reclaimed, pass.1, |claimed|)
  {
    ghost var start := store.View();
    ghost var fates: seq<Fate> := [];
    report := RunReport(reclaimed, |claimed|, 0, 0, 0, 0, 0);
    var k := 0;
    while k < |claimed|
      invariant 0 <= k <= |claimed|
      invariant (store.View(), fates) == RunRows(p, start, claimed[..k], table, responses, now)
      invariant report == Report(reclaimed, fates, |claimed|)
    {
      RunRowsGrow(p, start, claimed, k, table, responses, now);
      var fate := RunOne(p, store, claimed[k], table, responses(claimed[k]), now);
      assert (fates + [fate])[..|fates|] == fates;
      fates := fates + [fate];
      report := Tallied(report, fate);
      k := k + 1;
    }
    assert claimed[..k] == claimed;
  }

  method RunDue(
    p: Policy, store: Store, table: set<ActionKind>, responses: nat -> Response, now: Instant,
    who: Worker, limit: nat) returns (report: RunReport, ghost ids: seq<nat>)
    modifies store
    ensures IsClaim(ReleaseRows(old(store.rows), now), now, limit, ids)
    ensures var pass := Pass(p, old(store.View()), ids, table, responses, now, who);
            && store.View() == pass.0
            && report == Report(Count(old(store.rows), (row: Row) => Expired(row, now)), pass.1, |ids|)
  {
    var reclaimed := store.ReleaseExpiredLeases(now);
    var claimed := store.LeaseDueActions(now, who, LEASE, limit);
    ids := claimed;
    report := RunClaimed(p, store, claimed, table, responses, now, reclaimed);
  }
}
