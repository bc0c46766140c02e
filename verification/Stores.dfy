/** The store: eight tables updated in place, one statement per method. */
module Stores {
  import opened Sequences
  import opened Models
  import opened Stops
  import opened Tables

  class Store {
    var cases: map<CaseId, Case>
    var signals: map<CaseId, FailureSignal>
    var filed: map<PaymentId, CaseId>
    var diagnoses: seq<Filed>
    var rows: seq<Row>
    var suppressions: seq<Suppression>
    var audit: seq<Entry>
    var events: map<EventId, CaseId>

    ghost function View(): Db
      reads this
    {
      Db(cases, signals, filed, diagnoses, rows, suppressions, audit, events)
    }

    constructor ()
      ensures View() == EMPTY
    {
      cases, signals, filed, diagnoses := map[], map[], map[], [];
      rows, suppressions, audit, events := [], [], [], map[];
    }

    // -- cases ---------------------------------------------------------------

    /** Novelty and the case are decided together, so a repeat never opens a second one. */
    method OpenCaseOrGet(signal: FailureSignal, newId: CaseId) returns (c: CaseId, created: bool)
      requires signal.paymentId in filed || newId !in cases
      modifies this`cases, this`signals, this`filed
      ensures View() == Opened(old(View()), signal, newId)
      ensures c == CaseFor(old(View()), signal, newId)
      ensures created <==> signal.paymentId !in old(filed)
    {
      if signal.paymentId in filed {
        return filed[signal.paymentId], false;
      }
      cases := cases[newId := Case(signal.customer, signal.amountPaise, Open, signal.occurredAt, 0, None)];
      signals := signals[newId := signal];
      filed := filed[signal.paymentId := newId];
      return newId, true;
    }

    method SetState(c: CaseId, state: CaseState)
      modifies this`cases
      ensures View() == StateSet(old(View()), c, state)
    {
      if c in cases {
        cases := cases[c := cases[c].(state := state)];
      }
    }

    method IncrementRetryCount(c: CaseId) returns (count: nat)
      modifies this`cases
      ensures View() == Incremented(old(View()), c)
      ensures count == if c in cases then cases[c].retryCount else 0
    {
      count := 0;
      if c in cases {
        cases := cases[c := cases[c].(retryCount := cases[c].retryCount + 1)];
        count := cases[c].retryCount;
      }
    }

    method SuspendNudgesUntil(c: CaseId, until: Option<Date>)
      modifies this`cases
      ensures View() == Suspended(old(View()), c, until)
    {
      if c in cases {
        cases := cases[c := cases[c].(suspendedUntil := until)];
      }
    }

    // -- diagnoses, audit and events -------------------------------------------

    method RecordDiagnosis(c: CaseId, d: Diagnosis)
      modifies this`diagnoses
      ensures View() == DiagnosisFiled(old(View()), c, d)
    {
      diagnoses := diagnoses + [Filed(c, d)];
    }

    method LatestDiagnosis(c: CaseId) returns (d: Option<Diagnosis>)
      ensures d == LatestIn(diagnoses, c)
      ensures d.Some? <==> exists i :: 0 <= i < |diagnoses| && diagnoses[i].caseId == c
    {
      var i := |diagnoses|;
      assert diagnoses[..i] == diagnoses;
      while i > 0
        invariant 0 <= i <= |diagnoses|
        invariant LatestIn(diagnoses[..i], c) == LatestIn(diagnoses, c)
        invariant forall k :: i <= k < |diagnoses| ==> diagnoses[k].caseId != c
      {
        assert diagnoses[..i][..i - 1] == diagnoses[..i - 1];
        i := i - 1;
        if diagnoses[i].caseId == c {
          return Some(diagnoses[i].diagnosis);
        }
      }
      d := None;
    }

    method Record(c: CaseId, at: Instant, decided: Decided)
      modifies this`audit
      ensures View() == Recorded(old(View()), c, at, decided)
    {
      audit := audit + [Entry(c, at, decided)];
    }

    method EventSeen(event: EventId) returns (c: Option<CaseId>)
      ensures c == if event in events then Some(events[event]) else None
    {
      c := if event in events then Some(events[event]) else None;
    }

    /** The first mark of an event stands; a later one is ignored. */
    method MarkEvent(event: EventId, c: CaseId)
      modifies this`events
      ensures View() == Marked(old(View()), event, c)
    {
      if event !in events {
        events := events[event := c];
      }
    }

    // -- the action queue ------------------------------------------------------

    method ScheduleAction(
      c: CaseId, customer: CustomerRef, kind: ActionKind, due: Option<Instant>, at: Instant,
      variant: Option<Variant>) returns (id: nat)
      modifies this`rows
      ensures View() == Scheduled(old(View()), c, customer, kind, due, at, variant)
      ensures id == |old(rows)|
    {
      id := |rows|;
      rows := rows + [NewRow(c, customer, kind, due, at, variant)];
    }

    /** Return the work of workers presumed dead, and say how much there was. */
    method ReleaseExpiredLeases(now: Instant) returns (n: nat)
      modifies this`rows
      ensures View() == old(View()).(rows := ReleaseRows(old(rows), now))
      ensures n == Count(old(rows), (row: Row) => Expired(row, now))
    {
      n := 0;
      ghost var was := rows;
      ghost var expired := (row: Row) => Expired(row, now);
      for i := 0 to |rows|
        invariant |rows| == |was|
        invariant forall k :: 0 <= k < |rows| ==> rows[k] == if k < i then ReleaseRow(was[k], now) else was[k]
        invariant n == Count(was[..i], expired)
      {
        hide Count;
        assert was[..i + 1] == was[..i] + [was[i]];
        CountAppend(was[..i], was[i], expired);
        if Expired(rows[i], now) {
          rows := rows[i := ReleaseRow(rows[i], now)];
          n := n + 1;
        }
      }
      assert was[..|was|] == was;
      assert rows == ReleaseRows(was, now);
    }

    /** The earliest due row not already taken, or the table's length when there is none. */
    method EarliestDue(now: Instant, taken: seq<nat>) returns (best: nat)
      ensures best <= |rows|
      ensures best < |rows| ==> Due(rows[best], now) && best !in taken
      ensures forall i :: 0 <= i < |rows| && Due(rows[i], now) && i !in taken ==>
                best < |rows| && rows[best].scheduledFor.value <= rows[i].scheduledFor.value
    {
      best := |rows|;
      for i := 0 to |rows|
        invariant best <= |rows|
        invariant best < |rows| ==> Due(rows[best], now) && best !in taken
        invariant forall j :: 0 <= j < i && Due(rows[j], now) && j !in taken ==>
                    best < |rows| && rows[best].scheduledFor.value <= rows[j].scheduledFor.value
      {
        if Due(rows[i], now) && i !in taken &&
           (best == |rows| || rows[i].scheduledFor.value < rows[best].scheduledFor.value)
        {
          best := i;
        }
      }
    }

    /** The earliest due rows, up to the limit. */
    method SelectDue(now: Instant, limit: nat) returns (ids: seq<nat>)
      ensures IsClaim(rows, now, limit, ids)
    {
      ids := [];
      while |ids| < limit
        invariant IsClaim(rows, now, |ids|, ids) && |ids| <= limit
      {
        var best := EarliestDue(now, ids);
        if best == |rows| {
          return;
        }
        ids := ids + [best];
      }
    }

    /** Claim the earliest due rows, up to the limit, under leases that end at one time. */
    method LeaseDueActions(now: Instant, who: Worker, leaseFor: Duration, limit: nat) returns (ids: seq<nat>)
      modifies this`rows
      ensures IsClaim(old(rows), now, limit, ids)
      ensures View() == old(View()).(rows := LeaseRows(old(rows), ids, now + leaseFor, who))
    {
      ids := SelectDue(now, limit);
      ghost var was := rows;
      var k := 0;
      while k < |ids|
        invariant 0 <= k <= |ids|
        invariant |rows| == |was|
        invariant forall i :: 0 <= i < |rows| ==>
          rows[i] == if i in ids[..k] then LeaseRow(was[i], now + leaseFor, who) else was[i]
      {
        var id := ids[k];
        assert id !in ids[..k];
        rows := rows[id := LeaseRow(rows[id], now + leaseFor, who)];
        assert ids[..k + 1] == ids[..k] + [id];
        k := k + 1;
      }
      assert ids[..k] == ids;
      assert rows == LeaseRows(was, ids, now + leaseFor, who);
    }

    method FinishAction(id: nat, state: RowState)
      modifies this`rows
      ensures View() == old(View()).(rows := FinishRow(old(rows), id, state))
    {
      if id < |rows| {
        rows := rows[id := rows[id].(state := state, leasedUntil := None)];
      }
    }

    method ReturnAction(id: nat, due: Instant)
      modifies this`rows
      ensures View() == old(View()).(rows := ReturnRow(old(rows), id, due))
    {
      if id < |rows| {
        rows := rows[id := rows[id].(
          state := Pending, leasedUntil := None, worker := None, scheduledFor := Some(due))];
      }
    }

    /** Cancel every live row in scope, leased ones included, and say how many there were. */
    method CancelPending(scope: Scope, reason: CancelReason, now: Option<Instant>) returns (n: nat)
      modifies this`rows
      ensures View() == Cancels(old(View()), scope, reason, now)
      ensures n == Count(old(rows), LiveIn(scope))
    {
      n := 0;
      ghost var was := rows;
      for i := 0 to |rows|
        invariant |rows| == |was|
        invariant forall k :: 0 <= k < |rows| ==>
          rows[k] == if k < i then CancelRow(was[k], scope, reason, now) else was[k]
        invariant n == Count(was[..i], LiveIn(scope))
      {
        hide Count, CancelRow, LiveIn, Live, RowInScope;
        assert was[..i + 1] == was[..i] + [was[i]];
        CountAppend(was[..i], was[i], LiveIn(scope));
        OnlyLiveRowsChange(was[i], scope, reason, now);
        if Live(rows[i]) && RowInScope(scope, rows[i]) {
          rows := rows[i := CancelRow(rows[i], scope, reason, now)];
          n := n + 1;
        }
      }
      assert was[..|was|] == was;
      assert rows == CancelRows(was, scope, reason, now);
    }

    /** A customer's deliveries from a time on, in order, gathered from the audit trail. */
    method ContactsSince(customer: CustomerRef, since: Instant) returns (recent: seq<Instant>)
      ensures recent == OldestFirst(Deliveries(audit, cases, customer), since)
    {
      recent := [];
      for i := 0 to |audit|
        invariant recent == OldestFirst(Deliveries(audit[..i], cases, customer), since)
      {
        assert audit[..i + 1][..i] == audit[..i];
        ghost var before := Deliveries(audit[..i], cases, customer);
        if IsDelivery(cases, audit[i], customer) {
          assert (before + [audit[i].at])[..|before|] == before;
          if audit[i].at >= since {
            recent := Insert(recent, audit[i].at);
          }
        }
      }
      assert audit[..|audit|] == audit;
    }

    // -- contact suppression -----------------------------------------------------

    method SuppressContact(scope: Scope, code: StopCode, at: Instant)
      modifies this`suppressions
      ensures View() == Suppresses(old(View()), scope, code, at)
    {
      suppressions := suppressions + [Suppression(scope, code, at, None, None)];
    }

    /** Of the suppressions standing on a case or its customer, the first imposed. */
    method ContactSuppression(c: Option<CaseId>, customer: Option<CustomerRef>)
      returns (standing: Option<Suppression>)
      ensures standing.Some? <==> Suppressed(View(), c, customer)
      ensures standing.Some? ==>
                && standing.value in suppressions
                && Stands(standing.value)
                && Matches(standing.value, c, customer)
                && forall x :: x in suppressions && Stands(x) && Matches(x, c, customer) ==>
                     standing.value.at <= x.at
    {
      standing := None;
      for i := 0 to |suppressions|
        invariant standing.Some? <==>
          exists k :: 0 <= k < i && Stands(suppressions[k]) && Matches(suppressions[k], c, customer)
        invariant standing.Some? ==>
          && standing.value in suppressions
          && Stands(standing.value)
          && Matches(standing.value, c, customer)
          && forall k :: 0 <= k < i && Stands(suppressions[k]) && Matches(suppressions[k], c, customer) ==>
               standing.value.at <= suppressions[k].at
      {
        var x := suppressions[i];
        if Stands(x) && Matches(x, c, customer) && (standing.None? || x.at < standing.value.at) {
          standing := Some(x);
        }
      }
    }

    /** Only a standing suppression can be lifted, and only once. */
    method LiftSuppression(id: nat, who: string, at: Instant)
      modifies this`suppressions
      ensures View() == Lifted(old(View()), id, who, at)
    {
      if id < |suppressions| && suppressions[id].liftedAt.None? {
        suppressions := suppressions[id := suppressions[id].(liftedAt := Some(at), liftedBy := Some(who))];
      }
    }
  }
}
