/** The store's tables as one value, and what each statement run against them does. */
module Tables {
  import opened Sequences
  import opened Models
  import opened Windows
  import opened Stops
  import opened Replies

  // -- the action queue ------------------------------------------------------

  datatype RowState = Pending | Leased | Done | Failed | NoAdapter | Cancelled

  datatype CancelReason =
    | ByStop(code: StopCode) | RealignedTo | HeldForPerson | UneconomicRung | FalseFailure | PaidByLink

  // A row's id is its place in the table: rows are only ever added.
  datatype Row = Row(
    caseId: CaseId,
    customer: CustomerRef,
    kind: ActionKind,
    variant: Option<Variant>,
    scheduledFor: Option<Instant>,
    state: RowState,
    cancelReason: Option<CancelReason>,
    cancelledAt: Option<Instant>,
    createdAt: Instant,
    leasedUntil: Option<Instant>,
    worker: Option<Worker>,
    attempts: nat
  )

  function NewRow(
    c: CaseId, customer: CustomerRef, kind: ActionKind, due: Option<Instant>, at: Instant,
    variant: Option<Variant>): Row
  {
    Row(c, customer, kind, variant, due, Pending, None, None, at, None, None, 0)
  }

  predicate Live(row: Row) {
    row.state.Pending? || row.state.Leased?
  }

  predicate Due(row: Row, now: Instant) {
    row.state.Pending? && row.scheduledFor.Some? && row.scheduledFor.value <= now
  }

  datatype Scope = OnCase(caseId: CaseId) | OnCustomer(customer: CustomerRef)

  predicate InScope(scope: Scope, c: CaseId, customer: CustomerRef) {
    match scope
    case OnCase(id) => id == c
    case OnCustomer(ref) => ref == customer
  }

  predicate RowInScope(scope: Scope, row: Row) {
    InScope(scope, row.caseId, row.customer)
  }

  function LiveIn(scope: Scope): Row -> bool {
    row => Live(row) && RowInScope(scope, row)
  }

  function CancelRow(row: Row, scope: Scope, reason: CancelReason, now: Option<Instant>): Row {
    if Live(row) && RowInScope(scope, row)
    then row.(state := Cancelled, cancelReason := Some(reason), cancelledAt := now)
    else row
  }

  lemma OnlyLiveRowsChange(row: Row, scope: Scope, reason: CancelReason, now: Option<Instant>)
    ensures LiveIn(scope)(row) == (Live(row) && RowInScope(scope, row))
    ensures !LiveIn(scope)(row) ==> CancelRow(row, scope, reason, now) == row
  {
  }

  function CancelRows(rows: seq<Row>, scope: Scope, reason: CancelReason, now: Option<Instant>): seq<Row> {
    seq(|rows|, i requires 0 <= i < |rows| => CancelRow(rows[i], scope, reason, now))
  }

  lemma CancellingKeepsLength(rows: seq<Row>, scope: Scope, reason: CancelReason, now: Option<Instant>)
    ensures |CancelRows(rows, scope, reason, now)| == |rows|
  {
  }

  predicate Expired(row: Row, now: Instant) {
    row.state.Leased? && row.leasedUntil.Some? && row.leasedUntil.value <= now
  }

  function ReleaseRow(row: Row, now: Instant): Row {
    if Expired(row, now) then row.(state := Pending, leasedUntil := None, worker := None) else row
  }

  function ReleaseRows(rows: seq<Row>, now: Instant): seq<Row> {
    seq(|rows|, i requires 0 <= i < |rows| => ReleaseRow(rows[i], now))
  }

  /** The due rows a claim may take: `limit` of them, and none later than one it leaves behind. */
  predicate IsClaim(rows: seq<Row>, now: Instant, limit: nat, ids: seq<nat>) {
    && (forall k :: 0 <= k < |ids| ==> ids[k] < |rows| && Due(rows[ids[k]], now))
    && (forall j, k :: 0 <= j < k < |ids| ==> ids[j] != ids[k])
    && |ids| <= limit
    && (forall i :: 0 <= i < |rows| && Due(rows[i], now) && i !in ids ==>
          && |ids| == limit
          && forall k :: 0 <= k < |ids| ==>
               rows[ids[k]].scheduledFor.value <= rows[i].scheduledFor.value)
  }

  function LeaseRow(row: Row, until: Instant, worker: Worker): Row {
    row.(state := Leased, leasedUntil := Some(until), worker := Some(worker), attempts := row.attempts + 1)
  }

  function LeaseRows(rows: seq<Row>, ids: seq<nat>, until: Instant, worker: Worker): seq<Row> {
    seq(|rows|, i requires 0 <= i < |rows| => if i in ids then LeaseRow(rows[i], until, worker) else rows[i])
  }

  function FinishRow(rows: seq<Row>, id: nat, state: RowState): seq<Row> {
    if id < |rows| then rows[id := rows[id].(state := state, leasedUntil := None)] else rows
  }

  function ReturnRow(rows: seq<Row>, id: nat, due: Instant): seq<Row> {
    if id < |rows|
    then rows[id := rows[id].(state := Pending, leasedUntil := None, worker := None, scheduledFor := Some(due))]
    else rows
  }

  // -- suppressions and the audit trail ----------------------------------------

  datatype Suppression = Suppression(
    scope: Scope, code: StopCode, at: Instant, liftedAt: Option<Instant>, liftedBy: Option<string>)

  predicate Stands(x: Suppression) {
    x.liftedAt.None?
  }

  predicate Matches(x: Suppression, c: Option<CaseId>, customer: Option<CustomerRef>) {
    || (c.Some? && x.scope == OnCase(c.value))
    || (customer.Some? && x.scope == OnCustomer(customer.value))
  }

  /** One record per decision; the prose it carries is not modelled. */
  datatype Decided =
    | Ingested(known: bool)
    | OpenedUnderStop
    | VerifyFirst
    | VerificationHeld
    | ClosedAsPaid
    | ConfirmedUnpaid
    | Diagnosed(klass: DiagnosisClass, authority: Authority)
    | HeldOnConfidence
    | NoLadder
    | UneconomicAt(rung: Rung)
    | EnteredAt(rung: Rung)
    | AmountRefused
    | RetryScheduled(accepted: bool)
    | FallbackScheduled(accepted: bool)
    | LadderExhausted(skipped: seq<Rung>)
    | EscalatedAfterCap(rung: Rung, skipped: seq<Rung>)
    | Stopped(code: StopCode, cancelled: nat)
    | ReplyNotActedOn
    | ReplyRead(rules: seq<ReplyRule>)
    | HeldAsWellAsStopped
    | HeldByReply(cancelled: nat)
    | Executed(kind: ActionKind, state: RowState)
    | PaidViaLink(cancelled: nat)

  datatype Entry = Entry(caseId: CaseId, at: Instant, decided: Decided)

  datatype Filed = Filed(caseId: CaseId, diagnosis: Diagnosis)

  // -- the database ----------------------------------------------------------

  /** `signals` holds each case's signal and `filed` is the unique index on its payment. */
  datatype Db = Db(
    cases: map<CaseId, Case>,
    signals: map<CaseId, FailureSignal>,
    filed: map<PaymentId, CaseId>,
    diagnoses: seq<Filed>,
    rows: seq<Row>,
    suppressions: seq<Suppression>,
    audit: seq<Entry>,
    events: map<EventId, CaseId>
  )

  const EMPTY: Db := Db(map[], map[], map[], [], [], [], [], map[])

  function Opened(s: Db, signal: FailureSignal, newId: CaseId): Db {
    if signal.paymentId in s.filed then s
    else s.(
      cases := s.cases[newId := Case(signal.customer, signal.amountPaise, Open, signal.occurredAt, 0, None)],
      signals := s.signals[newId := signal],
      filed := s.filed[signal.paymentId := newId])
  }

  function CaseFor(s: Db, signal: FailureSignal, newId: CaseId): CaseId {
    if signal.paymentId in s.filed then s.filed[signal.paymentId] else newId
  }

  function Recorded(s: Db, c: CaseId, at: Instant, decided: Decided): Db {
    s.(audit := s.audit + [Entry(c, at, decided)])
  }

  function StateSet(s: Db, c: CaseId, state: CaseState): Db {
    if c in s.cases then s.(cases := s.cases[c := s.cases[c].(state := state)]) else s
  }

  function Incremented(s: Db, c: CaseId): Db {
    if c in s.cases then s.(cases := s.cases[c := s.cases[c].(retryCount := s.cases[c].retryCount + 1)]) else s
  }

  function Suspended(s: Db, c: CaseId, until: Option<Date>): Db {
    if c in s.cases then s.(cases := s.cases[c := s.cases[c].(suspendedUntil := until)]) else s
  }

  function DiagnosisFiled(s: Db, c: CaseId, d: Diagnosis): Db {
    s.(diagnoses := s.diagnoses + [Filed(c, d)])
  }

  function LatestIn(diagnoses: seq<Filed>, c: CaseId): Option<Diagnosis> {
    if diagnoses == [] then None
    else if diagnoses[|diagnoses| - 1].caseId == c then Some(diagnoses[|diagnoses| - 1].diagnosis)
    else LatestIn(diagnoses[..|diagnoses| - 1], c)
  }

  function SignalOf(s: Db, c: CaseId): Option<FailureSignal> {
    if c in s.signals then Some(s.signals[c]) else None
  }

  function Scheduled(
    s: Db, c: CaseId, customer: CustomerRef, kind: ActionKind, due: Option<Instant>, at: Instant,
    variant: Option<Variant>): Db
  {
    s.(rows := s.rows + [NewRow(c, customer, kind, due, at, variant)])
  }

  function Cancels(s: Db, scope: Scope, reason: CancelReason, now: Option<Instant>): Db {
    s.(rows := CancelRows(s.rows, scope, reason, now))
  }

  predicate Suppressed(s: Db, c: Option<CaseId>, customer: Option<CustomerRef>) {
    exists i :: 0 <= i < |s.suppressions| && Stands(s.suppressions[i]) && Matches(s.suppressions[i], c, customer)
  }

  /** A suppression in force on the case itself or on the person it belongs to. */
  predicate CaseSuppressed(s: Db, c: CaseId, customer: CustomerRef) {
    Suppressed(s, Some(c), Some(customer))
  }

  predicate ScopeSuppressed(s: Db, scope: Scope) {
    match scope
    case OnCase(c) => Suppressed(s, Some(c), None)
    case OnCustomer(ref) => Suppressed(s, None, Some(ref))
  }

  function Suppresses(s: Db, scope: Scope, code: StopCode, at: Instant): Db {
    s.(suppressions := s.suppressions + [Suppression(scope, code, at, None, None)])
  }

  function Lifted(s: Db, id: nat, who: string, at: Instant): Db {
    if id < |s.suppressions| && Stands(s.suppressions[id])
    then s.(suppressions := s.suppressions[id := s.suppressions[id].(liftedAt := Some(at), liftedBy := Some(who))])
    else s
  }

  function Marked(s: Db, event: EventId, c: CaseId): Db {
    if event in s.events then s else s.(events := s.events[event := c])
  }

  // -- when a customer was messaged --------------------------------------------

  predicate IsDelivery(cases: map<CaseId, Case>, e: Entry, customer: CustomerRef) {
    e.caseId in cases && cases[e.caseId].customer == customer && e.decided == Executed(NUDGE, Done)
  }

  /** Every delivered nudge to this customer, on any case, in the order they were delivered. */
  function Deliveries(audit: seq<Entry>, cases: map<CaseId, Case>, customer: CustomerRef): seq<Instant> {
    if audit == [] then []
    else
      var n := |audit| - 1;
      var front := Deliveries(audit[..n], cases, customer);
      if IsDelivery(cases, audit[n], customer) then front + [audit[n].at] else front
  }

  function Insert(s: seq<Instant>, x: Instant): seq<Instant> {
    if s == [] || s[|s| - 1] <= x then s + [x] else Insert(s[..|s| - 1], x) + [s[|s| - 1]]
  }

  /** The deliveries at or after `since`, oldest first. */
  function OldestFirst(deliveries: seq<Instant>, since: Instant): seq<Instant> {
    if deliveries == [] then []
    else
      var n := |deliveries| - 1;
      var front := OldestFirst(deliveries[..n], since);
      if deliveries[n] >= since then Insert(front, deliveries[n]) else front
  }

  lemma {:induction false} InsertSorts(s: seq<Instant>, x: Instant)
    requires Sorted(s)
    ensures Sorted(Insert(s, x))
    ensures forall y :: y in Insert(s, x) ==> y == x || y in s
    decreases |s|
  {
    if s != [] && s[|s| - 1] > x {
      var n := |s| - 1;
      InsertSorts(s[..n], x);
      var front := Insert(s[..n], x);
      assert forall i :: 0 <= i < |front| ==> front[i] in front;
      assert forall y :: y in s[..n] ==> y <= s[n];
      assert forall i :: 0 <= i < |front| ==> front[i] <= s[n];
    }
  }

  lemma {:induction false} InsertAdds(s: seq<Instant>, x: Instant, f: Instant -> bool)
    ensures multiset(Insert(s, x)) == multiset(s) + multiset{x}
    ensures Count(Insert(s, x), f) == Count(s, f) + (if f(x) then 1 else 0)
    decreases |s|
  {
    if s == [] || s[|s| - 1] <= x {
      CountAppend(s, x, f);
    } else {
      var n := |s| - 1;
      InsertAdds(s[..n], x, f);
      CountAppend(Insert(s[..n], x), s[n], f);
      assert s == s[..n] + [s[n]];
    }
  }

  lemma {:induction false} OldestFirstIsSorted(deliveries: seq<Instant>, since: Instant)
    ensures Sorted(OldestFirst(deliveries, since))
    decreases |deliveries|
  {
    if deliveries != [] {
      hide Insert, Sorted;
      var n := |deliveries| - 1;
      OldestFirstIsSorted(deliveries[..n], since);
      InsertSorts(OldestFirst(deliveries[..n], since), deliveries[n]);
    } else {
      assert Sorted([]);
    }
  }

  lemma {:induction false} OldestFirstCounts(deliveries: seq<Instant>, since: Instant, cutoff: Instant)
    requires since <= cutoff
    ensures Count(OldestFirst(deliveries, since), After(cutoff)) == Count(deliveries, After(cutoff))
    decreases |deliveries|
  {
    if deliveries != [] {
      hide Insert;
      var n := |deliveries| - 1;
      OldestFirstCounts(deliveries[..n], since, cutoff);
      InsertAdds(OldestFirst(deliveries[..n], since), deliveries[n], After(cutoff));
    }
  }

  lemma {:induction false} OldestFirstKeeps(deliveries: seq<Instant>, since: Instant, t: Instant)
    ensures multiset(OldestFirst(deliveries, since))[t] == if t >= since then multiset(deliveries)[t] else 0
    decreases |deliveries|
  {
    if deliveries != [] {
      hide Insert, Count;
      var n := |deliveries| - 1;
      OldestFirstKeeps(deliveries[..n], since, t);
      assert deliveries == deliveries[..n] + [deliveries[n]];
      InsertAdds(OldestFirst(deliveries[..n], since), deliveries[n], After(since));
    }
  }

  /** A sorted rearrangement of exactly the deliveries at or after `since`. */
  lemma OldestFirstIsExact(deliveries: seq<Instant>, since: Instant, cutoff: Instant)
    requires since <= cutoff
    ensures var r := OldestFirst(deliveries, since);
            && Sorted(r)
            && (forall t :: multiset(r)[t] == if t >= since then multiset(deliveries)[t] else 0)
            && Count(r, After(cutoff)) == Count(deliveries, After(cutoff))
  {
    OldestFirstIsSorted(deliveries, since);
    OldestFirstCounts(deliveries, since, cutoff);
    forall t
      ensures multiset(OldestFirst(deliveries, since))[t] == if t >= since then multiset(deliveries)[t] else 0
    {
      OldestFirstKeeps(deliveries, since, t);
    }
  }
}
