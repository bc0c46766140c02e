/**
 * The system as one transition system over the tables. A run is any interleaving of webhooks,
 * direct failures, stops, replies, reviews, payments, lifted suppressions and workers' reclaims,
 * claims and row bodies, each at whatever time its caller's clock says.
 */
module Runs {
  import opened Sequences
  import opened Models
  import opened Policies
  import opened Stops
  import opened Tables
  import opened Agent
  import opened Effects
  import Replies
  import Runner
  import Taxonomies

  datatype Env = Env(p: Policy, tx: Taxonomies.Taxonomy)

  datatype Move =
    | Webhook(event: Option<EventId>, signal: FailureSignal, now: Instant, newId: CaseId)
    // A webhook that died after making its case and event durable.
    | Interrupted(event: Option<EventId>, signal: FailureSignal, newId: CaseId)
    | Failure(signal: FailureSignal, verdict: Verdict, now: Instant, newId: CaseId)
    | Stop(code: StopCode, c: CaseId, now: Instant)
    | Reply(c: CaseId, known: Case, parsed: Replies.ParsedReply, now: Instant)
    | Review(c: CaseId, known: Case, now: Instant)
    // The state a reviewer sets alongside a verdict.
    | Ruling(c: CaseId, state: CaseState)
    | Payment(c: CaseId, now: Instant)
    | Lift(id: nat, who: string, now: Instant)
    | Release(now: Instant)
    | Claim(now: Instant, worker: Worker, limit: nat, ids: seq<nat>)
    | Dispatch(id: nat, worker: Worker, table: set<ActionKind>, response: Runner.Response, now: Instant)

  /** What a caller must bring: a new id for a new case, a case it has read, a choice of due rows. */
  predicate Enabled(s: Db, m: Move) {
    match m
    case Webhook(_, signal, _, newId) => signal.paymentId in s.filed || newId !in s.cases
    case Interrupted(_, signal, newId) => signal.paymentId in s.filed || newId !in s.cases
    case Failure(signal, _, _, newId) => signal.paymentId in s.filed || newId !in s.cases
    case Stop(_, c, _) => c in s.cases
    case Reply(c, known, _, _) => ReadOf(s, c, known)
    case Review(c, known, _) => ReadOf(s, c, known)
    case Ruling(c, _) => c in s.cases
    case Payment(c, _) => c in s.cases
    case Lift(_, _, _) => true
    case Release(_) => true
    case Claim(now, _, limit, ids) => IsClaim(s.rows, now, limit, ids)
    case Dispatch(_, _, _, _, _) => true
  }

  /** A copy of a case read at some time: what never changes agrees, what does may be stale. */
  predicate ReadOf(s: Db, c: CaseId, known: Case) {
    && c in s.cases
    && known.customer == s.cases[c].customer
    && known.amountPaise == s.cases[c].amountPaise
  }

  function OpenedAndMarked(s: Db, event: Option<EventId>, signal: FailureSignal, newId: CaseId): Db {
    var withCase := Opened(s, signal, newId);
    if event.Some? then Marked(withCase, event.value, CaseFor(s, signal, newId)) else withCase
  }

  function Apply(env: Env, s: Db, m: Move): Db
    requires Enabled(s, m)
  {
    match m
    case Webhook(event, signal, now, newId) => WebhookHandled(env.p, env.tx, s, event, signal, now, newId)
    case Interrupted(event, signal, newId) =>
      if event.Some? && event.value in s.events then s else OpenedAndMarked(s, event, signal, newId)
    case Failure(signal, verdict, now, newId) =>
      FailureHandled(env.p, env.tx, s, signal, verdict, now, newId)
    case Stop(code, c, now) => StopApplied(s, code, c, s.cases[c].customer, now)
    case Reply(c, known, parsed, now) => ReplyHandled(env.p, s, c, known, parsed, now)
    case Review(c, known, now) => ReviewResumed(env.p, s, c, known, now)
    case Ruling(c, state) => StateSet(s, c, state)
    case Payment(c, now) => MarkedRecovered(s, c, now)
    case Lift(id, who, now) => Lifted(s, id, who, now)
    case Release(now) => Runner.Reclaimed(s, now)
    case Claim(now, worker, _, ids) => Runner.Claimed(s, now, ids, worker)
    case Dispatch(id, _, table, response, now) => Runner.RunRow(env.p, s, id, table, response, now).0
  }

  // -- runs --------------------------------------------------------------------

  /** The state after the first `k` moves, taken for as long as they are enabled. */
  function StateAt(env: Env, s: Db, moves: seq<Move>, k: nat): Db
    requires k <= |moves|
  {
    if k == 0 then s
    else
      var before := StateAt(env, s, moves, k - 1);
      if Enabled(before, moves[k - 1]) then Apply(env, before, moves[k - 1]) else before
  }

  /** A run from the empty store. */
  predicate IsRun(env: Env, moves: seq<Move>) {
    forall k :: 0 <= k < |moves| ==> Enabled(StateAt(env, EMPTY, moves, k), moves[k])
  }

  lemma NextState(env: Env, moves: seq<Move>, k: nat)
    requires IsRun(env, moves) && k < |moves|
    ensures Enabled(StateAt(env, EMPTY, moves, k), moves[k])
    ensures StateAt(env, EMPTY, moves, k + 1) == Apply(env, StateAt(env, EMPTY, moves, k), moves[k])
  {
    hide Enabled, Apply;
  }

  /** What comes later does not change what came before. */
  lemma {:induction false} StateOfPrefix(env: Env, s: Db, moves: seq<Move>, more: seq<Move>, k: nat)
    requires k <= |moves|
    ensures StateAt(env, s, moves + more, k) == StateAt(env, s, moves, k)
    decreases k
  {
    hide Enabled, Apply;
    if k > 0 {
      StateOfPrefix(env, s, moves, more, k - 1);
      assert (moves + more)[k - 1] == moves[k - 1];
    }
  }

  /** A run goes on by any move enabled where it has come to. */
  lemma OneMoreMove(env: Env, moves: seq<Move>, m: Move)
    requires IsRun(env, moves) && Enabled(StateAt(env, EMPTY, moves, |moves|), m)
    ensures IsRun(env, moves + [m])
    ensures StateAt(env, EMPTY, moves + [m], |moves|) == StateAt(env, EMPTY, moves, |moves|)
    ensures StateAt(env, EMPTY, moves + [m], |moves| + 1) == Apply(env, StateAt(env, EMPTY, moves, |moves|), m)
  {
    hide Enabled, Apply;
    forall k | 0 <= k <= |moves|
      ensures StateAt(env, EMPTY, moves + [m], k) == StateAt(env, EMPTY, moves, k)
    {
      StateOfPrefix(env, EMPTY, moves, [m], k);
    }
  }

  // -- what always holds of the tables -----------------------------------------

  /** Rows, records and diagnoses belong to cases, and each case to one payment. */
  predicate Consistent(s: Db) {
    && s.signals.Keys == s.cases.Keys
    && (forall q :: q in s.filed ==> s.filed[q] in s.cases && s.signals[s.filed[q]].paymentId == q)
    && (forall c :: c in s.signals ==>
          && s.signals[c].paymentId in s.filed && s.filed[s.signals[c].paymentId] == c
          && s.signals[c].customer == s.cases[c].customer)
    && (forall i :: 0 <= i < |s.rows| ==>
          s.rows[i].caseId in s.cases && s.rows[i].customer == s.cases[s.rows[i].caseId].customer)
    && (forall i :: 0 <= i < |s.audit| ==> s.audit[i].caseId in s.cases)
    && (forall i :: 0 <= i < |s.diagnoses| ==> s.diagnoses[i].caseId in s.cases)
  }

  /** The moves that decide something about a case that exists, and who they act for. */
  predicate Decides(m: Move) {
    m.Stop? || m.Reply? || m.Review? || m.Payment?
  }

  function ActorOf(s: Db, m: Move): Actor
    requires Decides(m) && Enabled(s, m)
  {
    Actor(m.c, s.cases[m.c].customer, SignalOf(s, m.c), m.now)
  }

  lemma DecisionEffect(env: Env, s: Db, m: Move)
    requires Decides(m) && Enabled(s, m)
    ensures Effect(env.p, s, Apply(env, s, m), ActorOf(s, m))
  {
    hide Effect, Adds, StopApplied, ReplyHandled, ReviewResumed, MarkedRecovered;
    var who := ActorOf(s, m);
    match m
    case Stop(code, c, now) => StopEffect(env.p, s, code, who);
    case Reply(c, known, parsed, now) => ReplyEffect(env.p, s, known, parsed, who);
    case Review(c, known, now) =>
      ReviewAdds(env.p, s, known, who);
      AddsIsEffect(env.p, s, Apply(env, s, m), who);
    case Payment(c, now) => RecoveryEffect(env.p, s, who);
  }

  /** The tables a failure is worked on: its case open, and its event marked if it came with one. */
  function Entering(s: Db, m: Move): Db
    requires m.Webhook? || m.Failure?
  {
    if m.Webhook? then OpenedAndMarked(s, m.event, m.signal, m.newId) else Opened(s, m.signal, m.newId)
  }

  predicate Duplicate(s: Db, m: Move) {
    m.Webhook? && m.event.Some? && m.event.value in s.events
  }

  function FailureActor(s: Db, m: Move): Actor
    requires m.Webhook? || m.Failure?
  {
    Actor(CaseFor(s, m.signal, m.newId), CustomerFor(s, m), Some(m.signal), m.now)
  }

  function CustomerFor(s: Db, m: Move): CustomerRef
    requires m.Webhook? || m.Failure?
  {
    var c := CaseFor(s, m.signal, m.newId);
    if m.signal.paymentId in s.filed && c in s.cases then s.cases[c].customer else m.signal.customer
  }

  /** Opening twice is opening once, and disturbs no case already there. */
  lemma OpeningIsStable(s: Db, signal: FailureSignal, newId: CaseId)
    requires Consistent(s) && (signal.paymentId in s.filed || newId !in s.cases)
    ensures var r, c := Opened(s, signal, newId), CaseFor(s, signal, newId);
            && c in r.cases
            && CaseFor(r, signal, newId) == c
            && Opened(r, signal, newId) == r
            && (forall d :: d in s.cases ==> d in r.cases && r.cases[d] == s.cases[d] && r.signals[d] == s.signals[d])
  {
  }

  lemma OpeningKeepsConsistent(s: Db, signal: FailureSignal, newId: CaseId)
    requires Consistent(s) && (signal.paymentId in s.filed || newId !in s.cases)
    ensures Consistent(Opened(s, signal, newId))
  {
    if signal.paymentId !in s.filed {
      var r := Opened(s, signal, newId);
      assert newId !in s.signals;
      forall q | q in r.filed
        ensures r.filed[q] in r.cases && r.signals[r.filed[q]].paymentId == q
      {
        if q != signal.paymentId {
          assert q in s.filed && s.filed[q] in s.cases;
        }
      }
      forall c | c in r.signals
        ensures r.signals[c].paymentId in r.filed && r.filed[r.signals[c].paymentId] == c
        ensures r.signals[c].customer == r.cases[c].customer
      {
        if c != newId {
          assert c in s.signals && s.signals[c].paymentId in s.filed;
        }
      }
    }
  }

  lemma EnteringKeepsConsistent(s: Db, m: Move)
    requires Consistent(s) && (m.Webhook? || m.Failure?) && Enabled(s, m)
    ensures var e, c := Entering(s, m), CaseFor(s, m.signal, m.newId);
            && Consistent(e)
            && c in e.cases && e.cases[c].customer == CustomerFor(s, m)
            && CaseFor(e, m.signal, m.newId) == c
            && Opened(e, m.signal, m.newId) == e
            && (e.rows, e.audit, e.diagnoses, e.suppressions) == (s.rows, s.audit, s.diagnoses, s.suppressions)
            && (forall d :: d in s.cases ==> d in e.cases && e.cases[d] == s.cases[d] && e.signals[d] == s.signals[d])
  {
    hide Consistent, Opened, CaseFor;
    OpeningIsStable(s, m.signal, m.newId);
    OpeningKeepsConsistent(s, m.signal, m.newId);
    MarkingKeepsConsistent(s, Opened(s, m.signal, m.newId), m);
  }

  lemma MarkingKeepsConsistent(s: Db, r: Db, m: Move)
    requires (m.Webhook? || m.Failure?) && Consistent(s) && Enabled(s, m)
    requires r == Opened(s, m.signal, m.newId) && Consistent(r)
    ensures Consistent(Entering(s, m))
    ensures var e, c := Entering(s, m), CaseFor(s, m.signal, m.newId);
            && (e.rows, e.audit, e.diagnoses, e.suppressions) == (s.rows, s.audit, s.diagnoses, s.suppressions)
            && (e.cases, e.signals, e.filed) == (r.cases, r.signals, r.filed)
            && c in e.cases && e.cases[c].customer == CustomerFor(s, m)
            && (Opened(r, m.signal, m.newId) == r ==> Opened(e, m.signal, m.newId) == e)
            && (CaseFor(r, m.signal, m.newId) == c ==> CaseFor(e, m.signal, m.newId) == c)
  {
  }

  lemma FailureEffect(env: Env, s: Db, m: Move)
    requires Consistent(s) && (m.Webhook? || m.Failure?) && Enabled(s, m) && !Duplicate(s, m)
    ensures Effect(env.p, Entering(s, m), Apply(env, s, m), FailureActor(s, m))
  {
    hide Effect, Adds, FirstWorked;
    EnteringKeepsConsistent(s, m);
    var e, who := Entering(s, m), FailureActor(s, m);
    var verdict := if m.Webhook? then NoVerifier else m.verdict;
    assert Apply(env, s, m) == FailureHandled(env.p, env.tx, e, m.signal, verdict, m.now, m.newId);
    var known := LatestIn(e.diagnoses, who.c).Some?;
    var ingested := Recorded(e, who.c, m.now, Ingested(known));
    RecordAdds(env.p, e, Ingested(known), who);
    if known {
      AddsIsEffect(env.p, e, ingested, who);
    } else {
      FirstWorkedEffect(env.p, env.tx, ingested, e.cases[who.c], m.signal, verdict, who);
      AddsThenEffect(env.p, e, ingested, Apply(env, s, m), who);
    }
  }

  lemma DuplicatesChangeNothing(env: Env, s: Db, m: Move)
    requires Enabled(s, m) && Duplicate(s, m)
    ensures Apply(env, s, m) == s
  {
  }

  lemma RowIsOwned(s: Db, id: nat)
    requires Consistent(s) && id < |s.rows|
    ensures s.rows[id].caseId in s.cases && s.cases[s.rows[id].caseId].customer == s.rows[id].customer
  {
  }

  lemma EffectKeepsConsistent(p: Policy, s: Db, r: Db, who: Actor)
    requires Consistent(s) && Effect(p, s, r, who)
    requires who.c in s.cases && s.cases[who.c].customer == who.customer
    ensures Consistent(r)
  {
    forall i | 0 <= i < |r.rows|
      ensures r.rows[i].caseId in r.cases && r.rows[i].customer == r.cases[r.rows[i].caseId].customer
    {
      if i < |s.rows| {
        assert SameButCancelled(s.rows[i], r.rows[i]);
      } else {
        assert NewFor(p, r.rows[i], who.c, who.customer, who.checked, who.now);
      }
    }
  }

  /** What a row never loses, whatever becomes of it. */
  predicate SameRow(a: Row, b: Row) {
    (a.caseId, a.customer, a.kind, a.variant, a.createdAt)
    == (b.caseId, b.customer, b.kind, b.variant, b.createdAt)
  }

  /** A row body touches one row and its case, and appends at most its own execution. */
  predicate BodyFrame(s: Db, r: Db, id: nat, now: Instant) {
    && (r.signals, r.filed, r.events, r.diagnoses, r.suppressions)
       == (s.signals, s.filed, s.events, s.diagnoses, s.suppressions)
    && |r.rows| == |s.rows|
    && (forall i :: 0 <= i < |s.rows| && i != id ==> r.rows[i] == s.rows[i])
    && (id < |s.rows| ==> SameRow(s.rows[id], r.rows[id]))
    && r.cases.Keys == s.cases.Keys
    && (forall c :: c in s.cases ==>
          r.cases[c].customer == s.cases[c].customer && r.cases[c].amountPaise == s.cases[c].amountPaise)
    && (r.audit == s.audit || (id < |s.rows| && Executing(s.audit, r.audit, s.rows[id], now)))
  }

  predicate Executing(a: seq<Entry>, b: seq<Entry>, row: Row, now: Instant) {
    && |b| == |a| + 1
    && b[..|a|] == a
    && b[|a|].caseId == row.caseId && b[|a|].at == now
    && b[|a|].decided.Executed? && b[|a|].decided.kind == row.kind
  }

  lemma SettledFrame(s: Db, id: nat, o: Runner.Outcome, now: Instant)
    requires id < |s.rows|
    ensures BodyFrame(s, Runner.Settled(s, id, s.rows[id], o, now), id, now)
  {
    var row := s.rows[id];
    var entry := Entry(row.caseId, now, Executed(row.kind, o.state));
    assert Runner.Settled(s, id, row, o, now).audit == s.audit + [entry];
    assert (s.audit + [entry])[..|s.audit|] == s.audit;
  }

  lemma FinishFrame(s: Db, id: nat, state: RowState, now: Instant)
    ensures BodyFrame(s, s.(rows := FinishRow(s.rows, id, state)), id, now)
    ensures BodyFrame(s, s, id, now)
  {
  }

  lemma RowBodyFrame(
    p: Policy, s: Db, id: nat, table: set<ActionKind>, response: Runner.Response, now: Instant)
    ensures BodyFrame(s, Runner.RunRow(p, s, id, table, response, now).0, id, now)
  {
    hide BodyFrame, Runner.Executes, Runner.Settled;
    FinishFrame(s, id, Cancelled, now);
    FinishFrame(s, id, NoAdapter, now);
    FinishFrame(s, id, Failed, now);
    if id < |s.rows| {
      var run := Runner.Executes(p, s, s.rows[id], response, now);
      if run.Returned? {
        SettledFrame(s, id, run.outcome, now);
      }
    }
  }

  /** The queue's own moves, and the one-line updates of a reviewer and a lifter. */
  lemma OtherKeepsConsistent(env: Env, s: Db, m: Move)
    requires Consistent(s) && Enabled(s, m) && !Decides(m) && !m.Webhook? && !m.Failure?
    ensures Consistent(Apply(env, s, m))
  {
    hide Runner.RunRow, Opened, IsClaim, Consistent;
    match m
    case Dispatch(id, _, table, response, now) =>
      hide BodyFrame;
      RowBodyFrame(env.p, s, id, table, response, now);
      BodyKeepsConsistent(s, Apply(env, s, m), id, now);
    case Interrupted(event, signal, newId) =>
      OpeningKeepsConsistent(s, signal, newId);
      MarkedConsistent(Opened(s, signal, newId), event.GetOr(0), CaseFor(s, signal, newId));
    case Ruling(_, _) => SameShapeConsistent(s, Apply(env, s, m));
    case Lift(_, _, _) => SameShapeConsistent(s, Apply(env, s, m));
    case Release(now) =>
      SameRowsConsistent(s, Apply(env, s, m));
    case Claim(now, worker, _, ids) =>
      SameRowsConsistent(s, Apply(env, s, m));
  }

  lemma MarkedConsistent(s: Db, event: EventId, c: CaseId)
    requires Consistent(s)
    ensures Consistent(Marked(s, event, c))
  {
  }

  lemma SameShapeConsistent(s: Db, r: Db)
    requires Consistent(s)
    requires (r.signals, r.filed, r.rows, r.audit, r.diagnoses) == (s.signals, s.filed, s.rows, s.audit, s.diagnoses)
    requires r.cases.Keys == s.cases.Keys
    requires forall c :: c in s.cases ==> r.cases[c].customer == s.cases[c].customer
    ensures Consistent(r)
  {
  }

  lemma SameRowsConsistent(s: Db, r: Db)
    requires Consistent(s) && r == s.(rows := r.rows) && |r.rows| == |s.rows|
    requires forall i :: 0 <= i < |s.rows| ==> SameRow(s.rows[i], r.rows[i])
    ensures Consistent(r)
  {
  }

  lemma BodyKeepsConsistent(s: Db, r: Db, id: nat, now: Instant)
    requires Consistent(s) && BodyFrame(s, r, id, now)
    ensures Consistent(r)
  {
    assert id < |s.rows| ==> s.rows[id].caseId in s.cases;
    assert r.signals == s.signals && r.filed == s.filed && r.cases.Keys == s.cases.Keys;
  }

  lemma MoveKeepsConsistent(env: Env, s: Db, m: Move)
    requires Consistent(s) && Enabled(s, m)
    ensures Consistent(Apply(env, s, m))
  {
    if m.Webhook? || m.Failure? {
      if !Duplicate(s, m) {
        hide Effect;
        FailureEffect(env, s, m);
        EnteringKeepsConsistent(s, m);
        EffectKeepsConsistent(env.p, Entering(s, m), Apply(env, s, m), FailureActor(s, m));
      }
    } else if Decides(m) {
      DecisionEffect(env, s, m);
      EffectKeepsConsistent(env.p, s, Apply(env, s, m), ActorOf(s, m));
    } else {
      OtherKeepsConsistent(env, s, m);
    }
  }

  lemma EmptyIsConsistent()
    ensures Consistent(EMPTY)
  {
  }

  lemma {:induction false} RunsAreConsistent(env: Env, moves: seq<Move>, k: nat)
    requires IsRun(env, moves) && k <= |moves|
    ensures Consistent(StateAt(env, EMPTY, moves, k))
    decreases k
  {
    hide Consistent, Apply;
    if k == 0 {
      assert Consistent(EMPTY) by { EmptyIsConsistent(); }
    } else {
      RunsAreConsistent(env, moves, k - 1);
      MoveKeepsConsistent(env, StateAt(env, EMPTY, moves, k - 1), moves[k - 1]);
    }
  }
}
