/**
 * Redelivery is harmless. However often a payment's failure arrives, under old event ids or new ones
 * and with or without its case already open, there is one case, at most one diagnosis, and only the
 * delivery that wrote the diagnosis queued anything. The same event never counts twice, even where
 * the first count was of a delivery that died before it was worked.
 */
module Redelivery {
  import opened Sequences
  import opened Models
  import opened Policies
  import opened Tables
  import opened Agent
  import opened Effects
  import opened Runs
  import opened Histories
  import Ladder
  import Limits
  import Replies
  import Runner
  import Taxonomies

  // -- one delivery --------------------------------------------------------------

  /** A delivery that is worked rather than only made durable. */
  predicate Worked(m: Move) {
    m.Webhook? || m.Failure?
  }

  function VerdictOf(m: Move): Verdict
    requires Worked(m)
  {
    if m.Webhook? then NoVerifier else m.verdict
  }

  /** Exactly the deliveries that end in a diagnosis: the first for its case that nothing bars. */
  predicate Diagnosable(env: Env, s: Db, m: Move)
    requires Worked(m)
  {
    var e, c := Entering(s, m), CaseFor(s, m.signal, m.newId);
    && !Duplicate(s, m)
    && LatestIn(s.diagnoses, c).None?
    && !CaseSuppressed(e, c, CustomerFor(s, m))
    && (Taxonomies.NeedsVerification(m.signal) ==> VerdictOf(m) == Unpaid)
  }

  lemma LadderDiagnosesNothing(
    p: Policy, s: Db, c: CaseId, known: Case, klass: DiagnosisClass, signal: FailureSignal, now: Instant)
    ensures LadderEntered(p, s, c, known, klass, signal, now).diagnoses == s.diagnoses
  {
    hide Ladder.Worthwhile, Limits.MayDebit;
    var rung := Ladder.Entry(klass);
    if rung.Some? && Ladder.Worthwhile(p, rung.value, known.amountPaise) {
      LadderAdds(p, s, known, klass, signal, Actor(c, known.customer, Some(signal), now));
    }
  }

  lemma WorkingDiagnoses(env: Env, s: Db, c: CaseId, known: Case, signal: FailureSignal, now: Instant)
    ensures DiagnosedAndWorked(env.p, env.tx, s, c, known, signal, now).diagnoses
            == s.diagnoses + [Filed(c, Taxonomies.Diagnose(env.tx, signal))]
  {
    hide LadderEntered, Taxonomies.Diagnose, Taxonomies.AuthorityOf;
    var d := Taxonomies.Diagnose(env.tx, signal);
    var decided := Diagnosed(d.klass, Taxonomies.AuthorityOf(env.p, d));
    LadderDiagnosesNothing(
      env.p, Recorded(DiagnosisFiled(s, c, d), c, now, decided), c, known, d.klass, signal, now);
  }

  lemma FirstWorking(
    env: Env, s: Db, c: CaseId, known: Case, signal: FailureSignal, verdict: Verdict, now: Instant)
    ensures var r := FirstWorked(env.p, env.tx, s, c, known, signal, verdict, now);
            if !CaseSuppressed(s, c, known.customer) && (Taxonomies.NeedsVerification(signal) ==> verdict == Unpaid)
            then r.diagnoses == s.diagnoses + [Filed(c, Taxonomies.Diagnose(env.tx, signal))]
            else r.diagnoses == s.diagnoses && |r.rows| == |s.rows|
  {
    hide DiagnosedAndWorked, Taxonomies.Diagnose, Taxonomies.NeedsVerification;
    WorkingDiagnoses(env, s, c, known, signal, now);
    var confirmed := Recorded(Recorded(s, c, now, VerifyFirst), c, now, ConfirmedUnpaid);
    WorkingDiagnoses(env, confirmed, c, known, signal, now);
  }

  /** A delivery writes its case's diagnosis when it is diagnosable, and otherwise queues nothing. */
  lemma OnlyTheDiagnosisQueues(env: Env, s: Db, m: Move)
    requires Consistent(s) && Worked(m) && Enabled(s, m)
    ensures var r, c := Apply(env, s, m), CaseFor(s, m.signal, m.newId);
            && r.diagnoses == (if Diagnosable(env, s, m)
                               then s.diagnoses + [Filed(c, Taxonomies.Diagnose(env.tx, m.signal))] else s.diagnoses)
            && (!Diagnosable(env, s, m) ==> |r.rows| == |s.rows|)
            && (LatestIn(s.diagnoses, c).Some? ==> r.rows == s.rows)
  {
    hide Consistent, FirstWorked, Entering, LatestIn, Taxonomies.Diagnose, Taxonomies.NeedsVerification;
    EnteringKeepsConsistent(s, m);
    var e, c := Entering(s, m), CaseFor(s, m.signal, m.newId);
    if !Duplicate(s, m) {
      assert Apply(env, s, m) == FailureHandled(env.p, env.tx, e, m.signal, VerdictOf(m), m.now, m.newId) by {
        WorkedFromEntering(env, s, m);
      }
      var ingested := Recorded(e, c, m.now, Ingested(false));
      FirstWorking(env, ingested, c, e.cases[c], m.signal, VerdictOf(m), m.now);
    }
  }

  lemma WorkedFromEntering(env: Env, s: Db, m: Move)
    requires Consistent(s) && Worked(m) && Enabled(s, m) && !Duplicate(s, m)
    ensures Apply(env, s, m)
            == FailureHandled(env.p, env.tx, Entering(s, m), m.signal, VerdictOf(m), m.now, m.newId)
  {
    hide Consistent, FirstWorked;
    EnteringKeepsConsistent(s, m);
  }

  // -- one case and one diagnosis, over every run --------------------------------------

  lemma {:induction false} LatestMeansSome(diagnoses: seq<Filed>, c: CaseId)
    ensures LatestIn(diagnoses, c).Some? <==> exists i :: 0 <= i < |diagnoses| && diagnoses[i].caseId == c
    decreases |diagnoses|
  {
    if diagnoses != [] {
      var n := |diagnoses| - 1;
      LatestMeansSome(diagnoses[..n], c);
      if i :| 0 <= i < |diagnoses| && diagnoses[i].caseId == c {
        assert i < n ==> diagnoses[..n][i].caseId == c;
      }
    }
  }

  predicate OneDiagnosisEach(s: Db) {
    forall i, j :: 0 <= i < j < |s.diagnoses| ==> s.diagnoses[i].caseId != s.diagnoses[j].caseId
  }

  lemma ReplyDiagnosesNothing(p: Policy, s: Db, c: CaseId, known: Case, parsed: Replies.ParsedReply, now: Instant)
    requires ReadOf(s, c, known)
    ensures ReplyHandled(p, s, c, known, parsed, now).diagnoses == s.diagnoses
  {
    hide Replies.Decision, Agent.RealignedTo, Effect, ScopeSuppressed;
    if !CaseSuppressed(s, c, known.customer) {
      var out := Replies.Decision(p, parsed, DateOf(now), None);
      var read := Recorded(s, c, now, ReplyRead(out.rules));
      if out.realignTo.Some? {
        RealignEffect(p, read, known, out.realignTo.value, Actor(c, known.customer, SignalOf(read, c), now));
      }
    }
  }

  lemma MoveDiagnoses(env: Env, s: Db, m: Move)
    requires Consistent(s) && Enabled(s, m)
    ensures var r := Apply(env, s, m);
            if Worked(m) && Diagnosable(env, s, m)
            then
              var c := CaseFor(s, m.signal, m.newId);
              r.diagnoses == s.diagnoses + [Filed(c, Taxonomies.Diagnose(env.tx, m.signal))]
            else r.diagnoses == s.diagnoses
  {
    hide Consistent, Effect, ReplyHandled, ReviewResumed, WebhookHandled, FailureHandled, IsClaim, Runner.RunRow,
      Diagnosable, ScopeSuppressed, Taxonomies.Diagnose;
    match m
    case Webhook(_, _, _, _) => OnlyTheDiagnosisQueues(env, s, m);
    case Failure(_, _, _, _) => OnlyTheDiagnosisQueues(env, s, m);
    case Reply(c, known, parsed, now) => ReplyDiagnosesNothing(env.p, s, c, known, parsed, now);
    case Review(c, known, now) => ReviewAdds(env.p, s, known, ActorOf(s, m));
    case Dispatch(id, _, table, response, now) => RowBodyFrame(env.p, s, id, table, response, now);
    case _ =>
  }

  lemma MoveKeepsOneDiagnosis(env: Env, s: Db, m: Move)
    requires Consistent(s) && Enabled(s, m) && OneDiagnosisEach(s)
    ensures OneDiagnosisEach(Apply(env, s, m))
  {
    hide Consistent, Apply, Taxonomies.Diagnose;
    MoveDiagnoses(env, s, m);
    if Worked(m) && Diagnosable(env, s, m) {
      LatestMeansSome(s.diagnoses, CaseFor(s, m.signal, m.newId));
    }
  }

  /** At every point of every run each case has at most one diagnosis, and each payment one case. */
  lemma {:induction false} OneCaseOneDiagnosis(env: Env, moves: seq<Move>, k: nat)
    requires IsRun(env, moves) && k <= |moves|
    ensures var s := StateAt(env, EMPTY, moves, k);
            && OneDiagnosisEach(s)
            && forall c, d :: c in s.signals && d in s.signals && s.signals[c].paymentId == s.signals[d].paymentId ==>
                 c == d
    decreases k
  {
    hide Consistent, Apply, Enabled, OneDiagnosisEach;
    if k == 0 {
      NoDiagnoses();
    } else {
      OneCaseOneDiagnosis(env, moves, k - 1);
      RunsAreConsistent(env, moves, k - 1);
      NextState(env, moves, k - 1);
      MoveKeepsOneDiagnosis(env, StateAt(env, EMPTY, moves, k - 1), moves[k - 1]);
    }
    RunsAreConsistent(env, moves, k);
    OneCaseEach(StateAt(env, EMPTY, moves, k));
  }

  lemma NoDiagnoses()
    ensures OneDiagnosisEach(EMPTY)
  {
  }

  lemma OneCaseEach(s: Db)
    requires Consistent(s)
    ensures forall c, d :: c in s.signals && d in s.signals && s.signals[c].paymentId == s.signals[d].paymentId ==>
              c == d
  {
  }

  // -- only one delivery queues --------------------------------------------------------

  lemma {:induction false} DiagnosedStays(env: Env, moves: seq<Move>, j: nat, k: nat, c: CaseId)
    requires IsRun(env, moves) && j <= k <= |moves|
    requires LatestIn(StateAt(env, EMPTY, moves, j).diagnoses, c).Some?
    ensures LatestIn(StateAt(env, EMPTY, moves, k).diagnoses, c).Some?
    decreases k
  {
    hide Consistent, Apply, Enabled, LatestIn, Taxonomies.Diagnose, Diagnosable;
    if j < k {
      var s, r := StateAt(env, EMPTY, moves, k - 1), StateAt(env, EMPTY, moves, k);
      DiagnosedStays(env, moves, j, k - 1, c);
      RunsAreConsistent(env, moves, k - 1);
      NextState(env, moves, k - 1);
      MoveDiagnoses(env, s, moves[k - 1]);
      LatestMeansSome(s.diagnoses, c);
      LatestMeansSome(r.diagnoses, c);
      var i :| 0 <= i < |s.diagnoses| && s.diagnoses[i].caseId == c;
      assert r.diagnoses[i].caseId == c;
    }
  }

  /** The case a payment is filed under, once it is. */
  lemma FiledFor(s: Db, c: CaseId, signal: FailureSignal, newId: CaseId)
    requires Consistent(s) && c in s.signals && s.signals[c].paymentId == signal.paymentId
    ensures CaseFor(s, signal, newId) == c
  {
  }

  lemma WorkedIsFiled(env: Env, s: Db, m: Move)
    requires Consistent(s) && Worked(m) && Enabled(s, m) && Diagnosable(env, s, m)
    ensures var r, c := Apply(env, s, m), CaseFor(s, m.signal, m.newId);
            && c in r.signals && r.signals[c].paymentId == m.signal.paymentId
            && LatestIn(r.diagnoses, c).Some?
  {
    hide Consistent, Effect, LatestIn;
    EnteringKeepsConsistent(s, m);
    FailureEffect(env, s, m);
    OnlyTheDiagnosisQueues(env, s, m);
    var r, c := Apply(env, s, m), CaseFor(s, m.signal, m.newId);
    LatestMeansSome(r.diagnoses, c);
    assert r.diagnoses[|s.diagnoses|].caseId == c;
    SignalsOnFile(env, s, m);
  }

  lemma SignalsOnFile(env: Env, s: Db, m: Move)
    requires Consistent(s) && Worked(m) && Enabled(s, m) && !Duplicate(s, m)
    ensures var r, c := Apply(env, s, m), CaseFor(s, m.signal, m.newId);
            c in r.signals && r.signals[c].paymentId == m.signal.paymentId
  {
    hide Apply, FailureActor;
    EnteringKeepsConsistent(s, m);
    FailureEffect(env, s, m);
    assert Apply(env, s, m).signals == Entering(s, m).signals;
    EnteredSignal(s, m);
  }

  lemma EnteredSignal(s: Db, m: Move)
    requires Consistent(s) && Worked(m) && Enabled(s, m)
    ensures var e, c := Entering(s, m), CaseFor(s, m.signal, m.newId);
            c in e.signals && e.signals[c].paymentId == m.signal.paymentId
  {
  }

  /** Of any two deliveries of one payment, at most one queued anything. */
  lemma OnlyOneDeliveryQueues(env: Env, moves: seq<Move>, j: nat, k: nat)
    requires IsRun(env, moves) && j < k < |moves|
    requires Worked(moves[j]) && Worked(moves[k]) && moves[j].signal.paymentId == moves[k].signal.paymentId
    ensures |StateAt(env, EMPTY, moves, j + 1).rows| == |StateAt(env, EMPTY, moves, j).rows|
            || StateAt(env, EMPTY, moves, k + 1).rows == StateAt(env, EMPTY, moves, k).rows
  {
    hide Consistent, StateAt, IsRun, Diagnosable, LatestIn, Enabled, Apply, Taxonomies.Diagnose;
    var s, t := StateAt(env, EMPTY, moves, j), StateAt(env, EMPTY, moves, k);
    NextState(env, moves, j);
    NextState(env, moves, k);
    RunsAreConsistent(env, moves, j);
    RunsAreConsistent(env, moves, k);
    OnlyTheDiagnosisQueues(env, s, moves[j]);
    OnlyTheDiagnosisQueues(env, t, moves[k]);
    if Diagnosable(env, s, moves[j]) {
      var c := CaseFor(s, moves[j].signal, moves[j].newId);
      WorkedIsFiled(env, s, moves[j]);
      NoCaseIsLost(env, moves, j + 1, k);
      DiagnosedStays(env, moves, j + 1, k, c);
      FiledFor(t, c, moves[k].signal, moves[k].newId);
    }
  }

  // -- one event ---------------------------------------------------------------

  lemma MoveKeepsEvents(env: Env, s: Db, m: Move)
    requires Consistent(s) && Enabled(s, m)
    ensures forall e :: e in s.events ==> e in Apply(env, s, m).events
    ensures Worked(m) && !m.Failure? && m.event.Some? ==> m.event.value in Apply(env, s, m).events
    ensures m.Interrupted? && m.event.Some? ==> m.event.value in Apply(env, s, m).events
  {
    hide Consistent, Effect, IsClaim, Runner.RunRow, StopApplied, ReplyHandled, ReviewResumed, MarkedRecovered,
      FailureHandled, Opened, CaseFor;
    if Decides(m) {
      DecisionEffect(env, s, m);
      SameEvents(env.p, s, Apply(env, s, m), ActorOf(s, m));
    } else if Worked(m) {
      if !Duplicate(s, m) {
        FailureEffect(env, s, m);
        SameEvents(env.p, Entering(s, m), Apply(env, s, m), FailureActor(s, m));
        EnteringKeepsEvents(s, m);
      }
    } else if m.Dispatch? {
      RowBodyFrame(env.p, s, m.id, m.table, m.response, m.now);
    } else if m.Interrupted? {
      OpeningKeepsEvents(s, m.signal, m.newId);
    }
  }

  lemma SameEvents(p: Policy, s: Db, r: Db, who: Actor)
    requires Effect(p, s, r, who)
    ensures r.events == s.events
  {
  }

  lemma OpeningKeepsEvents(s: Db, signal: FailureSignal, newId: CaseId)
    ensures Opened(s, signal, newId).events == s.events
  {
  }

  lemma EnteringKeepsEvents(s: Db, m: Move)
    requires Worked(m)
    ensures forall e :: e in s.events ==> e in Entering(s, m).events
    ensures m.Webhook? && m.event.Some? ==> m.event.value in Entering(s, m).events
  {
  }

  lemma {:induction false} EventsStay(env: Env, moves: seq<Move>, j: nat, k: nat, event: EventId)
    requires IsRun(env, moves) && j <= k <= |moves|
    requires event in StateAt(env, EMPTY, moves, j).events
    ensures event in StateAt(env, EMPTY, moves, k).events
    decreases k
  {
    hide Consistent, Apply, Enabled;
    if j < k {
      EventsStay(env, moves, j, k - 1, event);
      RunsAreConsistent(env, moves, k - 1);
      NextState(env, moves, k - 1);
      MoveKeepsEvents(env, StateAt(env, EMPTY, moves, k - 1), moves[k - 1]);
    }
  }

  predicate Carries(m: Move, event: EventId) {
    (m.Webhook? || m.Interrupted?) && m.event == Some(event)
  }

  /** Once an event has been delivered, delivering it again changes nothing at all. */
  lemma SameEventChangesNothing(env: Env, moves: seq<Move>, j: nat, k: nat, event: EventId)
    requires IsRun(env, moves) && j < k < |moves|
    requires Carries(moves[j], event) && Carries(moves[k], event)
    ensures StateAt(env, EMPTY, moves, k + 1) == StateAt(env, EMPTY, moves, k)
  {
    hide Consistent, StateAt, IsRun, Enabled, Apply;
    NextState(env, moves, j);
    NextState(env, moves, k);
    RunsAreConsistent(env, moves, j);
    MoveKeepsEvents(env, StateAt(env, EMPTY, moves, j), moves[j]);
    EventsStay(env, moves, j + 1, k, event);
    SeenBefore(env, StateAt(env, EMPTY, moves, k), moves[k], event);
  }

  lemma SeenBefore(env: Env, s: Db, m: Move, event: EventId)
    requires Enabled(s, m) && Carries(m, event) && event in s.events
    ensures Apply(env, s, m) == s
  {
    hide FailureHandled, Opened, CaseFor;
  }

  /**
   * An event not seen before makes good: its webhook diagnoses a case nobody has yet, exactly when
   * the case is under no stop and the reason needs no check, for a webhook brings no verifier.
   */
  lemma ANewEventMakesGood(env: Env, s: Db, m: Move)
    requires Consistent(s) && m.Webhook? && Enabled(s, m) && !Duplicate(s, m)
    requires LatestIn(s.diagnoses, CaseFor(s, m.signal, m.newId)).None?
    ensures var c := CaseFor(s, m.signal, m.newId);
            LatestIn(Apply(env, s, m).diagnoses, c).Some?
            <==> !CaseSuppressed(s, c, CustomerFor(s, m)) && !Taxonomies.NeedsVerification(m.signal)
  {
    hide Consistent, Apply, LatestIn, Entering, Taxonomies.Diagnose, Taxonomies.NeedsVerification;
    EnteringKeepsConsistent(s, m);
    OnlyTheDiagnosisQueues(env, s, m);
    var c, r := CaseFor(s, m.signal, m.newId), Apply(env, s, m);
    if Diagnosable(env, s, m) {
      LatestMeansSome(r.diagnoses, c);
      assert r.diagnoses[|s.diagnoses|].caseId == c;
    }
  }

  /**
   * The price of marking before working: when the delivery that first carried an event died in
   * between, and the sender only ever sends that event again, the case is never diagnosed.
   */
  lemma {:induction false} AnInterruptedEventIsNeverWorked(
    env: Env, moves: seq<Move>, j: nat, k: nat, event: EventId, c: CaseId)
    requires IsRun(env, moves) && j < k <= |moves|
    requires moves[j].Interrupted? && Carries(moves[j], event)
    requires c in StateAt(env, EMPTY, moves, j + 1).signals
    requires StateAt(env, EMPTY, moves, j + 1).signals[c].paymentId == moves[j].signal.paymentId
    requires LatestIn(StateAt(env, EMPTY, moves, j + 1).diagnoses, c).None?
    requires forall n :: j < n < k && Worked(moves[n]) && moves[n].signal.paymentId == moves[j].signal.paymentId ==>
               Carries(moves[n], event)
    ensures LatestIn(StateAt(env, EMPTY, moves, k).diagnoses, c).None?
    decreases k
  {
    hide Consistent, StateAt, IsRun, Apply, Enabled, LatestIn, Taxonomies.Diagnose, Diagnosable;
    if j + 1 < k {
      var s, m := StateAt(env, EMPTY, moves, k - 1), moves[k - 1];
      AnInterruptedEventIsNeverWorked(env, moves, j, k - 1, event, c);
      RunsAreConsistent(env, moves, k - 1);
      NextState(env, moves, k - 1);
      NoCaseIsLost(env, moves, j + 1, k - 1);
      if Worked(m) && m.signal.paymentId == moves[j].signal.paymentId {
        SameEventChangesNothing(env, moves, j, k - 1, event);
      } else {
        OthersDiagnoseOthers(env, s, m, c);
      }
    }
  }

  /** A delivery of another payment, or any other move, leaves this case's diagnosis as it was. */
  lemma OthersDiagnoseOthers(env: Env, s: Db, m: Move, c: CaseId)
    requires Consistent(s) && Enabled(s, m) && c in s.signals
    requires Worked(m) ==> m.signal.paymentId != s.signals[c].paymentId
    requires LatestIn(s.diagnoses, c).None?
    ensures LatestIn(Apply(env, s, m).diagnoses, c).None?
  {
    hide Apply, Taxonomies.Diagnose, Diagnosable, LatestIn;
    MoveDiagnoses(env, s, m);
    LatestMeansSome(s.diagnoses, c);
    LatestMeansSome(Apply(env, s, m).diagnoses, c);
    assert Worked(m) ==> CaseFor(s, m.signal, m.newId) != c;
  }

  // -- the merchant's own fault ------------------------------------------------------

  /** A failure the merchant caused queues nothing on any path; at most it finds the order paid. */
  lemma MerchantFaultQueuesNothing(env: Env, s: Db, m: Move)
    requires Consistent(s) && Worked(m) && Enabled(s, m)
    requires m.signal.errorSource == Some("business")
    ensures var r := Apply(env, s, m);
            && |r.rows| == |s.rows|
            && (r.rows == s.rows || (Taxonomies.NeedsVerification(m.signal) && VerdictOf(m) == AlreadyPaid))
  {
    hide Consistent, Entering, LadderEntered, Taxonomies.Diagnose, Taxonomies.AuthorityOf, Taxonomies.NeedsVerification;
    Taxonomies.MerchantFaultIsHeld(env.p, env.tx, m.signal);
    EnteringKeepsConsistent(s, m);
    if !Duplicate(s, m) {
      WorkedFromEntering(env, s, m);
      var e := Entering(s, m);
      assert Opened(e, m.signal, m.newId) == e;
      FaultHandled(env, e, m.signal, VerdictOf(m), m.now, m.newId);
    } else {
      DuplicatesChangeNothing(env, s, m);
    }
  }

  lemma FaultHandled(env: Env, s: Db, signal: FailureSignal, verdict: Verdict, now: Instant, newId: CaseId)
    requires Opened(s, signal, newId) == s
    requires Taxonomies.AuthorityOf(env.p, Taxonomies.Diagnose(env.tx, signal)) == HoldForHuman
    ensures var r := FailureHandled(env.p, env.tx, s, signal, verdict, now, newId);
            && |r.rows| == |s.rows|
            && (r.rows == s.rows || (Taxonomies.NeedsVerification(signal) && verdict == AlreadyPaid))
  {
    hide LadderEntered, Taxonomies.Diagnose, Taxonomies.AuthorityOf, Taxonomies.NeedsVerification, Opened,
      CaseSuppressed;
  }
}
