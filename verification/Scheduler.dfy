/** When a debit that has been asked for may run, if at all. */
module Scheduler {
  import opened Sequences
  import opened Models
  import opened Policies
  import opened Windows

  function BackoffFor(p: Policy, klass: Option<DiagnosisClass>, attempt: nat): Duration {
    if klass.None? || klass.value !in p.backoff || p.backoff[klass.value] == [] then p.defaultBackoff
    else
      var schedule := p.backoff[klass.value];
      schedule[Min(attempt, |schedule| - 1)]
  }

  datatype FiredRule = RetryCapReached | NotInThePast | WindowViolation(band: Band)

  datatype Decision = Decision(
    scheduledFor: Option<Instant>,
    accepted: bool,
    rules: seq<FiredRule>,
    requested: Instant
  )

  /** The floor a request is held to, and the band correction that follows. */
  function Placed(p: Policy, requested: Instant, now: Option<Instant>, rail: Rail): Instant {
    NextExecution(p, Max(requested, now.GetOr(requested)), rail)
  }

  function RetryDecision(
    p: Policy, requested: Instant, retryCount: nat, now: Option<Instant>, rail: Rail): Decision
  {
    if retryCount >= p.retryCap then Decision(None, false, [RetryCapReached], requested)
    else
      var candidate := Max(requested, now.GetOr(requested));
      var floored := if candidate != requested then [NotInThePast] else [];
      var banded := if ExecutionAllowed(p, candidate, rail) then []
                    else [WindowViolation(BandAt(p.bands, TimeOfDay(candidate)).value)];
      Decision(Some(Placed(p, requested, now, rail)), true, floored + banded, requested)
  }

  method ScheduleRetry(
    p: Policy, requestedAt: Instant, retryCount: nat, now: Option<Instant>, rail: Rail)
    returns (d: Decision)
    ensures d == RetryDecision(p, requestedAt, retryCount, now, rail)
  {
    var rules := [];
    if retryCount >= p.retryCap {
      return Decision(None, false, [RetryCapReached], requestedAt);
    }
    var floor := now.GetOr(requestedAt);
    var candidate := Max(requestedAt, floor);
    if candidate != requestedAt {
      rules := rules + [NotInThePast];
    }
    if !ExecutionAllowed(p, candidate, rail) {
      rules := rules + [WindowViolation(BandAt(p.bands, TimeOfDay(candidate)).value)];
      candidate := NextExecution(p, candidate, rail);
    }
    d := Decision(Some(candidate), true, rules, requestedAt);
  }

  /**
   * Refused exactly at the cap; otherwise the least legal instant at or after both the request
   * and the present, and the rules fired say which of the two corrections were made.
   */
  lemma RetryIsLeastLegal(
    p: Policy, requested: Instant, retryCount: nat, now: Option<Instant>, rail: Rail)
    ensures var d := RetryDecision(p, requested, retryCount, now, rail);
            var floor := Max(requested, now.GetOr(requested));
            && (d.accepted <==> retryCount < p.retryCap)
            && (d.accepted <==> d.scheduledFor.Some?)
            && (d.accepted ==>
                  && floor <= d.scheduledFor.value
                  && ExecutionAllowed(p, d.scheduledFor.value, rail)
                  && (forall u :: floor <= u < d.scheduledFor.value ==> !ExecutionAllowed(p, u, rail))
                  && (NotInThePast in d.rules <==> now.Some? && requested < now.value)
                  && ((exists b :: WindowViolation(b) in d.rules) <==> d.scheduledFor.value != floor))
  {
    var floor := Max(requested, now.GetOr(requested));
    NextExecutionIsLeast(p, floor, rail);
    if retryCount < p.retryCap {
      var d := RetryDecision(p, requested, retryCount, now, rail);
      if !ExecutionAllowed(p, floor, rail) {
        var b := BandAt(p.bands, TimeOfDay(floor)).value;
        assert WindowViolation(b) in d.rules;
      }
    }
  }

  /**
   * By the method's own name: an accepted debit lies in no band of the policy, at the least such
   * instant, unless the name is one of the five that no band applies to; then it runs when asked.
   */
  lemma RetryByName(p: Policy, requested: Instant, retryCount: nat, now: Option<Instant>, methodName: Option<string>)
    ensures var d := RetryDecision(p, requested, retryCount, now, RailOf(methodName));
            var floor := Max(requested, now.GetOr(requested));
            && (d.accepted <==> retryCount < p.retryCap)
            && (d.accepted <==> d.scheduledFor.Some?)
            && (d.accepted && Unbanded(methodName) ==> d.scheduledFor.value == floor)
            && (d.accepted && !Unbanded(methodName) ==>
                  && floor <= d.scheduledFor.value
                  && InNoBand(p, d.scheduledFor.value)
                  && forall u :: floor <= u < d.scheduledFor.value ==> !InNoBand(p, u))
  {
    hide ExecutionAllowed, RetryDecision, InNoBand, Unbanded, RailOf;
    RetryIsLeastLegal(p, requested, retryCount, now, RailOf(methodName));
    var d := RetryDecision(p, requested, retryCount, now, RailOf(methodName));
    var floor := Max(requested, now.GetOr(requested));
    if d.accepted {
      BandsGovernByName(p, methodName, d.scheduledFor.value);
      BandsGovernByName(p, methodName, floor);
      forall u | floor <= u < d.scheduledFor.value
        ensures !Unbanded(methodName) && !InNoBand(p, u)
      {
        BandsGovernByName(p, methodName, u);
      }
    }
  }

  /** The wait before an attempt: its place in the class's schedule, the last place after that, or the default. */
  lemma BackoffByAttempt(p: Policy, klass: DiagnosisClass, attempt: nat)
    ensures klass !in p.backoff ==> BackoffFor(p, Some(klass), attempt) == p.defaultBackoff
    ensures klass in p.backoff && attempt < |p.backoff[klass]| ==>
              BackoffFor(p, Some(klass), attempt) == p.backoff[klass][attempt]
    ensures klass in p.backoff && 0 < |p.backoff[klass]| <= attempt ==>
              BackoffFor(p, Some(klass), attempt) == p.backoff[klass][|p.backoff[klass]| - 1]
    ensures klass in p.backoff && p.backoff[klass] == [] ==> BackoffFor(p, Some(klass), attempt) == p.defaultBackoff
    ensures BackoffFor(p, None, attempt) == p.defaultBackoff
  {
  }
}
