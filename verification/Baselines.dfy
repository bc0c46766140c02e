/** The documented retry behaviour, replayed blind as the control group. */
module Baselines {
  import opened Sequences
  import opened Models
  import opened Policies
  import opened Windows

  datatype RetryModel = RetryModel(
    retries: nat, interval: Duration, subjectToBands: bool, countIsDocumented: bool)

  function ModelFor(rail: Rail): RetryModel {
    match rail
    case Upi => RetryModel(3, DAY, true, true)
    case Card => RetryModel(3, DAY, false, true)
    case Emandate => RetryModel(3, DAY, false, false)
    case Netbanking => RetryModel(3, DAY, false, false)
    case Nach => RetryModel(3, DAY, false, false)
    case _ => RetryModel(3, DAY, false, false)
  }

  datatype BaselineRun = BaselineRun(
    attempts: nat, inRestrictedWindow: nat, futile: nat, scheduledAt: seq<Instant>, assumptionUsed: bool)

  predicate Futile(klass: DiagnosisClass) {
    klass in {MandateStateBroken, CustomerIntentRevoked}
  }

  lemma SameTimeNextDay(t: Instant)
    ensures TimeOfDay(t + DAY) == TimeOfDay(t)
  {
  }

  /**
   * The blind baseline repeats its hour: attempts a day apart, in order, and inside the restricted
   * bands either every time or never, every time exactly when the rail is banded and the original
   * failure fell in a band.
   */
  method Run(p: Policy, signal: FailureSignal, klass: DiagnosisClass) returns (result: BaselineRun)
    ensures && result.attempts == |result.scheduledAt| == 3
            && (forall k :: 0 <= k < 3 ==> result.scheduledAt[k] == signal.occurredAt + (k + 1) * DAY)
            && (result.inRestrictedWindow == 0 || result.inRestrictedWindow == result.attempts)
            && (result.inRestrictedWindow == result.attempts <==>
                  Lower(signal.methodName.GetOr("")) == "upi"
                  && !InNoBand(p, signal.occurredAt))
            && result.futile == (if Futile(klass) then result.attempts else 0)
            && (result.assumptionUsed <==> Lower(signal.methodName.GetOr("")) !in {"upi", "card"})
  {
    var model := ModelFor(RailOf(signal.methodName));
    result := BaselineRun(0, 0, 0, [], !model.countIsDocumented);
    var at := signal.occurredAt;
    for i := 0 to model.retries
      invariant at == signal.occurredAt + i * DAY
      invariant TimeOfDay(at) == TimeOfDay(signal.occurredAt)
      invariant result.attempts == |result.scheduledAt| == i
      invariant forall k :: 0 <= k < i ==> result.scheduledAt[k] == signal.occurredAt + (k + 1) * DAY
      invariant result.inRestrictedWindow ==
        if model.subjectToBands && !InNoBand(p, signal.occurredAt) then i else 0
      invariant result.futile == if Futile(klass) then i else 0
      invariant result.assumptionUsed == !model.countIsDocumented
    {
      SameTimeNextDay(at);
      at := at + model.interval;
      assert TimeOfDay(at) == at % 86_400_000_000;
      BandsGovernByName(p, None, at);
      result := result.(attempts := result.attempts + 1, scheduledAt := result.scheduledAt + [at]);
      if model.subjectToBands && !ExecutionAllowed(p, at, Unrecognised) {
        result := result.(inRestrictedWindow := result.inRestrictedWindow + 1);
      }
      if Futile(klass) {
        result := result.(futile := result.futile + 1);
      }
    }
  }
}
