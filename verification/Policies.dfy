/** Every number the shell enforces, as one typed value, and the values shipped with the system. */
module Policies {
  import opened Models

  /** A stretch of the day in which a governed debit may not run: start inclusive, end exclusive. */
  datatype Band = Band(start: Duration, end: Duration)

  predicate Within(b: Band, tod: Duration) {
    b.start <= tod < b.end
  }

  datatype RungCosts = RungCosts(
    silentRetry: nat, nudge: nat, reauthorisation: nat, voiceCall: nat, humanCallback: nat)

  datatype RawPolicy = RawPolicy(
    bands: seq<Band>,
    contactOpen: Duration,
    contactClose: Duration,
    maxPerWindow: nat,
    contactWindow: Duration,
    retryCap: nat,
    backoff: map<DiagnosisClass, seq<Duration>>,
    defaultBackoff: Duration,
    replyGrace: Duration,
    autoExecute: real,
    sampledQa: real,
    actsOnMoney: real,
    protective: real,
    cancellation: real,
    costs: RungCosts,
    frictionlessUpi: int,
    frictionlessUpiBfsi: int,
    upiMandateMax: int,
    cardRecurringMax: int,
    emandateMax: int
  )

  /** What the rules assume of the file. The loader makes whole minutes, and checks none of the rest. */
  predicate WellFormed(p: RawPolicy) {
    && 0 <= p.contactOpen < p.contactClose < DAY
    && p.maxPerWindow >= 1
    && p.retryCap >= 1
    && 0.0 < p.sampledQa <= p.autoExecute
    && (forall i :: 0 <= i < |p.bands| ==> 0 <= p.bands[i].start < p.bands[i].end < DAY)
    && (forall i :: 0 <= i < |p.bands| ==> p.bands[i].start % MINUTE == 0 && p.bands[i].end % MINUTE == 0)
    && (forall i, j :: 0 <= i < |p.bands| && 0 <= j < |p.bands| ==> !Within(p.bands[i], p.bands[j].end))
  }

  type Policy = p: RawPolicy | WellFormed(p) witness SHIPPED

  const SHIPPED: RawPolicy := RawPolicy(
    bands := [Band(10 * HOUR, 13 * HOUR), Band(17 * HOUR, 21 * HOUR + 30 * MINUTE)],
    contactOpen := 8 * HOUR,
    contactClose := 19 * HOUR,
    maxPerWindow := 1,
    contactWindow := 14 * DAY,
    retryCap := 3,
    backoff := map[
      RecoverableTechnical := [30 * MINUTE, 2 * HOUR, 6 * HOUR],
      RecoverableBalance := [DAY, DAY, 2 * DAY],
      NotificationGap := [25 * HOUR, 25 * HOUR, 25 * HOUR]
    ],
    defaultBackoff := 6 * HOUR,
    replyGrace := 25 * HOUR,
    autoExecute := 0.90,
    sampledQa := 0.70,
    actsOnMoney := 0.70,
    protective := 0.50,
    cancellation := 0.85,
    costs := RungCosts(0, 100, 200, 800, 6000),
    frictionlessUpi := 15_000_00,
    frictionlessUpiBfsi := 1_00_000_00,
    upiMandateMax := 1_00_000_00,
    cardRecurringMax := 15_000_00,
    emandateMax := 1_00_00_000_00
  )
}
