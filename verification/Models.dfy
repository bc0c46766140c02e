/** Signals, cases, diagnoses and actions, and the clock they are timed by. */
module Models {
  import opened Sequences

  // Identifiers are opaque: the system only ever compares them.
  type CaseId = nat
  type CustomerRef = nat
  type PaymentId = nat
  type EventId = nat
  type Worker = nat

  // An instant is a count of microseconds on the Indian wall clock, which has no
  // daylight saving; a date is a day number on the same clock.
  type Instant = int
  type Date = int
  type Duration = int

  const DAY: Duration := 86_400_000_000
  const HOUR: Duration := 3_600_000_000
  const MINUTE: Duration := 60_000_000

  function DateOf(t: Instant): Date {
    t / 86_400_000_000
  }

  function TimeOfDay(t: Instant): (tod: Duration)
    ensures 0 <= tod < DAY
  {
    t % 86_400_000_000
  }

  function At(date: Date, tod: Duration): Instant {
    date * 86_400_000_000 + tod
  }

  lemma Calendar(date: Date, tod: Duration)
    requires 0 <= tod < DAY
    ensures DateOf(At(date, tod)) == date && TimeOfDay(At(date, tod)) == tod
  {
  }

  lemma Recompose(t: Instant)
    ensures At(DateOf(t), TimeOfDay(t)) == t
  {
  }

  datatype DiagnosisClass =
    | RecoverableTechnical | RecoverableBalance | NotificationGap
    | MandateStateBroken | CustomerIntentRevoked | Unknown

  datatype CaseState =
    | Open | HeldForHuman | Recovered | Unrecovered | ClosedRevoked | ClosedFalseFailure

  /** The rail a payment method names once its case is folded; every other name is unrecognised. */
  datatype Rail = Upi | Card | Emandate | Nach | Netbanking | Wallet | Unrecognised

  function Lower(s: string): string {
    seq(|s|, i requires 0 <= i < |s| =>
      if 'A' <= s[i] <= 'Z' then s[i] - 'A' + 'a' else s[i])
  }

  function RailOf(methodName: Option<string>): Rail {
    var m := Lower(methodName.GetOr(""));
    if m == "upi" then Upi
    else if m == "card" then Card
    else if m == "emandate" then Emandate
    else if m == "nach" then Nach
    else if m == "netbanking" then Netbanking
    else if m == "wallet" then Wallet
    else Unrecognised
  }

  datatype FailureSignal = FailureSignal(
    paymentId: PaymentId,
    orderId: Option<string>,
    customer: CustomerRef,
    amountPaise: int,
    methodName: Option<string>,
    errorReason: Option<string>,
    errorSource: Option<string>,
    errorStep: Option<string>,
    occurredAt: Instant,
    mandateMax: Option<int>
  )

  /** A case: what is owed, by whom, and how far recovery has gone. */
  datatype Case = Case(
    customer: CustomerRef,
    amountPaise: int,
    state: CaseState,
    openedAt: Instant,
    retryCount: nat,
    suspendedUntil: Option<Date>
  )

  /** The recovery ladder, from free to expensive. */
  datatype Rung = SilentRetry | Nudge | Reauthorisation | VoiceCall | HumanCallback

  /** What a queued action does: a debit, or the ladder step it was scheduled as. */
  datatype ActionKind = Retry | Step(rung: Rung)

  const NUDGE: ActionKind := Step(Nudge)

  datatype Variant = Standard | AskDate | Exhausted

  datatype Diagnosis = Diagnosis(klass: DiagnosisClass, confidence: real)

  /** What may be done on the strength of a diagnosis alone. */
  datatype Authority = HoldForHuman | SampledQa | AutoExecute

  function Rank(a: Authority): nat {
    match a
    case HoldForHuman => 0
    case SampledQa => 1
    case AutoExecute => 2
  }
}
