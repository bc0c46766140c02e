/** From a reply as it was read to what is done about it. */
module Replies {
  import opened Sequences
  import opened Models
  import opened Policies
  import opened Stops

  datatype Intent =
    | PromiseToPay | Dispute | SetOffRequest | OptOut | CancellationRequest | ServiceComplaint
    | Distress | ChannelPreference | UnknownIntent

  datatype Sentiment = Cooperative | Neutral | Frustrated | Distressed

  datatype DetectedIntent = DetectedIntent(intent: Intent, confidence: real)

  /** What the model put forward as a date, once it has been read as one or failed to be. */
  datatype ProposedDate = NoDate | NotADate | ADate(date: Date)

  datatype ParsedReply = ParsedReply(
    intents: seq<DetectedIntent>, date: ProposedDate, sentiment: Sentiment, failed: bool)

  datatype ReplyRule =
    | ParseFailed | StopFired(code: StopCode) | DisputeOverPromise | CancellationRequested
    | RoutedToSupport | PromiseAccepted | PromiseWithoutUsableDate | BelowActionThreshold
    | ChannelPreferenceRecorded | NothingActionable

  datatype ReplyOutcome = ReplyOutcome(
    stopCode: Option<StopCode>,
    realignTo: Option<Date>,
    suspendUntil: Option<Date>,
    routeToSupport: bool,
    voiceRefused: bool,
    needsHuman: bool,
    rules: seq<ReplyRule>
  )

  const NO_OUTCOME := ReplyOutcome(None, None, None, false, false, false, [])

  // -- the reading of a reply --------------------------------------------------

  /** The greatest confidence with which an intent was detected, if it was. */
  function Peak(intents: seq<DetectedIntent>, intent: Intent): Option<real> {
    if intents == [] then None
    else
      var rest := Peak(intents[1..], intent);
      if intents[0].intent != intent then rest
      else if rest.Some? && rest.value >= intents[0].confidence then rest
      else Some(intents[0].confidence)
  }

  predicate Has(intents: seq<DetectedIntent>, intent: Intent, atLeast: real) {
    Peak(intents, intent).Some? && Peak(intents, intent).value >= atLeast
  }

  function ValidateDate(date: ProposedDate, today: Date, expires: Option<Date>): Option<Date> {
    if !date.ADate? || date.date < today then None
    else if expires.Some? && date.date > expires.value then None
    else Some(date.date)
  }

  /** Everything the decision may look at: one peak per intent, and never how often it was named. */
  datatype Reading = Reading(
    promise: Option<real>, dispute: Option<real>, optOut: Option<real>, cancellation: Option<real>,
    complaint: Option<real>, distress: Option<real>, channel: Option<real>)

  function ReadingOf(intents: seq<DetectedIntent>): Reading {
    Reading(
      Peak(intents, PromiseToPay), Peak(intents, Dispute), Peak(intents, OptOut),
      Peak(intents, CancellationRequest), Peak(intents, ServiceComplaint),
      Peak(intents, Distress), Peak(intents, ChannelPreference))
  }

  predicate Reaches(peak: Option<real>, atLeast: real) {
    peak.Some? && peak.value >= atLeast
  }

  /** The stop a reading calls for, most protective first. */
  function StopFor(p: Policy, r: Reading, sentiment: Sentiment): Option<StopCode> {
    if Reaches(r.distress, p.protective) || sentiment.Distressed? then Some(DISTRESS)
    else if Reaches(r.dispute, p.protective) then Some(DISPUTE)
    else if Reaches(r.optOut, p.protective) then Some(OPT_OUT)
    else None
  }

  function PromiseOn(p: Policy, r: Reading, accepted: Option<Date>): ReplyOutcome {
    if Reaches(r.promise, p.actsOnMoney) then
      if accepted.Some? then
        NO_OUTCOME.(realignTo := accepted, suspendUntil := accepted, rules := [PromiseAccepted])
      else NO_OUTCOME.(rules := [PromiseWithoutUsableDate])
    else if Reaches(r.promise, 0.0) then NO_OUTCOME.(rules := [BelowActionThreshold])
    else NO_OUTCOME
  }

  function DecideOn(
    p: Policy, failed: bool, sentiment: Sentiment, r: Reading, date: ProposedDate,
    today: Date, expires: Option<Date>): ReplyOutcome
  {
    var cancels := Reaches(r.cancellation, p.cancellation);
    if failed then NO_OUTCOME.(needsHuman := true, rules := [ParseFailed])
    else
      match StopFor(p, r, sentiment)
      case Some(OPT_OUT) =>
        NO_OUTCOME.(stopCode := Some(OPT_OUT), needsHuman := cancels,
                    rules := [StopFired(OPT_OUT)] + (if cancels then [CancellationRequested] else []))
      case Some(code) =>
        var outranked := code == DISPUTE && Reaches(r.promise, 0.0);
        NO_OUTCOME.(stopCode := Some(code), needsHuman := true,
                    rules := [StopFired(code)] + (if outranked then [DisputeOverPromise] else []))
      case None =>
        if cancels then NO_OUTCOME.(needsHuman := true, rules := [CancellationRequested])
        else if Reaches(r.complaint, p.protective) then
          NO_OUTCOME.(routeToSupport := true, rules := [RoutedToSupport])
        else
          var promised := PromiseOn(p, r, ValidateDate(date, today, expires));
          var heard := if Reaches(r.channel, p.protective)
                       then promised.(voiceRefused := true,
                                      rules := promised.rules + [ChannelPreferenceRecorded])
                       else promised;
          if heard.rules == [] then heard.(needsHuman := true, rules := [NothingActionable]) else heard
  }

  function Decision(p: Policy, parsed: ParsedReply, today: Date, expires: Option<Date>): ReplyOutcome {
    DecideOn(p, parsed.failed, parsed.sentiment, ReadingOf(parsed.intents), parsed.date, today, expires)
  }

  method Decide(p: Policy, parsed: ParsedReply, today: Date, expires: Option<Date>)
    returns (out: ReplyOutcome)
    ensures out == Decision(p, parsed, today, expires)
  {
    out := NO_OUTCOME;
    if parsed.failed {
      out := out.(needsHuman := true, rules := out.rules + [ParseFailed]);
      return;
    }
    if Has(parsed.intents, Distress, p.protective) || parsed.sentiment == Distressed {
      out := out.(stopCode := Some(DISTRESS), needsHuman := true, rules := out.rules + [StopFired(DISTRESS)]);
      return;
    }
    if Has(parsed.intents, Dispute, p.protective) {
      out := out.(stopCode := Some(DISPUTE), needsHuman := true, rules := out.rules + [StopFired(DISPUTE)]);
      if Has(parsed.intents, PromiseToPay, 0.0) {
        out := out.(rules := out.rules + [DisputeOverPromise]);
      }
      return;
    }
    if Has(parsed.intents, OptOut, p.protective) {
      out := out.(stopCode := Some(OPT_OUT), rules := out.rules + [StopFired(OPT_OUT)]);
      if Has(parsed.intents, CancellationRequest, p.cancellation) {
        out := out.(needsHuman := true, rules := out.rules + [CancellationRequested]);
      }
      return;
    }
    if Has(parsed.intents, CancellationRequest, p.cancellation) {
      out := out.(needsHuman := true, rules := out.rules + [CancellationRequested]);
      return;
    }
    if Has(parsed.intents, ServiceComplaint, p.protective) {
      out := out.(routeToSupport := true, rules := out.rules + [RoutedToSupport]);
      return;
    }
    if Has(parsed.intents, PromiseToPay, p.actsOnMoney) {
      var accepted := ValidateDate(parsed.date, today, expires);
      if accepted.Some? {
        out := out.(realignTo := accepted, suspendUntil := accepted, rules := out.rules + [PromiseAccepted]);
      } else {
        out := out.(rules := out.rules + [PromiseWithoutUsableDate]);
      }
    } else if Has(parsed.intents, PromiseToPay, 0.0) {
      out := out.(rules := out.rules + [BelowActionThreshold]);
    }
    if Has(parsed.intents, ChannelPreference, p.protective) {
      out := out.(voiceRefused := true, rules := out.rules + [ChannelPreferenceRecorded]);
    }
    if out.rules == [] {
      out := out.(needsHuman := true, rules := [NothingActionable]);
    }
  }

  // -- what the decision depends on ---------------------------------------------

  lemma {:induction false} PeakIsGreatest(intents: seq<DetectedIntent>, intent: Intent)
    ensures var peak := Peak(intents, intent);
            && (peak.Some? ==> DetectedIntent(intent, peak.value) in intents)
            && (forall d :: d in intents && d.intent == intent ==> peak.Some? && d.confidence <= peak.value)
  {
    if intents != [] {
      PeakIsGreatest(intents[1..], intent);
      assert forall d :: d in intents <==> d == intents[0] || d in intents[1..];
    }
  }

  lemma PeakGrows(a: seq<DetectedIntent>, b: seq<DetectedIntent>, intent: Intent)
    requires forall d :: d in a ==> d in b
    ensures Peak(a, intent).Some? ==>
              Peak(b, intent).Some? && Peak(a, intent).value <= Peak(b, intent).value
  {
    PeakIsGreatest(a, intent);
    PeakIsGreatest(b, intent);
  }

  /** Every intent detected in `a` is detected in `b` at least as confidently. */
  predicate Covers(b: seq<DetectedIntent>, a: seq<DetectedIntent>) {
    forall d :: d in a ==> exists e :: e in b && e.intent == d.intent && d.confidence <= e.confidence
  }

  lemma CoveredPeak(a: seq<DetectedIntent>, b: seq<DetectedIntent>, intent: Intent)
    requires Covers(b, a)
    ensures Peak(a, intent).Some? ==>
              Peak(b, intent).Some? && Peak(a, intent).value <= Peak(b, intent).value
  {
    PeakIsGreatest(a, intent);
    PeakIsGreatest(b, intent);
    if Peak(a, intent).Some? {
      var d := DetectedIntent(intent, Peak(a, intent).value);
      var e :| e in b && e.intent == d.intent && d.confidence <= e.confidence;
    }
  }

  /**
   * Permuting the intents of a reply, or repeating them, changes nothing; nor does adding a reading
   * of an intent weaker than one already there.
   */
  lemma OrderAndRepetitionDoNotMatter(
    p: Policy, a: ParsedReply, b: ParsedReply, today: Date, expires: Option<Date>)
    requires a.failed == b.failed && a.sentiment == b.sentiment && a.date == b.date
    requires Covers(a.intents, b.intents) && Covers(b.intents, a.intents)
    ensures Decision(p, a, today, expires) == Decision(p, b, today, expires)
  {
    SameReading(a.intents, b.intents);
  }

  lemma SamePeak(a: seq<DetectedIntent>, b: seq<DetectedIntent>, intent: Intent)
    requires Covers(a, b) && Covers(b, a)
    ensures Peak(a, intent) == Peak(b, intent)
  {
    CoveredPeak(a, b, intent);
    CoveredPeak(b, a, intent);
  }

  lemma SameReading(a: seq<DetectedIntent>, b: seq<DetectedIntent>)
    requires Covers(a, b) && Covers(b, a)
    ensures ReadingOf(a) == ReadingOf(b)
  {
    SamePeak(a, b, PromiseToPay);
    SamePeak(a, b, Dispute);
    SamePeak(a, b, OptOut);
    SamePeak(a, b, CancellationRequest);
    SamePeak(a, b, ServiceComplaint);
    SamePeak(a, b, Distress);
    SamePeak(a, b, ChannelPreference);
  }

  function Strength(code: Option<StopCode>): nat {
    match code
    case Some(DISTRESS) => 3
    case Some(DISPUTE) => 2
    case Some(OPT_OUT) => 1
    case _ => 0
  }

  /** More evidence never removes a stop and never weakens it. */
  lemma AddingIntentsNeverWeakensAStop(
    p: Policy, a: ParsedReply, b: ParsedReply, today: Date, expires: Option<Date>)
    requires a.failed == b.failed && a.sentiment == b.sentiment
    requires forall d :: d in a.intents ==> d in b.intents
    ensures Strength(Decision(p, a, today, expires).stopCode)
            <= Strength(Decision(p, b, today, expires).stopCode)
  {
    hide Peak;
    PeakGrows(a.intents, b.intents, Distress);
    PeakGrows(a.intents, b.intents, Dispute);
    PeakGrows(a.intents, b.intents, OptOut);
  }

  predicate Detected(parsed: ParsedReply, intent: Intent, atLeast: real) {
    exists d :: d in parsed.intents && d.intent == intent && d.confidence >= atLeast
  }

  lemma DetectedIsHas(parsed: ParsedReply, intent: Intent, atLeast: real)
    ensures Detected(parsed, intent, atLeast) <==> Reaches(Peak(parsed.intents, intent), atLeast)
  {
    PeakIsGreatest(parsed.intents, intent);
  }

  /** A protective branch, any of which outranks a promise. */
  predicate Protective(p: Policy, parsed: ParsedReply) {
    || parsed.failed
    || parsed.sentiment == Distressed
    || Detected(parsed, Distress, p.protective)
    || Detected(parsed, Dispute, p.protective)
    || Detected(parsed, OptOut, p.protective)
    || Detected(parsed, CancellationRequest, p.cancellation)
    || Detected(parsed, ServiceComplaint, p.protective)
  }

  /** Money moves to a date exactly when nothing outranks the promise and the date is usable. */
  lemma MoneyMovesOnlyOnAClearPromise(
    p: Policy, parsed: ParsedReply, today: Date, expires: Option<Date>, day: Date)
    ensures Decision(p, parsed, today, expires).realignTo == Some(day)
            <==>
            (&& !Protective(p, parsed)
             && Detected(parsed, PromiseToPay, p.actsOnMoney)
             && parsed.date == ADate(day)
             && today <= day
             && (expires.Some? ==> day <= expires.value))
  {
    DetectedIsHas(parsed, Distress, p.protective);
    DetectedIsHas(parsed, Dispute, p.protective);
    DetectedIsHas(parsed, OptOut, p.protective);
    DetectedIsHas(parsed, CancellationRequest, p.cancellation);
    DetectedIsHas(parsed, ServiceComplaint, p.protective);
    DetectedIsHas(parsed, PromiseToPay, p.actsOnMoney);
  }

  /** Every reply has some consequence on record, and an unread one always reaches a person. */
  lemma NoReplyIsDropped(p: Policy, parsed: ParsedReply, today: Date, expires: Option<Date>)
    ensures var out := Decision(p, parsed, today, expires);
            && out.rules != []
            && (parsed.failed || parsed.intents == [] ==> out.needsHuman)
            && (out.stopCode.Some? && out.stopCode != Some(OPT_OUT) ==> out.needsHuman)
            && (out.needsHuman || out.stopCode.Some? ==> out.realignTo.None? && out.suspendUntil.None?)
            && out.suspendUntil == out.realignTo
  {
  }

  /** The stops a reply can raise, and that every one but an opt-out goes to a person. */
  lemma StopsOfAReply(p: Policy, parsed: ParsedReply, today: Date, expires: Option<Date>)
    ensures var out := Decision(p, parsed, today, expires);
            out.stopCode.Some? ==>
              && out.stopCode.value in {DISTRESS, DISPUTE, OPT_OUT}
              && (out.needsHuman || out.stopCode.value == OPT_OUT)
  {
  }

  /** A complaint only routes: it stops nothing, holds nothing and moves no date. */
  lemma ComplaintsOnlyRoute(p: Policy, parsed: ParsedReply, today: Date, expires: Option<Date>)
    ensures var out := Decision(p, parsed, today, expires);
            out.routeToSupport ==> out.stopCode.None? && !out.needsHuman && out.realignTo.None?
  {
  }

  // -- each answer, on what was detected ------------------------------------------------

  predicate Distressing(p: Policy, parsed: ParsedReply) {
    parsed.sentiment == Distressed || Detected(parsed, Distress, p.protective)
  }

  predicate Disputing(p: Policy, parsed: ParsedReply) {
    Detected(parsed, Dispute, p.protective)
  }

  predicate OptingOut(p: Policy, parsed: ParsedReply) {
    Detected(parsed, OptOut, p.protective)
  }

  predicate Cancelling(p: Policy, parsed: ParsedReply) {
    Detected(parsed, CancellationRequest, p.cancellation)
  }

  predicate Complaining(p: Policy, parsed: ParsedReply) {
    Detected(parsed, ServiceComplaint, p.protective)
  }

  /** Read, and none of the three that stop automation. */
  predicate Unstopped(p: Policy, parsed: ParsedReply) {
    !parsed.failed && !Distressing(p, parsed) && !Disputing(p, parsed) && !OptingOut(p, parsed)
  }

  /** A promise heard at any confidence, or a channel refused: something to put on record. */
  predicate SaysSomething(p: Policy, parsed: ParsedReply) {
    || Detected(parsed, PromiseToPay, 0.0)
    || Detected(parsed, PromiseToPay, p.actsOnMoney)
    || Detected(parsed, ChannelPreference, p.protective)
  }

  /** The stop: distress before dispute before opt-out, none from a reply that could not be read. */
  lemma StopsByDetection(p: Policy, parsed: ParsedReply, today: Date, expires: Option<Date>)
    ensures var code := Decision(p, parsed, today, expires).stopCode;
            && (code == Some(DISTRESS) <==> !parsed.failed && Distressing(p, parsed))
            && (code == Some(DISPUTE) <==> !parsed.failed && !Distressing(p, parsed) && Disputing(p, parsed))
            && (code == Some(OPT_OUT) <==>
                  !parsed.failed && !Distressing(p, parsed) && !Disputing(p, parsed) && OptingOut(p, parsed))
            && (code.None? <==> parsed.failed || Unstopped(p, parsed))
  {
    hide Peak;
    DetectedIsHas(parsed, Distress, p.protective);
    DetectedIsHas(parsed, Dispute, p.protective);
    DetectedIsHas(parsed, OptOut, p.protective);
  }

  /** Whether a person must answer: for an unread reply, hardship, a dispute, a cancellation, or nothing said. */
  predicate ForAPerson(p: Policy, parsed: ParsedReply) {
    || parsed.failed
    || Distressing(p, parsed)
    || Disputing(p, parsed)
    || Cancelling(p, parsed)
    || (!OptingOut(p, parsed) && !Complaining(p, parsed) && !SaysSomething(p, parsed))
  }

  lemma TheUnreadAreForAPerson(p: Policy, parsed: ParsedReply)
    ensures parsed.failed ==> ForAPerson(p, parsed)
  {
  }

  lemma PeopleByDetection(p: Policy, parsed: ParsedReply, today: Date, expires: Option<Date>)
    ensures Decision(p, parsed, today, expires).needsHuman <==> ForAPerson(p, parsed)
  {
    hide Peak;
    DetectedIsHas(parsed, Distress, p.protective);
    DetectedIsHas(parsed, Dispute, p.protective);
    DetectedIsHas(parsed, OptOut, p.protective);
    DetectedIsHas(parsed, CancellationRequest, p.cancellation);
    DetectedIsHas(parsed, ServiceComplaint, p.protective);
    DetectedIsHas(parsed, PromiseToPay, 0.0);
    DetectedIsHas(parsed, PromiseToPay, p.actsOnMoney);
    DetectedIsHas(parsed, ChannelPreference, p.protective);
  }

  /** Support hears of a complaint, and voice is refused, only where nothing that outranks them was said. */
  lemma RoutesByDetection(p: Policy, parsed: ParsedReply, today: Date, expires: Option<Date>)
    ensures var out := Decision(p, parsed, today, expires);
            && (out.routeToSupport <==>
                  Unstopped(p, parsed) && !Cancelling(p, parsed) && Complaining(p, parsed))
            && (out.voiceRefused <==>
                  Unstopped(p, parsed) && !Cancelling(p, parsed) && !Complaining(p, parsed)
                  && Detected(parsed, ChannelPreference, p.protective))
  {
    hide Peak;
    DetectedIsHas(parsed, Distress, p.protective);
    DetectedIsHas(parsed, Dispute, p.protective);
    DetectedIsHas(parsed, OptOut, p.protective);
    DetectedIsHas(parsed, CancellationRequest, p.cancellation);
    DetectedIsHas(parsed, ServiceComplaint, p.protective);
    DetectedIsHas(parsed, ChannelPreference, p.protective);
  }

  /** A promise the shell acts on: clearly made, for a day not past, with nothing that outranks it. */
  predicate PromisesADay(p: Policy, parsed: ParsedReply, today: Date) {
    && !Protective(p, parsed)
    && Detected(parsed, PromiseToPay, p.actsOnMoney)
    && parsed.date.ADate?
    && today <= parsed.date.date
  }

  lemma DaysByDetection(p: Policy, parsed: ParsedReply, today: Date)
    ensures var out := Decision(p, parsed, today, None);
            && (out.realignTo.Some? <==> PromisesADay(p, parsed, today))
            && (out.realignTo.Some? ==> out.realignTo == Some(parsed.date.date))
            && out.suspendUntil == out.realignTo
  {
    hide Decision, Detected;
    NoReplyIsDropped(p, parsed, today, None);
    if parsed.date.ADate? {
      MoneyMovesOnlyOnAClearPromise(p, parsed, today, None, parsed.date.date);
    }
    var out := Decision(p, parsed, today, None);
    if out.realignTo.Some? {
      MoneyMovesOnlyOnAClearPromise(p, parsed, today, None, out.realignTo.value);
    }
  }

  /** And the rules on record say which of these it was. */
  lemma RulesByDetection(p: Policy, parsed: ParsedReply, today: Date, expires: Option<Date>)
    ensures var rules := Decision(p, parsed, today, expires).rules;
            && (ParseFailed in rules <==> parsed.failed)
            && (StopFired(DISTRESS) in rules <==> !parsed.failed && Distressing(p, parsed))
            && (StopFired(DISPUTE) in rules <==>
                  !parsed.failed && !Distressing(p, parsed) && Disputing(p, parsed))
            && (StopFired(OPT_OUT) in rules <==>
                  !parsed.failed && !Distressing(p, parsed) && !Disputing(p, parsed) && OptingOut(p, parsed))
            && (DisputeOverPromise in rules <==>
                  !parsed.failed && !Distressing(p, parsed) && Disputing(p, parsed)
                  && Detected(parsed, PromiseToPay, 0.0))
            && (CancellationRequested in rules <==>
                  !parsed.failed && !Distressing(p, parsed) && !Disputing(p, parsed) && Cancelling(p, parsed))
  {
    hide Peak;
    DetectedIsHas(parsed, Distress, p.protective);
    DetectedIsHas(parsed, Dispute, p.protective);
    DetectedIsHas(parsed, OptOut, p.protective);
    DetectedIsHas(parsed, CancellationRequest, p.cancellation);
    DetectedIsHas(parsed, PromiseToPay, 0.0);
  }
}
