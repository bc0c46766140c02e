/** The recovery ladder: its rungs, its economics, and the climb. */
module Ladder {
  import opened Sequences
  import opened Models
  import opened Policies

  function Height(r: Rung): nat {
    match r
    case SilentRetry => 1
    case Nudge => 2
    case Reauthorisation => 3
    case VoiceCall => 4
    case HumanCallback => 5
  }

  /** The name a channel refusal is matched against. */
  function Name(r: Rung): string {
    match r
    case SilentRetry => "silent retry"
    case Nudge => "message with a pay link"
    case Reauthorisation => "re-authorisation link"
    case VoiceCall => "automated voice call"
    case HumanCallback => "human callback"
  }

  function Cost(p: Policy, r: Rung): nat {
    match r
    case SilentRetry => p.costs.silentRetry
    case Nudge => p.costs.nudge
    case Reauthorisation => p.costs.reauthorisation
    case VoiceCall => p.costs.voiceCall
    case HumanCallback => p.costs.humanCallback
  }

  function DefaultSuccess(r: Rung): real {
    match r
    case SilentRetry => 0.20
    case Nudge => 0.25
    case Reauthorisation => 0.30
    case VoiceCall => 0.35
    case HumanCallback => 0.50
  }

  /** The rung a class starts from, if any rung can help it. */
  function Entry(klass: DiagnosisClass): Option<Rung> {
    match klass
    case RecoverableTechnical => Some(SilentRetry)
    case RecoverableBalance => Some(Nudge)
    case NotificationGap => Some(Nudge)
    case MandateStateBroken => Some(Reauthorisation)
    case CustomerIntentRevoked => None
    case Unknown => None
  }

  datatype LadderRule =
    | ChannelRefused | Free | UneconomicProvable | UneconomicAssumed | LtvJustified | Economic

  datatype LadderDecision = LadderDecision(approved: bool, rule: LadderRule, assumptionUsed: bool)

  predicate Refused(r: Rung, refused: set<string>) {
    Name(r) in refused || (r == VoiceCall && "voice" in refused)
  }

  function Stake(amountPaise: int, ltv: Option<int>): int {
    Max(amountPaise, ltv.GetOr(0))
  }

  function Expected(rate: real, stake: int): real {
    rate * stake as real
  }

  /** An empty table of rates means the defaults; a supplied one must hold the rung it is asked for. */
  function Evaluate(
    p: Policy, r: Rung, amountPaise: int, ltv: Option<int>, refused: set<string>, rates: map<Rung, real>)
    : LadderDecision
    requires rates == map[] || r in rates
  {
    var stake := Stake(amountPaise, ltv);
    var cost := Cost(p, r);
    if Refused(r, refused) then LadderDecision(false, ChannelRefused, false)
    else if cost == 0 then LadderDecision(true, Free, false)
    else if cost >= stake then LadderDecision(false, UneconomicProvable, false)
    else
      var rate := if rates == map[] then DefaultSuccess(r) else rates[r];
      if Expected(rate, stake) <= cost as real then LadderDecision(false, UneconomicAssumed, true)
      else
        var ltvJustified := ltv.GetOr(0) != 0 && ltv.value > amountPaise * 4;
        LadderDecision(true, if ltvJustified then LtvJustified else Economic, true)
  }

  /** The gate as the control loop asks it: no lifetime value, no refusals, the default rates. */
  predicate Worthwhile(p: Policy, r: Rung, amountPaise: int) {
    Evaluate(p, r, amountPaise, None, {}, map[]).approved
  }

  /**
   * A refusal is called provable exactly when the rung is open to this customer, costs something,
   * and would be refused at every success rate a probability can take.
   */
  lemma ProvableMeansEveryRate(
    p: Policy, r: Rung, amount: int, ltv: Option<int>, refused: set<string>, rates: map<Rung, real>)
    requires rates == map[] || r in rates
    ensures Evaluate(p, r, amount, ltv, refused, rates).rule.UneconomicProvable?
            <==> !Refused(r, refused) && Cost(p, r) > 0 &&
                 forall rate: real :: 0.0 <= rate <= 1.0 ==>
                   !Evaluate(p, r, amount, ltv, refused, map[r := rate]).approved
  {
    var stake, cost := Stake(amount, ltv), Cost(p, r);
    if cost >= stake && cost > 0 {
      forall rate: real | 0.0 <= rate <= 1.0
        ensures !Evaluate(p, r, amount, ltv, refused, map[r := rate]).approved
      {
        assert map[r := rate] != map[] by { assert r in map[r := rate]; }
      }
    } else {
      assert map[r := 1.0] != map[] by { assert r in map[r := 1.0]; }
      assert !Refused(r, refused) ==> Evaluate(p, r, amount, ltv, refused, map[r := 1.0]).approved;
    }
  }

  /** Approval survives a larger stake, a better rate and fewer refusals; a refusal survives any of them. */
  lemma ApprovalIsMonotone(
    p: Policy, r: Rung, amount: int, more: int, ltv: Option<int>, moreLtv: Option<int>,
    refused: set<string>, fewer: set<string>, rate: real, better: real)
    requires Stake(amount, ltv) <= Stake(more, moreLtv) && rate <= better && fewer <= refused
    ensures var rates, betterRates := map[r := rate], map[r := better];
            && (Evaluate(p, r, amount, ltv, refused, rates).approved ==>
                  Evaluate(p, r, more, moreLtv, fewer, betterRates).approved)
            && (Refused(r, fewer) ==> !Evaluate(p, r, more, moreLtv, refused, betterRates).approved)
  {
    assert r in map[r := rate] && r in map[r := better];
    var stake, bigger, cost := Stake(amount, ltv), Stake(more, moreLtv), Cost(p, r);
    if Evaluate(p, r, amount, ltv, refused, map[r := rate]).approved && cost > 0 {
      ExpectationGrows(rate, better, stake, bigger);
    }
  }

  lemma ExpectationGrows(a: real, b: real, x: int, y: int)
    requires 0 < x <= y && a <= b && Expected(a, x) > 0.0
    ensures Expected(a, x) <= Expected(b, y)
  {
    assert a > 0.0;
    assert a * x as real <= a * y as real <= b * y as real;
  }

  /** A rung that succeeds `wins` times in `tries` pays for itself on this amount, or costs nothing. */
  predicate PaysBack(cost: nat, amountPaise: int, wins: nat, tries: nat) {
    cost == 0 || wins * amountPaise > tries * cost
  }

  /** The gate as the control loop asks it, rung by rung, in whole paise. */
  lemma WorthwhileByRung(p: Policy, amountPaise: int)
    ensures Worthwhile(p, SilentRetry, amountPaise) <==> PaysBack(p.costs.silentRetry, amountPaise, 1, 5)
    ensures Worthwhile(p, Nudge, amountPaise) <==> PaysBack(p.costs.nudge, amountPaise, 1, 4)
    ensures Worthwhile(p, Reauthorisation, amountPaise) <==> PaysBack(p.costs.reauthorisation, amountPaise, 3, 10)
    ensures Worthwhile(p, VoiceCall, amountPaise) <==> PaysBack(p.costs.voiceCall, amountPaise, 7, 20)
    ensures Worthwhile(p, HumanCallback, amountPaise) <==> PaysBack(p.costs.humanCallback, amountPaise, 1, 2)
  {
  }

  /**
   * Any rung, for any customer: approved exactly when they have not refused it, by its own name or
   * by refusing voice, and it is free or its rate on the larger of debt and lifetime value beats its cost.
   */
  lemma ApprovedExactlyWhen(
    p: Policy, r: Rung, amount: int, ltv: Option<int>, refused: set<string>, rate: real)
    requires 0.0 <= rate <= 1.0
    ensures Evaluate(p, r, amount, ltv, refused, map[r := rate]).approved <==>
              && Name(r) !in refused
              && !(r == VoiceCall && "voice" in refused)
              && (Cost(p, r) == 0 || Expected(rate, Max(amount, ltv.GetOr(0))) > Cost(p, r) as real)
  {
    hide Expected;
    assert map[r := rate] != map[] by { assert r in map[r := rate]; }
    NoMoreThanTheStake(rate, Stake(amount, ltv));
  }

  lemma NoMoreThanTheStake(rate: real, stake: int)
    requires 0.0 <= rate <= 1.0
    ensures Expected(rate, stake) <= Max(stake, 0) as real
  {
    if stake > 0 {
      assert rate * stake as real <= 1.0 * stake as real;
    } else {
      assert rate * stake as real <= 0.0;
    }
  }

  // -- climbing ------------------------------------------------------------

  /** One rung higher, passing over voice for a customer who will not have it. */
  function NextRung(current: Rung, refused: set<string>): Option<Rung> {
    match current
    case SilentRetry => Some(Nudge)
    case Nudge => Some(Reauthorisation)
    case Reauthorisation => if "voice" in refused then Some(HumanCallback) else Some(VoiceCall)
    case VoiceCall => Some(HumanCallback)
    case HumanCallback => None
  }

  predicate Steppable(r: Rung, refused: set<string>) {
    !(r == VoiceCall && "voice" in refused)
  }

  /** The least rung above that may be stepped to, and none only when there is none. */
  lemma NextRungIsLeast(current: Rung, refused: set<string>)
    ensures var n := NextRung(current, refused);
            && (n.Some? ==> Height(current) < Height(n.value) && Steppable(n.value, refused))
            && (forall q :: Height(current) < Height(q) && Steppable(q, refused) ==>
                  n.Some? && Height(n.value) <= Height(q))
  {
  }
}
