/** How much a single mandate debit may be for. */
module Limits {
  import opened Sequences
  import opened Models
  import opened Policies

  datatype LimitOutcome = Permitted | WouldFail | NeedsAdditionalAuth | ExceedsMandate

  function Check(
    p: Policy, amountPaise: int, rail: Rail, mandateMax: Option<int>, bfsi: bool): LimitOutcome
  {
    if amountPaise <= 0 then WouldFail
    else if mandateMax.Some? && amountPaise > mandateMax.value then ExceedsMandate
    else
      match rail
      case Card => if amountPaise > p.cardRecurringMax then WouldFail else Permitted
      case Upi =>
        if amountPaise > p.upiMandateMax then WouldFail
        else if amountPaise > (if bfsi then p.frictionlessUpiBfsi else p.frictionlessUpi) then NeedsAdditionalAuth
        else Permitted
      case Emandate => if amountPaise > p.emandateMax then WouldFail else Permitted
      case Nach => if amountPaise > p.emandateMax then WouldFail else Permitted
      case Netbanking => if amountPaise > p.emandateMax then WouldFail else Permitted
      case _ => if amountPaise > p.frictionlessUpi then WouldFail else Permitted
  }

  /** What a signal's own debit is checked against, on every path that schedules one. */
  predicate MayDebit(p: Policy, signal: FailureSignal) {
    Check(p, signal.amountPaise, RailOf(signal.methodName), signal.mandateMax, false).Permitted?
  }

  /**
   * Consent outranks feasibility and feasibility is a ceiling: a permitted amount is positive and
   * within what the customer agreed to, every smaller positive amount is permitted too, and a
   * tighter mandate never permits more.
   */
  lemma PermissionIsDownwardClosed(
    p: Policy, amount: int, less: int, rail: Rail, mandate: Option<int>, looser: Option<int>, bfsi: bool)
    requires Check(p, amount, rail, mandate, bfsi).Permitted?
    requires 0 < less <= amount
    requires looser.None? || (mandate.Some? && mandate.value <= looser.value)
    ensures 0 < amount && (mandate.Some? ==> amount <= mandate.value)
    ensures Check(p, less, rail, mandate, bfsi).Permitted?
    ensures Check(p, amount, rail, looser, bfsi).Permitted?
  {
  }

  /** What an unrecognised rail is held to: the frictionless limit, and the mandate where there is one. */
  function StrictCeiling(p: Policy, mandate: Option<int>): int {
    if mandate.Some? then Min(p.frictionlessUpi, mandate.value) else p.frictionlessUpi
  }

  /**
   * Not knowing the rail permits no debit that a known one would refuse, exactly when nothing is
   * permitted without one, or no known ceiling lies below what it is held to.
   */
  lemma UnrecognisedIsStrictest(p: Policy, mandate: Option<int>)
    ensures var strict := StrictCeiling(p, mandate);
            (forall amount, rail | Check(p, amount, Unrecognised, mandate, false).Permitted? ::
               Check(p, amount, rail, mandate, false).Permitted?)
            <==>
            (strict <= 0
             || (strict <= p.cardRecurringMax && strict <= p.upiMandateMax && strict <= p.emandateMax))
  {
    var strict := StrictCeiling(p, mandate);
    if strict > 0 && forall amount, rail | Check(p, amount, Unrecognised, mandate, false).Permitted? ::
         Check(p, amount, rail, mandate, false).Permitted?
    {
      assert Check(p, strict, Unrecognised, mandate, false).Permitted?;
      assert Check(p, strict, Card, mandate, false).Permitted?;
      assert Check(p, strict, Upi, mandate, false).Permitted?;
      assert Check(p, strict, Emandate, mandate, false).Permitted?;
    }
  }

  /** The most a debit may be for on a method of this name, mandate aside. */
  function CeilingFor(p: Policy, methodName: Option<string>, bfsi: bool): int {
    var m := Lower(methodName.GetOr(""));
    if m == "card" then p.cardRecurringMax
    else if m == "upi" then Min(p.upiMandateMax, if bfsi then p.frictionlessUpiBfsi else p.frictionlessUpi)
    else if m in {"emandate", "nach", "netbanking"} then p.emandateMax
    else p.frictionlessUpi
  }

  /**
   * Permitted exactly when it is for something, within its mandate and its method's ceiling. Of the
   * rest the mandate answers first, and between its two ceilings UPI asks the customer.
   */
  lemma CheckByName(p: Policy, amount: int, methodName: Option<string>, mandate: Option<int>, bfsi: bool)
    ensures var out := Check(p, amount, RailOf(methodName), mandate, bfsi);
            var over := mandate.Some? && amount > mandate.value;
            && (out == Permitted <==> 0 < amount <= CeilingFor(p, methodName, bfsi) && !over)
            && (out == ExceedsMandate <==> amount > 0 && over)
            && (out == NeedsAdditionalAuth <==>
                  amount > 0 && !over && Lower(methodName.GetOr("")) == "upi"
                  && CeilingFor(p, methodName, bfsi) < amount <= p.upiMandateMax)
  {
  }

  /** And so with the one question every path that queues a debit asks. */
  lemma MayDebitByName(p: Policy, signal: FailureSignal)
    ensures MayDebit(p, signal) <==>
              && 0 < signal.amountPaise <= CeilingFor(p, signal.methodName, false)
              && (signal.mandateMax.Some? ==> signal.amountPaise <= signal.mandateMax.value)
  {
    CheckByName(p, signal.amountPaise, signal.methodName, signal.mandateMax, false);
  }
}
