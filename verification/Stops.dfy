/** The nine stop rules, as data. */
module Stops {
  import opened Sequences
  import opened Models

  datatype StopCode =
    | REVOKED | OPT_OUT | DISPUTE | DISTRESS | RETRY_CAP | LADDER_END | CHARGEBACK
    | MERCHANT_PAUSE | REG_HOLD

  datatype StopScope = CaseScope | CustomerScope | MerchantScope

  datatype StopRule = StopRule(scope: StopScope, terminal: Option<CaseState>, suppressesContact: bool)

  function RuleOf(code: StopCode): StopRule {
    match code
    case REVOKED => StopRule(CustomerScope, Some(ClosedRevoked), true)
    case OPT_OUT => StopRule(CustomerScope, None, true)
    case DISPUTE => StopRule(CustomerScope, Some(HeldForHuman), true)
    case DISTRESS => StopRule(CaseScope, Some(HeldForHuman), true)
    case RETRY_CAP => StopRule(CaseScope, None, false)
    case LADDER_END => StopRule(CaseScope, Some(Unrecovered), true)
    case CHARGEBACK => StopRule(CustomerScope, Some(HeldForHuman), true)
    case MERCHANT_PAUSE => StopRule(MerchantScope, None, true)
    case REG_HOLD => StopRule(CaseScope, Some(HeldForHuman), true)
  }
}
