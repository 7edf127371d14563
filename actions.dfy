/**
 * The operator action tokens shared by the backend dispatcher and the
 * dashboard: the eight names both `switch` statements recognise, and the
 * status each of them assigns.
 */
module Actions {
  import opened Wrappers

  /** The operator actions, as both dispatchers' `switch` statements distinguish them. */
  datatype Action =
    | Approve | Reject | Escalate | CallCustomer
    | HoldEscrow | ReleaseEscrow | PartialRefund | RaiseDispute
    | Unrecognised

  /** The action name each recognised action is selected by. */
  function ActionName(a: Action): string {
    match a
    case Approve => "APPROVE"
    case Reject => "REJECT"
    case Escalate => "ESCALATE"
    case CallCustomer => "CALL_CUSTOMER"
    case HoldEscrow => "HOLD_ESCROW"
    case ReleaseEscrow => "RELEASE_ESCROW"
    case PartialRefund => "PARTIAL_REFUND"
    case RaiseDispute => "RAISE_DISPUTE"
    case Unrecognised => ""
  }

  /** The eight action names the dispatchers recognise. */
  const KnownActions: set<string> := {
    "APPROVE", "REJECT", "ESCALATE", "CALL_CUSTOMER",
    "HOLD_ESCROW", "RELEASE_ESCROW", "PARTIAL_REFUND", "RAISE_DISPUTE"}

  /** The `case` labels of the switch: exact, case-sensitive matches of the action name. */
  function ParseAction(name: string): (a: Action)
    ensures a == Unrecognised <==> name !in KnownActions
    ensures a != Unrecognised ==> ActionName(a) == name
  {
    match name
    case "APPROVE" => Approve
    case "REJECT" => Reject
    case "ESCALATE" => Escalate
    case "CALL_CUSTOMER" => CallCustomer
    case "HOLD_ESCROW" => HoldEscrow
    case "RELEASE_ESCROW" => ReleaseEscrow
    case "PARTIAL_REFUND" => PartialRefund
    case "RAISE_DISPUTE" => RaiseDispute
    case _ => Unrecognised
  }

  /** Every recognised action is selected by its own name, and by no other. */
  lemma ParseActionName(a: Action)
    requires a != Unrecognised
    ensures ParseAction(ActionName(a)) == a
  {
  }

  /** The status an action assigns, if it assigns one. */
  function StatusSet(a: Action): Option<string> {
    match a
    case Approve => Some("APPROVED")
    case Reject => Some("REJECTED")
    case Escalate => Some("ESCALATED")
    case CallCustomer => Some("CALLING")
    case ReleaseEscrow => Some("RELEASED")
    case RaiseDispute => Some("DISPUTED")
    case _ => None
  }

  /** The default PARTIAL_REFUND amount: half the transaction amount (`amount * 0.5`). */
  function Half(amount: real): (h: real)
    ensures h + h == amount
  {
    amount * 0.5
  }
}
