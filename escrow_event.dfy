/**
 * An entry of the escrow audit trail: which ledger action happened, for which
 * amount, when, and why. Timestamps are opaque values supplied by the caller
 * (the Java constructor reads the wall clock).
 */
module EscrowEvents {

  /** An instant as recorded by the system clock; its contents are never inspected. */
  type Timestamp = string

  /** The value held by one audit entry. The dashboard keeps entries as such values. */
  datatype Hold = Hold(action: string, amount: real, timestamp: Timestamp, reason: string)

  /** A mutable audit entry of the backend ledger. */
  class EscrowEvent {
    var action: string
    var amount: real
    var timestamp: Timestamp
    var reason: string

    ghost function View(): Hold
      reads this
    {
      Hold(action, amount, timestamp, reason)
    }

    /** The three-argument constructor; `now` is the clock reading taken at construction. */
    constructor (action: string, amount: real, reason: string, now: Timestamp)
      ensures this.action == action && this.amount == amount && this.reason == reason
      ensures timestamp == now
    {
      this.action := action;
      this.amount := amount;
      this.reason := reason;
      this.timestamp := now;
    }

    method SetAction(action: string)
      modifies this
      ensures View() == old(View()).(action := action)
    {
      this.action := action;
    }

    method SetAmount(amount: real)
      modifies this
      ensures View() == old(View()).(amount := amount)
    {
      this.amount := amount;
    }

    method SetTimestamp(timestamp: Timestamp)
      modifies this
      ensures View() == old(View()).(timestamp := timestamp)
    {
      this.timestamp := timestamp;
    }

    method SetReason(reason: string)
      modifies this
      ensures View() == old(View()).(reason := reason)
    {
      this.reason := reason;
    }
  }
}
