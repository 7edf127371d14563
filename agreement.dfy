/**
 * Where the two dispatchers meet. The backend and the dashboard implement the
 * same eight actions over the same ledger; they differ in the reasons they
 * record when no details are given (the backend records the details as they
 * are, the dashboard falls back to a fixed text), in the refund amount (the
 * backend accepts one, the dashboard always refunds half), and in how a
 * missing transaction is treated.
 */
module Agreement {
  import opened Wrappers
  import opened EscrowEvents
  import opened Escrows
  import opened Actions
  import opened Transactions
  import Controller
  import Dashboard

  /**
   * Given non-empty details and no explicit refund amount, both dispatchers
   * assign the same status and leave the ledger in the same state, whatever
   * the action.
   */
  lemma AgreeWhenDetailsGiven(t: TxnView, action: Action, details: string, now: Timestamp)
    requires t.amount.Some? && t.status.Some? && details != ""
    ensures var r := Controller.ApplyAction(t, action, details, None, now);
      && r.status == Some(Dashboard.StatusAfter(t.status.value, action))
      && r.escrow == if t.escrow.None? then None else Some(Dashboard.LedgerAfter(t.escrow.value, action, t.amount.value, details, now))
  {
  }

  /**
   * APPROVE, ESCALATE and CALL_CUSTOMER read no details, so for them the two
   * dispatchers agree whatever the details are.
   */
  lemma AgreeOnDetailFreeActions(t: TxnView, action: Action, details: string, now: Timestamp)
    requires t.amount.Some? && t.status.Some?
    requires action in {Approve, Escalate, CallCustomer, Unrecognised}
    ensures var r := Controller.ApplyAction(t, action, details, None, now);
      && r.status == Some(Dashboard.StatusAfter(t.status.value, action))
      && r.escrow == if t.escrow.None? then None else Some(Dashboard.LedgerAfter(t.escrow.value, action, t.amount.value, details, now))
  {
  }

  /**
   * Whatever a dashboard button sends, the backend given the same action name
   * and details (and no refund amount) computes the same status and ledger.
   */
  lemma ButtonsAgree(t: TxnView, b: Dashboard.Button, now: Timestamp)
    requires t.amount.Some? && t.status.Some?
    ensures var action := ParseAction(Dashboard.Pressed(b).0);
      var details := Dashboard.Pressed(b).1;
      var r := Controller.ApplyAction(t, action, details, None, now);
      && r.status == Some(Dashboard.StatusAfter(t.status.value, action))
      && r.escrow == if t.escrow.None? then None else Some(Dashboard.LedgerAfter(t.escrow.value, action, t.amount.value, details, now))
  {
    Dashboard.ButtonsPassDetails(b);
    var action := ParseAction(Dashboard.Pressed(b).0);
    if action in {Approve, Escalate, CallCustomer, Unrecognised} {
      AgreeOnDetailFreeActions(t, action, Dashboard.Pressed(b).1, now);
    } else {
      AgreeWhenDetailsGiven(t, action, Dashboard.Pressed(b).1, now);
    }
  }

  /**
   * With empty details, the entry REJECT records differs: the backend's
   * reason is the empty text, the dashboard's "Rejected by operator".
   */
  lemma RejectReasonsDifferWithoutDetails(t: TxnView, now: Timestamp)
    requires t.amount.Some? && t.escrow.Some?
    ensures var backend := Controller.ApplyAction(t, Reject, "", None, now).escrow.value;
      var dashboard := Dashboard.LedgerAfter(t.escrow.value, Reject, t.amount.value, "", now);
      && backend.holds[|backend.holds| - 1].reason == ""
      && dashboard.holds[|dashboard.holds| - 1].reason == "Rejected by operator"
      && backend != dashboard
  {
    var backend := Controller.ApplyAction(t, Reject, "", None, now).escrow.value;
    var dashboard := Dashboard.LedgerAfter(t.escrow.value, Reject, t.amount.value, "", now);
    assert backend.holds[|backend.holds| - 1] != dashboard.holds[|dashboard.holds| - 1];
  }

  /**
   * An explicit refund amount other than half the transaction amount makes
   * the backend's PARTIAL_REFUND entry differ from any the dashboard records.
   */
  lemma RefundAmountsDiffer(t: TxnView, details: string, refund: real, now: Timestamp)
    requires t.amount.Some? && t.escrow.Some? && refund != Half(t.amount.value)
    ensures var backend := Controller.ApplyAction(t, PartialRefund, details, Some(refund), now).escrow.value;
      var dashboard := Dashboard.LedgerAfter(t.escrow.value, PartialRefund, t.amount.value, details, now);
      && backend.holds[|backend.holds| - 1].amount == refund
      && dashboard.holds[|dashboard.holds| - 1].amount == Half(t.amount.value)
      && backend != dashboard
  {
    var backend := Controller.ApplyAction(t, PartialRefund, details, Some(refund), now).escrow.value;
    var dashboard := Dashboard.LedgerAfter(t.escrow.value, PartialRefund, t.amount.value, details, now);
    assert backend.holds[|backend.holds| - 1] != dashboard.holds[|dashboard.holds| - 1];
  }
}
