/**
 * A payment under review: a mutable record whose setters each update one
 * field, and which may own an escrow ledger. Fields that Java leaves null
 * until set are `Option`s; the id (a random UUID in the source) and the
 * creation time are supplied by the caller.
 */
module Transactions {
  import opened Wrappers
  import opened EscrowEvents
  import opened Escrows

  /** The value of a transaction at one moment, its ledger included. */
  datatype TxnView = TxnView(
    id: string,
    customer: Option<string>,
    phone: Option<string>,
    recipient: Option<string>,
    amount: Option<real>,
    currency: string,
    paymentMethod: string,
    message: Option<string>,
    reason: Option<string>,
    status: Option<string>,
    sandbox: bool,
    createdAt: Timestamp,
    sessionId: Option<string>,
    deviceFingerprint: Option<string>,
    behavior: Option<string>,
    escrow: Option<EscrowView>,
    llmExplanation: Option<string>,
    semanticContext: Option<string>)

  /** The value of a freshly constructed transaction. */
  function NewTxnView(id: string, now: Timestamp): TxnView {
    TxnView(id, None, None, None, None, "GBP", "bank_transfer", None, None, None, false, now,
            None, None, None, None, None, None)
  }

  class Transaction {
    var id: string
    var customer: Option<string>
    var phone: Option<string>
    var recipient: Option<string>
    var amount: Option<real>
    var currency: string
    /** The Java field `method`, renamed because `method` is a keyword here. */
    var paymentMethod: string
    var message: Option<string>
    var reason: Option<string>
    var status: Option<string>
    var sandbox: bool
    var createdAt: Timestamp
    var sessionId: Option<string>
    var deviceFingerprint: Option<string>
    var behavior: Option<string>
    var escrow: Escrow?
    var llmExplanation: Option<string>
    var semanticContext: Option<string>

    /** The objects this transaction's value depends on: itself and its ledger. */
    ghost function Repr(): set<object>
      reads this, escrow
    {
      {this as object} + (if escrow == null then {} else escrow.Repr())
    }

    ghost function View(): TxnView
      reads Repr()
    {
      TxnView(id, customer, phone, recipient, amount, currency, paymentMethod, message, reason, status,
              sandbox, createdAt, sessionId, deviceFingerprint, behavior,
              if escrow == null then None else Some(escrow.View()),
              llmExplanation, semanticContext)
    }

    /** `newId` stands for the generated UUID and `now` for the clock reading. */
    constructor (newId: string, now: Timestamp)
      ensures View() == NewTxnView(newId, now)
      ensures escrow == null && Repr() == {this}
    {
      id := newId;
      createdAt := now;
      currency := "GBP";
      paymentMethod := "bank_transfer";
      customer, phone, recipient, amount := None, None, None, None;
      message, reason, status, sandbox := None, None, None, false;
      sessionId, deviceFingerprint, behavior := None, None, None;
      escrow, llmExplanation, semanticContext := null, None, None;
    }

    method SetCustomer(customer: Option<string>)
      modifies this
      ensures escrow == old(escrow) && View() == old(View()).(customer := customer)
    {
      this.customer := customer;
    }

    method SetPhone(phone: Option<string>)
      modifies this
      ensures escrow == old(escrow) && View() == old(View()).(phone := phone)
    {
      this.phone := phone;
    }

    method SetRecipient(recipient: Option<string>)
      modifies this
      ensures escrow == old(escrow) && View() == old(View()).(recipient := recipient)
    {
      this.recipient := recipient;
    }

    method SetAmount(amount: Option<real>)
      modifies this
      ensures escrow == old(escrow) && View() == old(View()).(amount := amount)
    {
      this.amount := amount;
    }

    method SetMessage(message: Option<string>)
      modifies this
      ensures escrow == old(escrow) && View() == old(View()).(message := message)
    {
      this.message := message;
    }

    method SetReason(reason: Option<string>)
      modifies this
      ensures escrow == old(escrow) && View() == old(View()).(reason := reason)
    {
      this.reason := reason;
    }

    method SetStatus(status: Option<string>)
      modifies this
      ensures escrow == old(escrow) && View() == old(View()).(status := status)
    {
      this.status := status;
    }

    method SetSandbox(sandbox: bool)
      modifies this
      ensures escrow == old(escrow) && View() == old(View()).(sandbox := sandbox)
    {
      this.sandbox := sandbox;
    }

    method SetSessionId(sessionId: Option<string>)
      modifies this
      ensures escrow == old(escrow) && View() == old(View()).(sessionId := sessionId)
    {
      this.sessionId := sessionId;
    }

    method SetDeviceFingerprint(deviceFingerprint: Option<string>)
      modifies this
      ensures escrow == old(escrow) && View() == old(View()).(deviceFingerprint := deviceFingerprint)
    {
      this.deviceFingerprint := deviceFingerprint;
    }

    method SetBehavior(behavior: Option<string>)
      modifies this
      ensures escrow == old(escrow) && View() == old(View()).(behavior := behavior)
    {
      this.behavior := behavior;
    }

    method SetLlmExplanation(llmExplanation: Option<string>)
      modifies this
      ensures escrow == old(escrow) && View() == old(View()).(llmExplanation := llmExplanation)
    {
      this.llmExplanation := llmExplanation;
    }

    method SetSemanticContext(semanticContext: Option<string>)
      modifies this
      ensures escrow == old(escrow) && View() == old(View()).(semanticContext := semanticContext)
    {
      this.semanticContext := semanticContext;
    }

    /** Attaches a ledger; the transaction's value now includes that ledger's value. */
    method SetEscrow(escrow: Escrow?)
      modifies this
      ensures this.escrow == escrow
      ensures View() == old(View()).(escrow := if escrow == null then None else Some(escrow.View()))
    {
      this.escrow := escrow;
    }
  }

  /**
   * When only a transaction's ledger changed in place, the transaction's
   * value changes in its ledger part only.
   */
  twostate lemma LedgerChangedInPlace(txn: Transaction)
    requires txn.escrow != null && unchanged(txn)
    ensures txn.View() == old(txn.View()).(escrow := Some(txn.escrow.View()))
  {
  }

  /** A transaction none of whose objects changed keeps its footprint and its value. */
  twostate lemma Untouched(txn: Transaction)
    requires unchanged(old(txn.Repr()))
    ensures txn.Repr() == old(txn.Repr()) && txn.View() == old(txn.View())
  {
  }
}
