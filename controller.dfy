/**
 * The backend's transaction controller: payment intake with a keyword flag
 * test, an in-memory store of transactions keyed by id, a filter for flagged
 * transactions, and the operator action dispatcher over a transaction's
 * escrow ledger. HTTP routing and JSON are replaced by explicit parameters
 * and result datatypes.
 */
module Controller {
  import opened Wrappers
  import opened Text
  import opened EscrowEvents
  import opened Escrows
  import opened Transactions
  import opened Actions

  /** The words whose presence (in any letter case) flags a payment message. */
  const Keywords: seq<string> := ["otp", "urgent", "refund", "click"]

  /** The simulated fraud test: a payment is flagged when its message mentions a keyword. */
  function AiSimFlag(message: Option<string>): (r: bool)
    ensures r <==> message.Some? && exists k, i :: k in Keywords && OccursAt(Lower(message.value), k, i)
  {
    match message
    case None => false
    case Some(m) =>
      var lower := Lower(m);
      Contains(lower, "otp") || Contains(lower, "urgent") || Contains(lower, "refund") || Contains(lower, "click")
  }

  /**
   * The flag test ignores letter case: a message and its lower-cased form are
   * flagged alike, and so are any two messages that differ only in case.
   */
  lemma AiSimFlagIgnoresCase(message: string, other: string)
    ensures AiSimFlag(Some(message)) == AiSimFlag(Some(Lower(message)))
    ensures Lower(message) == Lower(other) ==> AiSimFlag(Some(message)) == AiSimFlag(Some(other))
  {
    LowerIdempotent(message);
  }

  /** The body of a payment attempt; a key missing from the payload is `None`. */
  datatype PaymentRequest = PaymentRequest(
    customer: Option<string>,
    phone: Option<string>,
    recipient: Option<string>,
    amount: Option<real>,
    message: Option<string>,
    sessionId: Option<string>,
    deviceFingerprint: Option<string>,
    behavior: Option<string>)

  datatype PaymentResponse = PaymentResponse(txnId: string, flagged: bool, message: string)

  const InitialHoldReason := "Initial fraud flag"
  const FlagReason := "AI detected suspicious pattern in message"
  const FlagExplanation := "The payment message contains high-risk keywords commonly associated with social engineering attacks (OTP, urgent requests, refund scams). The transaction has been flagged for manual review."
  const FlagContext := "Payment urgency + credential request = high fraud probability"

  /** A new transaction holding the fields a payment attempt copies from its payload. */
  function Received(p: PaymentRequest, newId: string, now: Timestamp): TxnView
  {
    NewTxnView(newId, now).(
      customer := Some(p.customer.GetOr("John Doe")),
      phone := Some(p.phone.GetOr("+44 7700 900000")),
      recipient := p.recipient,
      amount := Some(p.amount.GetOr(0.0)),
      message := p.message,
      sessionId := p.sessionId,
      deviceFingerprint := p.deviceFingerprint,
      behavior := p.behavior)
  }

  /** A transaction put on hold for review: sandboxed, its whole amount held in a new escrow. */
  function HeldForReview(t: TxnView, now: Timestamp): TxnView
    requires t.amount.Some?
  {
    var amount := t.amount.value;
    t.(status := Some("FLAGGED"), sandbox := true, reason := Some(FlagReason),
       escrow := Some(Recorded(EscrowView(amount, 0.0, [], []), Hold("HOLD", amount, now, InitialHoldReason))),
       llmExplanation := Some(FlagExplanation), semanticContext := Some(FlagContext))
  }

  /** The transaction stored by a payment attempt with id `newId` at time `now`. */
  function Intake(p: PaymentRequest, newId: string, now: Timestamp): (t: TxnView)
    ensures t.id == newId && t.createdAt == now
    ensures t.currency == "GBP" && t.paymentMethod == "bank_transfer"
    ensures t.amount == Some(if p.amount.Some? then p.amount.value else 0.0)
    ensures t.customer == Some(if p.customer.Some? then p.customer.value else "John Doe")
    ensures t.phone == Some(if p.phone.Some? then p.phone.value else "+44 7700 900000")
    ensures t.message == p.message && t.recipient == p.recipient
    ensures AiSimFlag(p.message) ==>
      && t.status == Some("FLAGGED") && t.sandbox
      && t.escrow == Some(EscrowView(t.amount.value, 0.0, [Hold("HOLD", t.amount.value, now, InitialHoldReason)], []))
    ensures !AiSimFlag(p.message) ==>
      t.status == Some("APPROVED") && !t.sandbox && t.escrow == None && t.reason == None
  {
    var received := Received(p, newId, now);
    if AiSimFlag(p.message) then
      var first := Hold("HOLD", received.amount.value, now, InitialHoldReason);
      assert [] + [first] == [first];
      HeldForReview(received, now)
    else
      received.(status := Some("APPROVED"), sandbox := false)
  }

  /**
   * The effect of one operator action on a stored transaction. `details`
   * is the payload's details text ("" when absent) and `refundAmount` the
   * payload's optional refund amount.
   */
  function ApplyAction(t: TxnView, action: Action, details: string, refundAmount: Option<real>, now: Timestamp): (r: TxnView)
    requires t.amount.Some?
    ensures r.(status := t.status, escrow := t.escrow) == t
    ensures r.escrow.Some? <==> t.escrow.Some?
    ensures t.escrow.Some? ==> LedgerStep(t.escrow.value, r.escrow.value)
    ensures r.status == (if StatusSet(action).Some? then StatusSet(action) else t.status)
  {
    var amount := t.amount.value;
    match action
    case Approve =>
      t.(status := Some("APPROVED"),
         escrow := if t.escrow.None? then None else Some(Released(t.escrow.value, "Approved by operator", now)))
    case Reject =>
      t.(status := Some("REJECTED"),
         escrow := if t.escrow.None? then None else Some(Voided(t.escrow.value, amount, details, now)))
    case Escalate =>
      t.(status := Some("ESCALATED"))
    case CallCustomer =>
      t.(status := Some("CALLING"))
    case HoldEscrow =>
      t.(escrow := if t.escrow.None? then None else Some(Recorded(t.escrow.value, Hold("HOLD", amount, now, details))))
    case ReleaseEscrow =>
      t.(status := Some("RELEASED"),
         escrow := if t.escrow.None? then None else Some(Released(t.escrow.value, details, now)))
    case PartialRefund =>
      var refund := refundAmount.GetOr(Half(amount));
      t.(escrow := if t.escrow.None? then None else Some(Recorded(t.escrow.value, Hold("PARTIAL_REFUND", refund, now, details))))
    case RaiseDispute =>
      t.(status := Some("DISPUTED"),
         escrow := if t.escrow.None? then None else Some(Disputed(t.escrow.value, details)))
    case Unrecognised =>
      t
  }

  /**
   * APPROVE and RELEASE_ESCROW zero the held amount, overwrite the released
   * amount with the previously held amount and record one RELEASE entry for
   * it; RELEASE_ESCROW sets RELEASED even when there is no ledger.
   */
  lemma ApproveAndReleaseMoveHeld(t: TxnView, details: string, refundAmount: Option<real>, now: Timestamp)
    requires t.amount.Some?
    ensures var r := ApplyAction(t, Approve, details, refundAmount, now);
      && r.status == Some("APPROVED")
      && (t.escrow.Some? ==>
            var e := t.escrow.value;
            && r.escrow.value.held == 0.0 && r.escrow.value.released == e.held
            && r.escrow.value.holds == e.holds + [Hold("RELEASE", e.held, now, "Approved by operator")]
            && r.escrow.value.disputes == e.disputes)
    ensures var r := ApplyAction(t, ReleaseEscrow, details, refundAmount, now);
      && r.status == Some("RELEASED")
      && (t.escrow.Some? ==>
            var e := t.escrow.value;
            && r.escrow.value.held == 0.0 && r.escrow.value.released == e.held
            && r.escrow.value.holds == e.holds + [Hold("RELEASE", e.held, now, details)]
            && r.escrow.value.disputes == e.disputes)
  {
  }

  /**
   * REJECT sets REJECTED, zeroes the held amount without touching the
   * released amount, and records a REJECT entry of the transaction amount
   * whose reason is `details` as given, with no default.
   */
  lemma RejectVoidsHeld(t: TxnView, details: string, refundAmount: Option<real>, now: Timestamp)
    requires t.amount.Some?
    ensures var r := ApplyAction(t, Reject, details, refundAmount, now);
      && r.status == Some("REJECTED")
      && (t.escrow.Some? ==>
            var e := t.escrow.value;
            && r.escrow.value.held == 0.0 && r.escrow.value.released == e.released
            && r.escrow.value.holds == e.holds + [Hold("REJECT", t.amount.value, now, details)]
            && r.escrow.value.disputes == e.disputes)
  {
  }

  /** HOLD_ESCROW records a HOLD entry of the transaction amount and changes nothing else. */
  lemma HoldEscrowOnlyRecords(t: TxnView, details: string, refundAmount: Option<real>, now: Timestamp)
    requires t.amount.Some?
    ensures var r := ApplyAction(t, HoldEscrow, details, refundAmount, now);
      && r.status == t.status
      && (t.escrow.Some? ==> r.escrow == Some(t.escrow.value.(holds := t.escrow.value.holds + [Hold("HOLD", t.amount.value, now, details)])))
      && (t.escrow.None? ==> r == t)
  {
  }

  /** ESCALATE and CALL_CUSTOMER change the status and nothing else. */
  lemma StatusOnlyActions(t: TxnView, details: string, refundAmount: Option<real>, now: Timestamp)
    requires t.amount.Some?
    ensures ApplyAction(t, Escalate, details, refundAmount, now) == t.(status := Some("ESCALATED"))
    ensures ApplyAction(t, CallCustomer, details, refundAmount, now) == t.(status := Some("CALLING"))
  {
  }

  /**
   * PARTIAL_REFUND records an entry of the given refund amount, or of half
   * the transaction amount when none is given, and leaves the status, the
   * held amount and the released amount as they were.
   */
  lemma PartialRefundKeepsTotals(t: TxnView, details: string, refundAmount: Option<real>, now: Timestamp)
    requires t.amount.Some?
    ensures var r := ApplyAction(t, PartialRefund, details, refundAmount, now);
      && r.status == t.status
      && (t.escrow.Some? ==>
            var e := t.escrow.value;
            var refund := if refundAmount.Some? then refundAmount.value else t.amount.value / 2.0;
            && r.escrow.value.held == e.held && r.escrow.value.released == e.released
            && r.escrow.value.holds == e.holds + [Hold("PARTIAL_REFUND", refund, now, details)]
            && r.escrow.value.disputes == e.disputes)
  {
  }

  /** RAISE_DISPUTE sets DISPUTED and appends `details` to the disputes, leaving the amounts and entries. */
  lemma RaiseDisputeAppendsNote(t: TxnView, details: string, refundAmount: Option<real>, now: Timestamp)
    requires t.amount.Some?
    ensures var r := ApplyAction(t, RaiseDispute, details, refundAmount, now);
      && r.status == Some("DISPUTED")
      && (t.escrow.Some? ==> r.escrow == Some(t.escrow.value.(disputes := t.escrow.value.disputes + [details])))
  {
  }

  /** An action name the dispatcher does not recognise leaves the transaction as it was. */
  lemma UnknownActionChangesNothing(t: TxnView, name: string, details: string, refundAmount: Option<real>, now: Timestamp)
    requires t.amount.Some? && name !in KnownActions
    ensures ApplyAction(t, ParseAction(name), details, refundAmount, now) == t
  {
  }

  /**
   * APPROVE is not idempotent on the ledger: a second APPROVE records a
   * second RELEASE entry (of 0) and overwrites the released amount with 0.
   */
  lemma ApproveTwiceIsNotIdempotent(t: TxnView, d1: string, d2: string, now1: Timestamp, now2: Timestamp)
    requires t.amount.Some? && t.escrow.Some?
    ensures var r := ApplyAction(ApplyAction(t, Approve, d1, None, now1), Approve, d2, None, now2);
      var e := t.escrow.value;
      && r.status == Some("APPROVED")
      && r.escrow.value.holds == e.holds + [Hold("RELEASE", e.held, now1, "Approved by operator"),
                                            Hold("RELEASE", 0.0, now2, "Approved by operator")]
      && r.escrow.value.held == 0.0 && r.escrow.value.released == 0.0
  {
    var e := t.escrow.value;
    var once := ApplyAction(t, Approve, d1, None, now1);
    assert once.escrow.value.holds == e.holds + [Hold("RELEASE", e.held, now1, "Approved by operator")];
    assert once.escrow.value.held == 0.0;
  }

  /** One operator request, as the action endpoint receives it. */
  datatype Command = Command(action: string, details: string, refundAmount: Option<real>, now: Timestamp)

  /** The transaction after a run of operator requests, applied in order. */
  function ApplyAll(t: TxnView, cmds: seq<Command>): (r: TxnView)
    requires t.amount.Some?
    ensures r.id == t.id && r.amount == t.amount
    decreases |cmds|
  {
    if cmds == [] then t
    else
      var c := cmds[0];
      ApplyAll(ApplyAction(t, ParseAction(c.action), c.details, c.refundAmount, c.now), cmds[1..])
  }

  /**
   * Over any run of actions the audit trail and the dispute list are
   * append-only: every earlier entry stays where it was, and each action
   * adds at most one entry or note.
   */
  lemma {:induction false} LedgerIsAppendOnly(t: TxnView, cmds: seq<Command>)
    requires t.amount.Some?
    ensures var r := ApplyAll(t, cmds);
      && (r.escrow.Some? <==> t.escrow.Some?)
      && (t.escrow.Some? ==>
            && t.escrow.value.holds <= r.escrow.value.holds
            && t.escrow.value.disputes <= r.escrow.value.disputes
            && |r.escrow.value.holds| + |r.escrow.value.disputes|
               <= |t.escrow.value.holds| + |t.escrow.value.disputes| + |cmds|)
    decreases |cmds|
  {
    if cmds != [] {
      var c := cmds[0];
      var next := ApplyAction(t, ParseAction(c.action), c.details, c.refundAmount, c.now);
      LedgerIsAppendOnly(next, cmds[1..]);
    }
  }

  /** The outcome of an action request. */
  datatype ActionResponse =
    | Ok(txn: Transaction)           // ok=true with the (updated) transaction
    | NotFound(error: string)        // ok=false: no transaction has the id
    | NullActionException            // the payload has no action: switching on null throws

  /** APPROVE's and RELEASE_ESCROW's ledger code: move the held amount to released and record it. */
  method ReleaseHeld(escrow: Escrow, reason: string, now: Timestamp)
    modifies escrow
    ensures old(escrow.Repr()) <= escrow.Repr() && fresh(escrow.Repr() - old(escrow.Repr()))
    ensures escrow.View() == Released(old(escrow.View()), reason, now)
  {
    var held := escrow.heldAmount;
    escrow.SetHeldAmount(0.0);
    escrow.SetReleasedAmount(held);
    var event := new EscrowEvent("RELEASE", held, reason, now);
    escrow.AddHold(event);
  }

  /** REJECT's ledger code: nothing stays held and a REJECT entry records the amount. */
  method VoidHeld(escrow: Escrow, amount: real, reason: string, now: Timestamp)
    modifies escrow
    ensures old(escrow.Repr()) <= escrow.Repr() && fresh(escrow.Repr() - old(escrow.Repr()))
    ensures escrow.View() == Voided(old(escrow.View()), amount, reason, now)
  {
    escrow.SetHeldAmount(0.0);
    var event := new EscrowEvent("REJECT", amount, reason, now);
    escrow.AddHold(event);
  }

  /** HOLD_ESCROW's and PARTIAL_REFUND's ledger code: record one more entry. */
  method Record(escrow: Escrow, action: string, amount: real, reason: string, now: Timestamp)
    modifies escrow
    ensures old(escrow.Repr()) <= escrow.Repr() && fresh(escrow.Repr() - old(escrow.Repr()))
    ensures escrow.View() == Recorded(old(escrow.View()), Hold(action, amount, now, reason))
  {
    var event := new EscrowEvent(action, amount, reason, now);
    escrow.AddHold(event);
  }

  /** The ledger object stays attached, and the only objects it gained are new ones. */
  twostate predicate LedgerGrew(txn: Transaction)
    reads txn, txn.escrow
  {
    && txn.escrow == old(txn.escrow)
    && (txn.escrow != null ==>
          old(txn.escrow.Repr()) <= txn.escrow.Repr() && fresh(txn.escrow.Repr() - old(txn.escrow.Repr())))
  }

  /** `case "APPROVE"`. */
  method RunApprove(txn: Transaction, details: string, refundAmount: Option<real>, now: Timestamp)
    requires txn.amount.Some?
    modifies txn, txn.escrow
    ensures LedgerGrew(txn)
    ensures txn.View() == ApplyAction(old(txn.View()), Approve, details, refundAmount, now)
  {
    txn.SetStatus(Some("APPROVED"));
    if txn.escrow != null {
      label statusSet:
      ReleaseHeld(txn.escrow, "Approved by operator", now);
      LedgerChangedInPlace@statusSet(txn);
    }
  }

  /** `case "REJECT"`. */
  method RunReject(txn: Transaction, details: string, refundAmount: Option<real>, now: Timestamp)
    requires txn.amount.Some?
    modifies txn, txn.escrow
    ensures LedgerGrew(txn)
    ensures txn.View() == ApplyAction(old(txn.View()), Reject, details, refundAmount, now)
  {
    txn.SetStatus(Some("REJECTED"));
    if txn.escrow != null {
      label statusSet:
      VoidHeld(txn.escrow, txn.amount.value, details, now);
      LedgerChangedInPlace@statusSet(txn);
    }
  }

  /** `case "HOLD_ESCROW"`. */
  method RunHoldEscrow(txn: Transaction, details: string, refundAmount: Option<real>, now: Timestamp)
    requires txn.amount.Some?
    modifies txn.escrow
    ensures LedgerGrew(txn)
    ensures txn.View() == ApplyAction(old(txn.View()), HoldEscrow, details, refundAmount, now)
  {
    if txn.escrow != null {
      Record(txn.escrow, "HOLD", txn.amount.value, details, now);
      LedgerChangedInPlace(txn);
    }
  }

  /** `case "RELEASE_ESCROW"`. */
  method RunReleaseEscrow(txn: Transaction, details: string, refundAmount: Option<real>, now: Timestamp)
    requires txn.amount.Some?
    modifies txn, txn.escrow
    ensures LedgerGrew(txn)
    ensures txn.View() == ApplyAction(old(txn.View()), ReleaseEscrow, details, refundAmount, now)
  {
    if txn.escrow != null {
      ReleaseHeld(txn.escrow, details, now);
      LedgerChangedInPlace(txn);
    }
    txn.SetStatus(Some("RELEASED"));
  }

  /** `case "PARTIAL_REFUND"`: the refund defaults to half the transaction amount. */
  method RunPartialRefund(txn: Transaction, details: string, refundAmount: Option<real>, now: Timestamp)
    requires txn.amount.Some?
    modifies txn.escrow
    ensures LedgerGrew(txn)
    ensures txn.View() == ApplyAction(old(txn.View()), PartialRefund, details, refundAmount, now)
  {
    if txn.escrow != null {
      var refund := refundAmount.GetOr(Half(txn.amount.value));
      Record(txn.escrow, "PARTIAL_REFUND", refund, details, now);
      LedgerChangedInPlace(txn);
    }
  }

  /** `case "RAISE_DISPUTE"`. */
  method RunRaiseDispute(txn: Transaction, details: string, refundAmount: Option<real>, now: Timestamp)
    requires txn.amount.Some?
    modifies txn, txn.escrow
    ensures LedgerGrew(txn)
    ensures txn.View() == ApplyAction(old(txn.View()), RaiseDispute, details, refundAmount, now)
  {
    if txn.escrow != null {
      txn.escrow.AddDispute(details);
      LedgerChangedInPlace(txn);
    }
    txn.SetStatus(Some("DISPUTED"));
  }

  /** Creates the transaction of a payment attempt and copies the payload into it. */
  method ReceivePayment(p: PaymentRequest, newId: string, now: Timestamp) returns (txn: Transaction)
    ensures fresh(txn) && txn.escrow == null
    ensures txn.View() == Received(p, newId, now)
  {
    txn := new Transaction(newId, now);
    txn.SetCustomer(Some(p.customer.GetOr("John Doe")));
    txn.SetPhone(Some(p.phone.GetOr("+44 7700 900000")));
    txn.SetRecipient(p.recipient);
    txn.SetAmount(Some(p.amount.GetOr(0.0)));
    txn.SetMessage(p.message);
    txn.SetSessionId(p.sessionId);
    txn.SetDeviceFingerprint(p.deviceFingerprint);
    txn.SetBehavior(p.behavior);
  }

  /** A new escrow holding `amount`, with the initial HOLD entry in its audit trail. */
  method NewHoldingEscrow(amount: real, now: Timestamp) returns (escrow: Escrow)
    ensures fresh(escrow.Repr())
    ensures escrow.View() == Recorded(EscrowView(amount, 0.0, [], []), Hold("HOLD", amount, now, InitialHoldReason))
  {
    escrow := new Escrow();
    escrow.SetHeldAmount(amount);
    var event := new EscrowEvent("HOLD", amount, InitialHoldReason, now);
    escrow.AddHold(event);
  }

  /** Marks a flagged transaction for review and holds its whole amount in a new escrow. */
  method HoldForReview(txn: Transaction, now: Timestamp)
    requires txn.escrow == null && txn.amount.Some?
    modifies txn
    ensures txn.escrow != null && fresh(txn.escrow.Repr())
    ensures txn.View() == HeldForReview(old(txn.View()), now)
  {
    txn.SetStatus(Some("FLAGGED"));
    txn.SetSandbox(true);
    txn.SetReason(Some(FlagReason));
    var escrow := NewHoldingEscrow(txn.amount.value, now);
    txn.SetEscrow(escrow);
    txn.SetLlmExplanation(Some(FlagExplanation));
    txn.SetSemanticContext(Some(FlagContext));
  }

  /**
   * The transaction a payment attempt builds: the payload copied in, then
   * either put on hold for review or approved. Only new objects are changed.
   */
  method NewTransaction(p: PaymentRequest, newId: string, now: Timestamp) returns (txn: Transaction)
    ensures fresh(txn.Repr()) && txn.id == newId
    ensures txn.View() == Intake(p, newId, now)
  {
    txn := ReceivePayment(p, newId, now);
    if AiSimFlag(p.message) {
      HoldForReview(txn, now);
    } else {
      txn.SetStatus(Some("APPROVED"));
      txn.SetSandbox(false);
    }
  }

  /**
   * The `switch` in `performAction`: applies one action to a stored
   * transaction through its setters and its ledger's live lists.
   */
  method Dispatch(txn: Transaction, action: Action, details: string, refundAmount: Option<real>, now: Timestamp)
    requires txn.amount.Some?
    modifies txn, txn.escrow
    ensures LedgerGrew(txn)
    ensures txn.View() == ApplyAction(old(txn.View()), action, details, refundAmount, now)
  {
    match action
    case Approve => RunApprove(txn, details, refundAmount, now);
    case Reject => RunReject(txn, details, refundAmount, now);
    case Escalate => txn.SetStatus(Some("ESCALATED"));
    case CallCustomer => txn.SetStatus(Some("CALLING"));
    case HoldEscrow => RunHoldEscrow(txn, details, refundAmount, now);
    case ReleaseEscrow => RunReleaseEscrow(txn, details, refundAmount, now);
    case PartialRefund => RunPartialRefund(txn, details, refundAmount, now);
    case RaiseDispute => RunRaiseDispute(txn, details, refundAmount, now);
    case Unrecognised =>
  }

  class TransactionController {
    /** The in-memory store, keyed by transaction id. */
    var transactions: map<string, Transaction>
    /** Every object reachable from the store: transactions, their ledgers and audit entries. */
    ghost var Repr: set<object>

    /** The entry under `id` is owned by the store, is keyed by its own id and has an amount. */
    ghost predicate Stored(id: string)
      reads this, Repr
      requires id in transactions
    {
      var t := transactions[id];
      && t in Repr && (t.escrow != null ==> t.escrow in Repr) && t.Repr() <= Repr
      && t.id == id && t.amount.Some?
    }

    /** Every entry is stored, and no two entries share an object. */
    ghost predicate Valid()
      reads this, Repr
    {
      && this !in Repr
      && (forall id :: id in transactions ==> Stored(id))
      && (forall id1, id2 :: id1 in transactions && id2 in transactions && id1 != id2 ==>
            transactions[id1].Repr() !! transactions[id2].Repr())
    }

    /** The value of the store: each id with the value of its transaction. */
    ghost function View(): map<string, TxnView>
      reads this, Repr
      requires Valid()
    {
      map id | id in transactions :: transactions[id].View()
    }

    constructor ()
      ensures Valid() && View() == map[]
    {
      transactions := map[];
      Repr := {};
    }

    /** `getTransaction`: the stored transaction with the given id, or null. */
    method GetTransaction(id: string) returns (txn: Transaction?)
      requires Valid()
      ensures txn != null <==> id in transactions
      ensures txn != null ==> txn == transactions[id] && txn.id == id
    {
      txn := if id in transactions then transactions[id] else null;
    }

    /**
     * `getFlaggedTransactions`: every stored transaction whose status is
     * FLAGGED, once per entry, in the store's (unspecified) iteration order.
     */
    method GetFlaggedTransactions() returns (flagged: seq<Transaction>)
      ensures forall t :: t in flagged ==> t in transactions.Values && t.status == Some("FLAGGED")
      ensures forall id :: id in FlaggedAmong(transactions.Keys) ==> transactions[id] in flagged
      ensures |flagged| == |FlaggedAmong(transactions.Keys)|
    {
      flagged := [];
      var remaining := transactions.Keys;
      ghost var seen: set<string> := {};
      while remaining != {}
        invariant remaining !! seen && remaining + seen == transactions.Keys
        invariant forall t :: t in flagged ==> t in transactions.Values && t.status == Some("FLAGGED")
        invariant forall id :: id in FlaggedAmong(seen) ==> transactions[id] in flagged
        invariant |flagged| == |FlaggedAmong(seen)|
        decreases remaining
      {
        var id :| id in remaining;
        var t := transactions[id];
        if t.status == Some("FLAGGED") {
          flagged := flagged + [t];
          assert FlaggedAmong(seen + {id}) == FlaggedAmong(seen) + {id};
        } else {
          assert FlaggedAmong(seen + {id}) == FlaggedAmong(seen);
        }
        remaining := remaining - {id};
        seen := seen + {id};
      }
    }

    /** The ids among `ids` of stored transactions whose status is FLAGGED. */
    ghost function FlaggedAmong(ids: set<string>): set<string>
      reads this, transactions.Values
    {
      set id | id in ids && id in transactions && transactions[id].status == Some("FLAGGED")
    }

    /**
     * `attemptPayment`: builds a transaction from the payload, flags it (with
     * an escrow holding the whole amount) when its message trips the keyword
     * test, and stores it under `newId`, the transaction's generated id.
     */
    method AttemptPayment(p: PaymentRequest, newId: string, now: Timestamp) returns (response: PaymentResponse)
      requires Valid()
      modifies this
      ensures Valid()
      ensures response.txnId == newId && response.flagged == AiSimFlag(p.message)
      ensures response.message ==
        if response.flagged then "Payment flagged for review" else "Payment processed successfully"
      ensures View() == old(View())[newId := Intake(p, newId, now)]
    {
      var flagged := AiSimFlag(p.message);
      var txn := NewTransaction(p, newId, now);
      if flagged {
        response := PaymentResponse(txn.id, true, "Payment flagged for review");
      } else {
        response := PaymentResponse(txn.id, false, "Payment processed successfully");
      }
      Store(txn);
    }

    /** `transactions.put(txn.getId(), txn)`, for a transaction that shares no object with the store. */
    method Store(txn: Transaction)
      requires Valid() && txn.amount.Some?
      requires this !in txn.Repr() && txn.Repr() !! Repr
      modifies this
      ensures Valid()
      ensures View() == old(View()[txn.id := txn.View()])
    {
      transactions := transactions[txn.id := txn];
      Repr := Repr + txn.Repr();
      OldEntriesUntouched(txn.id);
      EntryAddedValid(txn.id);
      EntryAdded(txn.id);
    }

    /**
     * `performAction`: applies an operator action to the stored transaction
     * `id`. An unknown id is reported and changes nothing; a missing action
     * fails before anything changes; any other action name succeeds.
     */
    method PerformAction(id: string, action: Option<string>, details: Option<string>,
                         refundAmount: Option<real>, now: Timestamp) returns (response: ActionResponse)
      requires Valid()
      modifies this, Repr
      ensures Valid() && transactions == old(transactions)
      ensures id !in transactions ==>
        response == NotFound("Transaction not found") && View() == old(View())
      ensures id in transactions && action.None? ==>
        response == NullActionException && View() == old(View())
      ensures id in transactions && action.Some? ==>
        && response == Ok(transactions[id])
        && View() == old(View())[id := ApplyAction(old(View())[id], ParseAction(action.value), details.GetOr(""), refundAmount, now)]
    {
      var txn := if id in transactions then transactions[id] else null;
      if txn == null {
        return NotFound("Transaction not found");
      }
      if action.None? {
        return NullActionException;
      }
      Act(id, ParseAction(action.value), details.GetOr(""), refundAmount, now);
      response := Ok(txn);
    }

    /** The switch of `performAction` run on the stored transaction `id`. */
    method Act(id: string, action: Action, details: string, refundAmount: Option<real>, now: Timestamp)
      requires Valid() && id in transactions
      modifies this, Repr
      ensures Valid() && transactions == old(transactions)
      ensures View() == old(View())[id := ApplyAction(old(View())[id], action, details, refundAmount, now)]
    {
      var txn := transactions[id];
      Dispatch(txn, action, details, refundAmount, now);
      ghost var after := txn.View();
      Repr := Repr + txn.Repr();
      assert txn.View() == after;
      EntryUpdated(id);
    }

    /** The entries other than `id` keep their objects, their footprints and their values. */
    twostate lemma OtherEntriesUntouched(id: string)
      requires old(Valid()) && id in old(transactions) && transactions == old(transactions)
      requires unchanged(old(Repr) - old(transactions[id].Repr()))
      ensures forall other | other in transactions && other != id ::
        && transactions[other].Repr() == old(transactions[other].Repr())
        && transactions[other].View() == old(transactions[other].View())
    {
      forall other | other in transactions && other != id
        ensures transactions[other].Repr() == old(transactions[other].Repr())
        ensures transactions[other].View() == old(transactions[other].View())
      {
        assert old(Stored(other));
        assert old(transactions[id].Repr()) !! old(transactions[other].Repr());
        Untouched(transactions[other]);
      }
    }

    /**
     * The store stays valid, and its value changes at `id` only, when the
     * objects of the entry at `id` were the only ones changed and the objects
     * that entry gained are new.
     */
    twostate lemma EntryUpdated(id: string)
      requires old(Valid()) && id in old(transactions) && transactions == old(transactions)
      requires unchanged(old(Repr) - old(transactions[id].Repr()))
      requires old(transactions[id].Repr()) <= transactions[id].Repr() && fresh(transactions[id].Repr() - old(transactions[id].Repr()))
      requires Repr == old(Repr) + transactions[id].Repr()
      requires transactions[id].View().amount.Some? && transactions[id].id == id
      ensures Valid()
      ensures View() == old(View())[id := transactions[id].View()]
      ensures old(View())[id] == old(transactions[id].View())
    {
      OtherEntriesUntouched(id);
      forall other | other in transactions
        ensures Stored(other)
      {
        if other != id {
          assert old(Stored(other));
        }
      }
      UpdatedAt(View(), old(View()), id, transactions[id].View());
    }

    /** After a store, the value changes at the stored id only. */
    twostate lemma EntryAdded(id: string)
      requires old(Valid()) && Valid() && id in transactions
      requires transactions == old(transactions)[id := transactions[id]]
      requires forall other | other in transactions && other != id ::
        && other in old(transactions)
        && transactions[other].View() == old(transactions[other].View())
      ensures View() == old(View())[id := transactions[id].View()]
    {
      UpdatedAt(View(), old(View()), id, transactions[id].View());
    }

    /** Storing a transaction that shares no object with the store keeps the store valid. */
    twostate lemma EntryAddedValid(id: string)
      requires old(Valid()) && id in transactions
      requires transactions == old(transactions)[id := transactions[id]]
      requires unchanged(old(Repr)) && this !in transactions[id].Repr()
      requires Repr == old(Repr) + transactions[id].Repr()
      requires transactions[id].View().amount.Some? && transactions[id].id == id
      requires forall other | other in transactions && other != id ::
        && other in old(transactions)
        && transactions[other].Repr() == old(transactions[other].Repr())
        && transactions[other].Repr() !! transactions[id].Repr()
      ensures Valid()
    {
      forall other | other in transactions
        ensures Stored(other)
      {
        if other != id {
          assert old(Stored(other));
        }
      }
    }

    /** When a new entry is stored, the entries already there keep their footprints and values. */
    twostate lemma OldEntriesUntouched(id: string)
      requires old(Valid()) && id in transactions
      requires transactions == old(transactions)[id := transactions[id]]
      requires unchanged(old(Repr)) && transactions[id].Repr() !! old(Repr)
      ensures forall other | other in transactions && other != id ::
        && other in old(transactions)
        && transactions[other].Repr() == old(transactions[other].Repr())
        && transactions[other].View() == old(transactions[other].View())
        && transactions[other].Repr() !! transactions[id].Repr()
    {
      forall other | other in transactions && other != id
        ensures other in old(transactions)
        ensures transactions[other].Repr() == old(transactions[other].Repr())
        ensures transactions[other].View() == old(transactions[other].View())
        ensures transactions[other].Repr() !! transactions[id].Repr()
      {
        assert old(Stored(other));
        Untouched(transactions[other]);
      }
    }
  }

  /** A map that agrees with `m0` except at `k`, where it holds `v`, is `m0[k := v]`. */
  lemma UpdatedAt<K, V>(m: map<K, V>, m0: map<K, V>, k: K, v: V)
    requires m.Keys == m0.Keys + {k} && m[k] == v
    requires forall j | j in m0 && j != k :: m[j] == m0[j]
    ensures m == m0[k := v]
  {
  }
}
