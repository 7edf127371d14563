/**
 * The operator dashboard (a React component). Its transaction list and its
 * activity log are immutable arrays that every update rebuilds, but each
 * transaction's escrow is a mutable object: the dispatcher copies the
 * transaction shallowly and then changes the escrow in place, so every copy
 * of the transaction (the list entry, the selected transaction, the copy
 * just made) sees the same ledger. Here a transaction is a value that holds
 * a reference to its escrow object; the component's state is a class whose
 * fields each state update reassigns.
 */
module Dashboard {
  import opened Wrappers
  import opened EscrowEvents
  import opened Escrows
  import opened Actions

  /** A transaction's escrow as the dashboard keeps it: one mutable object shared by all copies of the transaction. */
  class EscrowObject {
    var heldAmount: real
    var releasedAmount: real
    var holds: seq<Hold>
    var disputes: seq<string>

    ghost function View(): EscrowView
      reads this
    {
      EscrowView(heldAmount, releasedAmount, holds, disputes)
    }

    /** The escrow literal of a seeded transaction: `amount` held, one initial HOLD entry. */
    constructor (amount: real, now: Timestamp)
      ensures View() == EscrowView(amount, 0.0, [Hold("HOLD", amount, now, "Initial fraud flag")], [])
    {
      heldAmount := amount;
      releasedAmount := 0.0;
      holds := [Hold("HOLD", amount, now, "Initial fraud flag")];
      disputes := [];
    }
  }

  /**
   * A transaction of the dashboard's list: the fields its logic reads, and a
   * reference to its escrow (absent when the transaction has none). Copying a
   * `Txn` copies the reference, as `{ ...txn }` does.
   */
  datatype Txn = Txn(id: string, customer: string, amount: real, status: string, escrow: Option<EscrowObject>)

  /** The objects an action on `t` may change: its escrow, if it has one. */
  function EscrowOf(t: Txn): set<object> {
    if t.escrow.Some? then {t.escrow.value} else {}
  }

  /** No two transactions of the list share an id. */
  ghost predicate UniqueIds(ts: seq<Txn>) {
    forall i, j :: 0 <= i < j < |ts| ==> ts[i].id != ts[j].id
  }

  /** `prev.find(t => t.id === id)`: the first transaction with that id, if any. */
  function Find(ts: seq<Txn>, id: string): (r: Option<Txn>)
    ensures r.Some? <==> exists i :: 0 <= i < |ts| && ts[i].id == id
    ensures r.Some? ==> r.value.id == id && exists i ::
      0 <= i < |ts| && ts[i] == r.value && (forall j :: 0 <= j < i ==> ts[j].id != id)
  {
    if ts == [] then None
    else if ts[0].id == id then Some(ts[0])
    else
      var r := Find(ts[1..], id);
      assert forall i :: 1 <= i < |ts| ==> ts[i] == ts[1..][i - 1];
      r
  }

  /**
   * The list after an inbound NEW_FLAGGED_TXN message: the transaction is put
   * in front unless one with its id is already listed.
   */
  function InsertIfNew(ts: seq<Txn>, t: Txn): (r: seq<Txn>)
    ensures (forall i :: 0 <= i < |ts| ==> ts[i].id != t.id) ==> r == [t] + ts
    ensures (exists i :: 0 <= i < |ts| && ts[i].id == t.id) ==> r == ts
    ensures UniqueIds(ts) ==> UniqueIds(r)
  {
    if Find(ts, t.id).Some? then ts else [t] + ts
  }

  /**
   * `prev.map(t => t.id === id ? updated : t)`: the list with every entry of
   * that id replaced and every other entry kept, in the same order.
   */
  function ReplaceById(ts: seq<Txn>, id: string, updated: Txn): (r: seq<Txn>)
    ensures |r| == |ts|
    ensures forall i :: 0 <= i < |ts| ==> r[i] == if ts[i].id == id then updated else ts[i]
  {
    if ts == [] then [] else [if ts[0].id == id then updated else ts[0]] + ReplaceById(ts[1..], id, updated)
  }

  /** Replacing an entry by a transaction of the same id keeps every id, and so keeps ids unique. */
  lemma ReplaceByIdKeepsIds(ts: seq<Txn>, id: string, updated: Txn)
    requires updated.id == id
    ensures var r := ReplaceById(ts, id, updated);
      && (forall i :: 0 <= i < |ts| ==> r[i].id == ts[i].id)
      && (UniqueIds(ts) ==> UniqueIds(r))
  {
  }

  /** `details || fallback`: the empty string is falsy, so it selects the fallback. */
  function OrDefault(details: string, fallback: string): string {
    if details == "" then fallback else details
  }

  /** The status after an action: the one the action assigns, else the old one. */
  function StatusAfter(status: string, action: Action): string {
    StatusSet(action).GetOr(status)
  }

  /**
   * The dashboard's ledger code for one action on a transaction of amount
   * `amount`, with the dashboard's default reasons. Every action keeps the
   * existing entries and notes and adds at most one.
   */
  function LedgerAfter(e: EscrowView, action: Action, amount: real, details: string, now: Timestamp): (r: EscrowView)
    ensures LedgerStep(e, r)
  {
    match action
    case Approve => Released(e, "Approved by operator", now)
    case Reject => Voided(e, amount, OrDefault(details, "Rejected by operator"), now)
    case HoldEscrow => Recorded(e, Hold("HOLD", amount, now, OrDefault(details, "Additional hold")))
    case ReleaseEscrow => Released(e, OrDefault(details, "Released by operator"), now)
    case PartialRefund => Recorded(e, Hold("PARTIAL_REFUND", Half(amount), now, OrDefault(details, "Partial refund issued")))
    case RaiseDispute => Disputed(e, OrDefault(details, "Dispute raised by operator"))
    case _ => e
  }

  /**
   * APPROVE and RELEASE_ESCROW move the held amount to the released amount and
   * record one RELEASE entry of it; both set their status whether or not
   * there is a ledger.
   */
  lemma DashboardReleaseMovesHeld(e: EscrowView, status: string, amount: real, details: string, now: Timestamp)
    ensures StatusAfter(status, Approve) == "APPROVED" && StatusAfter(status, ReleaseEscrow) == "RELEASED"
    ensures var r := LedgerAfter(e, Approve, amount, details, now);
      r == EscrowView(0.0, e.held, e.holds + [Hold("RELEASE", e.held, now, "Approved by operator")], e.disputes)
    ensures var r := LedgerAfter(e, ReleaseEscrow, amount, details, now);
      && r.held == 0.0 && r.released == e.held && r.disputes == e.disputes
      && r.holds == e.holds + [Hold("RELEASE", e.held, now, if details == "" then "Released by operator" else details)]
  {
  }

  /** REJECT zeroes the held amount, keeps the released amount and gives its entry a default reason. */
  lemma DashboardRejectVoidsHeld(e: EscrowView, status: string, amount: real, details: string, now: Timestamp)
    ensures StatusAfter(status, Reject) == "REJECTED"
    ensures var r := LedgerAfter(e, Reject, amount, details, now);
      && r.held == 0.0 && r.released == e.released && r.disputes == e.disputes
      && r.holds == e.holds + [Hold("REJECT", amount, now, if details == "" then "Rejected by operator" else details)]
  {
  }

  /** HOLD_ESCROW keeps the status and records a HOLD entry of the amount, with a default reason. */
  lemma DashboardHoldRecords(e: EscrowView, status: string, amount: real, details: string, now: Timestamp)
    ensures StatusAfter(status, HoldEscrow) == status
    ensures LedgerAfter(e, HoldEscrow, amount, details, now)
      == e.(holds := e.holds + [Hold("HOLD", amount, now, if details == "" then "Additional hold" else details)])
  {
  }

  /**
   * PARTIAL_REFUND records an entry of half the amount, with a default
   * reason, and keeps the status and both totals; RAISE_DISPUTE adds exactly
   * one note and sets DISPUTED.
   */
  lemma DashboardRefundAndDispute(e: EscrowView, status: string, amount: real, details: string, now: Timestamp)
    ensures StatusAfter(status, PartialRefund) == status
    ensures LedgerAfter(e, PartialRefund, amount, details, now)
      == e.(holds := e.holds + [Hold("PARTIAL_REFUND", amount / 2.0, now, if details == "" then "Partial refund issued" else details)])
    ensures StatusAfter(status, RaiseDispute) == "DISPUTED"
    ensures var r := LedgerAfter(e, RaiseDispute, amount, details, now);
      && r.held == e.held && r.released == e.released && r.holds == e.holds
      && r.disputes == e.disputes + [if details == "" then "Dispute raised by operator" else details]
  {
  }

  /** An action name the switch does not list changes neither the status nor the ledger. */
  lemma DashboardUnknownActionChangesNothing(e: EscrowView, status: string, name: string, amount: real, details: string, now: Timestamp)
    requires name !in KnownActions
    ensures StatusAfter(status, ParseAction(name)) == status
    ensures LedgerAfter(e, ParseAction(name), amount, details, now) == e
  {
  }

  /** What an activity-log entry says, before its text is formatted. */
  datatype LogMessage =
    | ActionExecuted(action: string, txnId: string)
    | NewFlaggedFrom(customer: string, amount: real)

  /** An activity-log entry; `kind` is its `type` field. NEW_TXN entries carry no details. */
  datatype LogEntry = LogEntry(timestamp: Timestamp, kind: string, txnId: string, message: LogMessage, details: Option<string>)

  /** The entry `performAction` logs for an action on transaction `txnId`. */
  function ActionEntry(action: string, txnId: string, details: string, now: Timestamp): LogEntry {
    LogEntry(now, action, txnId, ActionExecuted(action, txnId), Some(details))
  }

  /** The entry an inbound flagged transaction is logged with. */
  function ArrivalEntry(t: Txn, now: Timestamp): LogEntry {
    LogEntry(now, "NEW_TXN", t.id, NewFlaggedFrom(t.customer, t.amount), None)
  }

  /** `activityLog.slice(0, 20)`: the newest twenty entries, or all of them when there are fewer. */
  function VisibleLog(log: seq<LogEntry>): (r: seq<LogEntry>)
    ensures |r| == if |log| < 20 then |log| else 20
    ensures r == log[..|r|]
  {
    if |log| <= 20 then log else log[..20]
  }

  /** A newly logged entry is the first one shown, and the rest shift down by one. */
  lemma NewestEntryShownFirst(entry: LogEntry, log: seq<LogEntry>)
    ensures VisibleLog([entry] + log)[0] == entry
    ensures VisibleLog([entry] + log)[1..] == VisibleLog(log)[..|VisibleLog([entry] + log)| - 1]
  {
  }

  /** The statuses that have a badge style of their own. */
  const StyledStatuses: set<string> := {"FLAGGED", "APPROVED", "REJECTED", "ESCALATED"}

  /** `getBadgeClass`: the CSS class of a status badge. */
  function BadgeClass(status: string): (r: string)
    ensures |r| >= 5 && r[..5] == "badge"
    ensures r == "badge" <==> status !in StyledStatuses
  {
    match status
    case "FLAGGED" => "badge flagged"
    case "APPROVED" => "badge approved"
    case "REJECTED" => "badge rejected"
    case "ESCALATED" => "badge escalated"
    case _ => "badge"
  }

  /** Statuses with a style of their own are told apart: no two of them share a class. */
  lemma StyledBadgesDistinct(s1: string, s2: string)
    requires s1 in StyledStatuses && s2 in StyledStatuses && s1 != s2
    ensures BadgeClass(s1) != BadgeClass(s2)
  {
  }

  /** A `message` event posted to the dashboard window; `kind` is its `type` field. */
  datatype Inbound = Inbound(kind: string, txn: Txn)

  /** The action buttons: four on every transaction card and four in the escrow panel. */
  datatype Button =
    | ApproveButton | RejectButton | EscalateButton | CallButton
    | HoldButton | ReleaseButton | RefundButton | DisputeButton

  /** The action name and the details each button passes to `performAction`. */
  function Pressed(b: Button): (string, string) {
    match b
    case ApproveButton => ("APPROVE", "")
    case RejectButton => ("REJECT", "Confirmed fraud")
    case EscalateButton => ("ESCALATE", "")
    case CallButton => ("CALL_CUSTOMER", "")
    case HoldButton => ("HOLD_ESCROW", "Additional hold requested")
    case ReleaseButton => ("RELEASE_ESCROW", "Verified legitimate")
    case RefundButton => ("PARTIAL_REFUND", "50% partial refund")
    case DisputeButton => ("RAISE_DISPUTE", "Customer dispute filed")
  }

  /**
   * Every button names a recognised action, and the ones whose action uses
   * `details` always pass some, so the default reasons are never used from
   * the dashboard's own buttons.
   */
  lemma ButtonsPassDetails(b: Button)
    ensures Pressed(b).0 in KnownActions
    ensures ParseAction(Pressed(b).0) in {Reject, HoldEscrow, ReleaseEscrow, PartialRefund, RaiseDispute} ==> Pressed(b).1 != ""
  {
  }

  /**
   * The escrow half of `performAction`'s switch: the assignments and pushes
   * each action makes to the escrow object, in place.
   */
  method ApplyToEscrow(e: EscrowObject, action: Action, amount: real, details: string, now: Timestamp)
    modifies e
    ensures e.View() == LedgerAfter(old(e.View()), action, amount, details, now)
  {
    match action {
      case Approve =>
        var held := e.heldAmount;
        e.heldAmount := 0.0;
        e.releasedAmount := held;
        e.holds := e.holds + [Hold("RELEASE", held, now, "Approved by operator")];
      case Reject =>
        e.heldAmount := 0.0;
        e.holds := e.holds + [Hold("REJECT", amount, now, OrDefault(details, "Rejected by operator"))];
      case HoldEscrow =>
        e.holds := e.holds + [Hold("HOLD", amount, now, OrDefault(details, "Additional hold"))];
      case ReleaseEscrow =>
        var held := e.heldAmount;
        e.heldAmount := 0.0;
        e.releasedAmount := held;
        e.holds := e.holds + [Hold("RELEASE", held, now, OrDefault(details, "Released by operator"))];
      case PartialRefund =>
        var refundAmount := Half(amount);
        e.holds := e.holds + [Hold("PARTIAL_REFUND", refundAmount, now, OrDefault(details, "Partial refund issued"))];
      case RaiseDispute =>
        e.disputes := e.disputes + [OrDefault(details, "Dispute raised by operator")];
      case Escalate =>
      case CallCustomer =>
      case Unrecognised =>
    }
  }

  /** The component's state. */
  class App {
    var transactions: seq<Txn>
    var activityLog: seq<LogEntry>
    var selected: Option<Txn>
    var showSandbox: bool

    /** The seeded state: the two demo transactions, an empty log, nothing selected. */
    constructor (now: Timestamp, earlier: Timestamp)
      ensures |transactions| == 2 && UniqueIds(transactions)
      ensures transactions[0].id == "demo-001" && transactions[0].amount == 2500.0
      ensures transactions[1].id == "demo-002" && transactions[1].amount == 850.0
      ensures forall t | t in transactions :: t.status == "FLAGGED" && t.escrow.Some? && fresh(t.escrow.value)
      ensures transactions[0].escrow.value.View() == EscrowView(2500.0, 0.0, [Hold("HOLD", 2500.0, now, "Initial fraud flag")], [])
      ensures transactions[1].escrow.value.View() == EscrowView(850.0, 0.0, [Hold("HOLD", 850.0, earlier, "Initial fraud flag")], [])
      ensures transactions[0].escrow != transactions[1].escrow
      ensures activityLog == [] && selected == None && !showSandbox
    {
      var first := new EscrowObject(2500.0, now);
      var second := new EscrowObject(850.0, earlier);
      transactions := [
        Txn("demo-001", "Alice Thompson", 2500.0, "FLAGGED", Some(first)),
        Txn("demo-002", "Bob Martinez", 850.0, "FLAGGED", Some(second))];
      activityLog := [];
      selected := None;
      showSandbox := false;
    }

    /**
     * `handleMessage`: a NEW_FLAGGED_TXN message inserts its transaction
     * unless the id is already listed, and is logged either way; any other
     * message (or none) is ignored.
     */
    method HandleMessage(data: Option<Inbound>, now: Timestamp)
      modifies this`transactions, this`activityLog
      ensures data.None? || data.value.kind != "NEW_FLAGGED_TXN" ==>
        transactions == old(transactions) && activityLog == old(activityLog)
      ensures data.Some? && data.value.kind == "NEW_FLAGGED_TXN" ==>
        && transactions == InsertIfNew(old(transactions), data.value.txn)
        && activityLog == [ArrivalEntry(data.value.txn, now)] + old(activityLog)
      ensures UniqueIds(old(transactions)) ==> UniqueIds(transactions)
    {
      if data.None? || data.value.kind != "NEW_FLAGGED_TXN" {
        return;
      }
      var newTxn := data.value.txn;
      var found := Find(transactions, newTxn.id);
      if found.None? {
        transactions := [newTxn] + transactions;
      }
      activityLog := [ArrivalEntry(newTxn, now)] + activityLog;
    }

    /**
     * `performAction`: applies the action to a shallow copy of `txn` whose
     * escrow is changed in place, puts the copy in place of the listed
     * transaction with that id, logs the action and refreshes the selection.
     * The ledger change is visible through `txn` itself and every other copy
     * that shares its escrow object.
     */
    method PerformAction(txn: Txn, action: string, details: string, now: Timestamp)
      modifies this`transactions, this`activityLog, this`selected, EscrowOf(txn)
      ensures var updated := txn.(status := StatusAfter(txn.status, ParseAction(action)));
        && transactions == ReplaceById(old(transactions), txn.id, updated)
        && activityLog == [ActionEntry(action, txn.id, details, now)] + old(activityLog)
        && selected == if old(selected).Some? && old(selected).value.id == txn.id then Some(updated) else old(selected)
      ensures txn.escrow.Some? ==>
        txn.escrow.value.View() == LedgerAfter(old(txn.escrow.value.View()), ParseAction(action), txn.amount, details, now)
      ensures UniqueIds(old(transactions)) ==> UniqueIds(transactions)
    {
      var a := ParseAction(action);
      var updated := txn.(status := StatusAfter(txn.status, a));
      ReplaceByIdKeepsIds(transactions, txn.id, updated);
      if txn.escrow.Some? {
        ApplyToEscrow(txn.escrow.value, a, txn.amount, details, now);
      }
      transactions := ReplaceById(transactions, txn.id, updated);
      activityLog := [ActionEntry(action, txn.id, details, now)] + activityLog;
      if selected.Some? && selected.value.id == txn.id {
        selected := Some(updated);
      }
    }

    /** The "Escrow Actions" button: selects the transaction and opens the escrow panel. */
    method OpenEscrowActions(txn: Txn)
      modifies this`selected, this`showSandbox
      ensures selected == Some(txn) && showSandbox
    {
      selected := Some(txn);
      showSandbox := true;
    }

    /**
     * A button of the escrow panel, which is shown only while a selected
     * transaction has an escrow: runs the button's action on the selected
     * copy, then closes the panel.
     */
    method PressEscrowButton(b: Button, now: Timestamp)
      requires b in {HoldButton, ReleaseButton, RefundButton, DisputeButton}
      requires showSandbox && selected.Some? && selected.value.escrow.Some?
      modifies this`transactions, this`activityLog, this`selected, this`showSandbox, EscrowOf(selected.value)
      ensures var txn := old(selected).value;
        var a := ParseAction(Pressed(b).0);
        var updated := txn.(status := StatusAfter(txn.status, a));
        && transactions == ReplaceById(old(transactions), txn.id, updated)
        && activityLog == [ActionEntry(Pressed(b).0, txn.id, Pressed(b).1, now)] + old(activityLog)
        && selected == Some(updated)
        && txn.escrow.value.View() == LedgerAfter(old(txn.escrow.value.View()), a, txn.amount, Pressed(b).1, now)
      ensures !showSandbox
    {
      PerformAction(selected.value, Pressed(b).0, Pressed(b).1, now);
      showSandbox := false;
    }
  }

  /** The list after a sequence of inbound messages, each handled as `handleMessage` does. */
  function ReceiveAll(ts: seq<Txn>, messages: seq<Inbound>): seq<Txn>
    decreases |messages|
  {
    if messages == [] then ts
    else
      var m := messages[0];
      ReceiveAll(if m.kind == "NEW_FLAGGED_TXN" then InsertIfNew(ts, m.txn) else ts, messages[1..])
  }

  /** However many messages arrive, in whatever order, no id is ever listed twice. */
  lemma {:induction false} ReceiveAllKeepsIdsUnique(ts: seq<Txn>, messages: seq<Inbound>)
    requires UniqueIds(ts)
    ensures UniqueIds(ReceiveAll(ts, messages))
    decreases |messages|
  {
    if messages != [] {
      var m := messages[0];
      ReceiveAllKeepsIdsUnique(if m.kind == "NEW_FLAGGED_TXN" then InsertIfNew(ts, m.txn) else ts, messages[1..]);
    }
  }
}
