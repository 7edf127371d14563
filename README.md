# FraudOps escrow and operator actions, modelled in Dafny

This project models the core of the FraudOps fraud-review system. It has two halves.

The first half is the Spring backend. A payment attempt is screened by a keyword test (`aiSimFlag`). A flagged payment is
put on hold: it gets the status FLAGGED, a sandbox mark, and an escrow ledger that holds the whole amount. Every
attempt is kept in an in-memory store keyed by transaction id. Operators then act on a stored transaction through
`performAction`, a switch over eight action names. Each action sets a status and/or changes the ledger: it moves
the held amount to released, voids it, records an audit entry or adds a dispute note. The entities `Transaction`,
`Escrow` and `EscrowEvent` are mutable beans. They are modelled as classes with setters, and each has a ghost
`View()` that gives its value at one moment. The controller's methods are proved against pure functions of those
values: `Intake` for a payment attempt and `ApplyAction` for an operator action. The controller's store keeps an
invariant: each entry is keyed by its own id, has an amount, and shares no object with any other entry.

The second half is the React dashboard (`App.jsx`). It keeps a transaction list, an activity log, a selected
transaction and a panel flag. Each state update rebuilds the list and the log. Each transaction's escrow, however, is
one mutable object. `performAction` copies the transaction shallowly and changes that escrow in place, so every copy
of the transaction sees the change. Here a dashboard transaction is a value that holds a reference to an
`EscrowObject`, and the component's state is a class.

A third module, `Agreement`, relates the two dispatchers:
- they agree on the status and the ledger whenever details are given and no refund amount is;
- every dashboard button falls in one of two agreeing cases: details given, or an action that reads no details;
- the two differ only in default reasons and in the refund amount.

The backend records `details` as given for REJECT, HOLD_ESCROW, RELEASE_ESCROW, PARTIAL_REFUND and
RAISE_DISPUTE; an absent `details` key becomes the empty text. The dashboard instead replaces empty details with a
fixed reason for each action.

Modules:
- `Wrappers`: `Option`.
- `Text`: lower-casing and substring search.
- `Actions`: the action names and the status each one sets.
- `EscrowEvents`, `Escrows`, `Transactions`: the backend model classes.
- `Controller`: the backend controller.
- `Dashboard`: the React component.
- `Agreement`: the lemmas that relate the two dispatchers.

## Model

| member | source | states |
|---|---|---|
| `Text.Lower` | backend/src/main/java/com/natwest/fraudops/controller/TransactionController.java:152 | lower-casing keeps the length, maps each character by its own, and leaves no upper-case ASCII letter |
| `Text.Contains` | backend/src/main/java/com/natwest/fraudops/controller/TransactionController.java:153-154 | `contains` is true exactly when the pattern occurs at some index of the text |
| `Controller.AiSimFlag` | backend/src/main/java/com/natwest/fraudops/controller/TransactionController.java:150-155 | a message is flagged exactly when it is present and its lower-cased text contains one of otp, urgent, refund, click; a null message is never flagged |
| `Controller.AiSimFlagIgnoresCase` | backend/src/main/java/com/natwest/fraudops/controller/TransactionController.java:152 | the flag test gives the same answer on a message and on its lower-cased form, and on any two messages that agree up to letter case |
| `Actions.ParseAction` | backend/src/main/java/com/natwest/fraudops/controller/TransactionController.java:87-145 | an action name selects a case exactly when it is one of the eight case labels (case-sensitive), and it selects the case of that name |
| `Actions.ParseActionName` | backend/src/main/java/com/natwest/fraudops/controller/TransactionController.java:87-145 | each of the eight actions is selected by its own name |
| `Actions.Half` | backend/src/main/java/com/natwest/fraudops/controller/TransactionController.java:134 | the default refund, `amount * 0.5`, added to itself gives the amount |
| `EscrowEvents.EscrowEvent.constructor` | backend/src/main/java/com/natwest/fraudops/model/EscrowEvent.java:15-20 | the entry holds the given action, amount and reason, with the clock reading taken at construction as its timestamp |
| `EscrowEvents.EscrowEvent.SetAction` | backend/src/main/java/com/natwest/fraudops/model/EscrowEvent.java:23 | only the action changes |
| `EscrowEvents.EscrowEvent.SetAmount` | backend/src/main/java/com/natwest/fraudops/model/EscrowEvent.java:26 | only the amount changes |
| `EscrowEvents.EscrowEvent.SetTimestamp` | backend/src/main/java/com/natwest/fraudops/model/EscrowEvent.java:29 | only the timestamp changes |
| `EscrowEvents.EscrowEvent.SetReason` | backend/src/main/java/com/natwest/fraudops/model/EscrowEvent.java:32 | only the reason changes |
| `Escrows.Escrow.constructor` | backend/src/main/java/com/natwest/fraudops/model/Escrow.java:12-17 | a new ledger holds and has released 0, with no entries and no disputes |
| `Escrows.Escrow.SetHeldAmount` | backend/src/main/java/com/natwest/fraudops/model/Escrow.java:20 | only the held amount changes |
| `Escrows.Escrow.SetReleasedAmount` | backend/src/main/java/com/natwest/fraudops/model/Escrow.java:23 | only the released amount changes |
| `Escrows.Escrow.AddHold` | backend/src/main/java/com/natwest/fraudops/model/Escrow.java:25 | `getHolds().add(e)` appends the entry to the live list in place and changes nothing else |
| `Escrows.Escrow.AddDispute` | backend/src/main/java/com/natwest/fraudops/model/Escrow.java:28 | `getDisputes().add(n)` appends the note in place and changes nothing else |
| `Transactions.Transaction.constructor` | backend/src/main/java/com/natwest/fraudops/model/Transaction.java:26-31 | a new transaction has the generated id, the creation time, currency GBP, method bank_transfer, and every other field unset |
| `Transactions.Transaction.SetCustomer` | backend/src/main/java/com/natwest/fraudops/model/Transaction.java:38 | only the customer changes |
| `Transactions.Transaction.SetPhone` | backend/src/main/java/com/natwest/fraudops/model/Transaction.java:41 | only the phone changes |
| `Transactions.Transaction.SetRecipient` | backend/src/main/java/com/natwest/fraudops/model/Transaction.java:44 | only the recipient changes |
| `Transactions.Transaction.SetAmount` | backend/src/main/java/com/natwest/fraudops/model/Transaction.java:47 | only the amount changes |
| `Transactions.Transaction.SetMessage` | backend/src/main/java/com/natwest/fraudops/model/Transaction.java:56 | only the message changes |
| `Transactions.Transaction.SetReason` | backend/src/main/java/com/natwest/fraudops/model/Transaction.java:59 | only the reason changes |
| `Transactions.Transaction.SetStatus` | backend/src/main/java/com/natwest/fraudops/model/Transaction.java:62 | only the status changes |
| `Transactions.Transaction.SetSandbox` | backend/src/main/java/com/natwest/fraudops/model/Transaction.java:65 | only the sandbox mark changes |
| `Transactions.Transaction.SetSessionId` | backend/src/main/java/com/natwest/fraudops/model/Transaction.java:71 | only the session id changes |
| `Transactions.Transaction.SetDeviceFingerprint` | backend/src/main/java/com/natwest/fraudops/model/Transaction.java:74 | only the device fingerprint changes |
| `Transactions.Transaction.SetBehavior` | backend/src/main/java/com/natwest/fraudops/model/Transaction.java:77 | only the behaviour changes |
| `Transactions.Transaction.SetEscrow` | backend/src/main/java/com/natwest/fraudops/model/Transaction.java:80 | the ledger is attached by reference; the transaction's value now includes that ledger's value |
| `Transactions.Transaction.SetLlmExplanation` | backend/src/main/java/com/natwest/fraudops/model/Transaction.java:83 | only the explanation changes |
| `Transactions.Transaction.SetSemanticContext` | backend/src/main/java/com/natwest/fraudops/model/Transaction.java:86 | only the semantic context changes |
| `Controller.Intake` | backend/src/main/java/com/natwest/fraudops/controller/TransactionController.java:19-60 | the stored transaction has the new id and time, GBP, bank_transfer, the payload's amount/customer/phone or their defaults (0, John Doe, +44 7700 900000), its message and recipient; if flagged: FLAGGED, sandboxed, ledger holding the whole amount with one HOLD entry "Initial fraud flag"; otherwise APPROVED, not sandboxed, no ledger, no reason |
| `Controller.ApplyAction` | backend/src/main/java/com/natwest/fraudops/controller/TransactionController.java:87-145 | an action changes at most the status and the ledger; it never adds or removes a ledger; the ledger change is a ledger step (old entries kept, at most one added, held kept or zeroed, released kept or given the held amount); the status is the action's own status, if it has one, else unchanged |
| `Controller.ApproveAndReleaseMoveHeld` | backend/src/main/java/com/natwest/fraudops/controller/TransactionController.java:88-96 | APPROVE sets APPROVED and RELEASE_ESCROW sets RELEASED; both zero the held amount, overwrite released with the old held amount, and append one RELEASE entry of it (reason "Approved by operator", resp. the details) |
| `Controller.RejectVoidsHeld` | backend/src/main/java/com/natwest/fraudops/controller/TransactionController.java:98-104 | REJECT sets REJECTED, zeroes held, keeps released, and appends a REJECT entry of the transaction amount with the details as its reason |
| `Controller.HoldEscrowOnlyRecords` | backend/src/main/java/com/natwest/fraudops/controller/TransactionController.java:114-118 | HOLD_ESCROW appends a HOLD entry of the transaction amount and changes nothing else; without a ledger it changes nothing |
| `Controller.StatusOnlyActions` | backend/src/main/java/com/natwest/fraudops/controller/TransactionController.java:106-112 | ESCALATE and CALL_CUSTOMER set ESCALATED and CALLING and change nothing else |
| `Controller.PartialRefundKeepsTotals` | backend/src/main/java/com/natwest/fraudops/controller/TransactionController.java:130-137 | PARTIAL_REFUND appends an entry of the given refund amount, or of half the amount when none is given, and leaves status, held and released as they were |
| `Controller.RaiseDisputeAppendsNote` | backend/src/main/java/com/natwest/fraudops/controller/TransactionController.java:139-144 | RAISE_DISPUTE sets DISPUTED and appends the details to the disputes only |
| `Controller.UnknownActionChangesNothing` | backend/src/main/java/com/natwest/fraudops/controller/TransactionController.java:87-145 | an action name matching no case leaves the transaction as it was |
| `Controller.ApproveTwiceIsNotIdempotent` | backend/src/main/java/com/natwest/fraudops/controller/TransactionController.java:88-96 | a second APPROVE appends a second RELEASE entry of 0 and overwrites released with 0 |
| `Controller.ApplyAll` | backend/src/main/java/com/natwest/fraudops/controller/TransactionController.java:74-148 | a run of operator requests never changes a transaction's id or amount |
| `Controller.LedgerIsAppendOnly` | backend/src/main/java/com/natwest/fraudops/controller/TransactionController.java:87-145 | over any run of requests, the ledger is kept, earlier entries and notes stay as a prefix, and each request adds at most one entry or note |
| `Controller.ReleaseHeld` | backend/src/main/java/com/natwest/fraudops/controller/TransactionController.java:91-94 | the ledger after the in-place release is `Released` of the ledger before it; the only objects it gains are new |
| `Controller.VoidHeld` | backend/src/main/java/com/natwest/fraudops/controller/TransactionController.java:101-102 | the ledger after the in-place rejection is `Voided` of the ledger before it |
| `Controller.Record` | backend/src/main/java/com/natwest/fraudops/controller/TransactionController.java:116 | the ledger after `getHolds().add(...)` is the old one with that entry appended |
| `Controller.RunApprove` | backend/src/main/java/com/natwest/fraudops/controller/TransactionController.java:88-96 | the APPROVE case changes the stored transaction exactly as `ApplyAction` says |
| `Controller.RunReject` | backend/src/main/java/com/natwest/fraudops/controller/TransactionController.java:98-104 | the REJECT case changes the transaction exactly as `ApplyAction` says |
| `Controller.RunHoldEscrow` | backend/src/main/java/com/natwest/fraudops/controller/TransactionController.java:114-118 | the HOLD_ESCROW case changes the transaction exactly as `ApplyAction` says |
| `Controller.RunReleaseEscrow` | backend/src/main/java/com/natwest/fraudops/controller/TransactionController.java:120-128 | the RELEASE_ESCROW case changes the transaction exactly as `ApplyAction` says |
| `Controller.RunPartialRefund` | backend/src/main/java/com/natwest/fraudops/controller/TransactionController.java:130-137 | the PARTIAL_REFUND case changes the transaction exactly as `ApplyAction` says |
| `Controller.RunRaiseDispute` | backend/src/main/java/com/natwest/fraudops/controller/TransactionController.java:139-144 | the RAISE_DISPUTE case changes the transaction exactly as `ApplyAction` says |
| `Controller.Dispatch` | backend/src/main/java/com/natwest/fraudops/controller/TransactionController.java:87-145 | the whole switch changes the transaction exactly as `ApplyAction` says, and the ledger stays attached |
| `Controller.ReceivePayment` | backend/src/main/java/com/natwest/fraudops/controller/TransactionController.java:23-31 | a new transaction carrying the payload's fields (or the defaults) and no ledger |
| `Controller.NewHoldingEscrow` | backend/src/main/java/com/natwest/fraudops/controller/TransactionController.java:41-43 | a new ledger holding the amount, with one HOLD entry "Initial fraud flag" |
| `Controller.HoldForReview` | backend/src/main/java/com/natwest/fraudops/controller/TransactionController.java:36-48 | the flagged branch: FLAGGED, sandboxed, the flag reason, explanation and context, and a new ledger holding the whole amount |
| `Controller.NewTransaction` | backend/src/main/java/com/natwest/fraudops/controller/TransactionController.java:23-56 | the transaction built by a payment attempt is new and equals `Intake` of the payload |
| `Controller.TransactionController.constructor` | backend/src/main/java/com/natwest/fraudops/controller/TransactionController.java:16 | the store starts empty |
| `Controller.TransactionController.GetTransaction` | backend/src/main/java/com/natwest/fraudops/controller/TransactionController.java:69-72 | returns the stored transaction with the id, and null exactly when there is none |
| `Controller.TransactionController.GetFlaggedTransactions` | backend/src/main/java/com/natwest/fraudops/controller/TransactionController.java:62-67 | returns every stored transaction with status FLAGGED, once per entry, and nothing else |
| `Controller.TransactionController.AttemptPayment` | backend/src/main/java/com/natwest/fraudops/controller/TransactionController.java:19-60 | the response carries the new id, the flag and the matching message; the store gains exactly `Intake` of the payload under the new id, and the store invariant holds |
| `Controller.TransactionController.Store` | backend/src/main/java/com/natwest/fraudops/controller/TransactionController.java:58 | `put` changes the store's value at the new id only, and keeps the invariant |
| `Controller.TransactionController.PerformAction` | backend/src/main/java/com/natwest/fraudops/controller/TransactionController.java:74-148 | an unknown id gives "Transaction not found" and changes nothing; a missing action fails and changes nothing; otherwise the result is ok with the transaction, and the store's value changes at that id only, by `ApplyAction` (absent details read as "") |
| `Controller.TransactionController.Act` | backend/src/main/java/com/natwest/fraudops/controller/TransactionController.java:87-147 | running the switch on a stored transaction changes the store's value at that id only, by `ApplyAction`, and keeps the store invariant |
| `Dashboard.EscrowObject.constructor` | fraudops-dashboard/src/App.jsx:18-23 | a seeded escrow holds the amount, has released 0, and has one HOLD entry "Initial fraud flag" and no disputes |
| `Dashboard.Find` | fraudops-dashboard/src/App.jsx:68 | `find` returns a transaction exactly when one has the id, and then the first such one |
| `Dashboard.InsertIfNew` | fraudops-dashboard/src/App.jsx:67-71 | a new id is put in front, a listed id leaves the list as it was; unique ids stay unique |
| `Dashboard.ReplaceById` | fraudops-dashboard/src/App.jsx:174 | the list keeps its length, every entry with the id is replaced and every other entry is kept in place |
| `Dashboard.ReplaceByIdKeepsIds` | fraudops-dashboard/src/App.jsx:174 | replacing by a transaction with the same id keeps every id, and so keeps ids unique |
| `Dashboard.LedgerAfter` | fraudops-dashboard/src/App.jsx:91-172 | every dashboard action is a ledger step: old entries kept, at most one added, held kept or zeroed, released kept or given the held amount |
| `Dashboard.DashboardReleaseMovesHeld` | fraudops-dashboard/src/App.jsx:92-152 | APPROVE and RELEASE_ESCROW set their status and move held to released with one RELEASE entry (default reason "Released by operator" for empty details) |
| `Dashboard.DashboardRejectVoidsHeld` | fraudops-dashboard/src/App.jsx:107-118 | REJECT sets REJECTED, zeroes held, keeps released, and records the amount with the details or "Rejected by operator" |
| `Dashboard.DashboardHoldRecords` | fraudops-dashboard/src/App.jsx:128-137 | HOLD_ESCROW keeps the status and appends one HOLD entry of the amount, with the details or "Additional hold" as its reason, changing nothing else |
| `Dashboard.DashboardRefundAndDispute` | fraudops-dashboard/src/App.jsx:154-171 | PARTIAL_REFUND keeps the status and appends one PARTIAL_REFUND entry of half the amount, with the details or "Partial refund issued" as its reason, changing nothing else; RAISE_DISPUTE sets DISPUTED and appends the details or "Dispute raised by operator" |
| `Dashboard.DashboardUnknownActionChangesNothing` | fraudops-dashboard/src/App.jsx:91-172 | an unknown action leaves status and ledger as they were |
| `Dashboard.VisibleLog` | fraudops-dashboard/src/App.jsx:303 | the shown log is the newest twenty entries, or all of them when there are fewer |
| `Dashboard.NewestEntryShownFirst` | fraudops-dashboard/src/App.jsx:183 | a prepended entry is shown first, and the rest shift down by one |
| `Dashboard.BadgeClass` | fraudops-dashboard/src/App.jsx:201-209 | every class starts with "badge", and it is plain "badge" exactly for the statuses without a style of their own |
| `Dashboard.StyledBadgesDistinct` | fraudops-dashboard/src/App.jsx:202-206 | the four styled statuses get four different classes |
| `Dashboard.ButtonsPassDetails` | fraudops-dashboard/src/App.jsx:270-439 | every button (the four on each card, lines 270-287, and the four in the escrow panel, lines 416-439) names a recognised action, and every button whose action reads details passes non-empty details |
| `Dashboard.ApplyToEscrow` | fraudops-dashboard/src/App.jsx:91-172 | the in-place changes to the escrow object leave it as `LedgerAfter` of its old value |
| `Dashboard.App.constructor` | fraudops-dashboard/src/App.jsx:4-55 | two seeded FLAGGED transactions, demo-001 (2500) and demo-002 (850), with distinct escrows each holding its amount; empty log; nothing selected; panel closed |
| `Dashboard.App.HandleMessage` | fraudops-dashboard/src/App.jsx:58-80 | a NEW_FLAGGED_TXN message inserts its transaction when the id is new and logs a NEW_TXN entry either way; any other message changes nothing; unique ids stay unique |
| `Dashboard.App.PerformAction` | fraudops-dashboard/src/App.jsx:86-199 | the list entry with the id is replaced by the copy with the new status; one entry is logged in front; a selected transaction with that id is refreshed; the shared escrow object becomes `LedgerAfter` of its old value; unique ids stay unique |
| `Dashboard.App.OpenEscrowActions` | fraudops-dashboard/src/App.jsx:282-285 | selects the transaction and opens the escrow panel |
| `Dashboard.App.PressEscrowButton` | fraudops-dashboard/src/App.jsx:416-439 | a panel button performs its action with its details on the selected transaction, refreshes the selection and closes the panel |
| `Dashboard.ReceiveAllKeepsIdsUnique` | fraudops-dashboard/src/App.jsx:67-71 | whatever messages arrive, in any order, no id is ever listed twice |
| `Agreement.AgreeWhenDetailsGiven` | backend/src/main/java/com/natwest/fraudops/controller/TransactionController.java:87-145 | with non-empty details and no refund amount, backend and dashboard assign the same status and leave the ledger the same, for every action |
| `Agreement.AgreeOnDetailFreeActions` | fraudops-dashboard/src/App.jsx:92-126 | APPROVE, ESCALATE, CALL_CUSTOMER and unknown actions agree in both dispatchers, whatever the details |
| `Agreement.ButtonsAgree` | fraudops-dashboard/src/App.jsx:270-439 | whatever dashboard button is pressed, on a card (lines 270-287) or in the escrow panel (lines 416-439), the backend, given the same action and details, computes the same status and ledger |
| `Agreement.RejectReasonsDifferWithoutDetails` | backend/src/main/java/com/natwest/fraudops/controller/TransactionController.java:98-104 | with empty details the REJECT entry's reason differs: "" in the backend, "Rejected by operator" in the dashboard |
| `Agreement.RefundAmountsDiffer` | backend/src/main/java/com/natwest/fraudops/controller/TransactionController.java:132-134 | an explicit refund amount other than half the amount makes the backend's PARTIAL_REFUND entry differ from the dashboard's |

## Left out

- Java's `toLowerCase` lower-cases all of Unicode under the default locale. `Text.Lower` lower-cases ASCII letters only, so a non-ASCII upper-case letter is kept as is.
- Payload keys mapped to JSON `null` and absent keys are both `None`. For `customer`, `phone` and `amount`, Java's `getOrDefault` keeps an explicit null (and `amount: null` would throw); here the default is taken instead. A non-string or non-number value (a `ClassCastException`) is not modelled.
- `Controller.TransactionController.PerformAction` reads absent `details` as "". An explicit `"details": null` in Java passes null on as the reason; that case is not distinguished.
- `Controller.TransactionController.PerformAction`: a payload without `action` makes Java's `switch` throw a `NullPointerException`. This is modelled as the `NullActionException` response with the store unchanged; the HTTP error mapping is not modelled.
- EscrowEvent's no-argument constructor (it only reads the clock) is not modelled; the backend always uses the three-argument one.
- The setters that no core operation calls are not modelled: `setId`, `setCurrency`, `setMethod`, `setCreatedAt` in Transaction.java, and `setHolds`, `setDisputes` in Escrow.java. The getters are plain field reads.
- Clock readings and the random UUID are parameters (`now`, `newId`). Each clock reading within one handler is the same `now`.
- Floating-point arithmetic: amounts are mathematical reals, so rounding is not modelled.
- Floating-point display formatting (`toFixed`, `£${amount}`): log message texts are kept as their parameters (`LogMessage`), not as formatted strings.
- The HTTP routing, JSON (de)serialisation, CORS and the returned maps' shape are replaced by parameters and result datatypes.
- `ConcurrentHashMap` concurrency is not modelled: each request runs alone.
- `Controller.TransactionController.GetFlaggedTransactions` states the result as a collection. The order follows the map's iteration order, which neither Java nor this model fixes.
- The dashboard's `console.log` calls and `window.parent.postMessage` are output only and left out.
- Dashboard transactions carry only the fields the component's logic reads (id, customer, amount, status, escrow). Display-only fields are left out: phone, recipient, message, reason, LLM explanation and the like.
- `Dashboard.App.HandleMessage` assumes a NEW_FLAGGED_TXN message carries a transaction. In the source, one without `txn` throws on `newTxn.id`.
- `Dashboard.App.PerformAction` models the switch as its status part (`StatusAfter`) followed by its escrow part (`ApplyToEscrow`). In the source both happen in one case; the order does not matter, because they touch different objects.
- React's asynchronous state updates are modelled as immediate assignments. `selectedTxn` is read before the list update, as in the source.
- The escrow panel's close handlers and the rendering (JSX markup, styles) are not modelled beyond the panel's visibility condition.
- `fraudops-angular` and `Header.jsx` are not part of this model.
