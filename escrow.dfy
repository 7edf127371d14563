/**
 * The escrow ledger of one transaction: the amount still held, the amount
 * released, and two append-only histories (audit entries and dispute notes).
 */
module Escrows {
  import opened EscrowEvents

  /** The value of a ledger at one moment. */
  datatype EscrowView = EscrowView(held: real, released: real, holds: seq<Hold>, disputes: seq<string>)

  /** The ledger after the held amount is moved to the released amount, with a RELEASE entry for it. */
  function Released(e: EscrowView, reason: string, now: Timestamp): EscrowView {
    e.(held := 0.0, released := e.held, holds := e.holds + [Hold("RELEASE", e.held, now, reason)])
  }

  /** The ledger after a rejection: nothing is held any more and a REJECT entry records `amount`. */
  function Voided(e: EscrowView, amount: real, reason: string, now: Timestamp): EscrowView {
    e.(held := 0.0, holds := e.holds + [Hold("REJECT", amount, now, reason)])
  }

  /** The ledger with one more audit entry and nothing else changed. */
  function Recorded(e: EscrowView, entry: Hold): EscrowView {
    e.(holds := e.holds + [entry])
  }

  /** The ledger with one more dispute note and nothing else changed. */
  function Disputed(e: EscrowView, note: string): EscrowView {
    e.(disputes := e.disputes + [note])
  }

  /**
   * One step of the ledger as every operator action performs it: existing
   * entries and notes are kept in order, at most one entry or note is added,
   * and the held amount either stays or is zeroed, the released amount either
   * stays or receives the previously held amount.
   */
  ghost predicate LedgerStep(before: EscrowView, after: EscrowView) {
    && before.holds <= after.holds
    && before.disputes <= after.disputes
    && |after.holds| + |after.disputes| <= |before.holds| + |before.disputes| + 1
    && (after.held == before.held || after.held == 0.0)
    && (after.released == before.released || (after.held == 0.0 && after.released == before.held))
  }

  /** The values of a list of audit entries, in order. */
  ghost function EventViews(events: seq<EscrowEvent>): (r: seq<Hold>)
    reads set e | e in events
    ensures |r| == |events|
    ensures forall i :: 0 <= i < |events| ==> r[i] == events[i].View()
  {
    if events == [] then [] else EventViews(events[..|events| - 1]) + [events[|events| - 1].View()]
  }

  class Escrow {
    var heldAmount: real
    var releasedAmount: real
    /** The live `holds` list: callers append to it in place through `getHolds()`. */
    var holds: seq<EscrowEvent>
    /** The live `disputes` list: callers append to it in place through `getDisputes()`. */
    var disputes: seq<string>

    /** The objects this ledger's value depends on. */
    ghost function Repr(): set<object>
      reads this
    {
      {this as object} + (set e: EscrowEvent | e in holds)
    }

    ghost function View(): EscrowView
      reads Repr()
    {
      EscrowView(heldAmount, releasedAmount, EventViews(holds), disputes)
    }

    constructor ()
      ensures View() == EscrowView(0.0, 0.0, [], [])
      ensures Repr() == {this}
    {
      heldAmount := 0.0;
      releasedAmount := 0.0;
      holds := [];
      disputes := [];
    }

    method SetHeldAmount(amount: real)
      modifies this
      ensures holds == old(holds) && Repr() == old(Repr())
      ensures View() == old(View()).(held := amount)
    {
      heldAmount := amount;
    }

    method SetReleasedAmount(amount: real)
      modifies this
      ensures holds == old(holds) && Repr() == old(Repr())
      ensures View() == old(View()).(released := amount)
    {
      releasedAmount := amount;
    }

    /** The effect of `getHolds().add(event)`: the live list grows in place by one entry. */
    method AddHold(event: EscrowEvent)
      modifies this
      ensures holds == old(holds) + [event] && Repr() == old(Repr()) + {event}
      ensures View() == old(View()).(holds := old(View()).holds + [event.View()])
    {
      holds := holds + [event];
      assert holds[..|holds| - 1] == old(holds);
      assert forall o: object :: o in Repr() <==> o in old(Repr()) || o == event;
    }

    /** The effect of `getDisputes().add(note)`: the live list grows in place by one note. */
    method AddDispute(note: string)
      modifies this
      ensures holds == old(holds) && Repr() == old(Repr())
      ensures View() == old(View()).(disputes := old(View()).disputes + [note])
    {
      disputes := disputes + [note];
    }
  }
}
