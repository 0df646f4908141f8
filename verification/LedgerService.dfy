/** recordTransaction and its validator. */
module LedgerServices {
  import opened Common
  import opened Ledger
  import opened Orders
  import opened Platform
  import S = Store

  class LedgerService {
    const db: S.Store

    constructor (db: S.Store)
      ensures this.db == db
    {
      this.db := db;
    }

    /** The validator: one pass over the entries, stopping at the first fault,
        and the running sum checked at the end. */
    method Validate(txn: Txn) returns (fault: Option<LedgerError>)
      ensures fault == Refusal(txn)
      ensures fault.None? <==>
              && !txn.eventId.NoEventId? && |txn.lines| >= 2 && SumOfLines(txn.lines) == 0
              && forall i :: 0 <= i < |txn.lines| ==> LineFault(txn.eventType, txn.lines[i]).None?
    {
      AcceptedIffBalanced(txn);
      if txn.eventId.NoEventId? {
        return Some(EventIdRequired);
      }
      if |txn.lines| < 2 {
        return Some(TooFewEntries);
      }
      var sum := 0;
      for i := 0 to |txn.lines|
        invariant sum == SumOfLines(txn.lines[..i])
        invariant FirstFault(txn.eventType, txn.lines[..i]).None?
      {
        var entry := txn.lines[i];
        assert txn.lines[..i + 1][..i] == txn.lines[..i];
        ghost var upto := FirstFault(txn.eventType, txn.lines[..i + 1]);
        assert upto == LineFault(txn.eventType, entry);
        if upto.Some? {
          FirstFaultStands(txn.eventType, txn.lines, i + 1);
        }
        if entry.amountXAF == 0 {
          return Some(ZeroAmount);
        }
        if entry.orderId.None? && entry.vendorId.None? && entry.riderId.None? && entry.payoutId.None? && entry.refundId.None? {
          return Some(EntryOrphan);
        }
        if txn.eventType == Adjustment && (entry.description.None? || entry.description.value == "") {
          return Some(AdjustmentMissingDescription);
        }
        sum := sum + entry.amountXAF;
      }
      assert txn.lines[..|txn.lines|] == txn.lines;
      if sum != 0 {
        return Some(Unbalanced(sum));
      }
      return None;
    }

    /** Appends the entries of an accepted transaction, stamped together, and
        nothing of a refused one. */
    method RecordTransaction(txn: Txn, now: Time) returns (refusal: Option<LedgerError>)
      modifies db`ledger
      ensures refusal == Refusal(txn)
      ensures db.ledger == if refusal.None? then old(db.ledger) + Rows(txn, now) else old(db.ledger)
      ensures Total(db.ledger, Everything) == Total(old(db.ledger), Everything)
      ensures forall event :: Total(db.ledger, Group(event)) == Total(old(db.ledger), Group(event))
    {
      refusal := Validate(txn);
      if refusal.Some? {
        return;
      }
      ghost var before := db.ledger;
      db.ledger := db.ledger + Rows(txn, now);
      TotalOfAppend(before, Rows(txn, now), Everything);
      BookingIsBalanced(txn, now, txn.eventId);
      forall event ensures Total(db.ledger, Group(event)) == Total(before, Group(event)) {
        TotalOfAppend(before, Rows(txn, now), Group(event));
        BookingIsBalanced(txn, now, event);
      }
    }
  }

  /** A row write and its ledger trace in one transaction: both or neither. */
  method WriteAndBook(ledger: LedgerService, id: nat, row: Order, txn: Txn, now: Time) returns (refusal: Option<LedgerError>)
    requires id < |ledger.db.orders|
    modifies ledger.db`orders, ledger.db`ledger
    ensures refusal == Refusal(txn)
    ensures ledger.db.orders == if refusal.None? then old(ledger.db.orders)[id := row] else old(ledger.db.orders)
    ensures ledger.db.ledger == Post(old(ledger.db.ledger), if refusal.None? then Some(txn) else None, now)
  {
    var before := ledger.db.orders;
    ledger.db.orders := ledger.db.orders[id := row];
    refusal := ledger.RecordTransaction(txn, now);
    if refusal.Some? {
      ledger.db.orders := before;                          // rolled back
    }
  }

  lemma {:induction false} FirstFaultStands(eventType: EventType, lines: seq<Line>, n: nat)
    requires n <= |lines| && FirstFault(eventType, lines[..n]).Some?
    ensures FirstFault(eventType, lines) == FirstFault(eventType, lines[..n])
  {
    if n == |lines| {
      assert lines[..n] == lines;
    } else {
      assert lines[..|lines| - 1][..n] == lines[..n];
      FirstFaultStands(eventType, lines[..|lines| - 1], n);
    }
  }
}
