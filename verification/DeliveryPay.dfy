/** What a delivery pays, franc by franc, over runs. */
module DeliveryPay {
  import opened Common
  import opened Ledger
  import opened Pricing
  import opened Orders
  import opened OrderInvariants
  import opened OrderBooks
  import opened OrderRules
  import opened Platform
  import opened PlatformInvariant
  import opened PlatformRuns
  import opened RowRuns

  /** What an account is credited between two ledgers. */
  function Credited(before: seq<Row>, after: seq<Row>, key: Key): int {
    Total(before, key) - Total(after, key)
  }

  /** The snapshots a payment records: the commission on the subtotal and the
      rider's 65% of the fee, each to the nearest franc, the platform the rest. */
  lemma SnapshotsAreNearest(order: Order)
    ensures var s := SnapshotOf(order);
            && 2 * (order.subtotalXAF * order.commissionRate) - 10000 < 20000 * s.commissionXAF
               <= 2 * (order.subtotalXAF * order.commissionRate) + 10000
            && 130 * order.deliveryFeeXAF - 100 < 200 * s.riderShareXAF <= 130 * order.deliveryFeeXAF + 100
            && s.platformFeeXAF == s.commissionXAF + order.deliveryFeeXAF - s.riderShareXAF
  {
    CommissionIsNearest(order.subtotalXAF, order.commissionRate);
    RiderShareIsNearest(order.deliveryFeeXAF);
  }

  lemma DeliveryIsBooked(s: Db, op: Op, now: Time, id: nat)
    requires Inv(s) && Legal(s, op) && id < |s.orders| && !s.orders[id].status.Delivered?
    requires id < |Next(s, op, now).orders| && Next(s, op, now).orders[id].status.Delivered?
    ensures s.orders[id].snapshot.Some? && Coherent(s.orders[id]) && s.orders[id].riderId.Some? && s.orders[id].discountXAF == 0
    ensures Next(s, op, now).ledger == s.ledger + Rows(DeliveryTxn(id, s.orders[id], s.orders[id].snapshot.value), now)
  {
    hide Next;
    hide StepOrder;
    hide RowOp;
    hide Legal;
    hide Accounted;
    NextIsOneWrite(s, op, now, id);
    assert OrderOk(s, id);
    var write := RowOp(s, op, now, id).value;
    var taken := ReferenceClash(s, id, write);
    RowOpIsPossible(s, op, now, id);
    StatusAfterWrite(id, s.orders[id], write, taken, now);
    DeliveryShape(id, s.orders[id], write, taken, now);
    WrittenLedger(s, op, now, id);
    BalancedOnlyIfUndiscounted(id, s.orders[id], s.orders[id].snapshot.value);
    AcceptedIffBalanced(DeliveryTxn(id, s.orders[id], s.orders[id].snapshot.value));
  }

  /** Only the order's own write delivers it. */
  lemma WrittenLedger(s: Db, op: Op, now: Time, id: nat)
    requires id < |s.orders| && RowOp(s, op, now, id).Some? && RowOp(s, op, now, id).value.OpDeliver?
    ensures Next(s, op, now).ledger == Post(s.ledger, OrderOutcome(s, id, RowOp(s, op, now, id).value, now).value.posting, now)
  {
    hide StepOrder;
  }

  /** When an order becomes DELIVERED, its rider is credited the nearest franc to
      65% of the fee, its vendor the subtotal less the nearest franc to the
      commission, the platform the rest of fee and subtotal; and the escrow gives
      exactly that. */
  lemma DeliveryPaysItsShares(states: seq<Db>, moments: seq<Moment>, k: nat, id: nat)
    requires Run(states, moments) && k < |moments| && id < |states[k].orders| && id < |states[k + 1].orders|
    requires !states[k].orders[id].status.Delivered? && states[k + 1].orders[id].status.Delivered?
    ensures var row := states[k].orders[id]; var before, after := states[k].ledger, states[k + 1].ledger;
            && row.riderId.Some?
            && var rider := Credited(before, after, Payable(Rider(row.riderId.value)));
               var vendor := Credited(before, after, Payable(Vendor(row.vendorId)));
               && 130 * row.deliveryFeeXAF - 100 < 200 * rider <= 130 * row.deliveryFeeXAF + 100
               && 2 * (row.subtotalXAF * row.commissionRate) - 10000 < 20000 * (row.subtotalXAF - vendor)
                  <= 2 * (row.subtotalXAF * row.commissionRate) + 10000
               && Credited(before, after, Revenue) == row.subtotalXAF + row.deliveryFeeXAF - rider - vendor
               && 0 - Credited(before, after, Escrow(id)) == row.subtotalXAF + row.deliveryFeeXAF
  {
    hide Next;
    hide Legal;
    hide SnapshotOf;
    var s, m := states[k], moments[k];
    var row := s.orders[id];
    RunKeepsInv(states, moments, k);
    DeliveryIsBooked(s, m.op, m.now, id);
    SnapshotsAreNearest(row);
    var rows := Rows(DeliveryTxn(id, row, row.snapshot.value), m.now);
    forall key: Key ensures Credited(s.ledger, s.ledger + rows, key) == 0 - Total(rows, key) {
      TotalOfAppend(s.ledger, rows, key);
    }
    TotalOfFour(rows, Payable(Rider(row.riderId.value)));
    TotalOfFour(rows, Payable(Vendor(row.vendorId)));
    TotalOfFour(rows, Revenue);
    TotalOfFour(rows, Escrow(id));
  }
}
