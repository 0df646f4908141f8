/** When the ledger takes a delivery, and what the order flow promises it. */
module DeliverySplit {
  import opened Common
  import opened Ledger
  import opened Pricing
  import opened Orders
  import opened OrderInvariants

  /** A paid order with a rider, as it stands before delivery. */
  ghost predicate Deliverable(order: Order) {
    Coherent(order) && order.snapshot.Some? && order.riderId.Some? && order.commissionRate <= RATE_SCALE
  }

  /** The validator books a delivery exactly when the order carries no discount
      and the vendor's share does not round away. */
  lemma DeliveryAcceptedIff(id: nat, order: Order)
    requires Deliverable(order)
    ensures Refusal(DeliveryTxn(id, order, order.snapshot.value)).None?
            <==> order.discountXAF == 0 && 2 * order.subtotalXAF * (RATE_SCALE - order.commissionRate) > RATE_SCALE
  {
    var snapshot := order.snapshot.value;
    var txn := DeliveryTxn(id, order, snapshot);
    BalancedOnlyIfUndiscounted(id, order, snapshot);
    AcceptedIffBalanced(txn);
    VendorShareVanishes(order.subtotalXAF, order.commissionRate);
    FeeSplitIsPositive(order.deliveryFeeXAF);
    assert order.totalXAF == 0 ==> order.discountXAF > 0;
    assert forall i :: 0 <= i < 4 ==> Attached(txn.lines[i]);
    assert LineFault(txn.eventType, txn.lines[1]).None? <==> snapshot.commissionXAF != order.subtotalXAF;
    assert LineFault(txn.eventType, txn.lines[2]).None?;
    assert LineFault(txn.eventType, txn.lines[3]).None?;
  }

  /** At any rate the platform charges (6%, 10%, 17%), and up to 99%, every
      undiscounted order createOrder lets through is delivered. */
  lemma UndiscountedOrdersAreDelivered(id: nat, order: Order)
    requires Deliverable(order) && order.commissionRate <= 9900 && order.discountXAF == 0
    ensures Refusal(DeliveryTxn(id, order, order.snapshot.value)).None?
  {
    assert order.subtotalXAF * (RATE_SCALE - order.commissionRate) >= 100 * 100 by {
      Product(order.subtotalXAF, RATE_SCALE - order.commissionRate, 100, 100);
    }
    DeliveryAcceptedIff(id, order);
  }

  lemma Product(a: nat, b: nat, c: nat, d: nat)
    requires c <= a && d <= b
    ensures c * d <= a * b
  {
  }

  /** A rate below 1 is not enough: at 99.5% a 100 FCFA basket leaves the vendor
      nothing, and the delivery is refused for good. */
  lemma RateBelowOneIsNotEnough(id: nat, order: Order)
    requires Deliverable(order) && order.subtotalXAF == 100 && order.commissionRate == 9950
    ensures Refusal(DeliveryTxn(id, order, order.snapshot.value)).Some?
  {
    DeliveryAcceptedIff(id, order);
  }

  /** markDelivered goes through exactly for the order's rider, with the right
      code, on a PICKED_UP, paid, undiscounted order with a vendor share. */
  lemma MarkDeliveredGoesThroughIff(id: nat, row: Order, rider: nat, pin: nat, now: Time)
    requires Coherent(row) && row.commissionRate <= RATE_SCALE
    ensures MarkDelivered(id, row, row, rider, pin, now).Ok?
            <==> && row.riderId == Some(rider) && row.status.PickedUp? && pin == row.deliveryCode && row.snapshot.Some?
                 && row.discountXAF == 0
                 && 2 * row.subtotalXAF * (RATE_SCALE - row.commissionRate) > RATE_SCALE
  {
    hide Refusal;
    if row.snapshot.Some? && row.riderId.Some? {
      DeliveryAcceptedIff(id, row);
    }
  }

  /** A pre-order penalty is booked exactly on a total of 500 FCFA or more; a
      smaller, discounted one makes the whole cancellation roll back. */
  lemma PenaltyAcceptedIff(id: nat, vendor: nat, totalXAF: nat)
    ensures Refusal(PenaltyTxn(id, vendor, Penalty(totalXAF))).None? <==> totalXAF >= 500
  {
    var txn := PenaltyTxn(id, vendor, Penalty(totalXAF));
    AcceptedIffBalanced(txn);
    assert txn.lines[..1][..0] == [];
    assert SumOfLines(txn.lines[..1]) == Penalty(totalXAF);
    PenaltyIsZeroBelow500(totalXAF);
    assert LineFault(txn.eventType, txn.lines[0]).None? <==> Penalty(totalXAF) != 0;
  }

  /** Every undiscounted pre-order can be penalised, by a positive multiple of
      50 within a tenth of its total. */
  lemma UndiscountedPenaltyIsBooked(id: nat, row: Order)
    requires Coherent(row) && row.discountXAF == 0
    ensures Refusal(PenaltyTxn(id, row.vendorId, Penalty(row.totalXAF))).None?
    ensures 0 < Penalty(row.totalXAF) && Penalty(row.totalXAF) % 50 == 0 && 10 * Penalty(row.totalXAF) <= row.totalXAF
  {
    PenaltyOfUndiscountedOrder(row.totalXAF);
    PenaltyAcceptedIff(id, row.vendorId, row.totalXAF);
  }
}
