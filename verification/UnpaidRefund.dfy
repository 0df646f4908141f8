/** A refund of money never received: an unpaid pre-order, accepted and cancelled
    by its vendor, goes through the whole refund pipeline. */
module UnpaidRefund {
  import opened Common
  import opened Ledger
  import opened Pricing
  import opened Orders
  import opened OrderInvariants
  import opened OrderBooks
  import opened DeliverySplit
  import opened Payouts
  import opened Platform
  import opened PlatformInvariant
  import opened PlatformRuns
  import opened StrandedEscrow

  /** One order write, appended to a run. */
  lemma WriteExtends(states: seq<Db>, moments: seq<Moment>, id: nat, op: OrderOp) returns (ext: seq<Db>, more: seq<Moment>)
    requires Run(states, moments) && id < |states[|moments|].orders| && Legal(states[|moments|], Write(id, op))
    requires OrderOutcome(states[|moments|], id, op, states[|moments|].clock).Ok?
    ensures Run(ext, more) && states <= ext && moments <= more
    ensures more == moments + [Moment(Write(id, op), states[|moments|].clock)]
    ensures var s, t := states[|moments|], ext[|more|];
            && |t.orders| == |s.orders| && t.webhooks == s.webhooks && t.clock == s.clock
            && t.orders == s.orders[id := OrderOutcome(s, id, op, s.clock).value.row]
  {
    hide Legal;
    hide StepOrder;
    var s := states[|moments|];
    RunExtends(states, moments, Moment(Write(id, op), s.clock));
    ext, more := states + [Next(s, Write(id, op), s.clock)], moments + [Moment(Write(id, op), s.clock)];
  }

  /** An unpaid pre-order whose collect was started and is still open. */
  predicate OpenPreOrder(row: Order) {
    row.status.Pending? && row.paymentStatus.Processing? && row.payerPhone.Some? && row.scheduledFor.Some? && row.totalXAF >= 500
  }

  predicate Cancelled(row: Order, before: Order) {
    && row.status.Cancelled? && row.paymentStatus.RefundPending? && row.snapshot.None? && row.payerPhone.Some?
    && row.refundInitiatedAt.None? && !row.refundCallOpen && row.totalXAF == before.totalXAF
  }

  /** The vendor accepts, and cancels. */
  lemma AcceptedAndCancelled(states: seq<Db>, moments: seq<Moment>, id: nat) returns (ext: seq<Db>, more: seq<Moment>)
    requires Run(states, moments) && id < |states[|moments|].orders| && OpenPreOrder(states[|moments|].orders[id])
    ensures Run(ext, more) && states <= ext && moments <= more
    ensures id < |ext[|more|].orders| && Cancelled(ext[|more|].orders[id], states[|moments|].orders[id])
  {
    hide Legal;
    hide Coherent;
    hide Accounted;
    hide StepOrder;
    var s := states[|moments|];
    var row := s.orders[id];
    OrderIsOk(states, moments, |moments|, id);
    Accepts(s, id);
    ext, more := WriteExtends(states, moments, id, OpAccept(row, row.vendorId));
    var t := ext[|more|];
    OrderIsOk(ext, more, |more|, id);
    Cancels(t, id, row);
    ext, more := WriteExtends(ext, more, id, OpVendorCancel(t.orders[id], row.vendorId));
  }

  lemma Accepts(s: Db, id: nat)
    requires id < |s.orders| && Coherent(s.orders[id]) && OpenPreOrder(s.orders[id])
    ensures var row := s.orders[id]; var op := OpAccept(row, row.vendorId);
            && Legal(s, Write(id, op)) && OrderOutcome(s, id, op, s.clock).Ok?
            && OrderOutcome(s, id, op, s.clock).value.row == row.(status := Accepted)
  {
    EarlierIsReflexive(s.orders[id]);
  }

  lemma Cancels(s: Db, id: nat, before: Order)
    requires id < |s.orders| && Coherent(before) && OpenPreOrder(before)
    requires Coherent(s.orders[id]) && s.orders[id] == before.(status := Accepted)
    ensures var op := OpVendorCancel(s.orders[id], before.vendorId);
            && Legal(s, Write(id, op)) && OrderOutcome(s, id, op, s.clock).Ok?
            && Cancelled(OrderOutcome(s, id, op, s.clock).value.row, before)
  {
    hide Refusal;
    EarlierIsReflexive(s.orders[id]);
    PenaltyAcceptedIff(id, before.vendorId, before.totalXAF);
  }

  /** A reference no order holds and no callback used. */
  lemma {:induction false} FreshReference(orders: seq<Order>, keys: set<WebhookKey>) returns (reference: Ref)
    ensures forall i :: 0 <= i < |orders| && orders[i].refundCampayRef.Some? ==> orders[i].refundCampayRef.value < reference
    ensures forall k :: k in keys ==> k.reference < reference
    decreases |keys|
  {
    if keys == {} {
      reference := UnusedReference(orders);
    } else {
      var k :| k in keys;
      reference := FreshReference(orders, keys - {k});
      if k.reference >= reference {
        reference := k.reference + 1;
      }
    }
  }

  predicate Sent(row: Order, before: Order, reference: Ref) {
    && row.paymentStatus.RefundPending? && row.refundCampayRef == Some(reference) && row.snapshot.None?
    && row.totalXAF == before.totalXAF
  }

  /** The sweep locks the row and Campay takes the call. */
  lemma RefundSent(states: seq<Db>, moments: seq<Moment>, id: nat) returns (ext: seq<Db>, more: seq<Moment>, reference: Ref)
    requires Run(states, moments) && id < |states[|moments|].orders|
    requires Cancelled(states[|moments|].orders[id], states[|moments|].orders[id]) && states[|moments|].orders[id].totalXAF > 0
    ensures Run(ext, more) && states <= ext && moments <= more
    ensures var t := ext[|more|];
            && id < |t.orders| && Sent(t.orders[id], states[|moments|].orders[id], reference)
            && WebhookKey(Refund, reference) !in t.webhooks
            && forall i :: 0 <= i < |t.orders| && i != id ==> t.orders[i].refundCampayRef != Some(reference)
  {
    hide Legal;
    hide Coherent;
    hide Accounted;
    hide StepOrder;
    var s := states[|moments|];
    var row := s.orders[id];
    OrderIsOk(states, moments, |moments|, id);
    OwnReadIsLegal(s, id, OpRefundLock(row));
    Locks(s, id);
    ext, more := WriteExtends(states, moments, id, OpRefundLock(row));
    var t := ext[|more|];
    reference := FreshReference(t.orders, t.webhooks.Keys);
    OrderIsOk(ext, more, |more|, id);
    OwnReadIsLegal(t, id, OpRefundAccepted(t.orders[id], reference));
    Sends(t, id, reference);
    ext, more := WriteExtends(ext, more, id, OpRefundAccepted(t.orders[id], reference));
  }

  lemma Locks(s: Db, id: nat)
    requires id < |s.orders| && Cancelled(s.orders[id], s.orders[id])
    ensures var row := s.orders[id]; var outcome := OrderOutcome(s, id, OpRefundLock(row), s.clock);
            && outcome.Ok? && outcome.value.row == row.(refundInitiatedAt := Some(s.clock), refundCallOpen := true)
  {
  }

  lemma Sends(s: Db, id: nat, reference: Ref)
    requires id < |s.orders| && s.orders[id].refundCallOpen && s.orders[id].totalXAF > 0
    requires forall i :: 0 <= i < |s.orders| && s.orders[i].refundCampayRef.Some? ==> s.orders[i].refundCampayRef.value < reference
    ensures var row := s.orders[id]; var outcome := OrderOutcome(s, id, OpRefundAccepted(row, reference), s.clock);
            && outcome.Ok? && outcome.value.row == row.(refundCampayRef := Some(reference), refundCallOpen := false)
  {
    var txn := RefundInitiatedTxn(id, s.orders[id].totalXAF);
    AcceptedIffBalanced(txn);
    assert txn.lines[..1][..0] == [];
    assert SumOfLines(txn.lines[..1]) == s.orders[id].totalXAF;
    assert !ReferenceClash(s, id, OpRefundAccepted(s.orders[id], reference));
  }

  lemma {:induction false} OnlyHolder(orders: seq<Order>, id: nat, reference: Ref)
    requires id < |orders| && orders[id].refundCampayRef == Some(reference)
    requires forall i :: 0 <= i < |orders| && i != id ==> orders[i].refundCampayRef != Some(reference)
    ensures FindRefund(orders, reference) == Some(id)
  {
    FoundRefund(orders, reference);
  }

  lemma SettlementIsBooked(id: nat, totalXAF: int)
    requires totalXAF != 0
    ensures Refusal(RefundSettledTxn(id, totalXAF)).None?
  {
    var txn := RefundSettledTxn(id, totalXAF);
    AcceptedIffBalanced(txn);
    assert txn.lines[..1][..0] == [];
    assert SumOfLines(txn.lines[..1]) == totalXAF;
  }

  lemma SettlementGoesIn(s: Db, id: nat, now: Time)
    requires id < |s.orders| && s.orders[id].paymentStatus.RefundPending? && s.orders[id].totalXAF > 0
    ensures OrderOutcome(s, id, OpRefundCallback(true), now).Ok?
    ensures OnOrder(s, id, OpRefundCallback(true), now).orders
         == s.orders[id := s.orders[id].(paymentStatus := Refunded, refundedAt := Some(now))]
  {
    hide Refusal;
    hide RefundSettledTxn;
    SettlementIsBooked(id, s.orders[id].totalXAF);
  }

  lemma CallbackLands(s: Db, id: nat, reference: Ref, now: Time)
    requires OrderOutcome(s, id, OpRefundCallback(true), now).Ok?
    requires WebhookKey(Refund, reference) !in s.webhooks && FindRefund(s.orders, reference) == Some(id)
    ensures RefundWebhook(s, Callback(Some(reference), None, Successful), now).orders
         == OnOrder(s, id, OpRefundCallback(true), now).orders
  {
    hide FindRefund;
    hide OnOrder;
    hide OrderOutcome;
  }

  /** Campay confirms. */
  lemma Settles(s: Db, id: nat, reference: Ref, now: Time)
    requires id < |s.orders| && s.orders[id].paymentStatus.RefundPending? && s.orders[id].totalXAF > 0
    requires WebhookKey(Refund, reference) !in s.webhooks
    requires FindRefund(s.orders, reference) == Some(id)
    ensures var t := Next(s, RefundCallbackOp(Callback(Some(reference), None, Successful)), now);
            && |t.orders| == |s.orders| && t.orders[id].paymentStatus.Refunded? && t.orders[id].refundedAt.Some?
            && t.orders[id].snapshot == s.orders[id].snapshot && t.orders[id].totalXAF == s.orders[id].totalXAF
  {
    hide FindRefund;
    hide OnOrder;
    hide OrderOutcome;
    hide RefundWebhook;
    SettlementGoesIn(s, id, now);
    CallbackLands(s, id, reference, now);
  }

  /** From any state of any run with an open, unpaid pre-order of 500 FCFA or
      more, five transitions refund it in full: the order was never paid, and its
      escrow ends overdrawn by at least its total. */
  lemma UnpaidPreOrderIsRefunded(states: seq<Db>, moments: seq<Moment>, id: nat) returns (ext: seq<Db>, more: seq<Moment>)
    requires Run(states, moments) && id < |states[|moments|].orders| && OpenPreOrder(states[|moments|].orders[id])
    ensures Run(ext, more) && states <= ext && moments <= more
    ensures var t := ext[|more|]; var row := states[|moments|].orders[id];
            && id < |t.orders| && t.orders[id].paymentStatus.Refunded? && t.orders[id].snapshot.None?
            && Total(t.ledger, Posted(PaymentOf(id))) == 0 && Total(t.ledger, Posted(RefundSettledFor(id))) == 1
            && Total(t.ledger, Escrow(id)) >= row.totalXAF > 0
  {
    hide Legal;
    hide Next;
    hide Coherent;
    hide Accounted;
    ext, more := AcceptedAndCancelled(states, moments, id);
    var reference;
    ext, more, reference := RefundSent(ext, more, id);
    var s := ext[|more|];
    OnlyHolder(s.orders, id, reference);
    var m := Moment(RefundCallbackOp(Callback(Some(reference), None, Successful)), s.clock);
    CallbacksAreLegal(s, m.op);
    Settles(s, id, reference, s.clock);
    RunExtends(ext, more, m);
    ext, more := ext + [Next(s, m.op, s.clock)], more + [m];
    OnePaymentOneDelivery(ext, more, |more|, id);
    OrderIsOk(ext, more, |more|, id);
    BooksOfClosedRow(ext[|more|].orders[id], TallyOf(ext[|more|].ledger, id), HearAll(Silence, id, ext[|more|].log));
    RefundedEscrowIsClearedIff(ext, more, |more|, id);
    Overdrawn(ext[|more|].orders[id].totalXAF, HearAll(Silence, id, ext[|more|].log).failedSettlements);
  }

  lemma CallbacksAreLegal(s: Db, op: Op)
    requires op.RefundCallbackOp?
    ensures Legal(s, op)
  {
  }

  lemma Overdrawn(total: nat, failures: nat)
    ensures total * (failures + 1) >= total
  {
  }
}
