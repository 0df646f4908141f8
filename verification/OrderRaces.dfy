/** What interleaving does to one order row, and where a write is not guarded. */
module OrderRaces {
  import opened Common
  import opened Ledger
  import opened Orders
  import opened OrderInvariants

  // ── Deciding ─────────────────────────────────────────────────────────

  /** Vendor accept, vendor refuse, consumer cancel, expiry job, expiry cron. */
  predicate Decides(op: OrderOp) {
    op.OpAccept? || op.OpRefuse? || op.OpCancel? || op.OpExpireDecision?
  }

  /** A request and the instant its write runs. */
  datatype Contender = Contender(op: OrderOp, at: Time)

  predicate Wins(id: nat, row: Order, c: Contender) {
    StepOrder(id, row, c.op, false, c.at).Ok?
  }

  function Won(id: nat, row: Order, c: Contender): Order {
    if Wins(id, row, c) then StepOrder(id, row, c.op, false, c.at).value.row else row
  }

  /** How many of the writes go through, run one after the other. */
  function Winners(id: nat, row: Order, contenders: seq<Contender>): nat
    decreases |contenders|
  {
    if contenders == [] then 0
    else
      (if Wins(id, row, contenders[0]) then 1 else 0) + Winners(id, Won(id, row, contenders[0]), contenders[1..])
  }

  lemma WinnerLeavesTheGate(id: nat, row: Order, c: Contender)
    requires Decides(c.op) && Wins(id, row, c)
    ensures Decidable(row.status) && !Decidable(Won(id, row, c).status)
  {
  }

  lemma {:induction false} NobodyWinsOnceDecided(id: nat, row: Order, contenders: seq<Contender>)
    requires !Decidable(row.status) && forall i :: 0 <= i < |contenders| ==> Decides(contenders[i].op)
    ensures Winners(id, row, contenders) == 0
    decreases |contenders|
  {
    if contenders != [] {
      assert !Wins(id, row, contenders[0]);
      NobodyWinsOnceDecided(id, row, contenders[1..]);
    }
  }

  /** However stale the reads of the contenders, in whatever order they write:
      one of them wins if any could, and only one. */
  lemma {:induction false} ExactlyOneWinner(id: nat, row: Order, contenders: seq<Contender>)
    requires forall i :: 0 <= i < |contenders| ==> Decides(contenders[i].op)
    ensures Winners(id, row, contenders) == Bit(exists i :: 0 <= i < |contenders| && Wins(id, row, contenders[i]))
    decreases |contenders|
  {
    hide StepOrder;
    if contenders != [] {
      if Wins(id, row, contenders[0]) {
        WinnerLeavesTheGate(id, row, contenders[0]);
        NobodyWinsOnceDecided(id, Won(id, row, contenders[0]), contenders[1..]);
      } else {
        ExactlyOneWinner(id, row, contenders[1..]);
        if i :| 0 <= i < |contenders| && Wins(id, row, contenders[i]) {
          assert contenders[1..][i - 1] == contenders[i];
        }
      }
    }
  }

  /** The row after a list of writes, run one after the other. */
  function WroteAll(id: nat, row: Order, writes: seq<Contender>): Order {
    if writes == [] then row else Won(id, WroteAll(id, row, writes[..|writes| - 1]), writes[|writes| - 1])
  }

  ghost predicate PaidFor(row: Order) {
    row.snapshot.Some? && !row.status.Pending? && !AwaitingPayment(row.paymentStatus)
  }

  lemma DecisionDecides(id: nat, row: Order, c: Contender)
    requires PaidFor(row) && Decides(c.op) && Wins(id, row, c)
    ensures PaidFor(Won(id, row, c)) && Decidable(row.status) && !Decidable(Won(id, row, c).status)
  {
    hide Refusal;
  }

  /** Writes that book a transaction. */
  predicate Books(op: OrderOp) {
    op.OpPaymentSucceeded? || op.OpVendorCancel? || op.OpDeliver? || op.OpResolveFraud? || op.OpRefundAccepted?
    || op.OpRefundCallback?
  }

  lemma BookingDoesNotDecide(id: nat, row: Order, c: Contender)
    requires PaidFor(row) && Books(c.op) && Wins(id, row, c)
    ensures PaidFor(Won(id, row, c)) && (Decidable(Won(id, row, c).status) <==> Decidable(row.status))
  {
    hide Refusal;
    hide SnapshotOf;
    hide PaymentTxn;
    hide DeliveryTxn;
    hide PenaltyTxn;
    hide CompensationTxn;
    hide RefundInitiatedTxn;
    hide RefundSettledTxn;
  }

  lemma OthersDoNotDecide(id: nat, row: Order, c: Contender)
    requires PaidFor(row) && !Decides(c.op) && Wins(id, row, c)
    ensures PaidFor(Won(id, row, c)) && (Decidable(Won(id, row, c).status) <==> Decidable(row.status))
  {
    hide Commit;
    hide AllPrepared;
    hide AnyPrepared;
    if Books(c.op) {
      BookingDoesNotDecide(id, row, c);
    }
  }

  /** A confirmed, paid order stops awaiting its decision by a decision alone, and
      never comes back to it. */
  lemma DecidedByADecision(id: nat, row: Order, c: Contender)
    requires PaidFor(row)
    ensures PaidFor(Won(id, row, c))
    ensures Decidable(Won(id, row, c).status) <==> Decidable(row.status) && !(Wins(id, row, c) && Decides(c.op))
  {
    hide StepOrder;
    hide PaidFor;
    if Wins(id, row, c) {
      if Decides(c.op) {
        DecisionDecides(id, row, c);
      } else {
        OthersDoNotDecide(id, row, c);
      }
    }
  }

  lemma {:induction false} DecidedAmongWrites(id: nat, row: Order, writes: seq<Contender>)
    requires PaidFor(row) && Decidable(row.status)
    ensures PaidFor(WroteAll(id, row, writes))
    ensures Decidable(WroteAll(id, row, writes).status)
            <==> !exists k :: 0 <= k < |writes| && Wins(id, WroteAll(id, row, writes[..k]), writes[k]) && Decides(writes[k].op)
  {
    hide Wins;
    hide Won;
    hide PaidFor;
    if writes != [] {
      var n := |writes| - 1;
      var init := writes[..n];
      DecidedAmongWrites(id, row, init);
      DecidedByADecision(id, WroteAll(id, row, init), writes[n]);
      assert forall k :: 0 <= k < n ==> init[..k] == writes[..k] && init[k] == writes[k];
    }
  }

  /** Promotion is guarded on the deadline alone. Whatever was written between
      its read and its own write, the vendor is told of an order that no longer
      awaits a decision exactly when one of those writes was an accept, a
      refusal, a cancellation or an expiry that went through. */
  lemma LatePromotionIff(id: nat, read: Order, between: seq<Contender>, cron: bool, now: Time)
    requires Coherent(read) && PromotePreOrder(id, WroteAll(id, read, between), read, cron, now).Ok?
    ensures var p := PromotePreOrder(id, WroteAll(id, read, between), read, cron, now).value;
            && p.log == [OrderCreated(id)]
            && (!Decidable(p.row.status)
                <==> exists k :: 0 <= k < |between| && Wins(id, WroteAll(id, read, between[..k]), between[k])
                                 && Decides(between[k].op))
  {
    hide Wins;
    hide WroteAll;
    DecidedAmongWrites(id, read, between);
  }

  // ── Ready for pickup ─────────────────────────────────────────────────

  ghost predicate ReadyMeansPrepared(row: Order) {
    row.status.ReadyPickup? ==> AllPrepared(row.prepared)
  }

  /** READY_PICKUP implies a non-empty, fully prepared item list across every
      writer; markOrderReady keeps it exactly when the flags still hold at its
      guarded write, which its own earlier read of them does not ensure. */
  lemma ReadyStaysPrepared(id: nat, row: Order, op: OrderOp, taken: bool, now: Time)
    requires ReadyMeansPrepared(row) && StepOrder(id, row, op, taken, now).Ok?
    ensures ReadyMeansPrepared(StepOrder(id, row, op, taken, now).value.row)
            <==> (op.OpMarkReady? ==> AllPrepared(row.prepared))
  {
  }

  /** The vendor unticks an item between markOrderReady's read and its write. */
  lemma UntickedWhileMarkingReady(id: nat, row: Order, now: Time)
    requires row.status.InPrep? && row.prepared == [true, true]
    ensures var unticked := SetItemPrepared(row, row.vendorId, 1, false).value.row;
            var marked := MarkOrderReady(id, unticked, row, row.prepared, row.vendorId);
            marked.Ok? && marked.value.row.status.ReadyPickup? && !AllPrepared(marked.value.row.prepared)
  {
    var items := row.prepared[1 := false];
    assert items[0] && !items[1];
    assert AnyPrepared(items) && AllPrepared(row.prepared);
  }

  // ── Refunding what was not paid ──────────────────────────────────────

  /** vendorCancelPreOrder queues a refund whatever the payment status: the
      queued refund is of a paid order exactly when the row was PAID. */
  lemma QueuedRefundIsOfPaidOrderIff(id: nat, row: Order, read: Order, caller: nat)
    requires Coherent(row) && Earlier(read, row)
    requires VendorCancelPreOrder(id, row, read, caller).Ok?
    ensures var after := VendorCancelPreOrder(id, row, read, caller).value.row;
            after.paymentStatus.RefundPending? && (after.snapshot.Some? <==> row.paymentStatus.Paid?)
  {
  }

  // ── A payment write that is not guarded ──────────────────────────────

  /** initiateMomo's own update, run on a row that moved since it was read. */
  function LateMomoWrite(row: Order, reference: Ref, phone: nat): Order {
    row.(paymentReference := Some(reference), payerPhone := Some(phone), paymentStatus := Processing)
  }

  /** Run late, the write re-opens the row to payment. The payment then booked
      is the second one exactly when the row was already paid. The transition
      system takes the call and its write as one step, which excludes this. */
  lemma LateMomoWriteReopensPaidRow(id: nat, row: Order, reference: Ref, phone: nat, now: Time, book: BookTally, log: LogTally)
    requires Coherent(row) && row.totalXAF > 0 && Accounted(row, book, log)
    ensures var late := LateMomoWrite(row, reference, phone);
            var again := PaymentSucceeded(id, late, late, reference, None, now, false);
            again.Ok? && (Booked(book, again.value.posting).payments == 2 <==> row.snapshot.Some?)
  {
    var txn := PaymentTxn(id, row.totalXAF);
    assert txn.lines[..1][..0] == [];
    assert FirstFault(txn.eventType, txn.lines[..1]).None?;
    assert SumOfLines(txn.lines[..1]) == row.totalXAF;
  }
}
