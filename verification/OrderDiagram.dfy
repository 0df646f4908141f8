/** The order's state diagram, read off the documentation rather than the code,
    and every write path checked against it. */
module OrderDiagram {
  import opened Common
  import opened Ledger
  import opened Orders
  import opened OrderInvariants

  /** Arrows between statuses. Payment is the one that may lead back. */
  predicate Arrow(a: OrderStatus, b: OrderStatus) {
    || (Decidable(a) && (b.Accepted? || b.Refused? || b.Cancelled?))
    || (a.Accepted? && b.InPrep?) || (a.InPrep? && b.Accepted?)
    || (InKitchen(a) && (b.ReadyPickup? || b.Cancelled?))
    || ((InKitchen(a) || a.ReadyPickup?) && (b.PickedUp? || b.Expired?))
    || (a.PickedUp? && (b.Delivered? || b.Cancelled?))
  }

  predicate PaymentArrow(a: PaymentStatus, b: PaymentStatus) {
    || (!a.Paid? && (b.Processing? || b.Failed?))
    || (AwaitingPayment(a) && b.Paid?)
    || b.RefundPending?
    || ((a.Paid? || a.RefundPending?) && b.Refunded?)
  }

  /** A write follows an arrow or stays; it leads back to CONFIRMED exactly with
      the payment that records the snapshots. */
  ghost predicate Follows(row: Order, after: Order) {
    && (after.status == row.status || Arrow(row.status, after.status) || after.status.Confirmed?)
    && (after.paymentStatus == row.paymentStatus || PaymentArrow(row.paymentStatus, after.paymentStatus))
    && (!row.status.Confirmed? && after.status.Confirmed? ==> row.snapshot.None? && after.snapshot.Some?)
    && (row.snapshot.None? && after.snapshot.Some? <==> !row.paymentStatus.Paid? && after.paymentStatus.Paid?)
    && (!row.paymentStatus.RefundPending? && after.paymentStatus.RefundPending? ==> after.status.Cancelled?)
  }

  /** What is announced is what happened. */
  predicate Truthful(id: nat, event: LogEvent, row: Order, after: Order) {
    match event
    case OrderPaid(o) => o == id && after.paymentStatus.Paid? && after.status.Confirmed? && !row.paymentStatus.Paid?
    case OrderCreated(o) =>
      o == id && row.acceptanceDeadlineAt.None? && after.acceptanceDeadlineAt.Some? && after.snapshot.Some?
    case OrderAccepted(o) => o == id && Decidable(row.status) && after.status.Accepted?
    case OrderRefused(o) => o == id && Decidable(row.status) && after.status.Refused?
    case OrderCancelled(o, who) =>
      && o == id && !after.status.Delivered?
      && (match who
          case ByConsumer => Decidable(row.status) && after.status.Cancelled? && after.scheduledFor.None?
          case ByVendorPreOrder => InKitchen(row.status) && after.status.Cancelled? && after.scheduledFor.Some?
                                   && after.penaltyXAF.Some? && after.paymentStatus.RefundPending?
          case ForNoRider => after.status.Expired?)
    case OrderReady(o) => o == id && InKitchen(row.status) && after.status.ReadyPickup?
    case PaymentFailed(o) => o == id && after.paymentStatus.Failed?
    case RefundFailedAtSettlement(o) =>
      o == id && after.paymentStatus.RefundPending? && after.refundCampayRef.None? && after.refundInitiatedAt.None?
    case _ => false
  }

  /** Money moves with the change it stands for: each event is booked exactly by
      the write that makes that change. */
  ghost predicate BookedFor(id: nat, posting: Option<Txn>, row: Order, after: Order) {
    && (posting.Some? && posting.value.eventId == PaymentOf(id) <==> row.snapshot.None? && after.snapshot.Some?)
    && (posting.Some? && posting.value.eventId == DeliveryOf(id) <==> !row.status.Delivered? && after.status.Delivered?)
    && (posting.Some? && posting.value.eventId == PenaltyOn(id) <==> row.penaltyXAF.None? && after.penaltyXAF.Some?)
    && (posting.Some? && posting.value.eventId == RefundInitiatedFor(id)
        <==> row.refundCampayRef.None? && after.refundCampayRef.Some?)
    && (posting.Some? && posting.value.eventId == RefundSettledFor(id) <==> row.refundedAt.None? && after.refundedAt.Some?)
    && (posting.Some? && posting.value.eventId == CompensationFor(id) ==>
          row.status.PickedUp? && after.status.Cancelled? && row.riderId.Some?)
  }

  /** The vendor is told, and gets sixty seconds, with the payment of an immediate
      order; of a pre-order with its promotion, not with its payment. */
  predicate Told(id: nat, log: seq<LogEvent>, op: OrderOp, row: Order, after: Order, now: Time) {
    var due := op.OpPromote? || (row.snapshot.None? && after.snapshot.Some? && row.scheduledFor.None?);
    && (OrderCreated(id) in log <==> due)
    && after.acceptanceDeadlineAt == (if due then Some(now + 60_000) else row.acceptanceDeadlineAt)
  }

  /** Every write path, on every coherent row and every possible stale read,
      follows the diagram, says what it did, and books what it did. */
  lemma EveryWriteFollowsTheDiagram(id: nat, row: Order, op: OrderOp, taken: bool, now: Time)
    requires Coherent(row) && Possible(row, op) && StepOrder(id, row, op, taken, now).Ok?
    ensures var p := StepOrder(id, row, op, taken, now).value;
            && Follows(row, p.row)
            && BookedFor(id, p.posting, row, p.row)
            && Told(id, p.log, op, row, p.row, now)
            && forall k :: 0 <= k < |p.log| ==> Truthful(id, p.log[k], row, p.row)
  {
    hide Refusal;
    hide StepOrder;
    hide Follows;
    hide BookedFor;
    WriteTells(id, row, op, taken, now);
    if op.OpInitiateMomo? || op.OpCollectFailed? || op.OpPaymentSucceeded? || op.OpPromote? {
      PaymentFollows(id, row, op, taken, now);
    } else if op.OpAccept? || op.OpRefuse? || op.OpCancel? || op.OpExpireDecision? {
      DecisionFollows(id, row, op, taken, now);
    } else if op.OpSetItemPrepared? || op.OpMarkReady? || op.OpVendorCancel? {
      KitchenFollows(id, row, op, taken, now);
    } else if op.OpAssignRider? || op.OpExpireForNoRider? || op.OpPickUp? || op.OpDeliver? || op.OpResolveFraud? {
      DeliveryFollows(id, row, op, taken, now);
    } else {
      RefundFollows(id, row, op, taken, now);
    }
  }

  lemma WriteTells(id: nat, row: Order, op: OrderOp, taken: bool, now: Time)
    requires Coherent(row) && Possible(row, op) && StepOrder(id, row, op, taken, now).Ok?
    ensures var p := StepOrder(id, row, op, taken, now).value; Told(id, p.log, op, row, p.row, now)
  {
    hide Refusal;
    hide SnapshotOf;
    hide AnyPrepared;
    hide AllPrepared;
  }

  ghost predicate Fits(id: nat, row: Order, p: Patch) {
    Follows(row, p.row) && BookedFor(id, p.posting, row, p.row)
    && forall k :: 0 <= k < |p.log| ==> Truthful(id, p.log[k], row, p.row)
  }

  lemma PaymentFollows(id: nat, row: Order, op: OrderOp, taken: bool, now: Time)
    requires Coherent(row) && Possible(row, op) && StepOrder(id, row, op, taken, now).Ok?
    requires op.OpInitiateMomo? || op.OpCollectFailed? || op.OpPaymentSucceeded? || op.OpPromote?
    ensures Fits(id, row, StepOrder(id, row, op, taken, now).value)
  {
    hide Refusal;
  }

  lemma DecisionFollows(id: nat, row: Order, op: OrderOp, taken: bool, now: Time)
    requires Coherent(row) && Possible(row, op) && StepOrder(id, row, op, taken, now).Ok?
    requires op.OpAccept? || op.OpRefuse? || op.OpCancel? || op.OpExpireDecision?
    ensures Fits(id, row, StepOrder(id, row, op, taken, now).value)
  {
    hide Refusal;
  }

  lemma KitchenFollows(id: nat, row: Order, op: OrderOp, taken: bool, now: Time)
    requires Coherent(row) && Possible(row, op) && StepOrder(id, row, op, taken, now).Ok?
    requires op.OpSetItemPrepared? || op.OpMarkReady? || op.OpVendorCancel?
    ensures Fits(id, row, StepOrder(id, row, op, taken, now).value)
  {
    hide Refusal;
  }

  lemma DeliveryFollows(id: nat, row: Order, op: OrderOp, taken: bool, now: Time)
    requires Coherent(row) && Possible(row, op) && StepOrder(id, row, op, taken, now).Ok?
    requires op.OpAssignRider? || op.OpExpireForNoRider? || op.OpPickUp? || op.OpDeliver? || op.OpResolveFraud?
    ensures Fits(id, row, StepOrder(id, row, op, taken, now).value)
  {
    hide Refusal;
  }

  lemma RefundFollows(id: nat, row: Order, op: OrderOp, taken: bool, now: Time)
    requires Coherent(row) && Possible(row, op) && StepOrder(id, row, op, taken, now).Ok?
    requires op.OpRefundLock? || op.OpRefundAccepted? || op.OpRefundRejected? || op.OpRefundCallback?
    ensures Fits(id, row, StepOrder(id, row, op, taken, now).value)
  {
    hide Refusal;
  }
}
