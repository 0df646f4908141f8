/** The rules of one order, spelled out on its columns: who may write it, when a
    write goes through, and what it leaves in which column. */
module OrderRules {
  import opened Common
  import opened Ledger
  import opened Pricing
  import opened Orders
  import opened OrderInvariants
  import opened OrderBooks
  import opened DeliverySplit

  /** Consumers write their own orders, vendors their own, riders the ones they
      ride, with the code of the hand-over; stale reads change nothing of it. */
  lemma WritersAreEntitled(id: nat, row: Order, op: OrderOp, taken: bool, now: Time)
    requires Possible(row, op) && StepOrder(id, row, op, taken, now).Ok?
    ensures match op
            case OpInitiateMomo(caller, _, _) => caller == row.userId
            case OpCancel(_, caller) => caller == row.userId
            case OpAccept(_, caller) => caller == row.vendorId
            case OpRefuse(_, caller) => caller == row.vendorId
            case OpSetItemPrepared(caller, _, _) => caller == row.vendorId
            case OpMarkReady(_, _, caller) => caller == row.vendorId
            case OpVendorCancel(_, caller) => caller == row.vendorId
            case OpPickUp(rider, pin) => row.riderId == Some(rider) && pin == row.pickupCode
            case OpDeliver(_, rider, pin) => row.riderId == Some(rider) && pin == row.deliveryCode
            case _ => true
  {
    hide Refusal;
    hide SnapshotOf;
  }

  // ── When a write goes through ────────────────────────────────────────

  /** A payment is initiated, or taken, once: exactly from these columns. */
  lemma PaymentsGoThroughIff(id: nat, row: Order, caller: nat, phone: nat, collect: Option<Ref>, reference: Ref,
                             payer: Option<nat>, taken: bool, now: Time)
    requires Coherent(row)
    ensures InitiateMomo(row, caller, phone, collect, taken).Ok?
            <==> row.userId == caller && row.status == Pending && row.paymentStatus != Processing && collect.Some? && !taken
    ensures PaymentSucceeded(id, row, row, reference, payer, now, taken).Ok?
            <==> (row.paymentStatus == Unpaid || row.paymentStatus == Processing) && row.totalXAF != 0 && !taken
    ensures CollectFailed(id, row).Ok? <==> row.paymentStatus != Paid
  {
    hide Refusal;
    var txn := PaymentTxn(id, row.totalXAF);
    AcceptedIffBalanced(txn);
    assert txn.lines[..1][..0] == [];
    assert SumOfLines(txn.lines[..1]) == row.totalXAF;
  }

  /** Until someone has decided, and only until then, the vendor accepts or
      refuses, the consumer cancels an immediate order, and the job expires. The
      cron also waits for the deadline to be over. */
  lemma DecisionsGoThroughIff(id: nat, row: Order, caller: nat, now: Time)
    ensures var open := row.status == Pending || row.status == Confirmed;
            && (AcceptOrder(id, row, row, caller).Ok? <==> open && caller == row.vendorId)
            && (RefuseOrder(id, row, row, caller).Ok? <==> open && caller == row.vendorId)
            && (CancelOrder(id, row, row, caller).Ok? <==> open && caller == row.userId && row.scheduledFor == None)
            && (ExpireVendorDecision(id, row, row, false, now).Ok? <==> open)
            && (ExpireVendorDecision(id, row, row, true, now).Ok?
                <==> open && row.acceptanceDeadlineAt.Some? && now > row.acceptanceDeadlineAt.value)
  {
  }

  /** A paid pre-order is put before its vendor once; the cron does so at the
      earliest an hour before it is due. */
  lemma PromotionGoesThroughIff(id: nat, row: Order, now: Time)
    requires Coherent(row)
    ensures var waiting := row.status == Confirmed && row.acceptanceDeadlineAt == None;
            && (PromotePreOrder(id, row, row, false, now).Ok? <==> waiting)
            && (PromotePreOrder(id, row, row, true, now).Ok?
                <==> waiting && row.scheduledFor.Some? && row.scheduledFor.value - 60 * 60 * 1000 <= now)
  {
  }

  lemma KitchenGoesThroughIff(id: nat, row: Order, caller: nat, item: nat, flag: bool)
    requires Coherent(row)
    ensures var cooking := (row.status == Accepted || row.status == InPrep) && caller == row.vendorId;
            && (SetItemPrepared(row, caller, item, flag).Ok? <==> cooking && item < |row.prepared|)
            && (MarkOrderReady(id, row, row, row.prepared, caller).Ok? <==> cooking && row.prepared != [] && false !in row.prepared)
            && (VendorCancelPreOrder(id, row, row, caller).Ok? <==> cooking && row.scheduledFor.Some? && row.totalXAF >= 500)
  {
    hide Refusal;
    if row.totalXAF >= 0 {
      PenaltyAcceptedIff(id, row.vendorId, row.totalXAF);
    }
    assert false in row.prepared <==> exists i :: 0 <= i < |row.prepared| && !row.prepared[i];
  }

  /** Riders: assigned once, picking up with the pickup code from the kitchen on,
      given up on only before pick-up. */
  lemma RidesGoThroughIff(id: nat, row: Order, rider: nat, pin: nat)
    ensures var waiting := row.status == Accepted || row.status == InPrep || row.status == ReadyPickup;
            && (AssignRider(row, rider).Ok? <==> row.riderId == None)
            && (MarkPickedUp(row, rider, pin).Ok? <==> waiting && row.riderId == Some(rider) && pin == row.pickupCode)
            && (ExpireForNoRider(id, row).Ok? <==> waiting)
  {
  }

  /** A fraud is resolved while the order is out with a rider; a compensation
      needs the snapshots it is computed from. */
  lemma FraudGoesThroughIff(id: nat, row: Order, refund: bool, compensate: bool)
    ensures ResolveRiderFraud(id, row, row, refund, compensate).Ok?
            <==> row.status == PickedUp && row.riderId.Some? && (compensate ==> row.snapshot.Some?)
  {
    if row.snapshot.Some? {
      var share := row.subtotalXAF - row.snapshot.value.commissionXAF;
      var txn := CompensationTxn(id, row.vendorId, share);
      AcceptedIffBalanced(txn);
      assert txn.lines[..1][..0] == [];
      assert SumOfLines(txn.lines[..1]) == share;
    }
  }

  /** A refund is called for once at a time, and only with a phone to send it to. */
  lemma RefundsGoThroughIff(id: nat, row: Order, reference: Ref, succeeded: bool, taken: bool, now: Time)
    requires row.totalXAF != 0
    ensures RefundLock(row, row, now).Ok?
            <==> row.paymentStatus == RefundPending && row.refundInitiatedAt == None && row.payerPhone.Some?
    ensures RefundAccepted(id, row, row, reference, taken).Ok? <==> row.refundCallOpen
    ensures row.refundCallOpen ==> (RefundAccepted(id, row, row, reference, taken).value.posting.Some? <==> !taken)
    ensures RefundRejected(row).Ok? <==> row.refundCallOpen
    ensures RefundCallback(id, row, succeeded, now).Ok? <==> row.paymentStatus == RefundPending
  {
    var a, b := RefundInitiatedTxn(id, row.totalXAF), RefundSettledTxn(id, row.totalXAF);
    AcceptedIffBalanced(a);
    AcceptedIffBalanced(b);
    assert a.lines[..1][..0] == [] && b.lines[..1][..0] == [];
    assert SumOfLines(a.lines[..1]) == row.totalXAF && SumOfLines(b.lines[..1]) == row.totalXAF;
  }

  // ── What a write leaves ──────────────────────────────────────────────

  /** The status a write leaves, whatever it read. */
  lemma StatusAfterWrite(id: nat, row: Order, op: OrderOp, taken: bool, now: Time)
    requires StepOrder(id, row, op, taken, now).Ok?
    ensures var after := StepOrder(id, row, op, taken, now).value.row;
            after.status == (match op
                             case OpPaymentSucceeded(_, _, _) => Confirmed
                             case OpAccept(_, _) => Accepted
                             case OpRefuse(_, _) => Refused
                             case OpExpireDecision(_, _) => Refused
                             case OpCancel(_, _) => Cancelled
                             case OpVendorCancel(_, _) => Cancelled
                             case OpResolveFraud(_, _, _) => Cancelled
                             case OpSetItemPrepared(_, _, _) => if true in after.prepared then InPrep else Accepted
                             case OpMarkReady(_, _, _) => ReadyPickup
                             case OpPickUp(_, _) => PickedUp
                             case OpDeliver(_, _, _) => Delivered
                             case OpExpireForNoRider => Expired
                             case _ => row.status)
  {
    hide Refusal;
    hide SnapshotOf;
    if op.OpSetItemPrepared? {
      var items := row.prepared[op.item := op.flag];
      assert true in items <==> exists i :: 0 <= i < |items| && items[i];
    }
  }

  /** The payment status a write leaves: refunds are queued by the vendor's
      cancellation, and by a fraud resolution that asks for one of a paid order;
      giving up on dispatch marks a paid order refunded. */
  lemma PaymentStatusAfterWrite(id: nat, row: Order, op: OrderOp, taken: bool, now: Time)
    requires StepOrder(id, row, op, taken, now).Ok?
    ensures var after := StepOrder(id, row, op, taken, now).value.row;
            after.paymentStatus == (match op
                                    case OpInitiateMomo(_, _, _) => Processing
                                    case OpPaymentSucceeded(_, _, _) => Paid
                                    case OpCollectFailed => PaymentStatus.Failed
                                    case OpVendorCancel(_, _) => RefundPending
                                    case OpResolveFraud(read, true, _) =>
                                      if read.paymentStatus == Paid then RefundPending else row.paymentStatus
                                    case OpExpireForNoRider => if row.paymentStatus == Paid then Refunded else row.paymentStatus
                                    case OpRefundCallback(true) => Refunded
                                    case _ => row.paymentStatus)
  {
    hide Refusal;
    hide SnapshotOf;
    hide AnyPrepared;
    hide AllPrepared;
  }

  /** Every other column has its writers, and no other write touches it. */
  lemma ColumnsAfterWrite(id: nat, row: Order, op: OrderOp, taken: bool, now: Time)
    requires Possible(row, op) && StepOrder(id, row, op, taken, now).Ok?
    ensures var p := StepOrder(id, row, op, taken, now).value; var after := p.row;
            && after.paymentReference == (match op
                                          case OpInitiateMomo(_, _, collect) => collect
                                          case OpPaymentSucceeded(_, reference, _) => Some(reference)
                                          case _ => row.paymentReference)
            && after.payerPhone == (match op
                                    case OpInitiateMomo(_, phone, _) => Some(phone)
                                    case OpPaymentSucceeded(read, _, payer) => if payer.Some? then payer else read.payerPhone
                                    case _ => row.payerPhone)
            && after.snapshot == (if op.OpPaymentSucceeded? then Some(SnapshotOf(row)) else row.snapshot)
            && after.riderId == (if op.OpAssignRider? then Some(op.rider) else row.riderId)
            && after.prepared == (if op.OpSetItemPrepared? then row.prepared[op.item := op.flag] else row.prepared)
            && after.deliveredAt == (if op.OpDeliver? then Some(now) else row.deliveredAt)
            && after.penaltyXAF == (if op.OpVendorCancel? then Some(Penalty(row.totalXAF)) else row.penaltyXAF)
            && after.refundCampayRef == (match op
                                         case OpRefundAccepted(_, reference) => if p.posting.Some? then Some(reference) else row.refundCampayRef
                                         case OpRefundCallback(false) => None
                                         case _ => row.refundCampayRef)
            && after.refundInitiatedAt == (match op
                                           case OpRefundLock(_) => Some(now)
                                           case OpRefundAccepted(_, _) => if p.posting.Some? then row.refundInitiatedAt else None
                                           case OpRefundRejected => None
                                           case OpRefundCallback(false) => None
                                           case _ => row.refundInitiatedAt)
            && after.refundedAt == (if op == OpRefundCallback(true) then Some(now) else row.refundedAt)
            && after.refundCallOpen == (op.OpRefundLock? || (row.refundCallOpen && !op.OpRefundAccepted? && !op.OpRefundRejected?))
  {
    hide Refusal;
    hide SnapshotOf;
    hide Penalty;
    hide AnyPrepared;
    hide AllPrepared;
    if op.OpPaymentSucceeded? {
      SameSnapshot(row, op.read);
    }
  }

  lemma SameSnapshot(row: Order, read: Order)
    requires Earlier(read, row)
    ensures SnapshotOf(read) == SnapshotOf(row)
  {
  }

  /** What is announced, by which write: the events of the log, no more. */
  lemma NewsOfWrite(id: nat, row: Order, op: OrderOp, taken: bool, now: Time)
    requires Possible(row, op) && StepOrder(id, row, op, taken, now).Ok?
    ensures StepOrder(id, row, op, taken, now).value.log
            == (match op
                case OpPaymentSucceeded(_, _, _) => if row.scheduledFor == None then [OrderPaid(id), OrderCreated(id)] else [OrderPaid(id)]
                case OpPromote(_, _) => [OrderCreated(id)]
                case OpCollectFailed => [PaymentFailed(id)]
                case OpAccept(_, _) => [OrderAccepted(id)]
                case OpRefuse(_, _) => [OrderRefused(id)]
                case OpExpireDecision(_, _) => [OrderRefused(id)]
                case OpCancel(_, _) => [OrderCancelled(id, ByConsumer)]
                case OpVendorCancel(_, _) => [OrderCancelled(id, ByVendorPreOrder)]
                case OpExpireForNoRider => [OrderCancelled(id, ForNoRider)]
                case OpMarkReady(_, _, _) => [OrderReady(id)]
                case OpRefundCallback(false) => [RefundFailedAtSettlement(id)]
                case _ => [])
  {
    hide Refusal;
    hide SnapshotOf;
    hide AnyPrepared;
    hide AllPrepared;
  }

  // ── What a refused request is told ───────────────────────────────────

  /** Somebody else's order is not found; one decided on before it was read is
      not pending; one decided on since has changed. */
  lemma DecisionIsTold(id: nat, row: Order, read: Order, caller: nat)
    ensures var mine, was := caller == read.vendorId, read.status == Pending || read.status == Confirmed;
            var open := row.status == Pending || row.status == Confirmed;
            var accepted, refused := AcceptOrder(id, row, read, caller), RefuseOrder(id, row, read, caller);
            && (accepted == Err(OrderNotFound) <==> !mine) && (refused == Err(OrderNotFound) <==> !mine)
            && (accepted == Err(OrderNotPending) <==> mine && !was) && (refused == Err(OrderNotPending) <==> mine && !was)
            && (accepted == Err(OrderStateChanged) <==> mine && was && !open)
            && (refused == Err(OrderStateChanged) <==> mine && was && !open)
    ensures var mine, was := caller == read.userId, read.status == Pending || read.status == Confirmed;
            var open := row.status == Pending || row.status == Confirmed;
            var outcome := CancelOrder(id, row, read, caller);
            && (outcome == Err(OrderNotFound) <==> !mine)
            && (outcome == Err(PreOrderConsumerCannotCancel) <==> mine && read.scheduledFor.Some?)
            && (outcome == Err(NotCancellable) <==> mine && read.scheduledFor == None && !was)
            && (outcome == Err(OrderStateChanged) <==> mine && read.scheduledFor == None && was && !open)
  {
  }

  lemma KitchenIsTold(id: nat, row: Order, read: Order, caller: nat, item: nat, flag: bool, items: seq<bool>)
    requires |items| == |read.prepared|
    ensures var mine, cooking := caller == row.vendorId, row.status == Accepted || row.status == InPrep;
            var outcome := SetItemPrepared(row, caller, item, flag);
            && (outcome == Err(OrderNotFound) <==> !mine)
            && (outcome == Err(NotInPrepPhase) <==> mine && !cooking)
            && (outcome == Err(ItemNotFound) <==> mine && cooking && item >= |row.prepared|)
    ensures var mine, was := caller == read.vendorId, read.status == Accepted || read.status == InPrep;
            var done, cooking := items != [] && false !in items, row.status == Accepted || row.status == InPrep;
            var outcome := MarkOrderReady(id, row, read, items, caller);
            && (outcome == Err(OrderNotFound) <==> !mine)
            && (outcome == Err(NotInPrepPhase) <==> mine && !was)
            && (outcome == Err(ItemsNotAllPrepared) <==> mine && was && !done)
            && (outcome == Err(OrderStateChanged) <==> mine && was && done && !cooking)
    ensures var mine, was := caller == read.vendorId, read.status == Accepted || read.status == InPrep;
            var cooking := row.status == Accepted || row.status == InPrep;
            var outcome := VendorCancelPreOrder(id, row, read, caller);
            && (outcome == Err(OrderNotFound) <==> !mine)
            && (outcome == Err(NotAPreOrder) <==> mine && read.scheduledFor == None)
            && (outcome == Err(PreOrderNotCancellable) <==> mine && read.scheduledFor.Some? && !was)
            && (outcome == Err(OrderStateChanged) <==> mine && read.scheduledFor.Some? && was && !cooking)
            && (outcome == Err(PenaltyExists) <==> mine && read.scheduledFor.Some? && was && cooking && row.penaltyXAF.Some?)
  {
    hide Refusal;
    assert false in items <==> exists i :: 0 <= i < |items| && !items[i];
  }

  lemma RideIsTold(id: nat, row: Order, read: Order, rider: nat, pin: nat, now: Time)
    ensures var mine, waiting := row.riderId == Some(rider), row.status == Accepted || row.status == InPrep || row.status == ReadyPickup;
            var outcome := MarkPickedUp(row, rider, pin);
            && (outcome == Err(OrderNotFound) <==> !mine)
            && (outcome == Err(NotPickupable) <==> mine && !waiting)
            && (outcome == Err(WrongPickupCode) <==> mine && waiting && pin != row.pickupCode)
    ensures var mine, was, right := read.riderId == Some(rider), read.status == PickedUp, pin == read.deliveryCode;
            var outcome := MarkDelivered(id, row, read, rider, pin, now);
            && (outcome == Err(OrderNotFound) <==> !mine)
            && (outcome == Err(NotInDelivery) <==> mine && !was)
            && (outcome == Err(WrongDeliveryCode) <==> mine && was && !right)
            && (outcome == Err(MissingFinanceSnapshot) <==> mine && was && right && read.snapshot == None)
            && (outcome == Err(OrderStateChanged) <==> mine && was && right && read.snapshot.Some? && row.status != PickedUp)
  {
    hide Refusal;
  }

  lemma FraudIsTold(id: nat, row: Order, read: Order, refund: bool, compensate: bool)
    ensures var outcome := ResolveRiderFraud(id, row, read, refund, compensate);
            var out := read.status == PickedUp;
            var known := out && read.riderId.Some?;
            var priced := known && (compensate ==> read.snapshot.Some?);
            && (outcome == Err(NotInPickup) <==> !out)
            && (outcome == Err(NoRiderAssigned) <==> out && !known)
            && (outcome == Err(MissingFinanceSnapshot) <==> known && !priced)
            && (outcome == Err(OrderStateChanged) <==> priced && row.status != PickedUp)
  {
    hide Refusal;
  }

  lemma PaymentIsTold(id: nat, row: Order, read: Order, caller: nat, phone: nat, collect: Option<Ref>, reference: Ref,
                      payer: Option<nat>, taken: bool, now: Time)
    ensures var outcome := InitiateMomo(row, caller, phone, collect, taken);
            var mine := caller == row.userId;
            var payable := mine && row.status == Pending;
            var idle := payable && row.paymentStatus != Processing;
            && (outcome == Err(OrderNotFound) <==> !mine)
            && (outcome == Err(NotPayable) <==> mine && !payable)
            && (outcome == Err(PaymentAlreadyProcessing) <==> payable && !idle)
            && (outcome == Err(CampayFailed) <==> idle && collect == None)
            && (outcome == Err(ReferenceTaken) <==> idle && collect.Some? && taken)
    ensures var outcome := PaymentSucceeded(id, row, read, reference, payer, now, taken);
            var due := read.paymentStatus != Paid && (row.paymentStatus == Unpaid || row.paymentStatus == Processing);
            && (outcome == Err(NothingToDo) <==> !due)
            && (outcome == Err(ReferenceTaken) <==> due && taken)
  {
    hide Refusal;
    hide SnapshotOf;
  }

  /** Jobs and crons write on what they read and what there is: what changed in
      between stops them silently. */
  lemma JobsRunIff(id: nat, row: Order, read: Order, cron: bool, now: Time)
    ensures var outcome := ExpireVendorDecision(id, row, read, cron, now);
            var was, open := read.status == Pending || read.status == Confirmed, row.status == Pending || row.status == Confirmed;
            && (outcome.Ok? <==> was && open && (cron ==> read.acceptanceDeadlineAt.Some? && read.acceptanceDeadlineAt.value < now))
            && (outcome.Err? ==> outcome == Err(NothingToDo))
    ensures var outcome := PromotePreOrder(id, row, read, cron, now);
            && (outcome.Ok? <==> && read.status == Confirmed && read.paymentStatus == Paid && read.acceptanceDeadlineAt == None
                                 && (cron ==> read.scheduledFor.Some? && read.scheduledFor.value <= now + 60 * 60 * 1000)
                                 && row.acceptanceDeadlineAt == None)
            && (outcome.Err? ==> outcome == Err(NothingToDo))
    ensures var outcome := RefundLock(row, read, now);
            var found := read.paymentStatus == RefundPending && read.refundInitiatedAt == None;
            && (outcome.Ok? <==> found && read.payerPhone.Some?
                                 && row.paymentStatus == RefundPending && row.refundInitiatedAt == None)
            && (outcome == Err(MissingPayerPhone) <==> found && read.payerPhone == None)
            && (outcome.Err? ==> outcome.error in {NothingToDo, MissingPayerPhone})
  {
  }

  predicate Quiet(outcome: Outcome) { outcome.Ok? || outcome == Err(NothingToDo) }

  /** So do the writes that have nothing to do. */
  lemma IdleWritesSayNothing(id: nat, row: Order, rider: nat, read: Order, reference: Ref, taken: bool, succeeded: bool, now: Time)
    requires row.totalXAF != 0 && read.totalXAF != 0
    ensures Quiet(CollectFailed(id, row)) && Quiet(AssignRider(row, rider)) && Quiet(ExpireForNoRider(id, row))
    ensures Quiet(RefundAccepted(id, row, read, reference, taken)) && Quiet(RefundRejected(row))
    ensures Quiet(RefundCallback(id, row, succeeded, now))
  {
    RefundsGoThroughIff(id, row, reference, succeeded, taken, now);
  }

  /** A fraud resolution books a compensation exactly when it is asked to and the
      vendor's share is something: that share, from revenue to the vendor. */
  lemma CompensationIsTheShare(id: nat, row: Order, read: Order, refund: bool, compensate: bool)
    requires ResolveRiderFraud(id, row, read, refund, compensate).Ok?
    ensures var posting := ResolveRiderFraud(id, row, read, refund, compensate).value.posting;
            && (posting.Some? <==> compensate && read.subtotalXAF > read.snapshot.value.commissionXAF)
            && (posting.Some? ==>
                  var share := read.subtotalXAF - read.snapshot.value.commissionXAF;
                  var lines := posting.value.lines;
                  && |lines| == 2 && posting.value.eventType == Adjustment
                  && lines[0].account == PlatformRevenue && lines[0].amountXAF == share
                  && lines[1].account == VendorPayable && lines[1].amountXAF == -share && lines[1].vendorId == Some(read.vendorId))
  {
    hide Refusal;
  }

  /** Every leg a write books names its order, a vendor's leg the order's vendor,
      a rider's leg the order's rider. */
  lemma LegsNameTheirOwners(id: nat, row: Order, op: OrderOp, taken: bool, now: Time)
    requires Possible(row, op) && StepOrder(id, row, op, taken, now).Ok?
    requires StepOrder(id, row, op, taken, now).value.posting.Some?
    ensures var lines := StepOrder(id, row, op, taken, now).value.posting.value.lines;
            forall i :: 0 <= i < |lines| ==>
              && lines[i].orderId == Some(id)
              && (lines[i].account == VendorPayable || op.OpVendorCancel? || op.OpResolveFraud? ==> lines[i].vendorId == Some(row.vendorId))
              && (lines[i].account == RiderPayable ==> lines[i].riderId == row.riderId && row.riderId.Some?)
              && (lines[i].vendorId.Some? ==> lines[i].vendorId.value == row.vendorId)
              && (lines[i].riderId.Some? ==> lines[i].riderId == row.riderId)
  {
    hide Refusal;
    hide SnapshotOf;
    hide AnyPrepared;
    hide AllPrepared;
  }

  /** The type each transaction is filed under. */
  lemma TransactionsAreTyped(id: nat, row: Order, op: OrderOp, taken: bool, now: Time)
    requires StepOrder(id, row, op, taken, now).Ok? && StepOrder(id, row, op, taken, now).value.posting.Some?
    ensures StepOrder(id, row, op, taken, now).value.posting.value.eventType
            == (match op
                case OpPaymentSucceeded(_, _, _) => PaymentReceived
                case OpDeliver(_, _, _) => EventType.OrderDelivered
                case OpVendorCancel(_, _) => PenaltyApplied
                case OpResolveFraud(_, _, _) => Adjustment
                case _ => RefundIssued)
  {
    hide Refusal;
    hide SnapshotOf;
    hide AnyPrepared;
    hide AllPrepared;
  }
}
