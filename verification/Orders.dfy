/**
 The life of one order row. Every write path is a function from the row as it
 stands at the write (`row`), and, where the service reads first and writes
 later under a guard, the row as that request read it (`read`).
 */
module Orders {
  import opened Common
  import opened Ledger
  import opened Pricing

  datatype OrderStatus =
    | Pending | Confirmed | Accepted | InPrep | ReadyPickup
    | PickedUp | Delivered | Cancelled | Refused | Expired

  datatype PaymentStatus = Unpaid | Processing | Paid | Failed | RefundPending | Refunded

  const ACCEPTANCE_TTL_MS := 60_000
  const PRE_ORDER_LEAD_MS := 3_600_000

  /** commissionXAF, riderShareXAF and platformFeeXAF: three columns, one write. */
  datatype Snapshot = Snapshot(commissionXAF: int, riderShareXAF: int, platformFeeXAF: int)

  datatype Order = Order(
    userId: nat,
    vendorId: nat,
    code: Ref,
    status: OrderStatus,
    paymentStatus: PaymentStatus,
    subtotalXAF: nat,
    deliveryFeeXAF: nat,
    discountXAF: nat,
    totalXAF: int,
    commissionRate: nat,
    snapshot: Option<Snapshot>,
    paymentReference: Option<Ref>,
    payerPhone: Option<nat>,
    pickupCode: nat,
    deliveryCode: nat,
    riderId: Option<nat>,
    scheduledFor: Option<Time>,
    acceptanceDeadlineAt: Option<Time>,
    deliveredAt: Option<Time>,
    prepared: seq<bool>,                 // one flag per order item
    penaltyXAF: Option<int>,             // the one-to-one VendorPenalty row
    refundInitiatedAt: Option<Time>,
    refundCampayRef: Option<Ref>,
    refundedAt: Option<Time>,
    refundCallOpen: bool)                // a tryRefund call holds the row

  datatype CancelledBy = ByConsumer | ByVendorPreOrder | ForNoRider

  /** Domain events, and the log lines that carry an order or payout id. */
  datatype LogEvent =
    | OrderPaid(order: nat)
    | OrderCreated(order: nat)
    | OrderAccepted(order: nat)
    | OrderRefused(order: nat)
    | OrderCancelled(order: nat, who: CancelledBy)
    | OrderReady(order: nat)
    | PaymentFailed(order: nat)
    | RefundFailedAtSettlement(order: nat)
    | TransferCalled(payout: nat)
    | PayoutRetried(payout: nat)

  datatype OrderError =
    | OrderNotFound | OrderNotPending | OrderStateChanged
    | NotPayable | PaymentAlreadyProcessing | CampayFailed | ReferenceTaken
    | NotInPrepPhase | ItemNotFound | ItemsNotAllPrepared
    | NotAPreOrder | PreOrderNotCancellable | PreOrderConsumerCannotCancel | NotCancellable | PenaltyExists
    | NotPickupable | WrongPickupCode | NotInDelivery | WrongDeliveryCode | MissingFinanceSnapshot
    | NotInPickup | NoRiderAssigned | MissingPayerPhone
    | LedgerRefused(reason: LedgerError)
    | NothingToDo

  /** What one write does: the new row, the transaction it books with it, and
      what it announces afterwards. */
  datatype Patch = Patch(row: Order, posting: Option<Txn>, log: seq<LogEvent>)

  type Outcome = Result<Patch, OrderError>

  predicate Decidable(status: OrderStatus) { status.Pending? || status.Confirmed? }

  predicate InKitchen(status: OrderStatus) { status.Accepted? || status.InPrep? }

  predicate AwaitingPayment(payment: PaymentStatus) { payment.Unpaid? || payment.Processing? }

  /** The row update and its ledger trace commit together or not at all. */
  function Commit(row: Order, txn: Txn, log: seq<LogEvent>): Outcome {
    match Refusal(txn)
    case Some(reason) => Err(LedgerRefused(reason))
    case None => Ok(Patch(row, Some(txn), log))
  }

  // ── Ledger lines ─────────────────────────────────────────────────────

  function OrderLine(account: Account, amountXAF: int, order: nat): Line {
    Line(account, amountXAF, Some(order), None, None, None, None, Some("order"))
  }

  function VendorLine(account: Account, amountXAF: int, order: nat, vendor: nat): Line {
    OrderLine(account, amountXAF, order).(vendorId := Some(vendor))
  }

  function PaymentTxn(id: nat, totalXAF: int): Txn {
    Txn(PaymentOf(id), PaymentReceived,
        [OrderLine(CampayFloat, totalXAF, id), OrderLine(CustomerEscrow, -totalXAF, id)])
  }

  function DeliveryTxn(id: nat, order: Order, snapshot: Snapshot): Txn {
    Txn(DeliveryOf(id), EventType.OrderDelivered,
        [ OrderLine(CustomerEscrow, order.totalXAF, id),
          VendorLine(VendorPayable, -(order.subtotalXAF - snapshot.commissionXAF), id, order.vendorId),
          OrderLine(RiderPayable, -snapshot.riderShareXAF, id).(riderId := order.riderId),
          OrderLine(PlatformRevenue, -snapshot.platformFeeXAF, id) ])
  }

  function PenaltyTxn(id: nat, vendor: nat, penaltyXAF: int): Txn {
    Txn(PenaltyOn(id), PenaltyApplied,
        [ VendorLine(VendorPayable, penaltyXAF, id, vendor), VendorLine(PlatformRevenue, -penaltyXAF, id, vendor) ])
  }

  function CompensationTxn(id: nat, vendor: nat, shareXAF: int): Txn {
    Txn(CompensationFor(id), Adjustment,
        [ VendorLine(PlatformRevenue, shareXAF, id, vendor), VendorLine(VendorPayable, -shareXAF, id, vendor) ])
  }

  function RefundInitiatedTxn(id: nat, totalXAF: int): Txn {
    Txn(RefundInitiatedFor(id), RefundIssued,
        [OrderLine(CustomerEscrow, totalXAF, id), OrderLine(RefundPayable, -totalXAF, id)])
  }

  function RefundSettledTxn(id: nat, totalXAF: int): Txn {
    Txn(RefundSettledFor(id), RefundIssued,
        [OrderLine(RefundPayable, totalXAF, id), OrderLine(CampayFloat, -totalXAF, id)])
  }

  // ── Creation ─────────────────────────────────────────────────────────

  /** The columns createOrder chooses; the rest start null. */
  datatype Draft = Draft(
    userId: nat, vendorId: nat, code: Ref,
    subtotalXAF: nat, deliveryFeeXAF: nat, discountXAF: nat, commissionRate: nat,
    pickupCode: nat, deliveryCode: nat, scheduledFor: Option<Time>, items: nat)

  function Placed(draft: Draft): Order {
    Order(draft.userId, draft.vendorId, draft.code, Pending, Unpaid,
          draft.subtotalXAF, draft.deliveryFeeXAF, draft.discountXAF,
          draft.subtotalXAF + draft.deliveryFeeXAF - draft.discountXAF,
          draft.commissionRate, None, None, None, draft.pickupCode, draft.deliveryCode,
          None, draft.scheduledFor, None, None, seq(draft.items, _ => false), None, None, None, None, false)
  }

  // ── Payment ──────────────────────────────────────────────────────────

  /** initiateMomo. `collect` is Campay's answer; `taken` says another row
      already holds that reference. */
  function InitiateMomo(row: Order, caller: nat, phone: nat, collect: Option<Ref>, taken: bool): Outcome {
    if row.userId != caller then Err(OrderNotFound)
    else if !row.status.Pending? then Err(NotPayable)
    else if row.paymentStatus.Processing? then Err(PaymentAlreadyProcessing)
    else if collect.None? then Err(CampayFailed)
    else if taken then Err(ReferenceTaken)
    else Ok(Patch(row.(paymentReference := collect, payerPhone := Some(phone), paymentStatus := Processing), None, []))
  }

  /** handleWebhook's FAILED and CANCELLED branch. */
  function CollectFailed(id: nat, row: Order): Outcome {
    if row.paymentStatus.Paid? then Err(NothingToDo)
    else Ok(Patch(row.(paymentStatus := Failed), None, [PaymentFailed(id)]))
  }

  function SnapshotOf(order: Order): Snapshot {
    var commission := Commission(order.subtotalXAF, order.commissionRate);
    var riderShare := RiderShare(order.deliveryFeeXAF);
    Snapshot(commission, riderShare, commission + (order.deliveryFeeXAF - riderShare))
  }

  /** onPaymentSucceeded. */
  function PaymentSucceeded(id: nat, row: Order, read: Order, reference: Ref, phone: Option<nat>, now: Time, taken: bool): Outcome {
    if read.paymentStatus.Paid? then Err(NothingToDo)
    else if !AwaitingPayment(row.paymentStatus) then Err(NothingToDo)
    else if taken then Err(ReferenceTaken)
    else
      var paid := row.(
        status := Confirmed, paymentStatus := Paid, paymentReference := Some(reference),
        payerPhone := if phone.Some? then phone else read.payerPhone,
        snapshot := Some(SnapshotOf(read)),
        acceptanceDeadlineAt := if read.scheduledFor.Some? then row.acceptanceDeadlineAt else Some(now + ACCEPTANCE_TTL_MS));
      Commit(paid, PaymentTxn(id, read.totalXAF),
             if read.scheduledFor.Some? then [OrderPaid(id)] else [OrderPaid(id), OrderCreated(id)])
  }

  // ── Decision on a PENDING or CONFIRMED order ─────────────────────────

  function AcceptOrder(id: nat, row: Order, read: Order, caller: nat): Outcome {
    if read.vendorId != caller then Err(OrderNotFound)
    else if !Decidable(read.status) then Err(OrderNotPending)
    else if !Decidable(row.status) then Err(OrderStateChanged)
    else Ok(Patch(row.(status := Accepted), None, [OrderAccepted(id)]))
  }

  function RefuseOrder(id: nat, row: Order, read: Order, caller: nat): Outcome {
    if read.vendorId != caller then Err(OrderNotFound)
    else if !Decidable(read.status) then Err(OrderNotPending)
    else if !Decidable(row.status) then Err(OrderStateChanged)
    else Ok(Patch(row.(status := Refused), None, [OrderRefused(id)]))
  }

  /** The consumer's cancelOrder. */
  function CancelOrder(id: nat, row: Order, read: Order, caller: nat): Outcome {
    if read.userId != caller then Err(OrderNotFound)
    else if read.scheduledFor.Some? then Err(PreOrderConsumerCannotCancel)
    else if !Decidable(read.status) then Err(NotCancellable)
    else if !Decidable(row.status) then Err(OrderStateChanged)
    else Ok(Patch(row.(status := Cancelled), None, [OrderCancelled(id, ByConsumer)]))
  }

  /** The queue job and the cron share one guarded write; only the cron's
      candidate query looks at the deadline. */
  function ExpireVendorDecision(id: nat, row: Order, read: Order, cron: bool, now: Time): Outcome {
    if !Decidable(read.status) then Err(NothingToDo)
    else if cron && !(read.acceptanceDeadlineAt.Some? && read.acceptanceDeadlineAt.value < now) then Err(NothingToDo)
    else if !Decidable(row.status) then Err(NothingToDo)
    else Ok(Patch(row.(status := Refused), None, [OrderRefused(id)]))
  }

  /** Pre-order promotion, by queue job or by cron. */
  function PromotePreOrder(id: nat, row: Order, read: Order, cron: bool, now: Time): Outcome {
    if !(read.status.Confirmed? && read.paymentStatus.Paid? && read.acceptanceDeadlineAt.None?) then Err(NothingToDo)
    else if cron && !(read.scheduledFor.Some? && read.scheduledFor.value <= now + PRE_ORDER_LEAD_MS) then Err(NothingToDo)
    else if row.acceptanceDeadlineAt.Some? then Err(NothingToDo)
    else Ok(Patch(row.(acceptanceDeadlineAt := Some(now + ACCEPTANCE_TTL_MS)), None, [OrderCreated(id)]))
  }

  // ── Kitchen ──────────────────────────────────────────────────────────

  predicate AnyPrepared(items: seq<bool>) { exists i :: 0 <= i < |items| && items[i] }

  predicate AllPrepared(items: seq<bool>) { |items| > 0 && forall i :: 0 <= i < |items| ==> items[i] }

  function SetItemPrepared(row: Order, caller: nat, item: nat, flag: bool): Outcome {
    if row.vendorId != caller then Err(OrderNotFound)
    else if !InKitchen(row.status) then Err(NotInPrepPhase)
    else if item >= |row.prepared| then Err(ItemNotFound)
    else
      var items := row.prepared[item := flag];
      var next := if AnyPrepared(items) && row.status.Accepted? then InPrep
                  else if !AnyPrepared(items) && row.status.InPrep? then Accepted
                  else row.status;
      Ok(Patch(row.(prepared := items, status := next), None, []))
  }

  /** markOrderReady: the item flags are read before the guarded write. */
  function MarkOrderReady(id: nat, row: Order, read: Order, items: seq<bool>, caller: nat): Outcome {
    if read.vendorId != caller then Err(OrderNotFound)
    else if !InKitchen(read.status) then Err(NotInPrepPhase)
    else if !AllPrepared(items) then Err(ItemsNotAllPrepared)
    else if !InKitchen(row.status) then Err(OrderStateChanged)
    else Ok(Patch(row.(status := ReadyPickup), None, [OrderReady(id)]))
  }

  function VendorCancelPreOrder(id: nat, row: Order, read: Order, caller: nat): Outcome {
    if read.vendorId != caller then Err(OrderNotFound)
    else if read.scheduledFor.None? then Err(NotAPreOrder)
    else if !InKitchen(read.status) then Err(PreOrderNotCancellable)
    else if !InKitchen(row.status) then Err(OrderStateChanged)
    else if row.penaltyXAF.Some? then Err(PenaltyExists)
    else
      var penalty := Penalty(read.totalXAF);
      Commit(row.(status := Cancelled, paymentStatus := RefundPending, penaltyXAF := Some(penalty)),
             PenaltyTxn(id, read.vendorId, penalty), [OrderCancelled(id, ByVendorPreOrder)])
  }

  // ── Dispatch and delivery ────────────────────────────────────────────

  function AssignRider(row: Order, rider: nat): Outcome {
    if row.riderId.Some? then Err(NothingToDo) else Ok(Patch(row.(riderId := Some(rider)), None, []))
  }

  function ExpireForNoRider(id: nat, row: Order): Outcome {
    if !(InKitchen(row.status) || row.status.ReadyPickup?) then Err(NothingToDo)
    else
      Ok(Patch(row.(status := Expired, paymentStatus := if row.paymentStatus.Paid? then Refunded else row.paymentStatus),
               None, [OrderCancelled(id, ForNoRider)]))
  }

  function MarkPickedUp(row: Order, rider: nat, code: nat): Outcome {
    if row.riderId != Some(rider) then Err(OrderNotFound)
    else if !(InKitchen(row.status) || row.status.ReadyPickup?) then Err(NotPickupable)
    else if code != row.pickupCode then Err(WrongPickupCode)
    else Ok(Patch(row.(status := PickedUp), None, []))
  }

  function MarkDelivered(id: nat, row: Order, read: Order, rider: nat, code: nat, now: Time): Outcome {
    if read.riderId != Some(rider) then Err(OrderNotFound)
    else if !read.status.PickedUp? then Err(NotInDelivery)
    else if code != read.deliveryCode then Err(WrongDeliveryCode)
    else if read.snapshot.None? then Err(MissingFinanceSnapshot)
    else if !row.status.PickedUp? then Err(OrderStateChanged)
    else Commit(row.(status := Delivered, deliveredAt := Some(now)), DeliveryTxn(id, read, read.snapshot.value), [])
  }

  /** resolveRiderFraud; the rider's own row is not part of this model. */
  function ResolveRiderFraud(id: nat, row: Order, read: Order, refund: bool, compensate: bool): Outcome {
    if !read.status.PickedUp? then Err(NotInPickup)
    else if read.riderId.None? then Err(NoRiderAssigned)
    else if compensate && read.snapshot.None? then Err(MissingFinanceSnapshot)
    else if !row.status.PickedUp? then Err(OrderStateChanged)
    else
      var share := if compensate then read.subtotalXAF - read.snapshot.value.commissionXAF else 0;
      var closed := row.(status := Cancelled,
                         paymentStatus := if refund && read.paymentStatus.Paid? then RefundPending else row.paymentStatus);
      if share > 0 then Commit(closed, CompensationTxn(id, read.vendorId, share), [])
      else Ok(Patch(closed, None, []))
  }

  // ── Refund ───────────────────────────────────────────────────────────

  /** tryRefund's lock on a row the candidate query found. */
  function RefundLock(row: Order, read: Order, now: Time): Outcome {
    if !(read.paymentStatus.RefundPending? && read.refundInitiatedAt.None?) then Err(NothingToDo)
    else if read.payerPhone.None? then Err(MissingPayerPhone)
    else if !(row.paymentStatus.RefundPending? && row.refundInitiatedAt.None?) then Err(NothingToDo)
    else Ok(Patch(row.(refundInitiatedAt := Some(now), refundCallOpen := true), None, []))
  }

  /** tryRefund after Campay accepted: the reference and the escrow release
      commit together; any failure inside falls into the same catch. */
  function RefundAccepted(id: nat, row: Order, read: Order, reference: Ref, taken: bool): Outcome {
    if !row.refundCallOpen then Err(NothingToDo)
    else if taken || Refusal(RefundInitiatedTxn(id, read.totalXAF)).Some? then RefundRejected(row)
    else Commit(row.(refundCampayRef := Some(reference), refundCallOpen := false), RefundInitiatedTxn(id, read.totalXAF), [])
  }

  /** tryRefund's catch: the lock is rolled back for the next sweep. */
  function RefundRejected(row: Order): Outcome {
    if !row.refundCallOpen then Err(NothingToDo)
    else Ok(Patch(row.(refundInitiatedAt := None, refundCallOpen := false), None, []))
  }

  /** handleRefundWebhook on the order its reference resolved to. */
  function RefundCallback(id: nat, row: Order, succeeded: bool, now: Time): Outcome {
    if !row.paymentStatus.RefundPending? then Err(NothingToDo)
    else if succeeded then
      Commit(row.(paymentStatus := Refunded, refundedAt := Some(now)), RefundSettledTxn(id, row.totalXAF), [])
    else Ok(Patch(row.(refundCampayRef := None, refundInitiatedAt := None), None, [RefundFailedAtSettlement(id)]))
  }

  // ── One operation on one row ─────────────────────────────────────────

  datatype OrderOp =
    | OpInitiateMomo(caller: nat, phone: nat, collect: Option<Ref>)
    | OpCollectFailed
    | OpPaymentSucceeded(read: Order, reference: Ref, payer: Option<nat>)
    | OpAccept(read: Order, caller: nat)
    | OpRefuse(read: Order, caller: nat)
    | OpCancel(read: Order, caller: nat)
    | OpExpireDecision(read: Order, cron: bool)
    | OpPromote(read: Order, cron: bool)
    | OpSetItemPrepared(caller: nat, item: nat, flag: bool)
    | OpMarkReady(read: Order, items: seq<bool>, caller: nat)
    | OpVendorCancel(read: Order, caller: nat)
    | OpAssignRider(rider: nat)
    | OpExpireForNoRider
    | OpPickUp(rider: nat, pin: nat)
    | OpDeliver(read: Order, rider: nat, pin: nat)
    | OpResolveFraud(read: Order, refund: bool, compensate: bool)
    | OpRefundLock(read: Order)
    | OpRefundAccepted(read: Order, reference: Ref)
    | OpRefundRejected
    | OpRefundCallback(succeeded: bool)

  function StepOrder(id: nat, row: Order, op: OrderOp, taken: bool, now: Time): Outcome {
    match op
    case OpInitiateMomo(caller, phone, collect) => InitiateMomo(row, caller, phone, collect, taken)
    case OpCollectFailed => CollectFailed(id, row)
    case OpPaymentSucceeded(read, reference, payer) => PaymentSucceeded(id, row, read, reference, payer, now, taken)
    case OpAccept(read, caller) => AcceptOrder(id, row, read, caller)
    case OpRefuse(read, caller) => RefuseOrder(id, row, read, caller)
    case OpCancel(read, caller) => CancelOrder(id, row, read, caller)
    case OpExpireDecision(read, cron) => ExpireVendorDecision(id, row, read, cron, now)
    case OpPromote(read, cron) => PromotePreOrder(id, row, read, cron, now)
    case OpSetItemPrepared(caller, item, flag) => SetItemPrepared(row, caller, item, flag)
    case OpMarkReady(read, items, caller) => MarkOrderReady(id, row, read, items, caller)
    case OpVendorCancel(read, caller) => VendorCancelPreOrder(id, row, read, caller)
    case OpAssignRider(rider) => AssignRider(row, rider)
    case OpExpireForNoRider => ExpireForNoRider(id, row)
    case OpPickUp(rider, pin) => MarkPickedUp(row, rider, pin)
    case OpDeliver(read, rider, pin) => MarkDelivered(id, row, read, rider, pin, now)
    case OpResolveFraud(read, refund, compensate) => ResolveRiderFraud(id, row, read, refund, compensate)
    case OpRefundLock(read) => RefundLock(row, read, now)
    case OpRefundAccepted(read, reference) => RefundAccepted(id, row, read, reference, taken)
    case OpRefundRejected => RefundRejected(row)
    case OpRefundCallback(succeeded) => RefundCallback(id, row, succeeded, now)
  }
}
