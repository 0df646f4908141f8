/**
 What every write to an order row keeps, row by row. A row is judged together
 with what the ledger (BookTally) and the announcements (LogTally) say of it.
 */
module OrderInvariants {
  import opened Common
  import opened Ledger
  import opened Pricing
  import opened Orders

  // ── The row by itself ────────────────────────────────────────────────

  ghost predicate RefundTouched(row: Order) {
    row.refundInitiatedAt.Some? || row.refundCampayRef.Some? || row.refundCallOpen
    || row.refundedAt.Some? || row.penaltyXAF.Some? || row.paymentStatus.RefundPending?
  }

  /** Amounts, snapshots and statuses agree with each other. */
  ghost predicate Coherent(row: Order) {
    && LegalAmounts(row.subtotalXAF, row.deliveryFeeXAF, row.discountXAF)
    && row.totalXAF == row.subtotalXAF + row.deliveryFeeXAF - row.discountXAF
    // payment: recorded once, and never while the row still awaits it
    && (row.snapshot.Some? ==> row.snapshot.value == SnapshotOf(row))
    && (row.status.Pending? || AwaitingPayment(row.paymentStatus) ==> row.snapshot.None?)
    && (row.snapshot.None? ==> !row.status.Confirmed? && !row.paymentStatus.Paid? && row.acceptanceDeadlineAt.None?)
    && (row.snapshot.Some? && !row.status.Cancelled? && !row.status.Expired? ==> row.paymentStatus.Paid?)
    && (row.snapshot.Some? ==> row.totalXAF > 0)
    // delivery
    && (row.status.Delivered? <==> row.deliveredAt.Some?)
    && (row.status.Delivered? ==> row.snapshot.Some? && row.riderId.Some? && row.discountXAF == 0)
    // refund: only ever on a cancelled order that left PAID behind
    && (RefundTouched(row) ==> row.status.Cancelled?)
    && (RefundTouched(row) ==> row.paymentStatus.RefundPending? || row.paymentStatus.Refunded? || row.paymentStatus.Failed?)
    && (row.refundCallOpen ==> row.refundInitiatedAt.Some? && row.refundCampayRef.None?)
    && (row.refundCampayRef.Some? ==> row.refundInitiatedAt.Some?)
    && (row.refundInitiatedAt.Some? ==> row.refundCallOpen || row.refundCampayRef.Some?)
    && (row.refundedAt.Some? ==> row.refundCampayRef.Some? && !row.paymentStatus.RefundPending?)
  }

  /** `read` may be what some request saw of the row that is now `row`. */
  ghost predicate Earlier(read: Order, row: Order) {
    && Coherent(read)
    && read.userId == row.userId && read.vendorId == row.vendorId && read.code == row.code
    && read.subtotalXAF == row.subtotalXAF && read.deliveryFeeXAF == row.deliveryFeeXAF
    && read.discountXAF == row.discountXAF && read.totalXAF == row.totalXAF
    && read.commissionRate == row.commissionRate && read.scheduledFor == row.scheduledFor
    && read.pickupCode == row.pickupCode && read.deliveryCode == row.deliveryCode
    && |read.prepared| == |row.prepared|
    && (read.snapshot.Some? ==> row.snapshot == read.snapshot)
    && (read.riderId.Some? ==> row.riderId == read.riderId)
    && (read.deliveredAt.Some? ==> row.deliveredAt == read.deliveredAt)
    && (read.acceptanceDeadlineAt.Some? ==> row.acceptanceDeadlineAt == read.acceptanceDeadlineAt)
    && (!read.status.Pending? ==> !row.status.Pending?)
    // once past PENDING and no longer awaiting payment, the payer's phone is settled
    && (!read.status.Pending? && !AwaitingPayment(read.paymentStatus) ==>
          row.payerPhone == read.payerPhone && !AwaitingPayment(row.paymentStatus))
  }

  lemma EarlierIsReflexive(row: Order)
    requires Coherent(row)
    ensures Earlier(row, row)
  {
  }

  lemma EarlierIsTransitive(a: Order, b: Order, c: Order)
    requires Earlier(a, b) && Earlier(b, c)
    ensures Earlier(a, c)
  {
  }

  function ReadOf(op: OrderOp): Option<Order> {
    match op
    case OpPaymentSucceeded(read, _, _) => Some(read)
    case OpAccept(read, _) => Some(read)
    case OpRefuse(read, _) => Some(read)
    case OpCancel(read, _) => Some(read)
    case OpExpireDecision(read, _) => Some(read)
    case OpPromote(read, _) => Some(read)
    case OpMarkReady(read, _, _) => Some(read)
    case OpVendorCancel(read, _) => Some(read)
    case OpDeliver(read, _, _) => Some(read)
    case OpResolveFraud(read, _, _) => Some(read)
    case OpRefundLock(read) => Some(read)
    case OpRefundAccepted(read, _) => Some(read)
    case _ => None
  }

  /** The request acts on something it could have read. */
  ghost predicate Possible(row: Order, op: OrderOp) {
    && (ReadOf(op).Some? ==> Earlier(ReadOf(op).value, row))
    && (op.OpMarkReady? ==> |op.items| == |row.prepared|)
    && (op.OpRefundCallback? ==> row.refundCampayRef.Some?)  // found by that reference
  }

  // ── What the ledger and the announcements say of an order ────────────

  datatype BookTally = BookTally(payments: int, deliveries: int, initiations: int,
                                 settlements: int, penalties: int, compensations: int)

  function Booked(t: BookTally, posting: Option<Txn>): BookTally {
    if posting.None? then t
    else
      match posting.value.eventId
      case PaymentOf(_) => t.(payments := t.payments + 1)
      case DeliveryOf(_) => t.(deliveries := t.deliveries + 1)
      case RefundInitiatedFor(_) => t.(initiations := t.initiations + 1)
      case RefundSettledFor(_) => t.(settlements := t.settlements + 1)
      case PenaltyOn(_) => t.(penalties := t.penalties + 1)
      case CompensationFor(_) => t.(compensations := t.compensations + 1)
      case _ => t
  }

  /** decisions: accept, refuse, expire or consumer-cancel, split at payment. */
  datatype LogTally = LogTally(paid: bool, decisionsBefore: nat, decisionsAfter: nat, created: nat, failedSettlements: nat)

  const Silence := LogTally(false, 0, 0, 0, 0)

  function Decided(t: LogTally): LogTally {
    if t.paid then t.(decisionsAfter := t.decisionsAfter + 1) else t.(decisionsBefore := t.decisionsBefore + 1)
  }

  function Hear(t: LogTally, id: nat, event: LogEvent): LogTally {
    match event
    case OrderPaid(o) => if o == id then t.(paid := true) else t
    case OrderCreated(o) => if o == id then t.(created := t.created + 1) else t
    case OrderAccepted(o) => if o == id then Decided(t) else t
    case OrderRefused(o) => if o == id then Decided(t) else t
    case OrderCancelled(o, who) => if o == id && who.ByConsumer? then Decided(t) else t
    case RefundFailedAtSettlement(o) => if o == id then t.(failedSettlements := t.failedSettlements + 1) else t
    case _ => t
  }

  function HearAll(t: LogTally, id: nat, log: seq<LogEvent>): LogTally {
    if log == [] then t else Hear(HearAll(t, id, log[..|log| - 1]), id, log[|log| - 1])
  }

  lemma {:induction false} HearAllOfAppend(t: LogTally, id: nat, a: seq<LogEvent>, b: seq<LogEvent>)
    ensures HearAll(t, id, a + b) == HearAll(HearAll(t, id, a), id, b)
  {
    if b == [] {
      assert a + b == a;
    } else {
      assert (a + b)[..|a + b| - 1] == a + b[..|b| - 1];
      HearAllOfAppend(t, id, a, b[..|b| - 1]);
    }
  }

  lemma HearAtMostTwo(t: LogTally, id: nat, log: seq<LogEvent>)
    ensures |log| == 1 ==> HearAll(t, id, log) == Hear(t, id, log[0])
    ensures |log| == 2 ==> HearAll(t, id, log) == Hear(Hear(t, id, log[0]), id, log[1])
  {
    if |log| == 1 {
      assert log[..0] == [];
    }
    if |log| == 2 {
      assert log[..1][..0] == [];
      assert HearAll(t, id, log[..1]) == Hear(t, id, log[0]);
    }
  }

  /** The row agrees with what was booked and announced about it. */
  ghost predicate Accounted(row: Order, book: BookTally, log: LogTally) {
    && book.payments == Bit(row.snapshot.Some?)
    && book.deliveries == Bit(row.status.Delivered?)
    && book.settlements == Bit(row.refundedAt.Some?)
    && book.penalties == Bit(row.penaltyXAF.Some?)
    && book.initiations == log.failedSettlements + Bit(row.refundCampayRef.Some?)
    && 0 <= book.compensations <= 1
    && (book.initiations > 0 ==> row.status.Cancelled? && !row.paymentStatus.Paid? && !AwaitingPayment(row.paymentStatus))
    && (book.compensations > 0 ==> row.status.Cancelled? && row.snapshot.Some?)
    && log.paid == row.snapshot.Some?
    && log.decisionsBefore <= 1 && log.decisionsAfter <= 1
    && (row.status.Pending? ==> log.decisionsBefore == 0)
    && (row.status.Confirmed? || !log.paid ==> log.decisionsAfter == 0)
    && log.created == Bit(row.acceptanceDeadlineAt.Some?)
  }

  // ── Order of statuses after payment ──────────────────────────────────

  function Rank(status: OrderStatus): nat {
    match status
    case Pending => 0
    case Confirmed => 1
    case Accepted => 2
    case InPrep => 2
    case ReadyPickup => 3
    case PickedUp => 4
    case _ => 5
  }

  /** Once paid, a row only climbs, and a closed row stays as it closed. */
  ghost predicate Forward(before: Order, after: Order) {
    before.snapshot.Some? ==>
      && Rank(before.status) <= Rank(after.status)
      && (Rank(before.status) == 5 ==> after.status == before.status)
  }

  // ── One write keeps everything ───────────────────────────────────────

  /** Everything a single write owes: its row, its books, its announcements. */
  ghost predicate Keeps(id: nat, row: Order, book: BookTally, log: LogTally, p: Patch) {
    && Coherent(p.row) && Earlier(row, p.row) && Forward(row, p.row)
    && Accounted(p.row, Booked(book, p.posting), HearAll(log, id, p.log))
  }

  ghost predicate Ready(row: Order, op: OrderOp, book: BookTally, log: LogTally) {
    Coherent(row) && Possible(row, op) && Accounted(row, book, log)
  }

  lemma PaymentKeeps(id: nat, row: Order, op: OrderOp, taken: bool, now: Time, book: BookTally, log: LogTally)
    requires Ready(row, op, book, log) && StepOrder(id, row, op, taken, now).Ok?
    requires op.OpInitiateMomo? || op.OpCollectFailed? || op.OpPaymentSucceeded?
    ensures Keeps(id, row, book, log, StepOrder(id, row, op, taken, now).value)
  {
    HearAtMostTwo(log, id, StepOrder(id, row, op, taken, now).value.log);
  }

  lemma DecisionKeeps(id: nat, row: Order, op: OrderOp, taken: bool, now: Time, book: BookTally, log: LogTally)
    requires Ready(row, op, book, log) && StepOrder(id, row, op, taken, now).Ok?
    requires op.OpAccept? || op.OpRefuse? || op.OpCancel? || op.OpExpireDecision? || op.OpPromote?
    ensures Keeps(id, row, book, log, StepOrder(id, row, op, taken, now).value)
  {
    HearAtMostTwo(log, id, StepOrder(id, row, op, taken, now).value.log);
  }

  lemma KitchenKeeps(id: nat, row: Order, op: OrderOp, taken: bool, now: Time, book: BookTally, log: LogTally)
    requires Ready(row, op, book, log) && StepOrder(id, row, op, taken, now).Ok?
    requires op.OpSetItemPrepared? || op.OpMarkReady? || op.OpPickUp?
    ensures Keeps(id, row, book, log, StepOrder(id, row, op, taken, now).value)
  {
    HearAtMostTwo(log, id, StepOrder(id, row, op, taken, now).value.log);
  }

  lemma VendorCancelKeeps(id: nat, row: Order, op: OrderOp, taken: bool, now: Time, book: BookTally, log: LogTally)
    requires Ready(row, op, book, log) && StepOrder(id, row, op, taken, now).Ok?
    requires op.OpVendorCancel?
    ensures Keeps(id, row, book, log, StepOrder(id, row, op, taken, now).value)
  {
    HearAtMostTwo(log, id, StepOrder(id, row, op, taken, now).value.log);
  }

  lemma DispatchKeeps(id: nat, row: Order, op: OrderOp, taken: bool, now: Time, book: BookTally, log: LogTally)
    requires Ready(row, op, book, log) && StepOrder(id, row, op, taken, now).Ok?
    requires op.OpAssignRider? || op.OpExpireForNoRider?
    ensures Keeps(id, row, book, log, StepOrder(id, row, op, taken, now).value)
  {
    HearAtMostTwo(log, id, StepOrder(id, row, op, taken, now).value.log);
  }

  lemma DeliverKeeps(id: nat, row: Order, op: OrderOp, taken: bool, now: Time, book: BookTally, log: LogTally)
    requires Ready(row, op, book, log) && StepOrder(id, row, op, taken, now).Ok?
    requires op.OpDeliver?
    ensures Keeps(id, row, book, log, StepOrder(id, row, op, taken, now).value)
  {
    BalancedOnlyIfUndiscounted(id, op.read, op.read.snapshot.value);
  }

  lemma CompensationBooks(id: nat, book: BookTally)
    ensures forall vendor: nat, share: int ::
      Booked(book, Some(CompensationTxn(id, vendor, share))) == book.(compensations := book.compensations + 1)
  {
  }

  lemma FraudKeeps(id: nat, row: Order, op: OrderOp, taken: bool, now: Time, book: BookTally, log: LogTally)
    requires Ready(row, op, book, log) && StepOrder(id, row, op, taken, now).Ok?
    requires op.OpResolveFraud?
    ensures Keeps(id, row, book, log, StepOrder(id, row, op, taken, now).value)
  {
    hide Refusal;
    hide CompensationTxn;
    assert op.read.snapshot.Some? ==> row.snapshot == op.read.snapshot;
    CompensationBooks(id, book);
  }

  lemma RefundCallKeeps(id: nat, row: Order, op: OrderOp, taken: bool, now: Time, book: BookTally, log: LogTally)
    requires Ready(row, op, book, log) && StepOrder(id, row, op, taken, now).Ok?
    requires op.OpRefundLock? || op.OpRefundRejected?
    ensures Keeps(id, row, book, log, StepOrder(id, row, op, taken, now).value)
  {
    HearAtMostTwo(log, id, StepOrder(id, row, op, taken, now).value.log);
  }

  lemma InitiationBooks(id: nat, book: BookTally)
    ensures forall total: int :: Booked(book, Some(RefundInitiatedTxn(id, total))) == book.(initiations := book.initiations + 1)
  {
  }

  /** The two ways a refund call concludes. */
  lemma RefundAcceptedRow(id: nat, row: Order, op: OrderOp, taken: bool, now: Time)
    requires Coherent(row) && Possible(row, op) && op.OpRefundAccepted? && StepOrder(id, row, op, taken, now).Ok?
    ensures var p := StepOrder(id, row, op, taken, now).value;
            && row.refundCallOpen && p.log == []
            && if p.posting.None? then p.row == row.(refundInitiatedAt := None, refundCallOpen := false)
               else p.posting == Some(RefundInitiatedTxn(id, row.totalXAF))
                    && p.row == row.(refundCampayRef := Some(op.reference), refundCallOpen := false)
  {
    hide Refusal;
    hide RefundInitiatedTxn;
  }

  lemma RefundAcceptedKeeps(id: nat, row: Order, op: OrderOp, taken: bool, now: Time, book: BookTally, log: LogTally)
    requires Ready(row, op, book, log) && StepOrder(id, row, op, taken, now).Ok?
    requires op.OpRefundAccepted?
    ensures Keeps(id, row, book, log, StepOrder(id, row, op, taken, now).value)
  {
    hide StepOrder;
    hide RefundInitiatedTxn;
    InitiationBooks(id, book);
    RefundAcceptedRow(id, row, op, taken, now);
  }

  lemma RefundCallbackKeeps(id: nat, row: Order, op: OrderOp, taken: bool, now: Time, book: BookTally, log: LogTally)
    requires Ready(row, op, book, log) && StepOrder(id, row, op, taken, now).Ok?
    requires op.OpRefundCallback?
    ensures Keeps(id, row, book, log, StepOrder(id, row, op, taken, now).value)
  {
    HearAtMostTwo(log, id, StepOrder(id, row, op, taken, now).value.log);
  }

  /** Every write path keeps the row coherent, only ever moves it forward, and
      leaves the books and announcements in step with it. */
  lemma EveryWriteKeeps(id: nat, row: Order, op: OrderOp, taken: bool, now: Time, book: BookTally, log: LogTally)
    requires Ready(row, op, book, log) && StepOrder(id, row, op, taken, now).Ok?
    ensures Keeps(id, row, book, log, StepOrder(id, row, op, taken, now).value)
  {
    hide *;
    if op.OpInitiateMomo? || op.OpCollectFailed? || op.OpPaymentSucceeded? {
      PaymentKeeps(id, row, op, taken, now, book, log);
    } else if op.OpAccept? || op.OpRefuse? || op.OpCancel? || op.OpExpireDecision? || op.OpPromote? {
      DecisionKeeps(id, row, op, taken, now, book, log);
    } else if op.OpSetItemPrepared? || op.OpMarkReady? || op.OpPickUp? {
      KitchenKeeps(id, row, op, taken, now, book, log);
    } else if op.OpVendorCancel? {
      VendorCancelKeeps(id, row, op, taken, now, book, log);
    } else if op.OpAssignRider? || op.OpExpireForNoRider? {
      DispatchKeeps(id, row, op, taken, now, book, log);
    } else if op.OpDeliver? {
      DeliverKeeps(id, row, op, taken, now, book, log);
    } else if op.OpResolveFraud? {
      FraudKeeps(id, row, op, taken, now, book, log);
    } else if op.OpRefundCallback? {
      RefundCallbackKeeps(id, row, op, taken, now, book, log);
    } else if op.OpRefundAccepted? {
      RefundAcceptedKeeps(id, row, op, taken, now, book, log);
    } else {
      RefundCallKeeps(id, row, op, taken, now, book, log);
    }
  }

  /** The four delivery legs sum to minus the discount, whatever the rate and fee. */
  lemma BalancedOnlyIfUndiscounted(id: nat, order: Order, snapshot: Snapshot)
    requires Coherent(order) && snapshot == SnapshotOf(order)
    ensures SumOfLines(DeliveryTxn(id, order, snapshot).lines) == 0 - order.discountXAF
    ensures Refusal(DeliveryTxn(id, order, snapshot)).None? ==> order.discountXAF == 0
  {
    var lines := DeliveryTxn(id, order, snapshot).lines;
    assert lines[..3][..2] == lines[..2];
    assert lines[..2][..1][..0] == [];
    assert SumOfLines(lines[..2][..1]) == lines[0].amountXAF;
    assert SumOfLines(lines[..2]) == lines[0].amountXAF + lines[1].amountXAF;
    assert SumOfLines(lines[..3]) == SumOfLines(lines[..2]) + lines[2].amountXAF;
  }
}
