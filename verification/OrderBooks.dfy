/** What one order contributes to each account, read off its row. */
module OrderBooks {
  import opened Common
  import opened Ledger
  import opened Pricing
  import opened Orders
  import opened OrderInvariants

  /** The vendor's share of a delivered order: subtotal less commission. */
  function VendorShare(row: Order): int {
    if row.snapshot.Some? then row.subtotalXAF - row.snapshot.value.commissionXAF else 0
  }

  function Earned(row: Order, xaf: int): int { if row.status.Delivered? then xaf else 0 }

  function PaidIn(row: Order): int { if row.snapshot.Some? then row.totalXAF else 0 }

  function Repaid(row: Order): int { if row.refundedAt.Some? then row.totalXAF else 0 }

  function Fined(row: Order): int { if row.penaltyXAF.Some? then row.penaltyXAF.value else 0 }

  function Compensated(row: Order, book: BookTally): int { if book.compensations > 0 then VendorShare(row) else 0 }

  /** The closed form of an order's contribution to an account. Only refund
      initiations and compensations are not visible on the row. */
  function OrderTerm(id: nat, row: Order, book: BookTally, key: Key): int {
    match key
    case Escrow(o) => if o == id then row.totalXAF * book.initiations - PaidIn(row) + Earned(row, row.totalXAF) else 0
    case RefundDue(o) => if o == id then Repaid(row) - row.totalXAF * book.initiations else 0
    case Payable(Vendor(v)) => if v == row.vendorId then Fined(row) - Earned(row, VendorShare(row)) - Compensated(row, book) else 0
    case Payable(Rider(r)) =>
      if row.riderId == Some(r) && row.snapshot.Some? then 0 - Earned(row, row.snapshot.value.riderShareXAF) else 0
    case Revenue =>
      Compensated(row, book) - Fined(row)
      - (if row.snapshot.Some? then Earned(row, row.snapshot.value.platformFeeXAF) else 0)
    case Float => PaidIn(row) - Repaid(row)
    case _ => 0
  }

  function PostingTotal(posting: Option<Txn>, now: Time, key: Key): int {
    if posting.None? then 0 else Total(Rows(posting.value, now), key)
  }

  lemma OneMore(a: int, b: int)
    ensures a * (b + 1) == a * b + a
  {
  }

  /** A write's posting moves each account by exactly what the row's
      contribution moves. */
  ghost predicate Reconciles(id: nat, row: Order, book: BookTally, p: Patch, now: Time, key: Key) {
    PostingTotal(p.posting, now, key) == OrderTerm(id, p.row, Booked(book, p.posting), key) - OrderTerm(id, row, book, key)
  }

  /** What the refund writes leave of a row's money. */
  lemma RefundAcceptedShape(id: nat, row: Order, op: OrderOp, taken: bool, now: Time)
    requires op.OpRefundAccepted? && Possible(row, op) && StepOrder(id, row, op, taken, now).Ok?
    ensures var p := StepOrder(id, row, op, taken, now).value;
            && SameMoney(row, p.row)
            && (p.posting.Some? ==> p.posting == Some(RefundInitiatedTxn(id, row.totalXAF)) && Refusal(p.posting.value).None?)
  {
    hide Refusal;
    hide RefundInitiatedTxn;
  }

  lemma DeliveryShape(id: nat, row: Order, op: OrderOp, taken: bool, now: Time)
    requires op.OpDeliver? && Coherent(row) && Possible(row, op) && StepOrder(id, row, op, taken, now).Ok?
    ensures var p := StepOrder(id, row, op, taken, now).value;
            && p.row == row.(status := Delivered, deliveredAt := Some(now)) && !row.status.Delivered?
            && row.snapshot.Some? && row.riderId.Some?
            && p.posting == Some(DeliveryTxn(id, row, row.snapshot.value)) && Refusal(p.posting.value).None?
  {
    hide Refusal;
  }

  lemma FraudShape(id: nat, row: Order, op: OrderOp, taken: bool, now: Time)
    requires op.OpResolveFraud? && Coherent(row) && Possible(row, op) && StepOrder(id, row, op, taken, now).Ok?
    ensures var p := StepOrder(id, row, op, taken, now).value;
            && SameMoney(row, p.row) && !row.status.Delivered? && row.status.PickedUp?
            && (p.posting.Some? ==> row.snapshot.Some? && p.posting == Some(CompensationTxn(id, row.vendorId, VendorShare(row)))
                                    && Refusal(p.posting.value).None?)
  {
    hide Refusal;
    hide CompensationTxn;
  }

  lemma SettlementShape(id: nat, row: Order, op: OrderOp, taken: bool, now: Time)
    requires op.OpRefundCallback? && Coherent(row) && StepOrder(id, row, op, taken, now).Ok?
    ensures var p := StepOrder(id, row, op, taken, now).value;
            && (p.posting.None? ==> SameMoney(row, p.row))
            && (p.posting.Some? ==> p.row == row.(paymentStatus := Refunded, refundedAt := Some(now)) && row.refundedAt.None?
                                    && p.posting == Some(RefundSettledTxn(id, row.totalXAF)) && Refusal(p.posting.value).None?)
  {
    hide Refusal;
    hide RefundSettledTxn;
  }

  lemma PaymentReconciles(id: nat, row: Order, op: OrderOp, taken: bool, now: Time, book: BookTally, log: LogTally, key: Key)
    requires Ready(row, op, book, log) && StepOrder(id, row, op, taken, now).Ok?
    requires op.OpPaymentSucceeded? && !key.Posted?
    ensures Reconciles(id, row, book, StepOrder(id, row, op, taken, now).value, now, key)
  {
    var p := StepOrder(id, row, op, taken, now).value;
    BookingIsBalanced(p.posting.value, now, if key.Group? then key.event else NoEventId);
    TotalOfTwo(Rows(p.posting.value, now), key);
  }

  lemma DeliveryReconciles(id: nat, row: Order, op: OrderOp, taken: bool, now: Time, book: BookTally, log: LogTally, key: Key)
    requires Ready(row, op, book, log) && StepOrder(id, row, op, taken, now).Ok?
    requires op.OpDeliver? && !key.Posted?
    ensures Reconciles(id, row, book, StepOrder(id, row, op, taken, now).value, now, key)
  {
    hide StepOrder;
    hide Refusal;
    hide Accounted;
    hide Coherent;
    hide Earlier;
    DeliveryShape(id, row, op, taken, now);
    var p := StepOrder(id, row, op, taken, now).value;
    BookingIsBalanced(p.posting.value, now, if key.Group? then key.event else NoEventId);
    TotalOfFour(Rows(p.posting.value, now), key);
  }

  lemma PenaltyReconciles(id: nat, row: Order, op: OrderOp, taken: bool, now: Time, book: BookTally, log: LogTally, key: Key)
    requires Ready(row, op, book, log) && StepOrder(id, row, op, taken, now).Ok?
    requires op.OpVendorCancel? && !key.Posted?
    ensures Reconciles(id, row, book, StepOrder(id, row, op, taken, now).value, now, key)
  {
    hide Accounted;
    var p := StepOrder(id, row, op, taken, now).value;
    BookingIsBalanced(p.posting.value, now, if key.Group? then key.event else NoEventId);
    TotalOfTwo(Rows(p.posting.value, now), key);
  }

  lemma FraudReconciles(id: nat, row: Order, op: OrderOp, taken: bool, now: Time, book: BookTally, log: LogTally, key: Key)
    requires Ready(row, op, book, log) && StepOrder(id, row, op, taken, now).Ok?
    requires op.OpResolveFraud? && !key.Posted?
    ensures Reconciles(id, row, book, StepOrder(id, row, op, taken, now).value, now, key)
  {
    hide StepOrder;
    hide Refusal;
    hide Coherent;
    hide Earlier;
    FraudShape(id, row, op, taken, now);
    var p := StepOrder(id, row, op, taken, now).value;
    if p.posting.Some? {
      BookingIsBalanced(p.posting.value, now, if key.Group? then key.event else NoEventId);
      TotalOfTwo(Rows(p.posting.value, now), key);
    }
  }

  lemma RefundStartReconciles(id: nat, row: Order, op: OrderOp, taken: bool, now: Time, book: BookTally, log: LogTally, key: Key)
    requires Ready(row, op, book, log) && StepOrder(id, row, op, taken, now).Ok?
    requires op.OpRefundAccepted? && !key.Posted?
    ensures Reconciles(id, row, book, StepOrder(id, row, op, taken, now).value, now, key)
  {
    hide StepOrder;
    hide Refusal;
    hide Accounted;
    hide Coherent;
    hide Earlier;
    RefundAcceptedShape(id, row, op, taken, now);
    var p := StepOrder(id, row, op, taken, now).value;
    if p.posting.Some? {
      BookingIsBalanced(p.posting.value, now, if key.Group? then key.event else NoEventId);
      TotalOfTwo(Rows(p.posting.value, now), key);
      OneMore(row.totalXAF, book.initiations);
    }
  }

  lemma RefundEndReconciles(id: nat, row: Order, op: OrderOp, taken: bool, now: Time, book: BookTally, log: LogTally, key: Key)
    requires Ready(row, op, book, log) && StepOrder(id, row, op, taken, now).Ok?
    requires op.OpRefundCallback? && !key.Posted?
    ensures Reconciles(id, row, book, StepOrder(id, row, op, taken, now).value, now, key)
  {
    hide StepOrder;
    hide Refusal;
    hide Accounted;
    hide Coherent;
    hide Earlier;
    SettlementShape(id, row, op, taken, now);
    var p := StepOrder(id, row, op, taken, now).value;
    if p.posting.Some? {
      BookingIsBalanced(p.posting.value, now, if key.Group? then key.event else NoEventId);
      TotalOfTwo(Rows(p.posting.value, now), key);
    }
  }

  predicate Posts(op: OrderOp) {
    op.OpPaymentSucceeded? || op.OpDeliver? || op.OpVendorCancel? || op.OpResolveFraud?
    || op.OpRefundAccepted? || op.OpRefundCallback?
  }

  /** The columns an order's contribution is read from. */
  predicate SameMoney(row: Order, after: Order) {
    && after.vendorId == row.vendorId && after.totalXAF == row.totalXAF && after.subtotalXAF == row.subtotalXAF
    && after.snapshot == row.snapshot && after.refundedAt == row.refundedAt && after.penaltyXAF == row.penaltyXAF
    && after.status.Delivered? == row.status.Delivered?
    && (row.status.Delivered? ==> after.riderId == row.riderId)
  }

  lemma SilentWriteMovesNoMoney(id: nat, row: Order, op: OrderOp, taken: bool, now: Time)
    requires Coherent(row) && !Posts(op) && StepOrder(id, row, op, taken, now).Ok?
    ensures var p := StepOrder(id, row, op, taken, now).value; p.posting.None? && SameMoney(row, p.row)
  {
  }

  lemma EveryWriteReconciles(id: nat, row: Order, op: OrderOp, taken: bool, now: Time, book: BookTally, log: LogTally, key: Key)
    requires Ready(row, op, book, log) && StepOrder(id, row, op, taken, now).Ok? && !key.Posted?
    ensures Reconciles(id, row, book, StepOrder(id, row, op, taken, now).value, now, key)
  {
    hide StepOrder;
    hide Accounted;
    hide Earlier;
    if op.OpPaymentSucceeded? {
      PaymentReconciles(id, row, op, taken, now, book, log, key);
    } else if op.OpDeliver? {
      DeliveryReconciles(id, row, op, taken, now, book, log, key);
    } else if op.OpVendorCancel? {
      PenaltyReconciles(id, row, op, taken, now, book, log, key);
    } else if op.OpResolveFraud? {
      FraudReconciles(id, row, op, taken, now, book, log, key);
    } else if op.OpRefundAccepted? {
      RefundStartReconciles(id, row, op, taken, now, book, log, key);
    } else if op.OpRefundCallback? {
      RefundEndReconciles(id, row, op, taken, now, book, log, key);
    } else {
      SilentWriteMovesNoMoney(id, row, op, taken, now);
    }
  }

  // ── Counting transactions ────────────────────────────────────────────

  /** The order an event is about, if it is about one. */
  function SubjectOf(event: EventId): Option<nat> {
    match event
    case NoEventId => None
    case PayoutOf(_) => None
    case PaymentOf(o) => Some(o)
    case DeliveryOf(o) => Some(o)
    case RefundInitiatedFor(o) => Some(o)
    case RefundSettledFor(o) => Some(o)
    case PenaltyOn(o) => Some(o)
    case CompensationFor(o) => Some(o)
  }

  function TallyOf(ledger: seq<Row>, id: nat): BookTally {
    BookTally(Total(ledger, Posted(PaymentOf(id))), Total(ledger, Posted(DeliveryOf(id))),
              Total(ledger, Posted(RefundInitiatedFor(id))), Total(ledger, Posted(RefundSettledFor(id))),
              Total(ledger, Posted(PenaltyOn(id))), Total(ledger, Posted(CompensationFor(id))))
  }

  /** The account that counts a transaction occurs on one of its legs. */
  predicate LeadsOnce(txn: Txn) {
    var lead := LeadAccount(txn.eventId);
    if |txn.lines| == 2 then Bit(txn.lines[0].account == lead) + Bit(txn.lines[1].account == lead) == 1
    else
      && |txn.lines| == 4
      && Bit(txn.lines[0].account == lead) + Bit(txn.lines[1].account == lead)
         + Bit(txn.lines[2].account == lead) + Bit(txn.lines[3].account == lead) == 1
  }

  lemma PostingShape(id: nat, row: Order, op: OrderOp, taken: bool, now: Time)
    requires StepOrder(id, row, op, taken, now).Ok? && StepOrder(id, row, op, taken, now).value.posting.Some?
    ensures var txn := StepOrder(id, row, op, taken, now).value.posting.value;
            SubjectOf(txn.eventId) == Some(id) && LeadsOnce(txn)
  {
    hide Refusal;
  }

  /** A write's posting is one transaction, about the written order. */
  lemma PostingIsCountedOnce(id: nat, row: Order, op: OrderOp, taken: bool, now: Time, event: EventId)
    requires StepOrder(id, row, op, taken, now).Ok?
    ensures var posting := StepOrder(id, row, op, taken, now).value.posting;
            && (posting.Some? ==> SubjectOf(posting.value.eventId) == Some(id))
            && PostingTotal(posting, now, Posted(event)) == Bit(posting.Some? && posting.value.eventId == event)
  {
    hide StepOrder;
    var posting := StepOrder(id, row, op, taken, now).value.posting;
    if posting.Some? {
      PostingShape(id, row, op, taken, now);
      if |posting.value.lines| == 4 {
        TotalOfFour(Rows(posting.value, now), Posted(event));
      } else {
        TotalOfTwo(Rows(posting.value, now), Posted(event));
      }
    }
  }
}
