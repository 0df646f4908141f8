/** What a run does to one order row: one write at a time. */
module RowRuns {
  import opened Common
  import opened Ledger
  import opened Orders
  import opened OrderInvariants
  import opened OrderBooks
  import opened Payouts
  import opened Platform
  import opened PlatformInvariant
  import opened PlatformRuns

  /** The order whose row a callback writes, if it is the first of its reference. */
  function CollectWrites(s: Db, cb: Callback): Option<nat> {
    if ReferenceIn(cb).None? || WebhookKey(Collect, ReferenceIn(cb).value) in s.webhooks || !Denies(cb.status) then None
    else FindCollect(s.orders, ReferenceIn(cb).value)
  }

  function RefundWrites(s: Db, cb: Callback): Option<nat> {
    if !Terminal(cb) || WebhookKey(Refund, ReferenceIn(cb).value) in s.webhooks then None
    else FindRefund(s.orders, ReferenceIn(cb).value)
  }

  /** The write a transition makes to row `id`, if one goes through. */
  function RowOp(s: Db, op: Op, now: Time, id: nat): Option<OrderOp> {
    var write := match op
                 case Write(o, w) => if o == id then Some(w) else None
                 case CollectCallback(cb) => if CollectWrites(s, cb) == Some(id) then Some(OpCollectFailed) else None
                 case RefundCallbackOp(cb) =>
                   if RefundWrites(s, cb) == Some(id) then Some(OpRefundCallback(Confirms(cb.status))) else None
                 case _ => None;
    if write.Some? && OrderOutcome(s, id, write.value, now).Ok? then write else None
  }

  /** What a write leaves of the row and its books. */
  ghost predicate WroteRow(s: Db, t: Db, id: nat, p: Patch)
    requires id < |s.orders|
  {
    && |t.orders| == |s.orders| && t.orders[id] == p.row
    && TallyOf(t.ledger, id) == Booked(TallyOf(s.ledger, id), p.posting)
  }

  ghost predicate LeftRow(s: Db, t: Db, id: nat)
    requires id < |s.orders|
  {
    id < |t.orders| && t.orders[id] == s.orders[id] && TallyOf(t.ledger, id) == TallyOf(s.ledger, id)
  }

  lemma OnOrderIsOneWrite(s: Db, order: nat, write: OrderOp, now: Time, id: nat)
    requires id < |s.orders|
    ensures var t := OnOrder(s, order, write, now);
            if order == id && OrderOutcome(s, id, write, now).Ok? then WroteRow(s, t, id, OrderOutcome(s, id, write, now).value)
            else LeftRow(s, t, id)
  {
    hide StepOrder;
    hide TallyOf;
    if OrderOutcome(s, order, write, now).Ok? {
      TallyAfterWrite(s, order, write, now, id);
    }
  }

  /** Scheduling payouts books nothing about orders. */
  lemma PayoutsLeaveTallies(s: Db, payee: Payee, netXAF: int, start: Time, end: Time, now: Time, id: nat)
    requires netXAF != 0
    ensures TallyOf(Scheduled(s, payee, netXAF, start, end, now).ledger, id) == TallyOf(s.ledger, id)
  {
    forall event: EventId
      ensures Total(Scheduled(s, payee, netXAF, start, end, now).ledger, Posted(event))
           == Total(s.ledger, Posted(event)) + Bit(event == PayoutOf(|s.payouts|))
    {
      TotalOfAppend(s.ledger, Rows(PayoutTxn(payee, |s.payouts|, netXAF), now), Posted(event));
      PayoutReconciles(payee, |s.payouts|, netXAF, now, Posted(event));
    }
  }

  lemma PaymentsLeaveRows(s: Db, op: Op, now: Time, id: nat)
    requires id < |s.orders| && (op.PayVendor? || op.PayRider? || op.GrantCashout?)
    ensures LeftRow(s, Next(s, op, now), id)
  {
    hide TallyOf;
    match op {
      case PayVendor(vendor, seen, end) =>
        if VendorPayoutVerdict(s, vendor, seen).Ok? {
          PayoutsLeaveTallies(s, Vendor(vendor), seen.balanceXAF, seen.start, end, now, id);
        }
      case PayRider(rider, kyc, seen, end) =>
        if RiderPayoutVerdict(s, rider, kyc, seen).Ok? {
          PayoutsLeaveTallies(s, Rider(rider), seen.balanceXAF, seen.start, end, now, id);
        }
      case GrantCashout(request, pending, seen, end) =>
        if CashoutVerdict(s, request, pending, seen).Ok? {
          PayoutsLeaveTallies(s, Vendor(s.cashouts[request].vendor), seen.balanceXAF, seen.start, end, now, id);
        }
    }
  }

  lemma MovesLeaveRows(s: Db, id: nat, move: PayoutOp)
    ensures OnPayout(s, id, move).orders == s.orders && OnPayout(s, id, move).ledger == s.ledger
  {
  }

  lemma CallbackIsOneWrite(s: Db, op: Op, now: Time, id: nat)
    requires id < |s.orders| && (op.CollectCallback? || op.RefundCallbackOp?)
    ensures var t, write := Next(s, op, now), RowOp(s, op, now, id);
            if write.Some? then WroteRow(s, t, id, OrderOutcome(s, id, write.value, now).value) else LeftRow(s, t, id)
  {
    hide OnOrder;
    hide OrderOutcome;
    hide TallyOf;
    hide FindCollect;
    hide FindRefund;
    if ReferenceIn(op.cb).Some? {
      var hit := if op.CollectCallback? then FindCollect(s.orders, ReferenceIn(op.cb).value)
                 else FindRefund(s.orders, ReferenceIn(op.cb).value);
      var write := if op.CollectCallback? then OpCollectFailed else OpRefundCallback(Confirms(op.cb.status));
      if hit.Some? {
        OnOrderIsOneWrite(s, hit.value, write, now, id);
      }
    }
  }

  /** One transition writes a given row once or not at all, and books about it
      exactly what that write books. */
  lemma NextIsOneWrite(s: Db, op: Op, now: Time, id: nat)
    requires id < |s.orders|
    ensures var t, write := Next(s, op, now), RowOp(s, op, now, id);
            if write.Some?
            then OrderOutcome(s, id, write.value, now).Ok? && WroteRow(s, t, id, OrderOutcome(s, id, write.value, now).value)
            else LeftRow(s, t, id)
  {
    hide OnOrder;
    hide OnPayout;
    hide OrderOutcome;
    hide PayoutOutcomeOf;
    hide TallyOf;
    hide CollectWebhook;
    hide RefundWebhook;
    hide CollectWrites;
    hide RefundWrites;
    match op {
      case Write(order, write) => OnOrderIsOneWrite(s, order, write, now, id);
      case Move(payout, move) => MovesLeaveRows(s, payout, move);
      case CollectCallback(_) => CallbackIsOneWrite(s, op, now, id);
      case RefundCallbackOp(_) => CallbackIsOneWrite(s, op, now, id);
      case TransferCallbackOp(cb) =>
        if ReferenceIn(cb).Some? && TransferTarget(s.payouts, ReferenceIn(cb).value).Some? {
          MovesLeaveRows(s, TransferTarget(s.payouts, ReferenceIn(cb).value).value, OpTransferCallback(Confirms(cb.status)));
        }
      case Place(draft) =>
      case AskCashout(_, _, _) =>
      case DenyCashout(_) =>
      case _ => PaymentsLeaveRows(s, op, now, id);
    }
  }

  /** And that write was possible on the row. */
  lemma RowOpIsPossible(s: Db, op: Op, now: Time, id: nat)
    requires Legal(s, op) && id < |s.orders| && RowOp(s, op, now, id).Some?
    ensures Possible(s.orders[id], RowOp(s, op, now, id).value)
  {
    hide OrderOutcome;
    hide Earlier;
    if op.RefundCallbackOp? {
      FoundRefund(s.orders, ReferenceIn(op.cb).value);
    }
  }
}
