/** Codes and references are unique in every state of every run. */
module References {
  import opened Common
  import opened Ledger
  import opened Orders
  import opened OrderInvariants
  import opened OrderBooks
  import opened OrderRules
  import opened Payouts
  import opened Platform
  import opened PlatformInvariant
  import opened PlatformRuns
  import opened RowRuns

  /** Two orders share neither code nor collect reference nor refund reference;
      two payouts of one table share no transfer reference. */
  ghost predicate OrdersDiffer(a: Order, b: Order) {
    && a.code != b.code
    && (a.paymentReference.Some? ==> a.paymentReference != b.paymentReference)
    && (a.refundCampayRef.Some? ==> a.refundCampayRef != b.refundCampayRef)
  }

  ghost predicate PayoutsDiffer(a: Payout, b: Payout) {
    a.campayRef.Some? && a.payee.Vendor? == b.payee.Vendor? ==> a.campayRef != b.campayRef
  }

  ghost predicate Unique(s: Db) {
    && (forall i, j :: 0 <= i < |s.orders| && 0 <= j < |s.orders| && i != j ==> OrdersDiffer(s.orders[i], s.orders[j]))
    && (forall i, j :: 0 <= i < |s.payouts| && 0 <= j < |s.payouts| && i != j ==> PayoutsDiffer(s.payouts[i], s.payouts[j]))
  }

  /** A write takes no reference that another row holds. */
  lemma WriteKeepsDiffering(s: Db, id: nat, op: OrderOp, now: Time, other: nat)
    requires id < |s.orders| && other < |s.orders| && other != id && OrdersDiffer(s.orders[id], s.orders[other])
    requires Coherent(s.orders[id]) && Possible(s.orders[id], op) && OrderOutcome(s, id, op, now).Ok?
    ensures var after := OrderOutcome(s, id, op, now).value.row;
            OrdersDiffer(after, s.orders[other]) && OrdersDiffer(s.orders[other], after)
  {
    hide StepOrder;
    hide Coherent;
    hide Earlier;
    ColumnsAfterWrite(id, s.orders[id], op, ReferenceClash(s, id, op), now);
    CodeAfterWrite(id, s.orders[id], op, ReferenceClash(s, id, op), now);
    if ReferenceClash(s, id, op) {
      TakenGoesNowhere(id, s.orders[id], op, true, now);
    }
  }

  lemma CodeAfterWrite(id: nat, row: Order, op: OrderOp, taken: bool, now: Time)
    requires StepOrder(id, row, op, taken, now).Ok?
    ensures StepOrder(id, row, op, taken, now).value.row.code == row.code
  {
    hide Refusal;
    hide SnapshotOf;
  }

  lemma TakenGoesNowhere(id: nat, row: Order, op: OrderOp, taken: bool, now: Time)
    requires StepOrder(id, row, op, taken, now).Ok? && taken
    ensures !op.OpPaymentSucceeded? && !op.OpInitiateMomo?
    ensures op.OpRefundAccepted? ==> StepOrder(id, row, op, taken, now).value.posting.None?
  {
    hide Refusal;
    hide SnapshotOf;
  }

  /** Placed orders are new by their code, and hold no reference yet. */
  lemma PlaceKeepsUnique(s: Db, draft: Draft)
    requires Unique(s)
    ensures Unique(PlaceOrder(s, draft))
  {
  }

  lemma MoveKeepsUnique(s: Db, id: nat, op: PayoutOp)
    requires Unique(s)
    ensures Unique(OnPayout(s, id, op))
  {
  }

  lemma ScheduledKeepsUnique(s: Db, payee: Payee, netXAF: int, start: Time, end: Time, now: Time)
    requires Unique(s)
    ensures Unique(Scheduled(s, payee, netXAF, start, end, now))
  {
    hide Taggable;
  }

  /** One row changes at a time. */
  lemma OneRowChanges(s: Db, op: Op, now: Time, i: nat, j: nat)
    requires RowOp(s, op, now, i).Some? && RowOp(s, op, now, j).Some?
    ensures i == j
  {
    hide OrderOutcome;
  }

  lemma OrdersStayDifferent(s: Db, op: Op, now: Time, i: nat, j: nat)
    requires Inv(s) && Legal(s, op) && i < |s.orders| && j < |s.orders| && i != j
    requires OrdersDiffer(s.orders[i], s.orders[j]) && OrdersDiffer(s.orders[j], s.orders[i])
    ensures var t := Next(s, op, now); i < |t.orders| && j < |t.orders| && OrdersDiffer(t.orders[i], t.orders[j])
  {
    hide Next;
    hide Legal;
    hide RowOp;
    hide OrderOutcome;
    hide Coherent;
    hide Accounted;
    hide OrdersDiffer;
    NextIsOneWrite(s, op, now, i);
    NextIsOneWrite(s, op, now, j);
    assert OrderOk(s, i) && OrderOk(s, j);
    if RowOp(s, op, now, i).Some? {
      if RowOp(s, op, now, j).Some? {
        OneRowChanges(s, op, now, i, j);
      }
      RowOpIsPossible(s, op, now, i);
      WriteKeepsDiffering(s, i, RowOp(s, op, now, i).value, now, j);
    } else if RowOp(s, op, now, j).Some? {
      RowOpIsPossible(s, op, now, j);
      WriteKeepsDiffering(s, j, RowOp(s, op, now, j).value, now, i);
    }
  }

  lemma SchedulingKeepsUnique(s: Db, op: Op, now: Time)
    requires Unique(s) && (op.PayVendor? || op.PayRider? || op.GrantCashout?)
    ensures Unique(Next(s, op, now))
  {
    hide Scheduled;
    hide Unique;
    match op {
      case PayVendor(vendor, seen, end) => ScheduledKeepsUnique(s, Vendor(vendor), seen.balanceXAF, seen.start, end, now);
      case PayRider(rider, _, seen, end) => ScheduledKeepsUnique(s, Rider(rider), seen.balanceXAF, seen.start, end, now);
      case GrantCashout(request, _, seen, end) =>
        if request < |s.cashouts| {
          ScheduledKeepsUnique(s, Vendor(s.cashouts[request].vendor), seen.balanceXAF, seen.start, end, now);
        }
    }
    OnlyTablesMatter(Apply(s, op, now), Next(s, op, now));
    if op.GrantCashout? && op.request < |s.cashouts| {
      OnlyTablesMatter(Scheduled(s, Vendor(s.cashouts[op.request].vendor), op.seen.balanceXAF, op.seen.start, op.end, now),
                       Next(s, op, now));
    }
  }

  lemma OnlyTablesMatter(s: Db, t: Db)
    ensures s.orders == t.orders && s.payouts == t.payouts && Unique(s) ==> Unique(t)
  {
  }

  lemma NextKeepsPayoutsUnique(s: Db, op: Op, now: Time)
    requires Unique(s)
    ensures var t := Next(s, op, now).payouts;
            forall i, j :: 0 <= i < |t| && 0 <= j < |t| && i != j ==> PayoutsDiffer(t[i], t[j])
  {
    hide OnOrder;
    hide OnPayout;
    hide OrderOutcome;
    hide PayoutOutcomeOf;
    hide PayoutsDiffer;
    hide OrdersDiffer;
    match op {
      case Move(id, move) => MoveKeepsUnique(s, id, move);
      case TransferCallbackOp(cb) =>
        if Terminal(cb) && TransferTarget(s.payouts, ReferenceIn(cb).value).Some? {
          MoveKeepsUnique(s, TransferTarget(s.payouts, ReferenceIn(cb).value).value, OpTransferCallback(Confirms(cb.status)));
        }
      case PayVendor(_, _, _) => SchedulingKeepsUnique(s, op, now);
      case PayRider(_, _, _, _) => SchedulingKeepsUnique(s, op, now);
      case GrantCashout(_, _, _, _) => SchedulingKeepsUnique(s, op, now);
      case _ => OrderOpsLeavePayouts(s, op, now);
    }
  }

  lemma OrderOpsLeavePayouts(s: Db, op: Op, now: Time)
    requires !op.Move? && !op.TransferCallbackOp? && !op.PayVendor? && !op.PayRider? && !op.GrantCashout?
    ensures Next(s, op, now).payouts == s.payouts
  {
    hide StepOrder;
  }

  lemma NextKeepsUnique(s: Db, op: Op, now: Time)
    requires Inv(s) && Legal(s, op) && Unique(s)
    ensures Unique(Next(s, op, now))
  {
    hide Next;
    hide Legal;
    hide Inv;
    hide OrdersDiffer;
    hide PayoutsDiffer;
    NextKeepsPayoutsUnique(s, op, now);
    var t := Next(s, op, now);
    if op.Place? {
      PlacedIsUnique(s, op.draft, now);
    } else {
      SameOrders(s, op, now);
      forall i, j | 0 <= i < |t.orders| && 0 <= j < |t.orders| && i != j ensures OrdersDiffer(t.orders[i], t.orders[j]) {
        OrdersStayDifferent(s, op, now, i, j);
      }
    }
  }

  lemma PlacedIsUnique(s: Db, draft: Draft, now: Time)
    requires Unique(s)
    ensures Unique(Next(s, Place(draft), now))
  {
    hide Unique;
    PlaceKeepsUnique(s, draft);
    OnlyTablesMatter(PlaceOrder(s, draft), Next(s, Place(draft), now));
  }

  lemma SameOrders(s: Db, op: Op, now: Time)
    requires !op.Place?
    ensures |Next(s, op, now).orders| == |s.orders|
  {
    hide StepOrder;
    hide StepPayout;
    hide VendorPayoutVerdict;
    hide RiderPayoutVerdict;
    hide CashoutVerdict;
  }

  /** Whatever Campay answers, and however late: a stored reference names one row. */
  lemma {:induction false} ReferencesStayUnique(states: seq<Db>, moments: seq<Moment>, i: nat)
    requires Run(states, moments) && i < |states|
    ensures Unique(states[i])
  {
    hide Next;
    hide Legal;
    hide Inv;
    if i > 0 {
      ReferencesStayUnique(states, moments, i - 1);
      RunKeepsInv(states, moments, i - 1);
      NextKeepsUnique(states[i - 1], moments[i - 1].op, moments[i - 1].now);
    }
  }

  /** A reference is taken exactly when another order has it. */
  lemma TakenIff(s: Db, id: nat, caller: nat, phone: nat, reference: Ref, read: Order, payer: Option<nat>)
    ensures ReferenceClash(s, id, OpInitiateMomo(caller, phone, Some(reference)))
            <==> exists i: nat :: i < |s.orders| && i != id && s.orders[i].paymentReference == Some(reference)
    ensures ReferenceClash(s, id, OpPaymentSucceeded(read, reference, payer))
            <==> exists i: nat :: i < |s.orders| && i != id && s.orders[i].paymentReference == Some(reference)
    ensures ReferenceClash(s, id, OpRefundAccepted(read, reference))
            <==> exists i: nat :: i < |s.orders| && i != id && s.orders[i].refundCampayRef == Some(reference)
    ensures !ReferenceClash(s, id, OpInitiateMomo(caller, phone, None))
  {
  }

  lemma TransferReferenceTakenIff(s: Db, id: nat, reference: Ref, op: PayoutOp)
    requires id < |s.payouts|
    ensures CampayRefClash(s, id, op)
            <==> && (op.OpTransferAccepted? || op.OpManualPaid?)
                 && exists i: nat :: i < |s.payouts| && i != id && s.payouts[i].campayRef == Some(op.reference)
                                     && s.payouts[i].payee.Vendor? == s.payouts[id].payee.Vendor?
  {
  }

  /** An order is placed, last and as drafted, unless its code is some order's. */
  lemma PlacedIff(s: Db, draft: Draft)
    ensures var used := exists i: nat :: i < |s.orders| && s.orders[i].code == draft.code;
            PlaceOrder(s, draft) == if used then s else s.(orders := s.orders + [Placed(draft)])
    ensures var row := Placed(draft);
            && row.userId == draft.userId && row.vendorId == draft.vendorId && row.code == draft.code
            && row.status == Pending && row.paymentStatus == Unpaid
            && row.subtotalXAF == draft.subtotalXAF && row.deliveryFeeXAF == draft.deliveryFeeXAF
            && row.discountXAF == draft.discountXAF
            && row.totalXAF + draft.discountXAF == draft.subtotalXAF + draft.deliveryFeeXAF
            && row.commissionRate == draft.commissionRate && row.pickupCode == draft.pickupCode
            && row.deliveryCode == draft.deliveryCode && row.scheduledFor == draft.scheduledFor
            && |row.prepared| == draft.items && true !in row.prepared
            && {row.snapshot.Some?, row.paymentReference.Some?, row.payerPhone.Some?, row.riderId.Some?,
                row.acceptanceDeadlineAt.Some?, row.deliveredAt.Some?, row.penaltyXAF.Some?, row.refundInitiatedAt.Some?,
                row.refundCampayRef.Some?, row.refundedAt.Some?, row.refundCallOpen} == {false}
  {
  }

  /** Writes to rows that do not exist are told so and change nothing; so do
      refused ones. */
  lemma NoRowNoWrite(s: Db, id: nat, op: OrderOp, move: PayoutOp, now: Time)
    ensures id >= |s.orders| ==> OrderOutcome(s, id, op, now) == Err(OrderNotFound)
    ensures id >= |s.payouts| ==> PayoutOutcomeOf(s, id, move) == Err(PayoutNotFound)
    ensures OrderOutcome(s, id, op, now).Err? ==> OnOrder(s, id, op, now) == s
    ensures PayoutOutcomeOf(s, id, move).Err? ==> OnPayout(s, id, move) == s
  {
    hide StepOrder;
    hide StepPayout;
  }
}
