/** Which refunds of paid orders can still reach the customer. */
module RefundWays {
  import opened Common
  import opened Ledger
  import opened Pricing
  import opened Orders
  import opened OrderInvariants
  import opened OrderBooks
  import opened Payouts
  import opened Platform
  import opened PlatformInvariant
  import opened PlatformRuns
  import opened RowRuns
  import opened StrandedEscrow
  import opened UnpaidRefund

  /** A refund waits for the sweep with a phone to send it to, or its call is out
      while the row still waits. */
  predicate CanSettle(row: Order) {
    row.paymentStatus.RefundPending? && (row.refundCallOpen || row.payerPhone.Some?)
  }

  /** Paid, closed undelivered, not refunded, and no refund will ever settle. */
  predicate Hopeless(row: Order) {
    && row.snapshot.Some? && Rank(row.status) == 5 && !row.status.Delivered? && row.refundedAt.None?
    && (row.paymentStatus.RefundPending? ==> row.refundCampayRef.None? && !row.refundCallOpen && row.payerPhone.None?)
  }

  /** Some continuation of the run refunds the customer. */
  ghost predicate Refundable(states: seq<Db>, moments: seq<Moment>, id: nat) {
    exists ext: seq<Db>, more: seq<Moment> ::
      Run(ext, more) && states <= ext && moments <= more && Total(ext[|more|].ledger, Posted(RefundSettledFor(id))) == 1
  }

  // ── No way ───────────────────────────────────────────────────────────

  lemma HopelessRowStaysSo(id: nat, row: Order, op: OrderOp, taken: bool, now: Time)
    requires Coherent(row) && Possible(row, op) && Hopeless(row) && StepOrder(id, row, op, taken, now).Ok?
    ensures Hopeless(StepOrder(id, row, op, taken, now).value.row)
  {
    hide Refusal;
  }

  lemma {:induction false} HopelessAlongRuns(states: seq<Db>, moments: seq<Moment>, i: nat, j: nat, id: nat)
    requires Run(states, moments) && i <= j < |states| && id < |states[i].orders| && Hopeless(states[i].orders[id])
    ensures id < |states[j].orders| && Hopeless(states[j].orders[id])
    decreases j - i
  {
    hide Next;
    hide Legal;
    hide Hopeless;
    hide RowOp;
    hide StepOrder;
    hide Coherent;
    hide Accounted;
    if i < j {
      HopelessAlongRuns(states, moments, i, j - 1, id);
      var s, m := states[j - 1], moments[j - 1];
      NextIsOneWrite(s, m.op, m.now, id);
      var write := RowOp(s, m.op, m.now, id);
      if write.Some? {
        OrderIsOk(states, moments, j - 1, id);
        RowOpIsPossible(s, m.op, m.now, id);
        HopelessRowStaysSo(id, s.orders[id], write.value, ReferenceClash(s, id, write.value), m.now);
      }
    }
  }

  lemma HopelessIsNeverRefunded(states: seq<Db>, moments: seq<Moment>, i: nat, j: nat, id: nat)
    requires Run(states, moments) && i <= j < |states| && id < |states[i].orders| && Hopeless(states[i].orders[id])
    ensures Total(states[j].ledger, Posted(RefundSettledFor(id))) == 0
  {
    hide Run;
    hide Coherent;
    HopelessAlongRuns(states, moments, i, j, id);
    OrderIsOk(states, moments, j, id);
    assert TallyOf(states[j].ledger, id).settlements == 0;
  }

  // ── The way ──────────────────────────────────────────────────────────

  /** Lock, call, callback: at most three transitions refund the customer. */
  lemma RefundReachesTheCustomer(states: seq<Db>, moments: seq<Moment>, id: nat) returns (ext: seq<Db>, more: seq<Moment>)
    requires Run(states, moments) && id < |states[|moments|].orders|
    requires Held(states[|moments|].orders[id]) && CanSettle(states[|moments|].orders[id])
    ensures Run(ext, more) && states <= ext && moments <= more
    ensures Total(ext[|more|].ledger, Posted(RefundSettledFor(id))) == 1
  {
    hide Legal;
    hide Next;
    hide Coherent;
    hide Accounted;
    hide StepOrder;
    ext, more := Locked(states, moments, id);
    var s := ext[|more|];
    OrderIsOk(ext, more, |more|, id);
    HeldBooks(s.orders[id], TallyOf(s.ledger, id), HearAll(Silence, id, s.log));
    var reference := FreshReference(s.orders, s.webhooks.Keys);
    OwnReadIsLegal(s, id, OpRefundAccepted(s.orders[id], reference));
    Sends(s, id, reference);
    ext, more := WriteExtends(ext, more, id, OpRefundAccepted(s.orders[id], reference));
    var t := ext[|more|];
    OnlyHolder(t.orders, id, reference);
    var m := Moment(RefundCallbackOp(Callback(Some(reference), None, Successful)), t.clock);
    CallbacksAreLegal(t, m.op);
    UnpaidRefund.Settles(t, id, reference, t.clock);
    RunExtends(ext, more, m);
    ext, more := ext + [Next(t, m.op, t.clock)], more + [m];
    OrderIsOk(ext, more, |more|, id);
    SettledBooks(ext[|more|].orders[id], TallyOf(ext[|more|].ledger, id), HearAll(Silence, id, ext[|more|].log));
  }

  lemma SettledBooks(row: Order, book: BookTally, log: LogTally)
    requires Accounted(row, book, log) && row.refundedAt.Some?
    ensures book.settlements == 1
  {
  }

  /** A paid order that closed undelivered, nothing of it out, can still be
      refunded to its customer exactly when it waits as REFUND_PENDING and has a
      payer's phone or a call out, however many of its refunds failed before. */
  lemma RefundableIff(states: seq<Db>, moments: seq<Moment>, id: nat)
    requires Run(states, moments) && id < |states[|moments|].orders| && Held(states[|moments|].orders[id])
    ensures Refundable(states, moments, id) <==> CanSettle(states[|moments|].orders[id])
  {
    hide Next;
    hide Legal;
    if CanSettle(states[|moments|].orders[id]) {
      var ext, more := RefundReachesTheCustomer(states, moments, id);
    } else if Refundable(states, moments, id) {
      OrderIsOk(states, moments, |moments|, id);
      var ext: seq<Db>, more: seq<Moment> :|
        Run(ext, more) && states <= ext && moments <= more && Total(ext[|more|].ledger, Posted(RefundSettledFor(id))) == 1;
      assert ext[|moments|] == states[|moments|];
      HopelessIsNeverRefunded(ext, more, |moments|, |more|, id);
    }
  }

  /** The FAILED branch of the collect handler looks only for PAID: a late failed
      callback turns a REFUND_PENDING row FAILED, and no refund settles from
      there. With no call out its escrow is stuck as well. */
  lemma LateFailureEndsTheRefund(s: Db, cb: Callback, x: Time, id: nat)
    requires id < |s.orders| && Coherent(s.orders[id]) && Held(s.orders[id]) && s.orders[id].paymentStatus.RefundPending?
    requires Denies(cb.status) && ReferenceIn(cb).Some? && WebhookKey(Collect, ReferenceIn(cb).value) !in s.webhooks
    requires FindCollect(s.orders, ReferenceIn(cb).value) == Some(id)
    ensures var t := CollectWebhook(s, cb, x);
            && id < |t.orders| && t.orders[id] == s.orders[id].(paymentStatus := PaymentStatus.Failed)
            && Hopeless(t.orders[id]) && (!s.orders[id].refundCallOpen ==> Stuck(t.orders[id]))
  {
  }
}
