/** What holds in every state of every run, and along every run. */
module PlatformRuns {
  import opened Common
  import opened Ledger
  import opened Pricing
  import opened Orders
  import opened OrderInvariants
  import opened OrderBooks
  import opened Payouts
  import opened Platform
  import opened PlatformInvariant

  datatype Moment = Moment(op: Op, now: Time)

  /** Any interleaving of requests, jobs, crons and callbacks. */
  ghost predicate Run(states: seq<Db>, moments: seq<Moment>) {
    && |states| == |moments| + 1
    && Initial(states[0])
    && forall i :: 0 <= i < |moments| ==>
         && Legal(states[i], moments[i].op)
         && states[i].clock <= moments[i].now
         && states[i + 1] == Next(states[i], moments[i].op, moments[i].now)
  }

  /** One more transition of a run, if its last state allows it. */
  lemma RunExtends(states: seq<Db>, moments: seq<Moment>, m: Moment)
    requires Run(states, moments)
    requires Legal(states[|moments|], m.op) && states[|moments|].clock <= m.now
    ensures Run(states + [Next(states[|moments|], m.op, m.now)], moments + [m])
  {
    hide Legal;
    hide Next;
  }

  lemma {:induction false} RunKeepsInv(states: seq<Db>, moments: seq<Moment>, i: nat)
    requires Run(states, moments) && i < |states|
    ensures Inv(states[i])
  {
    if i == 0 {
      InitialInv(states[0]);
    } else {
      RunKeepsInv(states, moments, i - 1);
      NextKeepsInv(states[i - 1], moments[i - 1].op, moments[i - 1].now);
    }
  }

  // ── Rows along a run ─────────────────────────────────────────────────

  /** A row and what it may become in one transition. */
  ghost predicate Succeeds(row: Order, after: Order) {
    Earlier(row, after) && Forward(row, after)
  }

  lemma SucceedsIsReflexive(s: Db, id: nat)
    requires Inv(s) && id < |s.orders|
    ensures Succeeds(s.orders[id], s.orders[id])
  {
    assert OrderOk(s, id);
    EarlierIsReflexive(s.orders[id]);
  }

  lemma WriteMovesRowsForward(s: Db, order: nat, write: OrderOp, now: Time, id: nat)
    requires Inv(s) && id < |s.orders| && (order < |s.orders| ==> Possible(s.orders[order], write))
    ensures |OnOrder(s, order, write, now).orders| == |s.orders|
    ensures Succeeds(s.orders[id], OnOrder(s, order, write, now).orders[id])
  {
    hide StepOrder;
    hide Accounted;
    hide Inv;
    hide Earlier;
    hide Forward;
    SucceedsIsReflexive(s, id);
    if OrderOutcome(s, order, write, now).Ok? {
      WriteKeepsInv(s, order, write, now);
    }
  }

  lemma CollectMovesRowsForward(s: Db, cb: Callback, now: Time, id: nat)
    requires Inv(s) && id < |s.orders|
    ensures |CollectWebhook(s, cb, now).orders| == |s.orders|
    ensures Succeeds(s.orders[id], CollectWebhook(s, cb, now).orders[id])
  {
    hide StepOrder;
    hide Accounted;
    hide Inv;
    hide Succeeds;
    SucceedsIsReflexive(s, id);
    if ReferenceIn(cb).Some? {
      FoundCollect(s.orders, ReferenceIn(cb).value);
      var hit := FindCollect(s.orders, ReferenceIn(cb).value);
      if hit.Some? {
        WriteMovesRowsForward(s, hit.value, OpCollectFailed, now, id);
      }
    }
  }

  lemma RefundMovesRowsForward(s: Db, cb: Callback, now: Time, id: nat)
    requires Inv(s) && id < |s.orders|
    ensures |RefundWebhook(s, cb, now).orders| == |s.orders|
    ensures Succeeds(s.orders[id], RefundWebhook(s, cb, now).orders[id])
  {
    hide StepOrder;
    hide Accounted;
    hide Inv;
    hide Succeeds;
    SucceedsIsReflexive(s, id);
    if ReferenceIn(cb).Some? {
      FoundRefund(s.orders, ReferenceIn(cb).value);
      var hit := FindRefund(s.orders, ReferenceIn(cb).value);
      if hit.Some? {
        WriteMovesRowsForward(s, hit.value, OpRefundCallback(Confirms(cb.status)), now, id);
      }
    }
  }

  /** One transition moves every row forward in its own history. */
  lemma NextMovesRowsForward(s: Db, op: Op, now: Time, id: nat)
    requires Inv(s) && Legal(s, op) && id < |s.orders|
    ensures id < |Next(s, op, now).orders|
    ensures Succeeds(s.orders[id], Next(s, op, now).orders[id])
  {
    hide StepOrder;
    hide Accounted;
    hide Inv;
    hide Succeeds;
    SucceedsIsReflexive(s, id);
    match op {
      case Write(order, write) => WriteMovesRowsForward(s, order, write, now, id);
      case CollectCallback(cb) => CollectMovesRowsForward(s, cb, now, id);
      case RefundCallbackOp(cb) => RefundMovesRowsForward(s, cb, now, id);
      case _ => assert Next(s, op, now).orders[..|s.orders|] == s.orders;
    }
  }

  lemma RunMovesRowsForward(states: seq<Db>, moments: seq<Moment>, i: nat, id: nat)
    requires Run(states, moments) && i < |moments| && id < |states[i].orders|
    ensures id < |states[i + 1].orders| && Succeeds(states[i].orders[id], states[i + 1].orders[id])
  {
    RunKeepsInv(states, moments, i);
    NextMovesRowsForward(states[i], moments[i].op, moments[i].now, id);
  }

  lemma SucceedsIsTransitive(a: Order, b: Order, c: Order)
    requires Succeeds(a, b) && Succeeds(b, c)
    ensures Succeeds(a, c)
  {
    EarlierIsTransitive(a, b, c);
  }

  /** Every later row of an order is a successor of every earlier one. Hence
      whatever a request read earlier in the run is a legal `read` for its later
      write: the stale reads of the transition system lose nothing. And after
      payment the status rank never decreases, and a closed order stays closed
      the same way, whoever writes. */
  lemma {:induction false} RowsSucceedAlongRuns(states: seq<Db>, moments: seq<Moment>, i: nat, j: nat, id: nat)
    requires Run(states, moments) && i <= j < |states| && id < |states[i].orders|
    ensures id < |states[j].orders| && Succeeds(states[i].orders[id], states[j].orders[id])
    decreases j - i
  {
    hide Inv;
    hide Legal;
    hide Next;
    hide Succeeds;
    if i == j {
      RunKeepsInv(states, moments, i);
      SucceedsIsReflexive(states[i], id);
    } else {
      RowsSucceedAlongRuns(states, moments, i, j - 1, id);
      RunMovesRowsForward(states, moments, j - 1, id);
      SucceedsIsTransitive(states[i].orders[id], states[j - 1].orders[id], states[j].orders[id]);
    }
  }

  /** A closed, paid order is closed for good, and nothing returns from it. */
  lemma PaidClosureIsFinal(states: seq<Db>, moments: seq<Moment>, i: nat, j: nat, id: nat)
    requires Run(states, moments) && i <= j < |states| && id < |states[i].orders|
    requires states[i].orders[id].snapshot.Some? && Rank(states[i].orders[id].status) == 5
    ensures id < |states[j].orders| && states[j].orders[id].status == states[i].orders[id].status
    ensures states[j].orders[id].snapshot == states[i].orders[id].snapshot
  {
    RowsSucceedAlongRuns(states, moments, i, j, id);
  }

  // ── Ledger facts, per order ──────────────────────────────────────────

  /** At most one payment and one delivery per order; the snapshot columns are
      set exactly when the payment is booked; nothing undelivered-and-unpaid is
      delivered, and nothing discounted ever is. */
  lemma OnePaymentOneDelivery(states: seq<Db>, moments: seq<Moment>, i: nat, id: nat)
    requires Run(states, moments) && i < |states|
    ensures 0 <= Total(states[i].ledger, Posted(DeliveryOf(id))) <= Total(states[i].ledger, Posted(PaymentOf(id))) <= 1
    ensures id < |states[i].orders| ==>
      var row := states[i].orders[id];
      && (row.snapshot.Some? <==> Total(states[i].ledger, Posted(PaymentOf(id))) == 1)
      && (row.status.Delivered? <==> Total(states[i].ledger, Posted(DeliveryOf(id))) == 1)
      && (row.status.Pending? || AwaitingPayment(row.paymentStatus) ==> Total(states[i].ledger, Posted(PaymentOf(id))) == 0)
      && (row.discountXAF > 0 ==> Total(states[i].ledger, Posted(DeliveryOf(id))) == 0)
  {
    RunKeepsInv(states, moments, i);
    if id < |states[i].orders| {
      assert OrderOk(states[i], id);
    } else {
      assert Unheard(states[i], id);
    }
  }

  /** No order is both delivered and refunded. A refund settles at most once,
      after an initiation, and is initiated at most once more than it failed. */
  lemma RefundAccounting(states: seq<Db>, moments: seq<Moment>, i: nat, id: nat)
    requires Run(states, moments) && i < |states|
    ensures var l := states[i].ledger;
            var initiations := Total(l, Posted(RefundInitiatedFor(id)));
            var failures := HearAll(Silence, id, states[i].log).failedSettlements;
            && (Total(l, Posted(DeliveryOf(id))) == 0 || initiations == 0)
            && 0 <= Total(l, Posted(RefundSettledFor(id))) <= 1
            && Total(l, Posted(RefundSettledFor(id))) + failures <= initiations <= 1 + failures
            && 0 <= Total(l, Posted(PenaltyOn(id))) <= 1 && 0 <= Total(l, Posted(CompensationFor(id))) <= 1
  {
    RunKeepsInv(states, moments, i);
    if id < |states[i].orders| {
      assert OrderOk(states[i], id);
    } else {
      assert Unheard(states[i], id);
    }
  }

  /** One decision at most after payment, two over a lifetime, and the vendor
      is told of an order at most once, however crons and queue interleave. */
  lemma DecisionsAreUnique(states: seq<Db>, moments: seq<Moment>, i: nat, id: nat)
    requires Run(states, moments) && i < |states|
    ensures var heard := HearAll(Silence, id, states[i].log);
            && heard.decisionsAfter <= 1 && heard.decisionsBefore + heard.decisionsAfter <= 2
            && heard.created <= 1
            && (id < |states[i].orders| && heard.decisionsBefore + heard.decisionsAfter == 0 && !heard.paid
                ==> states[i].orders[id].acceptanceDeadlineAt.None?)
  {
    RunKeepsInv(states, moments, i);
    if id < |states[i].orders| {
      assert OrderOk(states[i], id);
    } else {
      assert Unheard(states[i], id);
    }
  }

  /** Campay transfer calls never exceed one more than the admin's retries. */
  lemma CallsNeverExceedRetries(states: seq<Db>, moments: seq<Moment>, i: nat, payout: nat)
    requires Run(states, moments) && i < |states|
    ensures Calls(states[i].log, payout) <= 1 + Retries(states[i].log, payout)
  {
    RunKeepsInv(states, moments, i);
    assert PayoutOk(states[i], payout);
  }

  // ── Accounts in closed form ──────────────────────────────────────────

  function NetOf(payouts: seq<Payout>, payee: Payee): int {
    if payouts == [] then 0
    else
      var last := payouts[|payouts| - 1];
      NetOf(payouts[..|payouts| - 1], payee) + (if last.payee == payee then last.netXAF else 0)
  }

  function AllNets(payouts: seq<Payout>): int {
    if payouts == [] then 0 else AllNets(payouts[..|payouts| - 1]) + payouts[|payouts| - 1].netXAF
  }

  function DeliveredShares(orders: seq<Order>, vendor: nat): int {
    if orders == [] then 0
    else
      var last := orders[|orders| - 1];
      DeliveredShares(orders[..|orders| - 1], vendor) + (if last.vendorId == vendor then Earned(last, VendorShare(last)) else 0)
  }

  function Fines(orders: seq<Order>, vendor: nat): int {
    if orders == [] then 0
    else
      var last := orders[|orders| - 1];
      Fines(orders[..|orders| - 1], vendor) + (if last.vendorId == vendor then Fined(last) else 0)
  }

  function Compensations(orders: seq<Order>, ledger: seq<Row>, vendor: nat): int {
    if orders == [] then 0
    else
      var n := |orders| - 1;
      Compensations(orders[..n], ledger, vendor)
      + (if orders[n].vendorId == vendor then Compensated(orders[n], TallyOf(ledger, n)) else 0)
  }

  function RiderShares(orders: seq<Order>, rider: nat): int {
    if orders == [] then 0
    else
      var last := orders[|orders| - 1];
      RiderShares(orders[..|orders| - 1], rider)
      + (if last.riderId == Some(rider) && last.snapshot.Some? then Earned(last, last.snapshot.value.riderShareXAF) else 0)
  }

  function Receipts(orders: seq<Order>): int {
    if orders == [] then 0
    else Receipts(orders[..|orders| - 1]) + PaidIn(orders[|orders| - 1]) - Repaid(orders[|orders| - 1])
  }

  lemma {:induction false} VendorSum(orders: seq<Order>, ledger: seq<Row>, vendor: nat)
    ensures OrderSum(orders, ledger, Payable(Vendor(vendor)))
         == Fines(orders, vendor) - DeliveredShares(orders, vendor) - Compensations(orders, ledger, vendor)
  {
    if orders != [] {
      VendorSum(orders[..|orders| - 1], ledger, vendor);
    }
  }

  lemma {:induction false} RiderSum(orders: seq<Order>, ledger: seq<Row>, rider: nat)
    ensures OrderSum(orders, ledger, Payable(Rider(rider))) == 0 - RiderShares(orders, rider)
  {
    if orders != [] {
      RiderSum(orders[..|orders| - 1], ledger, rider);
    }
  }

  lemma {:induction false} FloatSum(orders: seq<Order>, ledger: seq<Row>)
    ensures OrderSum(orders, ledger, Float) == Receipts(orders)
  {
    if orders != [] {
      FloatSum(orders[..|orders| - 1], ledger);
    }
  }

  lemma {:induction false} PayoutSums(payouts: seq<Payout>, payee: Payee)
    ensures PayoutSum(payouts, Payable(payee)) == NetOf(payouts, payee)
    ensures PayoutSum(payouts, Float) == 0 - AllNets(payouts)
  {
    if payouts != [] {
      PayoutSums(payouts[..|payouts| - 1], payee);
    }
  }

  /** Keys no table row contributes to. */
  lemma {:induction false} IdleKeys(orders: seq<Order>, ledger: seq<Row>, payouts: seq<Payout>, event: EventId)
    ensures OrderSum(orders, ledger, Everything) == 0 && OrderSum(orders, ledger, Group(event)) == 0
    ensures PayoutSum(payouts, Everything) == 0 && PayoutSum(payouts, Group(event)) == 0
    decreases |orders| + |payouts|
  {
    if orders != [] {
      IdleKeys(orders[..|orders| - 1], ledger, payouts, event);
    } else if payouts != [] {
      IdleKeys(orders, ledger, payouts[..|payouts| - 1], event);
    }
  }

  /** Of an account kept per order, only that order's row contributes. */
  lemma {:induction false} PerOrderKeys(orders: seq<Order>, ledger: seq<Row>, payouts: seq<Payout>, id: nat)
    ensures OrderSum(orders, ledger, Escrow(id))
         == if id < |orders| then OrderTerm(id, orders[id], TallyOf(ledger, id), Escrow(id)) else 0
    ensures OrderSum(orders, ledger, RefundDue(id))
         == if id < |orders| then OrderTerm(id, orders[id], TallyOf(ledger, id), RefundDue(id)) else 0
    ensures PayoutSum(payouts, Escrow(id)) == 0 && PayoutSum(payouts, RefundDue(id)) == 0
    decreases |orders| + |payouts|
  {
    if orders != [] {
      PerOrderKeys(orders[..|orders| - 1], ledger, payouts, id);
    } else if payouts != [] {
      PerOrderKeys(orders, ledger, payouts[..|payouts| - 1], id);
    }
  }

  /** Double entry over every run: the whole ledger and every event group sum
      to zero. */
  lemma LedgerAlwaysBalances(states: seq<Db>, moments: seq<Moment>, i: nat, event: EventId)
    requires Run(states, moments) && i < |states|
    ensures Total(states[i].ledger, Everything) == 0
    ensures Total(states[i].ledger, Group(event)) == 0
  {
    RunKeepsInv(states, moments, i);
    IdleKeys(states[i].orders, states[i].ledger, states[i].payouts, event);
  }

  /** escrow(o) = total * (initiations - paid + delivered), and what is owed
      back is total * (settled - initiations). */
  lemma EscrowInClosedForm(states: seq<Db>, moments: seq<Moment>, i: nat, id: nat)
    requires Run(states, moments) && i < |states| && id < |states[i].orders|
    ensures var l := states[i].ledger;
            var total := states[i].orders[id].totalXAF;
            var initiations := Total(l, Posted(RefundInitiatedFor(id)));
            && Total(l, Escrow(id)) == total * initiations - total * Total(l, Posted(PaymentOf(id)))
                                       + total * Total(l, Posted(DeliveryOf(id)))
            && Total(l, RefundDue(id)) == total * Total(l, Posted(RefundSettledFor(id))) - total * initiations
  {
    RunKeepsInv(states, moments, i);
    assert OrderOk(states[i], id);
    PerOrderKeys(states[i].orders, states[i].ledger, states[i].payouts, id);
  }

  /** What a row's ending says of its books. */
  lemma BooksOfClosedRow(row: Order, book: BookTally, log: LogTally)
    requires Coherent(row) && Accounted(row, book, log)
    ensures row.status.Refused? || row.status.Expired? ==>
              book.deliveries == 0 && book.initiations == 0 && book.settlements == 0
    ensures row.refundedAt.Some? ==>
              book.deliveries == 0 && book.initiations == log.failedSettlements + 1 && book.settlements == 1
  {
  }

  lemma OrderIsOk(states: seq<Db>, moments: seq<Moment>, i: nat, id: nat)
    requires Run(states, moments) && i < |states| && id < |states[i].orders|
    ensures Coherent(states[i].orders[id])
    ensures Accounted(states[i].orders[id], TallyOf(states[i].ledger, id), HearAll(Silence, id, states[i].log))
  {
    hide Coherent;
    hide Accounted;
    RunKeepsInv(states, moments, i);
    assert OrderOk(states[i], id);
  }

  lemma TotalsAreFixed(states: seq<Db>, moments: seq<Moment>, i: nat, j: nat, id: nat)
    requires Run(states, moments) && i <= j < |states| && id < |states[i].orders|
    ensures id < |states[j].orders| && states[j].orders[id].totalXAF == states[i].orders[id].totalXAF
  {
    hide Inv;
    RowsSucceedAlongRuns(states, moments, i, j, id);
  }

  /** A paid order that ends REFUSED or EXPIRED keeps its escrow for good: no
      refund is ever booked for it, although expiry marks it REFUNDED. */
  lemma RefusedOrExpiredEscrowIsStranded(states: seq<Db>, moments: seq<Moment>, i: nat, j: nat, id: nat)
    requires Run(states, moments) && i <= j < |states| && id < |states[i].orders| && states[i].orders[id].snapshot.Some?
    requires states[i].orders[id].status.Refused? || states[i].orders[id].status.Expired?
    ensures Total(states[j].ledger, Escrow(id)) == 0 - states[i].orders[id].totalXAF
    ensures Total(states[j].ledger, Posted(RefundInitiatedFor(id))) == 0
    ensures Total(states[j].ledger, Posted(RefundSettledFor(id))) == 0
  {
    hide Coherent;
    hide Run;
    PaidClosureIsFinal(states, moments, i, j, id);
    TotalsAreFixed(states, moments, i, j, id);
    OrderIsOk(states, moments, j, id);
    BooksOfClosedRow(states[j].orders[id], TallyOf(states[j].ledger, id), HearAll(Silence, id, states[j].log));
    EscrowInClosedForm(states, moments, j, id);
    assert TallyOf(states[j].ledger, id).payments == Bit(states[j].orders[id].snapshot.Some?);
  }

  /** A failed settlement leaves its initiation in the books, and an unpaid
      order's refund has nothing behind it: once an order is refunded its escrow
      is overdrawn by its total for each failure, and once more if it was never
      paid; it is cleared exactly when it was paid and no settlement failed. */
  lemma RefundedEscrowIsClearedIff(states: seq<Db>, moments: seq<Moment>, i: nat, id: nat)
    requires Run(states, moments) && i < |states| && id < |states[i].orders| && states[i].orders[id].refundedAt.Some?
    ensures var failures := HearAll(Silence, id, states[i].log).failedSettlements;
            var row := states[i].orders[id];
            && Total(states[i].ledger, Escrow(id)) == row.totalXAF * (failures + Bit(row.snapshot.None?))
            && Total(states[i].ledger, RefundDue(id)) == 0 - row.totalXAF * failures
            && (row.totalXAF != 0 ==>
                  (Total(states[i].ledger, Escrow(id)) == 0 <==> failures == 0 && row.snapshot.Some?))
  {
    hide Coherent;
    hide Run;
    var row, failures := states[i].orders[id], HearAll(Silence, id, states[i].log).failedSettlements;
    OrderIsOk(states, moments, i, id);
    BooksOfClosedRow(row, TallyOf(states[i].ledger, id), HearAll(Silence, id, states[i].log));
    EscrowInClosedForm(states, moments, i, id);
    assert TallyOf(states[i].ledger, id).payments == Bit(row.snapshot.Some?);
    OneMore(row.totalXAF, failures);
    ProductIsZeroIff(row.totalXAF, failures + Bit(row.snapshot.None?));
  }

  lemma ProductIsZeroIff(a: int, b: int)
    ensures a * b == 0 <==> a == 0 || b == 0
  {
  }

  /** VENDOR_PAYABLE(v) = payouts + penalties - delivered shares - compensations,
      and RIDER_PAYABLE(r) = payouts - delivered rider shares. */
  lemma PayablesInClosedForm(states: seq<Db>, moments: seq<Moment>, i: nat, vendor: nat, rider: nat)
    requires Run(states, moments) && i < |states|
    ensures Total(states[i].ledger, Payable(Vendor(vendor)))
         == NetOf(states[i].payouts, Vendor(vendor)) + Fines(states[i].orders, vendor)
            - DeliveredShares(states[i].orders, vendor) - Compensations(states[i].orders, states[i].ledger, vendor)
    ensures Total(states[i].ledger, Payable(Rider(rider)))
         == NetOf(states[i].payouts, Rider(rider)) - RiderShares(states[i].orders, rider)
  {
    RunKeepsInv(states, moments, i);
    VendorSum(states[i].orders, states[i].ledger, vendor);
    RiderSum(states[i].orders, states[i].ledger, rider);
    PayoutSums(states[i].payouts, Vendor(vendor));
    PayoutSums(states[i].payouts, Rider(rider));
  }

  /** CAMPAY_FLOAT holds what customers paid, less what was repaid and what was
      scheduled out to vendors and riders. */
  lemma FloatInClosedForm(states: seq<Db>, moments: seq<Moment>, i: nat)
    requires Run(states, moments) && i < |states|
    ensures Total(states[i].ledger, Float) == Receipts(states[i].orders) - AllNets(states[i].payouts)
  {
    RunKeepsInv(states, moments, i);
    FloatSum(states[i].orders, states[i].ledger);
    PayoutSums(states[i].payouts, Vendor(0));
  }

  /** PLATFORM_REVENUE is fees plus penalties less compensations. */
  function Income(orders: seq<Order>, ledger: seq<Row>): int {
    if orders == [] then 0
    else
      var n := |orders| - 1;
      var fee := if orders[n].snapshot.Some? then orders[n].snapshot.value.platformFeeXAF else 0;
      Income(orders[..n], ledger) + Earned(orders[n], fee) + Fined(orders[n]) - Compensated(orders[n], TallyOf(ledger, n))
  }

  lemma {:induction false} RevenueSum(orders: seq<Order>, ledger: seq<Row>)
    ensures OrderSum(orders, ledger, Revenue) == 0 - Income(orders, ledger)
  {
    if orders != [] {
      RevenueSum(orders[..|orders| - 1], ledger);
    }
  }

  lemma {:induction false} NoPayoutRevenue(payouts: seq<Payout>)
    ensures PayoutSum(payouts, Revenue) == 0
  {
    if payouts != [] {
      NoPayoutRevenue(payouts[..|payouts| - 1]);
    }
  }

  lemma RevenueInClosedForm(states: seq<Db>, moments: seq<Moment>, i: nat)
    requires Run(states, moments) && i < |states|
    ensures Total(states[i].ledger, Revenue) == 0 - Income(states[i].orders, states[i].ledger)
  {
    RunKeepsInv(states, moments, i);
    RevenueSum(states[i].orders, states[i].ledger);
    NoPayoutRevenue(states[i].payouts);
  }
}
