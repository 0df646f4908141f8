/** The services over one database: whatever requests, jobs, crons and callbacks
    they handle, in whatever order, is a run of the platform. */
module Server {
  import opened Common
  import opened Ledger
  import opened Pricing
  import opened Orders
  import opened OrderInvariants
  import opened Payouts
  import opened Platform
  import opened PlatformInvariant
  import opened PlatformRuns
  import opened PayoutPeriods
  import opened LedgerServices
  import opened OrderServices
  import opened PaymentServices
  import opened RiderServices
  import opened FinanceServices
  import opened PayoutCrons
  import R = RefundSweep
  import T = TransferSweep
  import opened S = Store

  class Server {
    const db: S.Store
    const kitchen: OrderVendorActionsService
    const orders: OrdersService
    const jobs: OrderLifecycleProcessor
    const expiry: OrdersExpiryService
    const promotion: PreOrderPromotionService
    const payments: PaymentsService
    const lifecycle: OrderPaymentLifecycleService
    const riders: RidersService
    const fraud: AdminRiderFraudService
    const dispatch: DispatchService
    const refunds: R.RefundProcessorService
    const transfers: T.PayoutTransferWorker
    const finance: FinanceService
    const payoutCron: PayoutCronService

    constructor (db: S.Store)
      ensures this.db == db && Wired()
    {
      var ledger := new LedgerService(db);
      var dedup := new CampayWebhookDedupService(db);
      var finance := new FinanceService(db, ledger, dedup);
      this.db, this.finance := db, finance;
      kitchen := new OrderVendorActionsService(db, ledger);
      orders := new OrdersService(db);
      jobs := new OrderLifecycleProcessor(db);
      expiry := new OrdersExpiryService(db);
      promotion := new PreOrderPromotionService(db);
      payments := new PaymentsService(db, dedup);
      lifecycle := new OrderPaymentLifecycleService(db, ledger);
      riders := new RidersService(db, ledger);
      fraud := new AdminRiderFraudService(db, ledger);
      dispatch := new DispatchService(db);
      refunds := new R.RefundProcessorService(db, ledger);
      transfers := new T.PayoutTransferWorker(db);
      payoutCron := new PayoutCronService(db, finance);
    }

    /** Every service works on the one database. */
    predicate Wired() {
      && kitchen.db == db && kitchen.ledger.db == db && orders.db == db && jobs.db == db && expiry.db == db
      && promotion.db == db && payments.db == db && payments.dedup.db == db
      && lifecycle.db == db && lifecycle.ledger.db == db && riders.db == db && riders.ledger.db == db
      && fraud.db == db && fraud.ledger.db == db && dispatch.db == db
      && refunds.db == db && refunds.ledger.db == db && transfers.db == db
      && finance.db == db && finance.Wired() && payoutCron.db == db && payoutCron.Wired()
    }

    /** The consumer's and the vendor's requests, and the jobs around them. */
    method HandleDecision(id: nat, write: OrderOp, now: Time)
      requires Wired() && IsDecision(write)
      modifies db
      ensures db.Db() == OnOrder(old(db.Db()), id, write, now)
    {
      hide OnOrder;
      hide OrderOutcome;
      match write {
        case OpAccept(read, caller) => var _ := kitchen.AcceptOrder(id, read, caller, now);
        case OpRefuse(read, caller) => var _ := kitchen.RefuseOrder(id, read, caller, now);
        case OpCancel(read, caller) => var _ := orders.CancelOrder(id, read, caller, now);
        case OpExpireDecision(read, false) => jobs.ExpireVendorDecision(id, read, now);
        case OpExpireDecision(read, true) => var _ := expiry.ExpireOne(id, read, now);
        case OpPromote(read, false) => jobs.PromotePreOrder(id, read, now);
        case OpPromote(read, true) => var _ := promotion.PromoteOne(id, read, now);
        case OpSetItemPrepared(caller, item, flag) => var _ := kitchen.SetItemPrepared(id, caller, item, flag, now);
        case OpMarkReady(read, items, caller) => var _ := kitchen.MarkOrderReady(id, read, items, caller, now);
        case OpVendorCancel(read, caller) => var _ := kitchen.VendorCancelPreOrder(id, read, caller, now);
      }
    }

    /** Dispatch, the ride, and its fraud review. */
    method HandleRide(id: nat, write: OrderOp, now: Time)
      requires Wired() && IsRide(write)
      modifies db
      ensures db.Db() == OnOrder(old(db.Db()), id, write, now)
    {
      hide OnOrder;
      hide OrderOutcome;
      match write {
        case OpAssignRider(rider) => var _ := dispatch.DispatchOrder(id, Some(rider), now);
        case OpExpireForNoRider => dispatch.ExpireForNoRider(id, now);
        case OpPickUp(rider, pin) => var _ := riders.MarkPickedUp(id, rider, pin, now);
        case OpDeliver(read, rider, pin) => var _ := riders.MarkDelivered(id, read, rider, pin, now);
        case OpResolveFraud(read, refund, compensate) => var _ := fraud.ResolveRiderFraud(id, read, refund, compensate, now);
      }
    }

    /** The money side of an order: its collect and its refund. */
    method HandleMoney(id: nat, write: OrderOp, now: Time)
      requires Wired() && !IsDecision(write) && !IsRide(write)
      modifies db
      ensures db.Db() == OnOrder(old(db.Db()), id, write, now)
    {
      hide OnOrder;
      hide OrderOutcome;
      ghost var s := db.Db();
      NothingToConclude(s, id, write, now);
      match write {
        case OpInitiateMomo(caller, phone, collect) => var _ := payments.InitiateMomo(id, caller, phone, collect, now);
        case OpPaymentSucceeded(read, reference, payer) => var _ := lifecycle.OnPaymentSucceeded(id, read, reference, payer, now);
        case OpRefundLock(read) => var _ := refunds.Lock(id, read, now);
        case OpCollectFailed =>
          if id < |db.orders| {
            var _ := payments.Settle(id, FailedStatus, now);
          }
        case OpRefundAccepted(read, reference) =>
          if id < |db.orders| && db.orders[id].refundCallOpen {
            var _ := refunds.Conclude(R.Candidate(id, read, Some(reference)), now);
          }
        case OpRefundRejected =>
          if id < |db.orders| && db.orders[id].refundCallOpen {
            var _ := refunds.Conclude(R.Candidate(id, db.orders[id], None), now);
          }
        case OpRefundCallback(succeeded) =>
          if id < |db.orders| {
            var _ := finance.SettleRefund(id, succeeded, now);
          }
      }
    }

    method HandlePayout(id: nat, move: PayoutOp)
      requires Wired()
      modifies db
      ensures db.Db() == OnPayout(old(db.Db()), id, move)
    {
      hide OnPayout;
      hide PayoutOutcomeOf;
      NoOpenTransfer(db.Db(), id, move);
      match move {
        case OpTransferLock => var _ := transfers.Lock(id);
        case OpRetry => var _ := finance.RetryPayout(id);
        case OpManualPaid(reference) => var _ := finance.ManualMarkPayoutPaid(id, reference);
        case OpTransferAccepted(reference) =>
          if id < |db.payouts| && db.payouts[id].callOpen {
            var _ := transfers.Conclude(id, Some(reference));
          }
        case OpTransferRejected =>
          if id < |db.payouts| && db.payouts[id].callOpen {
            var _ := transfers.Conclude(id, None);
          }
        case OpTransferCallback(succeeded) =>
          if id < |db.payouts| {
            var _ := finance.SettlePayout(id, succeeded);
          }
      }
    }

    /** createOrder's insert; the unique code may throw. */
    method Insert(draft: Draft)
      requires Wired()
      modifies db`orders
      ensures db.Db() == PlaceOrder(old(db.Db()), draft)
    {
      if !(exists i :: 0 <= i < |db.orders| && db.orders[i].code == draft.code) {
        db.orders := db.orders + [Placed(draft)];
      }
    }

    /** One request, job, cron row or callback, and the clock after it. */
    method Handle(op: Op, now: Time)
      requires Wired()
      modifies db
      ensures db.Db() == Next(old(db.Db()), op, now)
    {
      hide OnOrder;
      hide OnPayout;
      hide PlaceOrder;
      hide CollectWebhook;
      hide TransferWebhook;
      hide RefundWebhook;
      hide Platform.ScheduleVendorPayout;
      hide Platform.ScheduleRiderPayout;
      hide ApproveCashout;
      hide RequestCashout;
      hide RejectCashout;
      match op {
        case Place(draft) => Insert(draft);
        case Write(id, write) =>
          if IsDecision(write) {
            HandleDecision(id, write, now);
          } else if IsRide(write) {
            HandleRide(id, write, now);
          } else {
            HandleMoney(id, write, now);
          }
        case Move(id, move) => HandlePayout(id, move);
        case CollectCallback(cb) => var _ := payments.HandleWebhook(cb, now);
        case TransferCallbackOp(cb) => finance.HandleTransferWebhook(cb);
        case RefundCallbackOp(cb) => finance.HandleRefundWebhook(cb, now);
        case PayVendor(vendor, seen, end) => var _ := payoutCron.ScheduleVendorPayout(vendor, seen, end, now);
        case PayRider(rider, kycComplete, seen, end) => var _ := payoutCron.ScheduleRiderPayout(rider, kycComplete, seen, end, now);
        case AskCashout(vendor, informal, active) => var _ := finance.RequestVendorCashout(vendor, informal, active);
        case GrantCashout(request, pending, seen, end) => var _ := finance.ApproveCashoutRequest(request, pending, seen, end, now);
        case DenyCashout(request) => var _ := finance.RejectCashoutRequest(request);
      }
      db.clock := now;
    }

    /** Any list of them, one after the other. From a new database, when each
        read only what was in the tables by then, what they went through is a run,
        and the joint invariant holds of what they leave. */
    method Serve(moments: seq<Moment>) returns (ghost states: seq<Db>)
      requires Wired()
      modifies db
      ensures Steps(states, moments)
      ensures states[0] == old(db.Db()) && states[|moments|] == db.Db()
      ensures Initial(states[0]) && Answered(states, moments) ==> Run(states, moments) && Inv(db.Db())
    {
      hide Next;
      hide Inv;
      states := [db.Db()];
      for k := 0 to |moments|
        invariant Steps(states, moments[..k]) && states[0] == old(db.Db()) && states[k] == db.Db()
      {
        assert moments[..k + 1] == moments[..k] + [moments[k]];
        Handle(moments[k].op, moments[k].now);
        states := states + [db.Db()];
      }
      assert moments[..|moments|] == moments;
      if Initial(states[0]) && Answered(states, moments) {
        AnsweredIsARun(states, moments);
        RunKeepsInv(states, moments, |moments|);
      }
    }
  }

  predicate IsDecision(write: OrderOp) {
    write.OpAccept? || write.OpRefuse? || write.OpCancel? || write.OpExpireDecision? || write.OpPromote?
    || write.OpSetItemPrepared? || write.OpMarkReady? || write.OpVendorCancel?
  }

  predicate IsRide(write: OrderOp) {
    write.OpAssignRider? || write.OpExpireForNoRider? || write.OpPickUp? || write.OpDeliver? || write.OpResolveFraud?
  }

  /** A call that is not open has nothing to conclude. */
  lemma NothingToConclude(s: Db, id: nat, write: OrderOp, now: Time)
    ensures id >= |s.orders| ==> OnOrder(s, id, write, now) == s
    ensures id < |s.orders| && !s.orders[id].refundCallOpen && (write.OpRefundAccepted? || write.OpRefundRejected?)
            ==> OnOrder(s, id, write, now) == s
  {
  }

  lemma NoOpenTransfer(s: Db, id: nat, move: PayoutOp)
    ensures id >= |s.payouts| ==> OnPayout(s, id, move) == s
    ensures id < |s.payouts| && !s.payouts[id].callOpen && (move.OpTransferAccepted? || move.OpTransferRejected?)
            ==> OnPayout(s, id, move) == s
  {
  }

  // ── What the services go through is a run ────────────────────────────

  ghost predicate Steps(states: seq<Db>, moments: seq<Moment>) {
    && |states| == |moments| + 1
    && forall i :: 0 <= i < |moments| ==> states[i + 1] == Next(states[i], moments[i].op, moments[i].now)
  }

  /** Some state up to `i` holds this row under `id`. */
  ghost predicate SawRow(states: seq<Db>, i: nat, id: nat, row: Order) {
    exists d: nat :: d <= i < |states| && id < |states[d].orders| && states[d].orders[id] == row
  }

  ghost predicate SawItems(states: seq<Db>, i: nat, id: nat, items: seq<bool>) {
    exists d: nat :: d <= i < |states| && id < |states[d].orders| && states[d].orders[id].prepared == items
  }

  /** Some state up to `i` answers this start for the payee. */
  ghost predicate SawStart(states: seq<Db>, i: nat, payee: Payee, start: Time) {
    exists d: nat :: d <= i < |states| && (payee in states[d].payees ==> PeriodStart(states[d], payee) == start)
  }

  /** What request `i` read was there to be read, at some state before its write;
      settlement callbacks come by webhook, and createOrder has made its checks. */
  ghost predicate ReadsAnswered(states: seq<Db>, i: nat, op: Op)
    requires i < |states|
  {
    match op
    case Place(draft) => LegalAmounts(draft.subtotalXAF, draft.deliveryFeeXAF, draft.discountXAF)
    case Write(id, write) =>
      && !write.OpRefundCallback?
      && (id < |states[i].orders| && ReadOf(write).Some? ==> SawRow(states, i, id, ReadOf(write).value))
      && (id < |states[i].orders| && write.OpMarkReady? ==> SawItems(states, i, id, write.items))
    case Move(_, move) => !move.OpTransferCallback?
    case PayVendor(vendor, seen, _) => SawStart(states, i, Vendor(vendor), seen.start)
    case PayRider(rider, _, seen, _) => SawStart(states, i, Rider(rider), seen.start)
    case GrantCashout(request, _, seen, _) =>
      request < |states[i].cashouts| ==> SawStart(states, i, Vendor(states[i].cashouts[request].vendor), seen.start)
    case _ => true
  }

  /** Every request read what was there, and time does not fall. */
  ghost predicate Answered(states: seq<Db>, moments: seq<Moment>)
    requires |states| == |moments| + 1
  {
    forall i: nat :: i < |moments| ==> ReadsAnswered(states, i, moments[i].op) && states[i].clock <= moments[i].now
  }

  lemma SeenRowIsEarlier(states: seq<Db>, moments: seq<Moment>, i: nat, id: nat, row: Order)
    requires Run(states, moments) && i < |states| && id < |states[i].orders| && SawRow(states, i, id, row)
    ensures Earlier(row, states[i].orders[id])
  {
    hide Next;
    hide Legal;
    hide Earlier;
    var d: nat :| d <= i < |states| && id < |states[d].orders| && states[d].orders[id] == row;
    RowsSucceedAlongRuns(states, moments, d, i, id);
  }

  lemma SeenItemsFit(states: seq<Db>, moments: seq<Moment>, i: nat, id: nat, items: seq<bool>)
    requires Run(states, moments) && i < |states| && id < |states[i].orders| && SawItems(states, i, id, items)
    ensures |items| == |states[i].orders[id].prepared|
  {
    hide Next;
    hide Legal;
    var d: nat :| d <= i < |states| && id < |states[d].orders| && states[d].orders[id].prepared == items;
    RowsSucceedAlongRuns(states, moments, d, i, id);
  }

  lemma SeenStartIsLegal(states: seq<Db>, moments: seq<Moment>, i: nat, payee: Payee, start: Time)
    requires Run(states, moments) && i < |states| && SawStart(states, i, payee, start)
    ensures StartRead(states[i], payee, start)
  {
    hide Next;
    hide Legal;
    var d: nat :| d <= i < |states| && (payee in states[d].payees ==> PeriodStart(states[d], payee) == start);
    PayeesStay(states, moments, d);
    PayeesStay(states, moments, i);
    if payee in states[i].payees {
      EarlierStartsAreLegal(states, moments, d, i, payee);
    }
  }

  /** Requests that read what was there are legal where they write. */
  lemma AnsweredIsLegal(states: seq<Db>, moments: seq<Moment>, op: Op)
    requires Run(states, moments) && ReadsAnswered(states, |moments|, op)
    ensures Legal(states[|moments|], op)
  {
    hide Next;
    hide SawRow;
    hide SawItems;
    hide SawStart;
    hide StartRead;
    hide Earlier;
    var n := |moments|;
    match op {
      case Write(id, write) =>
        if id < |states[n].orders| {
          if ReadOf(write).Some? {
            SeenRowIsEarlier(states, moments, n, id, ReadOf(write).value);
          }
          if write.OpMarkReady? {
            SeenItemsFit(states, moments, n, id, write.items);
          }
        }
      case PayVendor(vendor, seen, _) => SeenStartIsLegal(states, moments, n, Vendor(vendor), seen.start);
      case PayRider(rider, _, seen, _) => SeenStartIsLegal(states, moments, n, Rider(rider), seen.start);
      case GrantCashout(request, _, seen, _) =>
        if request < |states[n].cashouts| {
          SeenStartIsLegal(states, moments, n, Vendor(states[n].cashouts[request].vendor), seen.start);
        }
      case _ =>
    }
  }

  lemma {:induction false} AnsweredIsARun(states: seq<Db>, moments: seq<Moment>)
    requires Steps(states, moments) && Initial(states[0]) && Answered(states, moments)
    ensures Run(states, moments)
    decreases |moments|
  {
    hide Next;
    hide Legal;
    hide ReadsAnswered;
    if moments != [] {
      var n := |moments| - 1;
      var before, earlier := states[..n + 1], moments[..n];
      forall i: nat | i <= n ensures ReadsAnswered(before, i, moments[i].op) {
        AnsweredByThePast(states, before, i, moments[i].op);
      }
      AnsweredIsARun(before, earlier);
      AnsweredIsLegal(before, earlier, moments[n].op);
      RunExtends(before, earlier, moments[n]);
      assert before + [states[n + 1]] == states && earlier + [moments[n]] == moments;
    }
  }

  /** Only the states up to the write are asked. */
  lemma AnsweredByThePast(states: seq<Db>, before: seq<Db>, i: nat, op: Op)
    requires before <= states && i < |before| && ReadsAnswered(states, i, op)
    ensures ReadsAnswered(before, i, op)
  {
    forall id: nat, row | SawRow(states, i, id, row) ensures SawRow(before, i, id, row) {
      var d: nat :| d <= i < |states| && id < |states[d].orders| && states[d].orders[id] == row;
      assert before[d] == states[d];
    }
    forall id: nat, items | SawItems(states, i, id, items) ensures SawItems(before, i, id, items) {
      var d: nat :| d <= i < |states| && id < |states[d].orders| && states[d].orders[id].prepared == items;
      assert before[d] == states[d];
    }
    forall payee, start | SawStart(states, i, payee, start) ensures SawStart(before, i, payee, start) {
      var d: nat :| d <= i < |states| && (payee in states[d].payees ==> PeriodStart(states[d], payee) == start);
      assert before[d] == states[d];
    }
  }
}
