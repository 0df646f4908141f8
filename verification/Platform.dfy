/**
 The shared database and every transition the services make on it. Tables are
 sequences in insertion order; a row's id is its position.
 */
module Platform {
  import opened Common
  import opened Ledger
  import opened Pricing
  import opened Orders
  import opened Payouts

  datatype CashoutStatus = PendingApproval | Approved | Rejected

  datatype Cashout = Cashout(vendor: nat, requestedXAF: int, status: CashoutStatus, payout: Option<nat>)

  datatype WebhookKind = Collect | Transfer | Refund

  datatype WebhookKey = WebhookKey(kind: WebhookKind, reference: Ref)

  /** The `result` column: what the first callback did. It is null (Unsettled)
      between the dedup insert and the recording of the result. */
  datatype WebhookResult =
    | Unsettled | NoMatch | StatusMismatch | Succeeded | Rejected | IgnoredNonTerminal | AlreadyPaidIgnored

  datatype CampayStatus = Successful | Success | PaidStatus | FailedStatus | CancelledStatus | OtherStatus

  datatype Callback = Callback(reference: Option<Ref>, external: Option<Ref>, status: CampayStatus)

  datatype Db = Db(
    orders: seq<Order>,
    ledger: seq<Row>,
    payouts: seq<Payout>,
    cashouts: seq<Cashout>,
    webhooks: map<WebhookKey, WebhookResult>,
    payoutTags: map<nat, nat>,           // Order.payoutId, by order
    payees: map<Payee, Time>,            // createdAt of vendors and riders
    log: seq<LogEvent>,
    clock: Time)

  // ── Order writes ─────────────────────────────────────────────────────

  function Post(ledger: seq<Row>, posting: Option<Txn>, now: Time): seq<Row> {
    if posting.None? then ledger else ledger + Rows(posting.value, now)
  }

  function Patched(s: Db, id: nat, p: Patch, now: Time): Db
    requires id < |s.orders|
  {
    s.(orders := s.orders[id := p.row], ledger := Post(s.ledger, p.posting, now), log := s.log + p.log)
  }

  /** Another row already holds the unique reference this write stores. */
  predicate ReferenceClash(s: Db, id: nat, op: OrderOp) {
    match op
    case OpInitiateMomo(_, _, collect) =>
      collect.Some? && exists i :: 0 <= i < |s.orders| && i != id && s.orders[i].paymentReference == collect
    case OpPaymentSucceeded(_, reference, _) =>
      exists i :: 0 <= i < |s.orders| && i != id && s.orders[i].paymentReference == Some(reference)
    case OpRefundAccepted(_, reference) =>
      exists i :: 0 <= i < |s.orders| && i != id && s.orders[i].refundCampayRef == Some(reference)
    case _ => false
  }

  function OrderOutcome(s: Db, id: nat, op: OrderOp, now: Time): Outcome {
    if id >= |s.orders| then Err(OrderNotFound)
    else StepOrder(id, s.orders[id], op, ReferenceClash(s, id, op), now)
  }

  function OnOrder(s: Db, id: nat, op: OrderOp, now: Time): Db {
    var outcome := OrderOutcome(s, id, op, now);
    if outcome.Ok? then Patched(s, id, outcome.value, now) else s
  }

  function PlaceOrder(s: Db, draft: Draft): Db {
    if exists i :: 0 <= i < |s.orders| && s.orders[i].code == draft.code then s
    else s.(orders := s.orders + [Placed(draft)])
  }

  // ── Payout writes ────────────────────────────────────────────────────

  predicate CampayRefClash(s: Db, id: nat, op: PayoutOp)
    requires id < |s.payouts|
  {
    (op.OpTransferAccepted? || op.OpManualPaid?)
    && exists i :: 0 <= i < |s.payouts| && i != id && s.payouts[i].campayRef == Some(op.reference)
                   && s.payouts[i].payee.Vendor? == s.payouts[id].payee.Vendor?
  }

  function PayoutOutcomeOf(s: Db, id: nat, op: PayoutOp): PayoutOutcome {
    if id >= |s.payouts| then Err(PayoutNotFound)
    else StepPayout(id, s.payouts[id], op, CampayRefClash(s, id, op))
  }

  function OnPayout(s: Db, id: nat, op: PayoutOp): Db {
    var outcome := PayoutOutcomeOf(s, id, op);
    if outcome.Ok? then s.(payouts := s.payouts[id := outcome.value.row], log := s.log + outcome.value.log) else s
  }

  predicate OpenDispute(s: Db, vendor: nat) {
    exists i :: 0 <= i < |s.orders| && s.orders[i].vendorId == vendor && s.orders[i].paymentStatus.RefundPending?
  }

  function PeriodStart(s: Db, payee: Payee): Time
    requires payee in s.payees
  {
    match Cutoff(s.payouts, payee)
    case Some(end) => end
    case None => s.payees[payee]
  }

  /** The first payout holding the unique (payee, periodStart), if any. */
  function PeriodHolder(payouts: seq<Payout>, payee: Payee, start: Time): Option<nat> {
    if payouts == [] then None
    else
      var earlier := PeriodHolder(payouts[..|payouts| - 1], payee, start);
      if earlier.Some? then earlier
      else if payouts[|payouts| - 1].payee == payee && payouts[|payouts| - 1].periodStart == start then Some(|payouts| - 1)
      else None
  }

  /** The delivered orders a payout of this period is tagged onto. */
  predicate Taggable(s: Db, i: nat, payee: Payee, start: Time, end: Time)
    requires i < |s.orders|
  {
    var o := s.orders[i];
    && o.status.Delivered? && o.deliveredAt.Some? && start < o.deliveredAt.value <= end
    && match payee
       case Vendor(v) => o.vendorId == v && i !in s.payoutTags
       case Rider(r) => o.riderId == Some(r)
  }

  /** The transaction every scheduling path runs: the row, its ledger pair, and
      the order tags. `now` is when the transaction stamps its entries. */
  function Scheduled(s: Db, payee: Payee, netXAF: int, start: Time, end: Time, now: Time): Db {
    var id := |s.payouts|;
    s.(payouts := s.payouts + [Payout(payee, start, end, netXAF, PayoutPending, None, false)],
       ledger := s.ledger + Rows(PayoutTxn(payee, id, netXAF), now),
       payoutTags := s.payoutTags + map i: nat | i < |s.orders| && Taggable(s, i, payee, start, end) :: id)
  }

  /** What a scheduling path seen, one query after the other, before its
      transaction: the balance, whether a refund is pending, the period's start.
      Other writers may run between any two of them and before the insert. */
  datatype Reading = Reading(balanceXAF: int, disputed: bool, start: Time)

  /** The reads as one state answers them. */
  function ReadNow(s: Db, payee: Payee): Reading {
    if payee !in s.payees then Reading(0, false, 0)
    else Reading(Balance(s.ledger, s.payouts, payee), payee.Vendor? && OpenDispute(s, payee.id), PeriodStart(s, payee))
  }

  /** The insert: it throws on the unique (payee, periodStart), and the lookup
      before it finds no more than the insert does. */
  function Insertable(s: Db, payee: Payee, seen: Reading): Result<int, PayoutError> {
    match PeriodHolder(s.payouts, payee, seen.start)
    case Some(existing) => Err(AlreadyScheduled(existing))
    case None => Ok(seen.balanceXAF)
  }

  /** Why tryScheduleVendorPayout does not schedule, or the net it schedules. */
  function VendorPayoutVerdict(s: Db, vendor: nat, seen: Reading): Result<int, PayoutError> {
    if Vendor(vendor) !in s.payees then Err(PayeeNotFound)
    else if seen.balanceXAF <= 0 then Err(NegativeOrZeroBalance(seen.balanceXAF))
    else if seen.balanceXAF < MIN_VENDOR_PAYOUT_XAF then Err(BelowMinimum(seen.balanceXAF))
    else if seen.disputed then Err(OpenDisputes)
    else Insertable(s, Vendor(vendor), seen)
  }

  function RiderPayoutVerdict(s: Db, rider: nat, kycComplete: bool, seen: Reading): Result<int, PayoutError> {
    if !kycComplete then Err(KycIncomplete)
    else if Rider(rider) !in s.payees then Err(PayeeNotFound)
    else if seen.balanceXAF <= 0 then Err(NegativeOrZeroBalance(seen.balanceXAF))
    else if seen.balanceXAF < MIN_RIDER_PAYOUT_XAF then Err(BelowMinimum(seen.balanceXAF))
    else Insertable(s, Rider(rider), seen)
  }

  /** approveCashoutRequest; `pending` is what it read of the request's status. */
  function CashoutVerdict(s: Db, request: nat, pending: bool, seen: Reading): Result<int, PayoutError> {
    if request >= |s.cashouts| then Err(CashoutNotFound)
    else if !pending then Err(CashoutNotPending)
    else if Vendor(s.cashouts[request].vendor) !in s.payees then Err(PayeeNotFound)
    else if seen.balanceXAF < MIN_VENDOR_PAYOUT_XAF then Err(CashoutBelowMinimum)
    else if seen.disputed then Err(OpenDisputes)
    else Insertable(s, Vendor(s.cashouts[request].vendor), seen)
  }

  function ScheduleVendorPayout(s: Db, vendor: nat, seen: Reading, end: Time, now: Time): Db {
    var verdict := VendorPayoutVerdict(s, vendor, seen);
    if verdict.Ok? then Scheduled(s, Vendor(vendor), verdict.value, seen.start, end, now) else s
  }

  function ScheduleRiderPayout(s: Db, rider: nat, kycComplete: bool, seen: Reading, end: Time, now: Time): Db {
    var verdict := RiderPayoutVerdict(s, rider, kycComplete, seen);
    if verdict.Ok? then Scheduled(s, Rider(rider), verdict.value, seen.start, end, now) else s
  }

  /** The request is written by id, whatever became of it since it was read. */
  function ApproveCashout(s: Db, request: nat, pending: bool, seen: Reading, end: Time, now: Time): Db {
    var verdict := CashoutVerdict(s, request, pending, seen);
    if verdict.Err? then s
    else
      var granted := s.cashouts[request].(status := Approved, payout := Some(|s.payouts|));
      Scheduled(s, Vendor(s.cashouts[request].vendor), verdict.value, seen.start, end, now)
        .(cashouts := s.cashouts[request := granted])
  }

  predicate CashoutPending(s: Db, vendor: nat) {
    exists i :: 0 <= i < |s.cashouts| && s.cashouts[i].vendor == vendor && s.cashouts[i].status.PendingApproval?
  }

  function CashoutRequestVerdict(s: Db, vendor: nat, informal: bool, active: bool): Result<int, PayoutError> {
    var balance := Balance(s.ledger, s.payouts, Vendor(vendor));
    if Vendor(vendor) !in s.payees then Err(PayeeNotFound)
    else if !informal then Err(CashoutOnlyForInformal)
    else if !active then Err(VendorNotActive)
    else if CashoutPending(s, vendor) then Err(CashoutAlreadyPending)
    else if balance <= 0 then Err(CashoutNoBalance)
    else Ok(balance)
  }

  function RequestCashout(s: Db, vendor: nat, informal: bool, active: bool): Db {
    var verdict := CashoutRequestVerdict(s, vendor, informal, active);
    if verdict.Ok? then s.(cashouts := s.cashouts + [Cashout(vendor, verdict.value, PendingApproval, None)]) else s
  }

  function RejectCashout(s: Db, request: nat): Db {
    if request >= |s.cashouts| || !s.cashouts[request].status.PendingApproval? then s
    else s.(cashouts := s.cashouts[request := s.cashouts[request].(status := CashoutStatus.Rejected)])
  }

  // ── Webhooks ─────────────────────────────────────────────────────────

  function ReferenceIn(cb: Callback): Option<Ref> {
    if cb.reference.Some? then cb.reference else cb.external
  }

  predicate Confirms(status: CampayStatus) { status.Successful? || status.Success? || status.PaidStatus? }

  predicate Denies(status: CampayStatus) { status.FailedStatus? || status.CancelledStatus? }

  predicate Terminal(cb: Callback) { ReferenceIn(cb).Some? && (Confirms(cb.status) || Denies(cb.status)) }

  /** findUnique by campayRef within one payout table. */
  function FindPayout(payouts: seq<Payout>, vendors: bool, reference: Ref): Option<nat> {
    if payouts == [] then None
    else
      var earlier := FindPayout(payouts[..|payouts| - 1], vendors, reference);
      var last := payouts[|payouts| - 1];
      if earlier.Some? then earlier
      else if last.payee.Vendor? == vendors && last.campayRef == Some(reference) then Some(|payouts| - 1)
      else None
  }

  /** findUnique by refundCampayRef. */
  function FindRefund(orders: seq<Order>, reference: Ref): Option<nat> {
    if orders == [] then None
    else
      var earlier := FindRefund(orders[..|orders| - 1], reference);
      if earlier.Some? then earlier
      else if orders[|orders| - 1].refundCampayRef == Some(reference) then Some(|orders| - 1)
      else None
  }

  /** findFirst by code or paymentReference. */
  function FindCollect(orders: seq<Order>, reference: Ref): Option<nat> {
    if orders == [] then None
    else
      var earlier := FindCollect(orders[..|orders| - 1], reference);
      var last := orders[|orders| - 1];
      if earlier.Some? then earlier
      else if last.code == reference || last.paymentReference == Some(reference) then Some(|orders| - 1)
      else None
  }

  /** The vendor table is searched first. */
  function TransferTarget(payouts: seq<Payout>, reference: Ref): Option<nat> {
    var vendor := FindPayout(payouts, true, reference);
    if vendor.Some? then vendor else FindPayout(payouts, false, reference)
  }

  lemma {:induction false} FoundPayout(payouts: seq<Payout>, vendors: bool, reference: Ref)
    ensures var hit := FindPayout(payouts, vendors, reference);
            && (hit.Some? ==> hit.value < |payouts| && payouts[hit.value].campayRef == Some(reference)
                              && payouts[hit.value].payee.Vendor? == vendors)
            && (hit.None? ==> forall i :: 0 <= i < |payouts| && payouts[i].payee.Vendor? == vendors
                                          ==> payouts[i].campayRef != Some(reference))
  {
    if payouts != [] {
      FoundPayout(payouts[..|payouts| - 1], vendors, reference);
    }
  }

  lemma {:induction false} FoundRefund(orders: seq<Order>, reference: Ref)
    ensures var hit := FindRefund(orders, reference);
            && (hit.Some? ==> hit.value < |orders| && orders[hit.value].refundCampayRef == Some(reference))
            && (hit.None? ==> forall i :: 0 <= i < |orders| ==> orders[i].refundCampayRef != Some(reference))
  {
    if orders != [] {
      FoundRefund(orders[..|orders| - 1], reference);
    }
  }

  lemma {:induction false} FoundCollect(orders: seq<Order>, reference: Ref)
    ensures var hit := FindCollect(orders, reference);
            && (hit.Some? ==> hit.value < |orders|
                              && (orders[hit.value].code == reference || orders[hit.value].paymentReference == Some(reference)))
  {
    if orders != [] {
      FoundCollect(orders[..|orders| - 1], reference);
    }
  }

  function Recorded(s: Db, key: WebhookKey, result: WebhookResult): Db {
    s.(webhooks := s.webhooks[key := result])
  }

  function TransferWebhook(s: Db, cb: Callback): Db {
    if !Terminal(cb) then s
    else
      var key := WebhookKey(Transfer, ReferenceIn(cb).value);
      if key in s.webhooks then s
      else
        match TransferTarget(s.payouts, key.reference)
        case None => Recorded(s, key, NoMatch)
        case Some(id) =>
          if PayoutOutcomeOf(s, id, OpTransferCallback(Confirms(cb.status))).Err? then Recorded(s, key, StatusMismatch)
          else Recorded(OnPayout(s, id, OpTransferCallback(Confirms(cb.status))), key,
                        if Confirms(cb.status) then Succeeded else WebhookResult.Rejected)
  }

  function RefundWebhook(s: Db, cb: Callback, now: Time): Db {
    if !Terminal(cb) then s
    else
      var key := WebhookKey(Refund, ReferenceIn(cb).value);
      if key in s.webhooks then s
      else
        match FindRefund(s.orders, key.reference)
        case None => Recorded(s, key, NoMatch)
        case Some(id) =>
          if OrderOutcome(s, id, OpRefundCallback(Confirms(cb.status)), now).Err? then Recorded(s, key, StatusMismatch)
          else Recorded(OnOrder(s, id, OpRefundCallback(Confirms(cb.status)), now), key,
                        if Confirms(cb.status) then Succeeded else WebhookResult.Rejected)
  }

  /** handleWebhook for collects: the dedup row is taken before the status is
      looked at, and success only raises PAYMENT_SUCCEEDED. */
  function CollectWebhook(s: Db, cb: Callback, now: Time): Db {
    if ReferenceIn(cb).None? then s
    else
      var key := WebhookKey(Collect, ReferenceIn(cb).value);
      if key in s.webhooks then s
      else
        match FindCollect(s.orders, key.reference)
        case None => Recorded(s, key, NoMatch)
        case Some(id) =>
          if cb.status.Successful? then Recorded(s, key, Succeeded)
          else if !Denies(cb.status) then Recorded(s, key, IgnoredNonTerminal)
          else if OrderOutcome(s, id, OpCollectFailed, now).Err? then Recorded(s, key, AlreadyPaidIgnored)
          else Recorded(OnOrder(s, id, OpCollectFailed, now), key, WebhookResult.Rejected)
  }

  /** The order for which a collect callback raises PAYMENT_SUCCEEDED, if it
      does. The subscriber's write is a transition of its own. */
  function PaymentRaised(s: Db, cb: Callback): Option<nat> {
    if ReferenceIn(cb).None? || WebhookKey(Collect, ReferenceIn(cb).value) in s.webhooks || !cb.status.Successful? then None
    else FindCollect(s.orders, ReferenceIn(cb).value)
  }

  // ── One transition ───────────────────────────────────────────────────

  datatype Op =
    | Place(draft: Draft)
    | Write(order: nat, write: OrderOp)
    | Move(payout: nat, move: PayoutOp)
    | CollectCallback(cb: Callback)
    | TransferCallbackOp(cb: Callback)
    | RefundCallbackOp(cb: Callback)
    | PayVendor(vendor: nat, seen: Reading, end: Time)
    | PayRider(rider: nat, kycComplete: bool, seen: Reading, end: Time)
    | AskCashout(vendor: nat, informal: bool, active: bool)
    | GrantCashout(request: nat, pending: bool, seen: Reading, end: Time)
    | DenyCashout(request: nat)

  function Apply(s: Db, op: Op, now: Time): Db {
    match op
    case Place(draft) => PlaceOrder(s, draft)
    case Write(order, write) => OnOrder(s, order, write, now)
    case Move(payout, move) => OnPayout(s, payout, move)
    case CollectCallback(cb) => CollectWebhook(s, cb, now)
    case TransferCallbackOp(cb) => TransferWebhook(s, cb)
    case RefundCallbackOp(cb) => RefundWebhook(s, cb, now)
    case PayVendor(vendor, seen, end) => ScheduleVendorPayout(s, vendor, seen, end, now)
    case PayRider(rider, kycComplete, seen, end) => ScheduleRiderPayout(s, rider, kycComplete, seen, end, now)
    case AskCashout(vendor, informal, active) => RequestCashout(s, vendor, informal, active)
    case GrantCashout(request, pending, seen, end) => ApproveCashout(s, request, pending, seen, end, now)
    case DenyCashout(request) => RejectCashout(s, request)
  }

  function Next(s: Db, op: Op, now: Time): Db {
    Apply(s, op, now).(clock := now)
  }
}
