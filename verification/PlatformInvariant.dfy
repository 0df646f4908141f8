/** The joint invariant of orders, ledger, payouts and announcements, and its
    preservation by every transition. */
module PlatformInvariant {
  import opened Common
  import opened Ledger
  import opened Pricing
  import opened Orders
  import opened OrderInvariants
  import opened OrderBooks
  import opened Payouts
  import opened Platform

  function OrderSum(orders: seq<Order>, ledger: seq<Row>, key: Key): int {
    if orders == [] then 0
    else
      var last := |orders| - 1;
      OrderSum(orders[..last], ledger, key) + OrderTerm(last, orders[last], TallyOf(ledger, last), key)
  }

  function PayoutSum(payouts: seq<Payout>, key: Key): int {
    if payouts == [] then 0
    else PayoutSum(payouts[..|payouts| - 1], key) + PayoutTerm(payouts[|payouts| - 1], key)
  }

  /** What the tables say an account should hold. */
  function Expected(s: Db, key: Key): int {
    OrderSum(s.orders, s.ledger, key) + PayoutSum(s.payouts, key)
  }

  const Blank := BookTally(0, 0, 0, 0, 0, 0)

  ghost predicate OrderOk(s: Db, i: nat)
    requires i < |s.orders|
  {
    Coherent(s.orders[i]) && Accounted(s.orders[i], TallyOf(s.ledger, i), HearAll(Silence, i, s.log))
  }

  /** Nothing is booked or announced about an order that does not exist yet. */
  ghost predicate Unheard(s: Db, i: nat) {
    TallyOf(s.ledger, i) == Blank && HearAll(Silence, i, s.log) == Silence
  }

  ghost predicate PayoutOk(s: Db, i: nat) {
    && (i < |s.payouts| ==> CallsWithinRetries(s.payouts[i], Calls(s.log, i), Retries(s.log, i)))
    && (i >= |s.payouts| ==> Calls(s.log, i) == 0 && Retries(s.log, i) == 0)
    && Total(s.ledger, Posted(PayoutOf(i))) == Bit(i < |s.payouts|)
  }

  ghost predicate OrdersOk(s: Db) {
    && (forall i: nat :: i < |s.orders| ==> OrderOk(s, i))
    && (forall i: nat :: i >= |s.orders| ==> Unheard(s, i))
  }

  ghost predicate BooksClose(s: Db) {
    forall key: Key :: !key.Posted? ==> Total(s.ledger, key) == Expected(s, key)
  }

  ghost predicate PayoutsOk(s: Db) {
    forall i: nat :: PayoutOk(s, i)
  }

  ghost predicate Inv(s: Db) {
    OrdersOk(s) && PayoutsOk(s) && BooksClose(s)
  }

  /** No orders, payouts or history; vendors and riders are registered. */
  ghost predicate Initial(s: Db) {
    s.orders == [] && s.ledger == [] && s.payouts == [] && s.cashouts == [] && s.webhooks == map[]
    && s.payoutTags == map[] && s.log == [] && forall p :: p in s.payees ==> s.payees[p] <= s.clock
  }

  /** A start some earlier state can have answered: the account's creation, or
      the end of a payout that exists. */
  ghost predicate StartRead(s: Db, payee: Payee, start: Time) {
    payee in s.payees ==>
      start == s.payees[payee] || exists i: nat :: i < |s.payouts| && s.payouts[i].payee == payee && s.payouts[i].periodEnd == start
  }

  /** A request some caller can make: createOrder's own checks hold of a draft,
      a read precedes its write, and settlement callbacks come by webhook. */
  ghost predicate Legal(s: Db, op: Op) {
    match op
    case Place(draft) => LegalAmounts(draft.subtotalXAF, draft.deliveryFeeXAF, draft.discountXAF)
    case Write(id, write) => !write.OpRefundCallback? && (id < |s.orders| ==> Possible(s.orders[id], write))
    case Move(_, move) => !move.OpTransferCallback?
    case PayVendor(vendor, seen, _) => StartRead(s, Vendor(vendor), seen.start)
    case PayRider(rider, _, seen, _) => StartRead(s, Rider(rider), seen.start)
    case GrantCashout(request, _, seen, _) =>
      request < |s.cashouts| ==> StartRead(s, Vendor(s.cashouts[request].vendor), seen.start)
    case _ => true
  }

  lemma InitialInv(s: Db)
    requires Initial(s)
    ensures Inv(s)
  {
  }

  // ── Sums over the tables ─────────────────────────────────────────────

  lemma {:induction false} OrderSumUpdate(orders: seq<Order>, before: seq<Row>, after: seq<Row>, id: nat, row: Order, key: Key)
    requires id < |orders|
    requires forall i: nat :: i < |orders| && i != id ==> TallyOf(after, i) == TallyOf(before, i)
    ensures OrderSum(orders[id := row], after, key)
         == OrderSum(orders, before, key) - OrderTerm(id, orders[id], TallyOf(before, id), key)
            + OrderTerm(id, row, TallyOf(after, id), key)
  {
    var last := |orders| - 1;
    if id == last {
      assert orders[id := row][..last] == orders[..last];
      OrderSumFrame(orders[..last], before, after, key);
    } else {
      assert orders[id := row][..last] == orders[..last][id := row];
      OrderSumUpdate(orders[..last], before, after, id, row, key);
    }
  }

  lemma {:induction false} OrderSumFrame(orders: seq<Order>, before: seq<Row>, after: seq<Row>, key: Key)
    requires forall i: nat :: i < |orders| ==> TallyOf(after, i) == TallyOf(before, i)
    ensures OrderSum(orders, after, key) == OrderSum(orders, before, key)
  {
    if orders != [] {
      OrderSumFrame(orders[..|orders| - 1], before, after, key);
    }
  }

  lemma {:induction false} PayoutSumUpdate(payouts: seq<Payout>, id: nat, row: Payout, key: Key)
    requires id < |payouts| && row.payee == payouts[id].payee && row.netXAF == payouts[id].netXAF
    ensures PayoutSum(payouts[id := row], key) == PayoutSum(payouts, key)
  {
    var last := |payouts| - 1;
    if id == last {
      assert payouts[id := row][..last] == payouts[..last];
    } else {
      assert payouts[id := row][..last] == payouts[..last][id := row];
      PayoutSumUpdate(payouts[..last], id, row, key);
    }
  }

  // ── Writes to orders ─────────────────────────────────────────────────

  lemma TallyAfterWrite(s: Db, id: nat, op: OrderOp, now: Time, i: nat)
    requires id < |s.orders| && OrderOutcome(s, id, op, now).Ok?
    ensures var p := OrderOutcome(s, id, op, now).value;
            && TallyOf(Post(s.ledger, p.posting, now), i)
               == (if i == id then Booked(TallyOf(s.ledger, i), p.posting) else TallyOf(s.ledger, i))
            && (forall k: nat :: Total(Post(s.ledger, p.posting, now), Posted(PayoutOf(k))) == Total(s.ledger, Posted(PayoutOf(k))))
  {
    hide StepOrder;
    var taken := ReferenceClash(s, id, op);
    var p := OrderOutcome(s, id, op, now).value;
    forall event: EventId
      ensures Total(Post(s.ledger, p.posting, now), Posted(event))
           == Total(s.ledger, Posted(event)) + Bit(p.posting.Some? && p.posting.value.eventId == event)
      ensures p.posting.Some? ==> SubjectOf(p.posting.value.eventId) == Some(id)
    {
      PostingIsCountedOnce(id, s.orders[id], op, taken, now, event);
      if p.posting.Some? {
        TotalOfAppend(s.ledger, Rows(p.posting.value, now), Posted(event));
      }
    }
  }

  /** A write announces only its own order. */
  lemma LogAfterWrite(id: nat, row: Order, op: OrderOp, taken: bool, now: Time, t: LogTally, i: nat)
    requires StepOrder(id, row, op, taken, now).Ok?
    ensures var log := StepOrder(id, row, op, taken, now).value.log;
            && (i != id ==> HearAll(t, i, log) == t)
            && Calls(log, i) == 0 && Retries(log, i) == 0
  {
    var log := StepOrder(id, row, op, taken, now).value.log;
    HearAtMostTwo(t, i, log);
    OrderNewsIsNoCall(log, i);
  }

  lemma {:induction false} OrderNewsIsNoCall(log: seq<LogEvent>, payout: nat)
    requires forall j :: 0 <= j < |log| ==> !log[j].TransferCalled? && !log[j].PayoutRetried?
    ensures Calls(log, payout) == 0 && Retries(log, payout) == 0
  {
    if log != [] {
      OrderNewsIsNoCall(log[..|log| - 1], payout);
    }
  }

  lemma WriteKeepsInv(s: Db, id: nat, op: OrderOp, now: Time)
    requires Inv(s) && id < |s.orders| && Possible(s.orders[id], op)
    requires OrderOutcome(s, id, op, now).Ok?
    ensures Inv(OnOrder(s, id, op, now))
    ensures Earlier(s.orders[id], OnOrder(s, id, op, now).orders[id])
    ensures Forward(s.orders[id], OnOrder(s, id, op, now).orders[id])
  {
    hide StepOrder;
    hide Coherent;
    hide Earlier;
    hide Forward;
    hide Accounted;
    var p := OrderOutcome(s, id, op, now).value;
    var s' := OnOrder(s, id, op, now);
    var taken := ReferenceClash(s, id, op);
    assert OrderOk(s, id);
    var book, log := TallyOf(s.ledger, id), HearAll(Silence, id, s.log);
    EveryWriteKeeps(id, s.orders[id], op, taken, now, book, log);
    forall i: nat
      ensures TallyOf(s'.ledger, i) == if i == id then Booked(book, p.posting) else TallyOf(s.ledger, i)
      ensures HearAll(Silence, i, s'.log) == if i == id then HearAll(log, id, p.log) else HearAll(Silence, i, s.log)
      ensures Calls(s'.log, i) == Calls(s.log, i) && Retries(s'.log, i) == Retries(s.log, i)
      ensures Total(s'.ledger, Posted(PayoutOf(i))) == Total(s.ledger, Posted(PayoutOf(i)))
    {
      TallyAfterWrite(s, id, op, now, i);
      HearAllOfAppend(Silence, i, s.log, p.log);
      CallsOfAppend(s.log, p.log, i);
      LogAfterWrite(id, s.orders[id], op, taken, now, HearAll(Silence, i, s.log), i);
    }
    assert OrdersOk(s') by {
      forall i: nat | i < |s'.orders| ensures OrderOk(s', i) {
        assert OrderOk(s, i);
      }
      forall i: nat | i >= |s'.orders| ensures Unheard(s', i) {
        assert Unheard(s, i);
      }
    }
    assert PayoutsOk(s') by {
      forall i: nat ensures PayoutOk(s', i) {
        assert PayoutOk(s, i);
      }
    }
    forall key: Key | !key.Posted? ensures Total(s'.ledger, key) == Expected(s', key) {
      EveryWriteReconciles(id, s.orders[id], op, taken, now, book, log, key);
      if p.posting.Some? {
        TotalOfAppend(s.ledger, Rows(p.posting.value, now), key);
      }
      OrderSumUpdate(s.orders, s.ledger, s'.ledger, id, p.row, key);
    }
  }

  lemma PlaceKeepsInv(s: Db, draft: Draft)
    requires Inv(s) && LegalAmounts(draft.subtotalXAF, draft.deliveryFeeXAF, draft.discountXAF)
    ensures Inv(PlaceOrder(s, draft))
  {
    var s' := PlaceOrder(s, draft);
    if s' != s {
      forall i: nat | i < |s'.orders| ensures OrderOk(s', i) {
        if i == |s.orders| {
          assert Unheard(s, i);
        } else {
          assert OrderOk(s, i);
        }
      }
      forall i: nat | i >= |s'.orders| ensures Unheard(s', i) {
        assert Unheard(s, i);
      }
      forall i: nat ensures PayoutOk(s', i) {
        assert PayoutOk(s, i);
      }
      forall key: Key | !key.Posted? ensures Total(s'.ledger, key) == Expected(s', key) {
        assert s'.orders[..|s.orders|] == s.orders;
        assert Unheard(s, |s.orders|);
        assert OrderTerm(|s.orders|, Placed(draft), Blank, key) == 0;
      }
    }
  }

  // ── Writes to payouts ────────────────────────────────────────────────

  /** A payout move announces nothing about orders. */
  lemma OrdersDoNotHearPayouts(t: LogTally, i: nat, log: seq<LogEvent>)
    requires |log| <= 1 && (|log| == 1 ==> log[0].TransferCalled? || log[0].PayoutRetried?)
    ensures HearAll(t, i, log) == t
  {
    HearAtMostTwo(t, i, log);
  }

  lemma MoveSpeaksOfItsPayout(id: nat, row: Payout, op: PayoutOp, taken: bool, i: nat)
    requires StepPayout(id, row, op, taken).Ok?
    ensures var log := StepPayout(id, row, op, taken).value.log;
            && |log| <= 1 && (|log| == 1 ==> log[0].TransferCalled? || log[0].PayoutRetried?)
            && (i != id ==> Calls(log, i) == 0 && Retries(log, i) == 0)
  {
    var log := StepPayout(id, row, op, taken).value.log;
    if |log| == 1 {
      assert log[..0] == [];
    }
  }

  lemma PayoutKeepsItsNet(id: nat, row: Payout, op: PayoutOp, taken: bool)
    requires StepPayout(id, row, op, taken).Ok?
    ensures var after := StepPayout(id, row, op, taken).value.row; after.payee == row.payee && after.netXAF == row.netXAF
  {
  }

  /** Orders whose books and announcements stay as they were. */
  lemma OrdersOkStays(s: Db, s': Db)
    requires OrdersOk(s) && s'.orders == s.orders && s'.ledger == s.ledger
    requires forall i: nat :: HearAll(Silence, i, s'.log) == HearAll(Silence, i, s.log)
    ensures OrdersOk(s')
  {
    forall i: nat | i < |s'.orders| ensures OrderOk(s', i) {
      assert OrderOk(s, i);
    }
    forall i: nat | i >= |s'.orders| ensures Unheard(s', i) {
      assert Unheard(s, i);
    }
  }

  lemma MoveIsUnheard(s: Db, id: nat, op: PayoutOp, i: nat)
    requires PayoutOutcomeOf(s, id, op).Ok?
    ensures var p := PayoutOutcomeOf(s, id, op).value; var s' := OnPayout(s, id, op);
            && HearAll(Silence, i, s'.log) == HearAll(Silence, i, s.log)
            && Calls(s'.log, i) == Calls(s.log, i) + Calls(p.log, i)
            && Retries(s'.log, i) == Retries(s.log, i) + Retries(p.log, i)
            && (i != id ==> Calls(p.log, i) == 0 && Retries(p.log, i) == 0)
  {
    hide StepPayout;
    var p := PayoutOutcomeOf(s, id, op).value;
    MoveSpeaksOfItsPayout(id, s.payouts[id], op, CampayRefClash(s, id, op), i);
    HearAllOfAppend(Silence, i, s.log, p.log);
    OrdersDoNotHearPayouts(HearAll(Silence, i, s.log), i, p.log);
    CallsOfAppend(s.log, p.log, i);
  }

  lemma MoveKeepsPayout(s: Db, id: nat, op: PayoutOp, i: nat)
    requires PayoutsOk(s) && PayoutOutcomeOf(s, id, op).Ok?
    ensures PayoutOk(OnPayout(s, id, op), i)
    ensures HearAll(Silence, i, OnPayout(s, id, op).log) == HearAll(Silence, i, s.log)
  {
    hide StepPayout;
    hide HearAll;
    hide Calls;
    hide Retries;
    hide Total;
    assert PayoutOk(s, i);
    assert PayoutOk(s, id);
    StepKeepsPayout(id, s.payouts[id], op, CampayRefClash(s, id, op), Calls(s.log, id), Retries(s.log, id));
    MoveIsUnheard(s, id, op, i);
  }

  lemma MoveKeepsInv(s: Db, id: nat, op: PayoutOp)
    requires Inv(s)
    ensures Inv(OnPayout(s, id, op))
  {
    hide StepPayout;
    hide OrdersOk;
    hide PayoutOk;
    var s' := OnPayout(s, id, op);
    if PayoutOutcomeOf(s, id, op).Ok? {
      var p := PayoutOutcomeOf(s, id, op).value;
      PayoutKeepsItsNet(id, s.payouts[id], op, CampayRefClash(s, id, op));
      forall i: nat
        ensures HearAll(Silence, i, s'.log) == HearAll(Silence, i, s.log)
        ensures PayoutOk(s', i)
      {
        MoveKeepsPayout(s, id, op, i);
      }
      OrdersOkStays(s, s');
      forall key: Key | !key.Posted? ensures Total(s'.ledger, key) == Expected(s', key) {
        PayoutSumUpdate(s.payouts, id, p.row, key);
      }
    }
  }

  lemma ScheduledKeepsInv(s: Db, payee: Payee, netXAF: int, start: Time, end: Time, now: Time)
    requires Inv(s) && netXAF != 0
    ensures Inv(Scheduled(s, payee, netXAF, start, end, now))
  {
    var s' := Scheduled(s, payee, netXAF, start, end, now);
    var id := |s.payouts|;
    var rows := Rows(PayoutTxn(payee, id, netXAF), now);
    forall key: Key
      ensures Total(s'.ledger, key) == Total(s.ledger, key) + Total(rows, key)
      ensures key.Posted? ==> Total(rows, key) == Bit(key.event == PayoutOf(id))
    {
      TotalOfAppend(s.ledger, rows, key);
      PayoutReconciles(payee, id, netXAF, now, key);
    }
    forall i: nat ensures TallyOf(s'.ledger, i) == TallyOf(s.ledger, i) {
    }
    forall i: nat | i < |s'.orders| ensures OrderOk(s', i) {
      assert OrderOk(s, i);
    }
    forall i: nat | i >= |s'.orders| ensures Unheard(s', i) {
      assert Unheard(s, i);
    }
    forall i: nat ensures PayoutOk(s', i) {
      assert PayoutOk(s, i);
    }
    forall key: Key | !key.Posted? ensures Total(s'.ledger, key) == Expected(s', key) {
      PayoutReconciles(payee, id, netXAF, now, key);
      OrderSumFrame(s.orders, s.ledger, s'.ledger, key);
      assert s'.payouts[..id] == s.payouts;
    }
  }

  /** Cashouts, dedup rows and the clock are outside the invariant's reach. */
  lemma InvIgnoresTheRest(s: Db, s': Db)
    requires Inv(s)
    requires s'.orders == s.orders && s'.ledger == s.ledger && s'.payouts == s.payouts && s'.log == s.log
    ensures Inv(s')
  {
    forall i: nat | i < |s'.orders| ensures OrderOk(s', i) {
      assert OrderOk(s, i);
    }
    forall i: nat | i >= |s'.orders| ensures Unheard(s', i) {
      assert Unheard(s, i);
    }
    forall i: nat ensures PayoutOk(s', i) {
      assert PayoutOk(s, i);
    }
    forall key: Key | !key.Posted? ensures Total(s'.ledger, key) == Expected(s', key) {
      assert Expected(s', key) == Expected(s, key);
    }
  }

  lemma SchedulingKeepsInv(s: Db, op: Op, now: Time)
    requires Inv(s) && (op.PayVendor? || op.PayRider? || op.GrantCashout?)
    ensures Inv(Next(s, op, now))
  {
    hide Inv;
    var s' := Apply(s, op, now);
    match op {
      case PayVendor(vendor, seen, end) =>
        if VendorPayoutVerdict(s, vendor, seen).Ok? {
          ScheduledKeepsInv(s, Vendor(vendor), seen.balanceXAF, seen.start, end, now);
        }
        InvIgnoresTheRest(s', Next(s, op, now));
      case PayRider(rider, kycComplete, seen, end) =>
        if RiderPayoutVerdict(s, rider, kycComplete, seen).Ok? {
          ScheduledKeepsInv(s, Rider(rider), seen.balanceXAF, seen.start, end, now);
        }
        InvIgnoresTheRest(s', Next(s, op, now));
      case GrantCashout(request, pending, seen, end) =>
        if CashoutVerdict(s, request, pending, seen).Ok? {
          var paid := Scheduled(s, Vendor(s.cashouts[request].vendor), seen.balanceXAF, seen.start, end, now);
          ScheduledKeepsInv(s, Vendor(s.cashouts[request].vendor), seen.balanceXAF, seen.start, end, now);
          InvIgnoresTheRest(paid, Next(s, op, now));
        } else {
          InvIgnoresTheRest(s, Next(s, op, now));
        }
    }
  }

  lemma CollectKeepsInv(s: Db, cb: Callback, now: Time)
    requires Inv(s)
    ensures Inv(CollectWebhook(s, cb, now))
  {
    hide StepOrder;
    hide Coherent;
    hide Accounted;
    hide Earlier;
    hide Inv;
    var s' := CollectWebhook(s, cb, now);
    var mid := s;
    if ReferenceIn(cb).Some? && s' != s {
      FoundCollect(s.orders, ReferenceIn(cb).value);
      var hit := FindCollect(s.orders, ReferenceIn(cb).value);
      if hit.Some? && Denies(cb.status) && OrderOutcome(s, hit.value, OpCollectFailed, now).Ok? {
        WriteKeepsInv(s, hit.value, OpCollectFailed, now);
        mid := OnOrder(s, hit.value, OpCollectFailed, now);
      }
    }
    InvIgnoresTheRest(mid, s');
  }

  lemma TransferKeepsInv(s: Db, cb: Callback)
    requires Inv(s)
    ensures Inv(TransferWebhook(s, cb))
  {
    hide StepPayout;
    hide Inv;
    var s' := TransferWebhook(s, cb);
    var mid := s;
    if Terminal(cb) && s' != s {
      var hit := TransferTarget(s.payouts, ReferenceIn(cb).value);
      if hit.Some? {
        MoveKeepsInv(s, hit.value, OpTransferCallback(Confirms(cb.status)));
        mid := OnPayout(s, hit.value, OpTransferCallback(Confirms(cb.status)));
      }
    }
    InvIgnoresTheRest(mid, s');
  }

  lemma RefundKeepsInv(s: Db, cb: Callback, now: Time)
    requires Inv(s)
    ensures Inv(RefundWebhook(s, cb, now))
  {
    hide StepOrder;
    hide Coherent;
    hide Accounted;
    hide Earlier;
    hide Inv;
    var s' := RefundWebhook(s, cb, now);
    var mid := s;
    if Terminal(cb) && s' != s {
      FoundRefund(s.orders, ReferenceIn(cb).value);
      var hit := FindRefund(s.orders, ReferenceIn(cb).value);
      if hit.Some? && OrderOutcome(s, hit.value, OpRefundCallback(Confirms(cb.status)), now).Ok? {
        WriteKeepsInv(s, hit.value, OpRefundCallback(Confirms(cb.status)), now);
        mid := OnOrder(s, hit.value, OpRefundCallback(Confirms(cb.status)), now);
      }
    }
    InvIgnoresTheRest(mid, s');
  }

  /** Every transition preserves the invariant. */
  lemma NextKeepsInv(s: Db, op: Op, now: Time)
    requires Inv(s) && Legal(s, op)
    ensures Inv(Next(s, op, now))
  {
    hide Inv;
    hide StepOrder;
    hide StepPayout;
    match op {
      case Place(draft) =>
        PlaceKeepsInv(s, draft);
        InvIgnoresTheRest(PlaceOrder(s, draft), Next(s, op, now));
      case Write(id, write) =>
        if OrderOutcome(s, id, write, now).Ok? {
          WriteKeepsInv(s, id, write, now);
        }
        InvIgnoresTheRest(OnOrder(s, id, write, now), Next(s, op, now));
      case Move(id, move) =>
        MoveKeepsInv(s, id, move);
        InvIgnoresTheRest(OnPayout(s, id, move), Next(s, op, now));
      case CollectCallback(cb) =>
        CollectKeepsInv(s, cb, now);
        InvIgnoresTheRest(CollectWebhook(s, cb, now), Next(s, op, now));
      case TransferCallbackOp(cb) =>
        TransferKeepsInv(s, cb);
        InvIgnoresTheRest(TransferWebhook(s, cb), Next(s, op, now));
      case RefundCallbackOp(cb) =>
        RefundKeepsInv(s, cb, now);
        InvIgnoresTheRest(RefundWebhook(s, cb, now), Next(s, op, now));
      case PayVendor(_, _, _) => SchedulingKeepsInv(s, op, now);
      case PayRider(_, _, _, _) => SchedulingKeepsInv(s, op, now);
      case GrantCashout(_, _, _, _) => SchedulingKeepsInv(s, op, now);
      case AskCashout(_, _, _) => InvIgnoresTheRest(s, Next(s, op, now));
      case DenyCashout(_) => InvIgnoresTheRest(s, Next(s, op, now));
    }
  }
}
