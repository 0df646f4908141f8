/** The services that decide on an order, prepare it, or let it lapse. `read` is
    the row a request loaded; its guarded write runs on the row as it then is. */
module OrderServices {
  import opened Common
  import opened Ledger
  import opened Pricing
  import opened Orders
  import opened Payouts
  import opened OrderInvariants
  import opened Platform
  import opened PlatformInvariant
  import opened LedgerServices
  import opened S = Store

  class OrderVendorActionsService {
    const db: S.Store
    const ledger: LedgerService

    constructor (db: S.Store, ledger: LedgerService)
      requires ledger.db == db
      ensures this.db == db && this.ledger == ledger
    {
      this.db, this.ledger := db, ledger;
    }

    method AcceptOrder(id: nat, read: Order, caller: nat, now: Time) returns (thrown: Option<OrderError>)
      modifies db
      ensures thrown == Thrown(OrderOutcome(old(db.Db()), id, OpAccept(read, caller), now))
      ensures db.Db() == OnOrder(old(db.Db()), id, OpAccept(read, caller), now)
    {
      if id >= |db.orders| || read.vendorId != caller {
        return Some(OrderNotFound);
      }
      if !Decidable(read.status) {
        return Some(OrderNotPending);
      }
      if !Decidable(db.orders[id].status) {
        return Some(OrderStateChanged);
      }
      db.orders := db.orders[id := db.orders[id].(status := Accepted)];
      db.log := db.log + [OrderAccepted(id)];
      return None;
    }

    method RefuseOrder(id: nat, read: Order, caller: nat, now: Time) returns (thrown: Option<OrderError>)
      modifies db
      ensures thrown == Thrown(OrderOutcome(old(db.Db()), id, OpRefuse(read, caller), now))
      ensures db.Db() == OnOrder(old(db.Db()), id, OpRefuse(read, caller), now)
    {
      if id >= |db.orders| || read.vendorId != caller {
        return Some(OrderNotFound);
      }
      if !Decidable(read.status) {
        return Some(OrderNotPending);
      }
      if !Decidable(db.orders[id].status) {
        return Some(OrderStateChanged);
      }
      db.orders := db.orders[id := db.orders[id].(status := Refused)];
      db.log := db.log + [OrderRefused(id)];
      return None;
    }

    method SetItemPrepared(id: nat, caller: nat, item: nat, flag: bool, now: Time) returns (thrown: Option<OrderError>)
      modifies db
      ensures thrown == Thrown(OrderOutcome(old(db.Db()), id, OpSetItemPrepared(caller, item, flag), now))
      ensures db.Db() == OnOrder(old(db.Db()), id, OpSetItemPrepared(caller, item, flag), now)
    {
      if id >= |db.orders| || db.orders[id].vendorId != caller {
        return Some(OrderNotFound);
      }
      var order := db.orders[id];
      if !InKitchen(order.status) {
        return Some(NotInPrepPhase);
      }
      if item >= |order.prepared| {
        return Some(ItemNotFound);
      }
      var items := order.prepared[item := flag];
      var anyPrepared := exists i :: 0 <= i < |items| && items[i];
      var status := order.status;
      if anyPrepared && status == Accepted {
        status := InPrep;
      } else if !anyPrepared && status == InPrep {
        status := Accepted;
      }
      db.orders := db.orders[id := order.(prepared := items, status := status)];
      return None;
    }

    method MarkOrderReady(id: nat, read: Order, items: seq<bool>, caller: nat, now: Time) returns (thrown: Option<OrderError>)
      modifies db
      ensures thrown == Thrown(OrderOutcome(old(db.Db()), id, OpMarkReady(read, items, caller), now))
      ensures db.Db() == OnOrder(old(db.Db()), id, OpMarkReady(read, items, caller), now)
    {
      if id >= |db.orders| || read.vendorId != caller {
        return Some(OrderNotFound);
      }
      if !InKitchen(read.status) {
        return Some(NotInPrepPhase);
      }
      if |items| == 0 || exists i :: 0 <= i < |items| && !items[i] {
        return Some(ItemsNotAllPrepared);
      }
      if !InKitchen(db.orders[id].status) {
        return Some(OrderStateChanged);
      }
      db.orders := db.orders[id := db.orders[id].(status := ReadyPickup)];
      db.log := db.log + [OrderReady(id)];
      return None;
    }

    /** One transaction: order flip, penalty row, ledger pair. */
    method VendorCancelPreOrder(id: nat, read: Order, caller: nat, now: Time) returns (thrown: Option<OrderError>)
      requires ledger.db == db
      modifies db
      ensures thrown == Thrown(OrderOutcome(old(db.Db()), id, OpVendorCancel(read, caller), now))
      ensures db.Db() == OnOrder(old(db.Db()), id, OpVendorCancel(read, caller), now)
    {
      hide Refusal;
      if id >= |db.orders| || read.vendorId != caller {
        return Some(OrderNotFound);
      }
      if read.scheduledFor.None? {
        return Some(NotAPreOrder);
      }
      if !InKitchen(read.status) {
        return Some(PreOrderNotCancellable);
      }
      if !InKitchen(db.orders[id].status) {
        return Some(OrderStateChanged);
      }
      if db.orders[id].penaltyXAF.Some? {
        return Some(PenaltyExists);
      }
      var penaltyXAF := Penalty(read.totalXAF);
      var cancelled := db.orders[id].(status := Cancelled, paymentStatus := RefundPending, penaltyXAF := Some(penaltyXAF));
      var refusal := WriteAndBook(ledger, id, cancelled, PenaltyTxn(id, read.vendorId, penaltyXAF), now);
      if refusal.Some? {
        return Some(LedgerRefused(refusal.value));
      }
      db.log := db.log + [OrderCancelled(id, ByVendorPreOrder)];
      return None;
    }
  }

  class OrdersService {
    const db: S.Store

    constructor (db: S.Store)
      ensures this.db == db
    {
      this.db := db;
    }

    method CancelOrder(id: nat, read: Order, caller: nat, now: Time) returns (thrown: Option<OrderError>)
      modifies db
      ensures thrown == Thrown(OrderOutcome(old(db.Db()), id, OpCancel(read, caller), now))
      ensures db.Db() == OnOrder(old(db.Db()), id, OpCancel(read, caller), now)
    {
      if id >= |db.orders| || read.userId != caller {
        return Some(OrderNotFound);
      }
      if read.scheduledFor.Some? {
        return Some(PreOrderConsumerCannotCancel);
      }
      if !Decidable(read.status) {
        return Some(NotCancellable);
      }
      if !Decidable(db.orders[id].status) {
        return Some(OrderStateChanged);
      }
      db.orders := db.orders[id := db.orders[id].(status := Cancelled)];
      db.log := db.log + [OrderCancelled(id, ByConsumer)];
      return None;
    }
  }

  /** The delayed jobs of one order. */
  class OrderLifecycleProcessor {
    const db: S.Store

    constructor (db: S.Store)
      ensures this.db == db
    {
      this.db := db;
    }

    method ExpireVendorDecision(id: nat, read: Order, now: Time)
      modifies db
      ensures db.Db() == OnOrder(old(db.Db()), id, OpExpireDecision(read, false), now)
    {
      if id < |db.orders| && Decidable(read.status) && Decidable(db.orders[id].status) {
        db.orders := db.orders[id := db.orders[id].(status := Refused)];
        db.log := db.log + [OrderRefused(id)];
      }
    }

    method PromotePreOrder(id: nat, read: Order, now: Time)
      modifies db
      ensures db.Db() == OnOrder(old(db.Db()), id, OpPromote(read, false), now)
    {
      if id >= |db.orders| || !read.status.Confirmed? || !read.paymentStatus.Paid? || read.acceptanceDeadlineAt.Some? {
        return;
      }
      var deadline := now + ACCEPTANCE_TTL_MS;
      if db.orders[id].acceptanceDeadlineAt.None? {
        db.orders := db.orders[id := db.orders[id].(acceptanceDeadlineAt := Some(deadline))];
        db.log := db.log + [OrderCreated(id)];
      }
    }
  }

  // ── The crons, over rows their query found ───────────────────────────

  const SWEEP_SIZE := 50

  /** The first rows of the table, at most `limit`, that the query matches. */
  function Query(orders: seq<Order>, matches: Order -> bool, limit: nat): (ids: seq<nat>)
    ensures |ids| <= limit
    ensures forall k :: 0 <= k < |ids| ==> ids[k] < |orders| && matches(orders[ids[k]])
    ensures forall j, k :: 0 <= j < k < |ids| ==> ids[j] < ids[k]
    ensures |ids| < limit ==> forall i: nat :: i < |orders| && matches(orders[i]) ==> i in ids
  {
    if orders == [] then []
    else
      var earlier := Query(orders[..|orders| - 1], matches, limit);
      if |earlier| < limit && matches(orders[|orders| - 1]) then earlier + [|orders| - 1] else earlier
  }

  /** Rows that a change reaches, each changed the same way. */
  ghost predicate Swept(before: seq<Order>, after: seq<Order>, ids: seq<nat>, change: Order -> Order) {
    && |after| == |before|
    && forall i: nat :: i < |before| ==> after[i] == if i in ids then change(before[i]) else before[i]
  }

  function Announced(ids: seq<nat>, event: nat -> LogEvent): seq<LogEvent> {
    seq(|ids|, k requires 0 <= k < |ids| => event(ids[k]))
  }

  lemma SweptStep(before: seq<Order>, mid: seq<Order>, ids: seq<nat>, id: nat, change: Order -> Order)
    requires Swept(before, mid, ids, change) && id < |before| && id !in ids
    ensures id < |mid| && mid[id] == before[id]
    ensures Swept(before, mid[id := change(before[id])], ids + [id], change)
  {
  }

  lemma NothingSwept(before: seq<Order>, change: Order -> Order, event: nat -> LogEvent)
    ensures Swept(before, before, [], change) && Announced([], event) == []
  {
  }

  /** A query that did not fill its batch leaves no match behind it, when the
      change makes a row stop matching. */
  lemma SweptClean(before: seq<Order>, after: seq<Order>, matches: Order -> bool, limit: nat, change: Order -> Order)
    requires Swept(before, after, Query(before, matches, limit), change) && |Query(before, matches, limit)| < limit
    requires forall o :: matches(o) ==> !matches(change(o))
    ensures forall i: nat :: i < |after| ==> !matches(after[i])
  {
  }

  lemma AnnouncedStep(ids: seq<nat>, id: nat, event: nat -> LogEvent)
    ensures Announced(ids + [id], event) == Announced(ids, event) + [event(id)]
  {
  }

  function Refuse(order: Order): Order { order.(status := Refused) }

  function Promote(now: Time): Order -> Order {
    (order: Order) => order.(acceptanceDeadlineAt := Some(now + ACCEPTANCE_TTL_MS))
  }

  function RefusedEvent(id: nat): LogEvent { OrderRefused(id) }

  function CreatedEvent(id: nat): LogEvent { OrderCreated(id) }

  predicate DecisionLapsed(order: Order, now: Time) {
    Decidable(order.status) && order.acceptanceDeadlineAt.Some? && order.acceptanceDeadlineAt.value < now
  }

  predicate DueForPromotion(order: Order, now: Time) {
    order.status.Confirmed? && order.paymentStatus.Paid? && order.acceptanceDeadlineAt.None?
    && order.scheduledFor.Some? && order.scheduledFor.value <= now + PRE_ORDER_LEAD_MS
  }

  lemma RefusedDoNotLapse(now: Time)
    ensures forall o :: DecisionLapsed(o, now) ==> !DecisionLapsed(Refuse(o), now)
  {
  }

  lemma PromotedAreNotDue(now: Time)
    ensures forall o :: DueForPromotion(o, now) ==> !DueForPromotion(Promote(now)(o), now)
  {
  }

  class OrdersExpiryService {
    const db: S.Store

    constructor (db: S.Store)
      ensures this.db == db
    {
      this.db := db;
    }

    /** One candidate: the guarded write and its event. */
    method ExpireOne(id: nat, read: Order, now: Time) returns (won: bool)
      modifies db`orders, db`log
      ensures won == OrderOutcome(old(db.Db()), id, OpExpireDecision(read, true), now).Ok?
      ensures db.Db() == OnOrder(old(db.Db()), id, OpExpireDecision(read, true), now)
      ensures won ==> db.orders == old(db.orders)[id := Refuse(old(db.orders)[id])] && db.log == old(db.log) + [RefusedEvent(id)]
      ensures id < |old(db.orders)| && read == old(db.orders)[id] && DecisionLapsed(read, now) ==> won
    {
      if id >= |db.orders| || !DecisionLapsed(read, now) || !Decidable(db.orders[id].status) {
        return false;
      }
      db.orders := db.orders[id := db.orders[id].(status := Refused)];
      db.log := db.log + [OrderRefused(id)];
      return true;
    }

    /** Run alone, the sweep refuses the lapsed orders it found, up to fifty, in
        table order, and announces each; nothing else changes, and the joint
        invariant is kept. */
    method SweepExpired(now: Time) returns (ghost found: seq<nat>)
      modifies db`orders, db`log
      ensures found == Query(old(db.orders), (o: Order) => DecisionLapsed(o, now), SWEEP_SIZE)
      ensures Swept(old(db.orders), db.orders, found, Refuse)
      ensures db.log == old(db.log) + Announced(found, RefusedEvent)
      ensures |found| <= 50
      ensures |found| < 50 ==> forall i: nat :: i < |db.orders| ==> !DecisionLapsed(db.orders[i], now)
      ensures old(Inv(db.Db())) ==> Inv(db.Db())
    {
      hide Swept;
      hide Announced;
      hide Inv;
      hide DecisionLapsed;
      hide Refuse;
      var candidates := Query(db.orders, (o: Order) => DecisionLapsed(o, now), SWEEP_SIZE);
      found := candidates;
      ghost var before, heard, s := db.orders, db.log, db.Db();
      NothingSwept(db.orders, Refuse, RefusedEvent);
      assert candidates[..0] == [] && db.log + [] == db.log;
      for k := 0 to |candidates|
        invariant Swept(before, db.orders, candidates[..k], Refuse)
        invariant db.log == heard + Announced(candidates[..k], RefusedEvent)
        invariant Inv(s) ==> Inv(db.Db())
      {
        hide OnOrder;
        hide OrderOutcome;
        var id := candidates[k];
        assert candidates[..k + 1] == candidates[..k] + [id];
        SweptStep(before, db.orders, candidates[..k], id, Refuse);
        AnnouncedStep(candidates[..k], id, RefusedEvent);
        OwnReadKeepsInv(db.Db(), id, OpExpireDecision(db.orders[id], true), now);
        var won := ExpireOne(id, db.orders[id], now);
      }
      assert candidates[..|candidates|] == candidates;
      if |found| < SWEEP_SIZE {
        RefusedDoNotLapse(now);
        SweptClean(before, db.orders, (o: Order) => DecisionLapsed(o, now), SWEEP_SIZE, Refuse);
      }
    }
  }

  /** A write that runs on the row it read keeps the invariant. */
  lemma OwnReadKeepsInv(s: Db, id: nat, op: OrderOp, now: Time)
    requires id < |s.orders| && ReadOf(op) == Some(s.orders[id]) && !op.OpMarkReady?
    ensures Inv(s) ==> Inv(OnOrder(s, id, op, now))
  {
    hide StepOrder;
    hide Coherent;
    hide Accounted;
    if Inv(s) && OrderOutcome(s, id, op, now).Ok? {
      assert OrderOk(s, id);
      EarlierIsReflexive(s.orders[id]);
      WriteKeepsInv(s, id, op, now);
    }
  }

  class PreOrderPromotionService {
    const db: S.Store

    constructor (db: S.Store)
      ensures this.db == db
    {
      this.db := db;
    }

    method PromoteOne(id: nat, read: Order, now: Time) returns (won: bool)
      modifies db`orders, db`log
      ensures won == OrderOutcome(old(db.Db()), id, OpPromote(read, true), now).Ok?
      ensures db.Db() == OnOrder(old(db.Db()), id, OpPromote(read, true), now)
      ensures won ==> db.orders == old(db.orders)[id := Promote(now)(old(db.orders)[id])]
                      && db.log == old(db.log) + [CreatedEvent(id)]
      ensures id < |old(db.orders)| && read == old(db.orders)[id] && DueForPromotion(read, now) ==> won
    {
      if id >= |db.orders| || !DueForPromotion(read, now) || db.orders[id].acceptanceDeadlineAt.Some? {
        return false;
      }
      db.orders := db.orders[id := db.orders[id].(acceptanceDeadlineAt := Some(now + ACCEPTANCE_TTL_MS))];
      db.log := db.log + [OrderCreated(id)];
      return true;
    }

    /** Likewise for the pre-orders due for the vendor's decision. */
    method Sweep(now: Time) returns (ghost found: seq<nat>)
      modifies db`orders, db`log
      ensures found == Query(old(db.orders), (o: Order) => DueForPromotion(o, now), SWEEP_SIZE)
      ensures Swept(old(db.orders), db.orders, found, Promote(now))
      ensures db.log == old(db.log) + Announced(found, CreatedEvent)
      ensures |found| <= 50
      ensures |found| < 50 ==> forall i: nat :: i < |db.orders| ==> !DueForPromotion(db.orders[i], now)
      ensures old(Inv(db.Db())) ==> Inv(db.Db())
    {
      hide Swept;
      hide Announced;
      hide Inv;
      hide DueForPromotion;
      hide Promote;
      var candidates := Query(db.orders, (o: Order) => DueForPromotion(o, now), SWEEP_SIZE);
      found := candidates;
      ghost var before, heard, s := db.orders, db.log, db.Db();
      NothingSwept(db.orders, Promote(now), CreatedEvent);
      assert candidates[..0] == [] && db.log + [] == db.log;
      for k := 0 to |candidates|
        invariant Swept(before, db.orders, candidates[..k], Promote(now))
        invariant db.log == heard + Announced(candidates[..k], CreatedEvent)
        invariant Inv(s) ==> Inv(db.Db())
      {
        hide OnOrder;
        hide OrderOutcome;
        var id := candidates[k];
        assert candidates[..k + 1] == candidates[..k] + [id];
        SweptStep(before, db.orders, candidates[..k], id, Promote(now));
        AnnouncedStep(candidates[..k], id, CreatedEvent);
        OwnReadKeepsInv(db.Db(), id, OpPromote(db.orders[id], true), now);
        var won := PromoteOne(id, db.orders[id], now);
      }
      assert candidates[..|candidates|] == candidates;
      if |found| < SWEEP_SIZE {
        PromotedAreNotDue(now);
        SweptClean(before, db.orders, (o: Order) => DueForPromotion(o, now), SWEEP_SIZE, Promote(now));
      }
    }
  }
}
