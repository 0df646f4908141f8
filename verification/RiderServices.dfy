/** The services that move an order from kitchen to door. */
module RiderServices {
  import opened Common
  import opened Ledger
  import opened Orders
  import opened Payouts
  import opened Platform
  import opened LedgerServices
  import D = Dispatch
  import opened S = Store

  class RidersService {
    const db: S.Store
    const ledger: LedgerService

    constructor (db: S.Store, ledger: LedgerService)
      requires ledger.db == db
      ensures this.db == db && this.ledger == ledger
    {
      this.db, this.ledger := db, ledger;
    }

    method MarkPickedUp(id: nat, rider: nat, pin: nat, now: Time) returns (thrown: Option<OrderError>)
      modifies db`orders
      ensures thrown == Thrown(OrderOutcome(old(db.Db()), id, OpPickUp(rider, pin), now))
      ensures db.Db() == OnOrder(old(db.Db()), id, OpPickUp(rider, pin), now)
    {
      if id >= |db.orders| || db.orders[id].riderId != Some(rider) {
        return Some(OrderNotFound);
      }
      if !InKitchen(db.orders[id].status) && !db.orders[id].status.ReadyPickup? {
        return Some(NotPickupable);
      }
      if pin != db.orders[id].pickupCode {
        return Some(WrongPickupCode);
      }
      db.orders := db.orders[id := db.orders[id].(status := PickedUp)];
      return None;
    }

    /** One transaction: the guarded flip and the four-way split. */
    method MarkDelivered(id: nat, read: Order, rider: nat, pin: nat, now: Time) returns (thrown: Option<OrderError>)
      requires ledger.db == db
      modifies db`orders, db`ledger
      ensures thrown == Thrown(OrderOutcome(old(db.Db()), id, OpDeliver(read, rider, pin), now))
      ensures db.Db() == OnOrder(old(db.Db()), id, OpDeliver(read, rider, pin), now)
    {
      hide Refusal;
      hide DeliveryTxn;
      if id >= |db.orders| || read.riderId != Some(rider) {
        return Some(OrderNotFound);
      }
      if !read.status.PickedUp? {
        return Some(NotInDelivery);
      }
      if pin != read.deliveryCode {
        return Some(WrongDeliveryCode);
      }
      if read.snapshot.None? {
        return Some(MissingFinanceSnapshot);
      }
      if !db.orders[id].status.PickedUp? {
        return Some(OrderStateChanged);
      }
      var delivered := db.orders[id].(status := Delivered, deliveredAt := Some(now));
      var refusal := WriteAndBook(ledger, id, delivered, DeliveryTxn(id, read, read.snapshot.value), now);
      return if refusal.Some? then Some(LedgerRefused(refusal.value)) else None;
    }
  }

  class AdminRiderFraudService {
    const db: S.Store
    const ledger: LedgerService

    constructor (db: S.Store, ledger: LedgerService)
      requires ledger.db == db
      ensures this.db == db && this.ledger == ledger
    {
      this.db, this.ledger := db, ledger;
    }

    method ResolveRiderFraud(id: nat, read: Order, refund: bool, compensate: bool, now: Time) returns (thrown: Option<OrderError>)
      requires ledger.db == db
      modifies db`orders, db`ledger
      ensures thrown == Thrown(OrderOutcome(old(db.Db()), id, OpResolveFraud(read, refund, compensate), now))
      ensures db.Db() == OnOrder(old(db.Db()), id, OpResolveFraud(read, refund, compensate), now)
    {
      hide Refusal;
      hide CompensationTxn;
      if id >= |db.orders| {
        return Some(OrderNotFound);
      }
      if !read.status.PickedUp? {
        return Some(NotInPickup);
      }
      if read.riderId.None? {
        return Some(NoRiderAssigned);
      }
      if compensate && read.snapshot.None? {
        return Some(MissingFinanceSnapshot);
      }
      var vendorCompensationXAF := if compensate then read.subtotalXAF - read.snapshot.value.commissionXAF else 0;
      if !db.orders[id].status.PickedUp? {
        return Some(OrderStateChanged);
      }
      var payment := db.orders[id].paymentStatus;
      if refund && read.paymentStatus.Paid? {
        payment := RefundPending;
      }
      var closed := db.orders[id].(status := Cancelled, paymentStatus := payment);
      if compensate && vendorCompensationXAF > 0 {
        var refusal := WriteAndBook(ledger, id, closed, CompensationTxn(id, read.vendorId, vendorCompensationXAF), now);
        return if refusal.Some? then Some(LedgerRefused(refusal.value)) else None;
      }
      db.orders := db.orders[id := closed];
      return None;
    }
  }

  datatype RetryJob = RetryJob(order: nat, attempt: nat)

  class DispatchService {
    const db: S.Store
    var retryQueue: set<RetryJob>      // jobs are keyed, so a second add is lost

    constructor (db: S.Store)
      ensures this.db == db && retryQueue == {}
    {
      this.db, this.retryQueue := db, {};
    }

    /** The claim: a rider is written only where none is. */
    method DispatchOrder(id: nat, candidate: Option<nat>, now: Time) returns (rider: Option<nat>)
      modifies db`orders
      ensures rider == if candidate.Some? && OrderOutcome(old(db.Db()), id, OpAssignRider(candidate.value), now).Ok?
                       then candidate else None
      ensures db.Db() == if candidate.Some? then OnOrder(old(db.Db()), id, OpAssignRider(candidate.value), now) else old(db.Db())
    {
      if id >= |db.orders| || db.orders[id].riderId.Some? || candidate.None? {
        return None;
      }
      db.orders := db.orders[id := db.orders[id].(riderId := candidate)];
      return candidate;
    }

    method ExpireForNoRider(id: nat, now: Time)
      modifies db`orders, db`log
      ensures db.Db() == OnOrder(old(db.Db()), id, OpExpireForNoRider, now)
    {
      if id >= |db.orders| || !(InKitchen(db.orders[id].status) || db.orders[id].status.ReadyPickup?) {
        return;
      }
      var isPaid := db.orders[id].paymentStatus.Paid?;
      var payment := if isPaid then Refunded else db.orders[id].paymentStatus;
      db.orders := db.orders[id := db.orders[id].(status := Expired, paymentStatus := payment)];
      db.log := db.log + [OrderCancelled(id, ForNoRider)];
    }

    /** One attempt: assign, or schedule the next, or give up. */
    method TryDispatch(id: nat, attempt: nat, candidate: Option<nat>, now: Time)
      requires id < |db.orders|
      modifies this, db`orders, db`log
      ensures var row := old(db.orders)[id];
              match D.TryDispatch(row, attempt, candidate)
              case AlreadySettled => db.Db() == old(db.Db()) && retryQueue == old(retryQueue)
              case Assigned(rider) =>
                db.Db() == OnOrder(old(db.Db()), id, OpAssignRider(rider), now) && retryQueue == old(retryQueue)
              case RetryAt(next) =>
                db.Db() == old(db.Db()) && retryQueue == old(retryQueue) + {RetryJob(id, next)} && next < D.MAX_RETRIES
              case GaveUp =>
                db.Db() == OnOrder(old(db.Db()), id, OpExpireForNoRider, now) && retryQueue == old(retryQueue)
    {
      var current := db.orders[id];
      if current.riderId.Some? || current.status.Cancelled? || current.status.Expired? {
        return;
      }
      var result := DispatchOrder(id, candidate, now);
      if result.Some? {
        return;
      }
      if attempt < D.MAX_RETRIES - 1 {
        retryQueue := retryQueue + {RetryJob(id, attempt + 1)};
        return;
      }
      ExpireForNoRider(id, now);
    }
  }
}
