/** Collects, their callbacks, the dedup table, and what a payment sets off. */
module PaymentServices {
  import opened Common
  import opened Ledger
  import opened Pricing
  import opened Orders
  import opened Payouts
  import opened Platform
  import opened LedgerServices
  import opened S = Store

  class CampayWebhookDedupService {
    const db: S.Store

    constructor (db: S.Store)
      ensures this.db == db
    {
      this.db := db;
    }

    /** Insert first: the unique (kind, reference) decides who was first. */
    method MarkProcessed(key: WebhookKey) returns (isFirst: bool, existingResult: Option<WebhookResult>)
      modifies db`webhooks
      ensures isFirst == (key !in old(db.webhooks))
      ensures existingResult == if isFirst || old(db.webhooks)[key].Unsettled? then None else Some(old(db.webhooks)[key])
      ensures db.webhooks == if isFirst then old(db.webhooks)[key := Unsettled] else old(db.webhooks)
    {
      if key in db.webhooks {
        var existing := db.webhooks[key];
        return false, if existing.Unsettled? then None else Some(existing);
      }
      db.webhooks := db.webhooks[key := Unsettled];
      return true, None;
    }

    /** Only a result still null is filled in. */
    method RecordResult(key: WebhookKey, result: WebhookResult)
      modifies db`webhooks
      ensures db.webhooks == if key in old(db.webhooks) && old(db.webhooks)[key].Unsettled? then old(db.webhooks)[key := result]
                             else old(db.webhooks)
    {
      if key in db.webhooks && db.webhooks[key].Unsettled? {
        db.webhooks := db.webhooks[key := result];
      }
    }
  }

  class PaymentsService {
    const db: S.Store
    const dedup: CampayWebhookDedupService

    constructor (db: S.Store, dedup: CampayWebhookDedupService)
      requires dedup.db == db
      ensures this.db == db && this.dedup == dedup
    {
      this.db, this.dedup := db, dedup;
    }

    /** `collect` is Campay's answer: its reference, or a failure. */
    method InitiateMomo(id: nat, caller: nat, phone: nat, collect: Option<Ref>, now: Time) returns (thrown: Option<OrderError>)
      modifies db`orders
      ensures thrown == Thrown(OrderOutcome(old(db.Db()), id, OpInitiateMomo(caller, phone, collect), now))
      ensures db.Db() == OnOrder(old(db.Db()), id, OpInitiateMomo(caller, phone, collect), now)
    {
      if id >= |db.orders| || db.orders[id].userId != caller {
        return Some(OrderNotFound);
      }
      if !db.orders[id].status.Pending? {
        return Some(NotPayable);
      }
      if db.orders[id].paymentStatus.Processing? {
        return Some(PaymentAlreadyProcessing);
      }
      if collect.None? {
        return Some(CampayFailed);
      }
      if exists i :: 0 <= i < |db.orders| && i != id && db.orders[i].paymentReference == collect {
        return Some(ReferenceTaken);
      }
      var order := db.orders[id].(paymentReference := collect, payerPhone := Some(phone), paymentStatus := Processing);
      db.orders := db.orders[id := order];
      return None;
    }

    /** What the status does to the order the reference resolved to. */
    method Settle(id: nat, status: CampayStatus, now: Time) returns (result: WebhookResult)
      requires id < |db.orders|
      modifies db`orders, db`log
      ensures db.Db() == if Denies(status) then OnOrder(old(db.Db()), id, OpCollectFailed, now) else old(db.Db())
      ensures result == if status.Successful? then Succeeded
                        else if !Denies(status) then IgnoredNonTerminal
                        else if OrderOutcome(old(db.Db()), id, OpCollectFailed, now).Err? then AlreadyPaidIgnored
                        else WebhookResult.Rejected
    {
      result := IgnoredNonTerminal;
      if status.Successful? {
        result := Succeeded;
      } else if status.FailedStatus? || status.CancelledStatus? {
        if !db.orders[id].paymentStatus.Paid? {
          db.orders := db.orders[id := db.orders[id].(paymentStatus := PaymentStatus.Failed)];
          db.log := db.log + [PaymentFailed(id)];
          result := WebhookResult.Rejected;
        } else {
          result := AlreadyPaidIgnored;
        }
      }
    }

    /** A collect callback. `succeeded` names the order for which
        PAYMENT_SUCCEEDED is raised, if it is. */
    method HandleWebhook(cb: Callback, now: Time) returns (succeeded: Option<nat>)
      requires dedup.db == db
      modifies db`orders, db`webhooks, db`log
      ensures db.Db() == CollectWebhook(old(db.Db()), cb, now)
      ensures succeeded == PaymentRaised(old(db.Db()), cb)
    {
      succeeded := None;
      if ReferenceIn(cb).None? {
        return;
      }
      var reference := ReferenceIn(cb).value;
      var key := WebhookKey(Collect, reference);
      hide FindCollect;
      hide OnOrder;
      hide OrderOutcome;
      ghost var s := db.Db();
      var isFirst, _ := dedup.MarkProcessed(key);
      if !isFirst {
        return;
      }
      var order := FindCollect(db.orders, reference);
      FoundCollect(db.orders, reference);
      if order.None? {
        dedup.RecordResult(key, NoMatch);
        assert db.Db() == Recorded(s, key, NoMatch);
        return;
      }
      var id := order.value;
      if cb.status.Successful? {
        succeeded := Some(id);
      }
      OrderWriteIgnoresWebhooks(s, s.webhooks[key := Unsettled], id, OpCollectFailed, now);
      var result := Settle(id, cb.status, now);
      dedup.RecordResult(key, result);
      assert db.Db() == Recorded(if Denies(cb.status) then OnOrder(s, id, OpCollectFailed, now) else s, key, result);
    }
  }

  /** Order writes neither read nor touch the dedup table. */
  lemma OrderWriteIgnoresWebhooks(s: Db, webhooks: map<WebhookKey, WebhookResult>, id: nat, op: OrderOp, now: Time)
    ensures OrderOutcome(s.(webhooks := webhooks), id, op, now) == OrderOutcome(s, id, op, now)
    ensures OnOrder(s.(webhooks := webhooks), id, op, now) == OnOrder(s, id, op, now).(webhooks := webhooks)
    ensures OnOrder(s, id, op, now).webhooks == s.webhooks
  {
    hide StepOrder;
  }

  class OrderPaymentLifecycleService {
    const db: S.Store
    const ledger: LedgerService

    constructor (db: S.Store, ledger: LedgerService)
      requires ledger.db == db
      ensures this.db == db && this.ledger == ledger
    {
      this.db, this.ledger := db, ledger;
    }

    /** The snapshots, as the subscriber computes them from the row it read. */
    method Snapshots(order: Order) returns (snapshot: Snapshot)
      ensures snapshot == SnapshotOf(order)
      ensures 130 * order.deliveryFeeXAF - 100 < 200 * snapshot.riderShareXAF <= 130 * order.deliveryFeeXAF + 100
      ensures 2 * (order.subtotalXAF * order.commissionRate) - 10000 < 20000 * snapshot.commissionXAF
              <= 2 * (order.subtotalXAF * order.commissionRate) + 10000
      ensures order.totalXAF == order.subtotalXAF + order.deliveryFeeXAF - order.discountXAF ==>
              (order.subtotalXAF - snapshot.commissionXAF) + snapshot.riderShareXAF + snapshot.platformFeeXAF
              == order.totalXAF + order.discountXAF
    {
      RiderShareIsNearest(order.deliveryFeeXAF);
      CommissionIsNearest(order.subtotalXAF, order.commissionRate);
      var commissionXAF := Commission(order.subtotalXAF, order.commissionRate);
      var riderShareXAF := RiderShare(order.deliveryFeeXAF);
      var deliveryMarginXAF := order.deliveryFeeXAF - riderShareXAF;
      snapshot := Snapshot(commissionXAF, riderShareXAF, commissionXAF + deliveryMarginXAF);
    }

    /** One transaction: the guarded flip and the escrow pair. */
    method OnPaymentSucceeded(id: nat, read: Order, reference: Ref, payer: Option<nat>, now: Time)
      returns (thrown: Option<OrderError>)
      requires ledger.db == db
      modifies db`orders, db`ledger, db`log
      ensures thrown == Thrown(OrderOutcome(old(db.Db()), id, OpPaymentSucceeded(read, reference, payer), now))
      ensures db.Db() == OnOrder(old(db.Db()), id, OpPaymentSucceeded(read, reference, payer), now)
    {
      hide Refusal;
      hide SnapshotOf;
      hide PaymentTxn;
      if id >= |db.orders| {
        return Some(OrderNotFound);
      }
      if read.paymentStatus.Paid? {
        return Some(NothingToDo);
      }
      var snapshot := Snapshots(read);
      var row := db.orders[id];
      if !row.paymentStatus.Unpaid? && !row.paymentStatus.Processing? {
        return Some(NothingToDo);                           // another delivery of the event won
      }
      if exists i :: 0 <= i < |db.orders| && i != id && db.orders[i].paymentReference == Some(reference) {
        return Some(ReferenceTaken);
      }
      var deadline := row.acceptanceDeadlineAt;
      if read.scheduledFor.None? {
        deadline := Some(now + ACCEPTANCE_TTL_MS);
      }
      var patch := row.(status := Confirmed, paymentStatus := Paid, paymentReference := Some(reference),
                        payerPhone := if payer.Some? then payer else read.payerPhone,
                        snapshot := Some(snapshot), acceptanceDeadlineAt := deadline);
      var refusal := WriteAndBook(ledger, id, patch, PaymentTxn(id, read.totalXAF), now);
      if refusal.Some? {
        return Some(LedgerRefused(refusal.value));
      }
      var news := [OrderPaid(id)];
      if read.scheduledFor.None? {
        news := news + [OrderCreated(id)];
      }
      db.log := db.log + news;
      return None;
    }
  }
}
