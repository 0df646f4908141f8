/** Balances, payouts and their callbacks. `end` is the instant a pass took as
    periodEnd, `now` the instant its transaction stamps. */
module FinanceServices {
  import opened Common
  import opened Ledger
  import opened Orders
  import opened Payouts
  import opened Platform
  import opened PlatformRuns
  import opened LedgerServices
  import opened PaymentServices
  import opened S = Store

  class FinanceService {
    const db: S.Store
    const ledger: LedgerService
    const dedup: CampayWebhookDedupService

    constructor (db: S.Store, ledger: LedgerService, dedup: CampayWebhookDedupService)
      requires ledger.db == db && dedup.db == db
      ensures this.db == db && this.ledger == ledger && this.dedup == dedup
    {
      this.db, this.ledger, this.dedup := db, ledger, dedup;
    }

    predicate Wired() {
      ledger.db == db && dedup.db == db
    }

    /** getVendorBalance and getRiderBalance: the entries since the latest paid
        or in-flight payout's period, sign flipped. */
    method GetBalance(payee: Payee) returns (balance: Result<int, PayoutError>)
      ensures balance == if payee in db.payees then Ok(Balance(db.ledger, db.payouts, payee)) else Err(PayeeNotFound)
    {
      if payee !in db.payees {
        return Err(PayeeNotFound);
      }
      var cutoff := Cutoff(db.payouts, payee);
      var payableSum := Window(db.ledger, payee, cutoff);
      return Ok(0 - payableSum);
    }

    /** The queries of a scheduling path, answered by one state. */
    method ReadPayee(payee: Payee) returns (seen: Result<Reading, PayoutError>)
      ensures seen == if payee in db.payees then Ok(ReadNow(db.Db(), payee)) else Err(PayeeNotFound)
    {
      hide Balance;
      hide PeriodStart;
      hide OpenDispute;
      var balance := GetBalance(payee);
      if balance.Err? {
        return Err(balance.error);
      }
      var disputed := false;
      if payee.Vendor? {
        disputed := HasOpenDispute(payee.id);
      }
      var start := StartOf(payee);
      return Ok(Reading(balance.value, disputed, start));
    }

    /** The transaction of every scheduling path: the row, its ledger pair, the
        order tags. */
    method Schedule(payee: Payee, netXAF: int, start: Time, end: Time, now: Time) returns (payout: nat)
      requires Wired() && netXAF > 0
      modifies db`payouts, db`ledger, db`payoutTags
      ensures payout == |old(db.payouts)|
      ensures db.Db() == Scheduled(old(db.Db()), payee, netXAF, start, end, now)
    {
      hide Refusal;
      hide PayoutTxn;
      hide Taggable;
      payout := |db.payouts|;
      ghost var s := db.Db();
      var tags := Tags(payee, start, end, payout);
      db.payouts := db.payouts + [Payout(payee, start, end, netXAF, PayoutPending, None, false)];
      PayoutReconciles(payee, payout, netXAF, now, Everything);
      var refusal := ledger.RecordTransaction(PayoutTxn(payee, payout, netXAF), now);
      db.payoutTags := db.payoutTags + tags;
    }

    method Tags(payee: Payee, start: Time, end: Time, payout: nat) returns (tags: map<nat, nat>)
      ensures tags == map i: nat | i < |db.orders| && Taggable(db.Db(), i, payee, start, end) :: payout
    {
      tags := map i: nat | i < |db.orders|
                  && db.orders[i].status.Delivered? && db.orders[i].deliveredAt.Some?
                  && start < db.orders[i].deliveredAt.value <= end
                  && (payee.Vendor? ==> db.orders[i].vendorId == payee.id && i !in db.payoutTags)
                  && (payee.Rider? ==> db.orders[i].riderId == Some(payee.id)) :: payout;
    }

    /** An approval that read `pending` of the request and `seen` of its vendor. */
    method ApproveCashoutRequest(request: nat, pending: bool, seen: Reading, end: Time, now: Time)
      returns (granted: Result<nat, PayoutError>)
      requires Wired()
      modifies db`payouts, db`ledger, db`payoutTags, db`cashouts
      ensures db.Db() == ApproveCashout(old(db.Db()), request, pending, seen, end, now)
      ensures granted == match CashoutVerdict(old(db.Db()), request, pending, seen)
                         case Err(e) => Err(e)
                         case Ok(_) => Ok(|old(db.payouts)|)
    {
      hide Scheduled;
      if request >= |db.cashouts| {
        return Err(CashoutNotFound);
      }
      if !pending {
        return Err(CashoutNotPending);
      }
      var payee := Vendor(db.cashouts[request].vendor);
      if payee !in db.payees {
        return Err(PayeeNotFound);
      }
      if seen.balanceXAF < MIN_VENDOR_PAYOUT_XAF {
        return Err(CashoutBelowMinimum);
      }
      if seen.disputed {
        return Err(OpenDisputes);
      }
      var holder := PeriodHolder(db.payouts, payee, seen.start);
      if holder.Some? {
        return Err(AlreadyScheduled(holder.value));        // the unique (vendor, periodStart) throws
      }
      ghost var s := db.Db();
      ScheduledLeavesTheRest(s, payee, seen.balanceXAF, seen.start, end, now);
      var payout := Schedule(payee, seen.balanceXAF, seen.start, end, now);
      db.cashouts := db.cashouts[request := db.cashouts[request].(status := Approved, payout := Some(payout))];
      return Ok(payout);
    }

    method HasOpenDispute(vendor: nat) returns (disputed: bool)
      ensures disputed == OpenDispute(db.Db(), vendor)
    {
      disputed := exists i :: 0 <= i < |db.orders| && db.orders[i].vendorId == vendor && db.orders[i].paymentStatus.RefundPending?;
    }

    method StartOf(payee: Payee) returns (start: Time)
      requires payee in db.payees
      ensures start == PeriodStart(db.Db(), payee)
    {
      var last := Cutoff(db.payouts, payee);
      start := if last.Some? then last.value else db.payees[payee];
    }

    method RequestVendorCashout(vendor: nat, informal: bool, active: bool) returns (asked: Result<nat, PayoutError>)
      modifies db`cashouts
      ensures db.Db() == RequestCashout(old(db.Db()), vendor, informal, active)
      ensures asked == match CashoutRequestVerdict(old(db.Db()), vendor, informal, active)
                       case Err(e) => Err(e)
                       case Ok(_) => Ok(|old(db.cashouts)|)
    {
      hide Balance;
      var balance := GetBalance(Vendor(vendor));
      if balance.Err? {
        return Err(balance.error);
      }
      if !informal {
        return Err(CashoutOnlyForInformal);
      }
      if !active {
        return Err(VendorNotActive);
      }
      if exists i :: 0 <= i < |db.cashouts| && db.cashouts[i].vendor == vendor && db.cashouts[i].status.PendingApproval? {
        return Err(CashoutAlreadyPending);
      }
      if balance.value <= 0 {
        return Err(CashoutNoBalance);
      }
      db.cashouts := db.cashouts + [Cashout(vendor, balance.value, PendingApproval, None)];
      return Ok(|db.cashouts| - 1);
    }

    method RejectCashoutRequest(request: nat) returns (thrown: Option<PayoutError>)
      modifies db`cashouts
      ensures db.Db() == RejectCashout(old(db.Db()), request)
      ensures thrown == if request >= |old(db.cashouts)| then Some(CashoutNotFound)
                        else if old(db.cashouts)[request].status.PendingApproval? then None else Some(CashoutNotPending)
    {
      if request >= |db.cashouts| {
        return Some(CashoutNotFound);
      }
      if !db.cashouts[request].status.PendingApproval? {
        return Some(CashoutNotPending);
      }
      db.cashouts := db.cashouts[request := db.cashouts[request].(status := CashoutStatus.Rejected)];
      return None;
    }

    method RetryPayout(id: nat) returns (thrown: Option<PayoutError>)
      modifies db`payouts, db`log
      ensures db.Db() == OnPayout(old(db.Db()), id, OpRetry)
      ensures thrown == PayoutFault(PayoutOutcomeOf(old(db.Db()), id, OpRetry))
    {
      if id >= |db.payouts| {
        return Some(PayoutNotFound);
      }
      if !db.payouts[id].status.PayoutFailed? {
        return Some(NotInFailed);
      }
      db.payouts := db.payouts[id := db.payouts[id].(status := PayoutPending, campayRef := None)];
      db.log := db.log + [PayoutRetried(id)];
      return None;
    }

    method ManualMarkPayoutPaid(id: nat, reference: Ref) returns (thrown: Option<PayoutError>)
      modifies db`payouts
      ensures db.Db() == OnPayout(old(db.Db()), id, OpManualPaid(reference))
      ensures thrown == PayoutFault(PayoutOutcomeOf(old(db.Db()), id, OpManualPaid(reference)))
    {
      if id >= |db.payouts| {
        return Some(PayoutNotFound);
      }
      if db.payouts[id].status.PayoutPaid? || db.payouts[id].status.PayoutCancelled? {
        return Some(PayoutAlreadyTerminal);
      }
      if exists i :: 0 <= i < |db.payouts| && i != id && db.payouts[i].campayRef == Some(reference)
                     && db.payouts[i].payee.Vendor? == db.payouts[id].payee.Vendor? {
        return Some(RefTaken);
      }
      assert db.log + [] == db.log;
      db.payouts := db.payouts[id := db.payouts[id].(status := PayoutPaid, campayRef := Some(reference))];
      return None;
    }

    // ── Settlement callbacks ───────────────────────────────────────────

    /** The payout row the reference resolved to. */
    method SettlePayout(id: nat, succeeded: bool) returns (result: WebhookResult)
      requires id < |db.payouts|
      modifies db`payouts
      ensures db.Db() == OnPayout(old(db.Db()), id, OpTransferCallback(succeeded))
      ensures result == if PayoutOutcomeOf(old(db.Db()), id, OpTransferCallback(succeeded)).Err? then StatusMismatch
                        else if succeeded then Succeeded else WebhookResult.Rejected
    {
      if !db.payouts[id].status.PayoutInFlight? {
        return StatusMismatch;
      }
      assert db.log + [] == db.log;
      if succeeded {
        db.payouts := db.payouts[id := db.payouts[id].(status := PayoutPaid)];
        return Succeeded;
      }
      db.payouts := db.payouts[id := db.payouts[id].(status := PayoutFailed)];
      return WebhookResult.Rejected;
    }

    method HandleTransferWebhook(cb: Callback)
      requires Wired()
      modifies db`payouts, db`webhooks
      ensures db.Db() == TransferWebhook(old(db.Db()), cb)
    {
      hide FindPayout;
      hide OnPayout;
      hide PayoutOutcomeOf;
      if ReferenceIn(cb).None? {
        return;
      }
      var reference, succeeded := ReferenceIn(cb).value, Confirms(cb.status);
      if !succeeded && !Denies(cb.status) {
        return;
      }
      ghost var s := db.Db();
      var key := WebhookKey(Transfer, reference);
      var isFirst, _ := dedup.MarkProcessed(key);
      if !isFirst {
        return;
      }
      var vendor := FindPayout(db.payouts, true, reference);
      var target := if vendor.Some? then vendor else FindPayout(db.payouts, false, reference);
      var result := NoMatch;
      if target.Some? {
        FoundPayout(db.payouts, true, reference);
        FoundPayout(db.payouts, false, reference);
        PayoutMoveIgnoresWebhooks(s, s.webhooks[key := Unsettled], target.value, OpTransferCallback(succeeded));
        result := SettlePayout(target.value, succeeded);
      }
      dedup.RecordResult(key, result);
      assert db.Db() == Recorded(if target.Some? then OnPayout(s, target.value, OpTransferCallback(succeeded)) else s, key, result);
    }

    /** The order row the refund reference resolved to; settling is one
        transaction, failing resets the row for the next sweep. */
    method SettleRefund(id: nat, succeeded: bool, now: Time) returns (result: WebhookResult)
      requires Wired() && id < |db.orders|
      modifies db`orders, db`ledger, db`log
      ensures db.Db() == OnOrder(old(db.Db()), id, OpRefundCallback(succeeded), now)
      ensures result == if OrderOutcome(old(db.Db()), id, OpRefundCallback(succeeded), now).Err? then StatusMismatch
                        else if succeeded then Succeeded else WebhookResult.Rejected
    {
      hide Refusal;
      hide RefundSettledTxn;
      var row := db.orders[id];
      if !row.paymentStatus.RefundPending? {
        return StatusMismatch;
      }
      if succeeded {
        assert db.log + [] == db.log;
        var settled := row.(paymentStatus := Refunded, refundedAt := Some(now));
        var refusal := WriteAndBook(ledger, id, settled, RefundSettledTxn(id, row.totalXAF), now);
        return if refusal.Some? then StatusMismatch else Succeeded;
      }
      db.orders := db.orders[id := row.(refundCampayRef := None, refundInitiatedAt := None)];
      db.log := db.log + [RefundFailedAtSettlement(id)];
      return WebhookResult.Rejected;
    }

    method HandleRefundWebhook(cb: Callback, now: Time)
      requires Wired()
      modifies db`orders, db`ledger, db`log, db`webhooks
      ensures db.Db() == RefundWebhook(old(db.Db()), cb, now)
    {
      hide FindRefund;
      hide OnOrder;
      hide OrderOutcome;
      if ReferenceIn(cb).None? {
        return;
      }
      var reference, succeeded := ReferenceIn(cb).value, Confirms(cb.status);
      if !succeeded && !Denies(cb.status) {
        return;
      }
      ghost var s := db.Db();
      var key := WebhookKey(Refund, reference);
      var isFirst, _ := dedup.MarkProcessed(key);
      if !isFirst {
        return;
      }
      var order := FindRefund(db.orders, reference);
      var result := NoMatch;
      if order.Some? {
        FoundRefund(db.orders, reference);
        OrderWriteIgnoresWebhooks(s, s.webhooks[key := Unsettled], order.value, OpRefundCallback(succeeded), now);
        RefusedWritesChangeNothing(s, order.value, OpRefundCallback(succeeded), now);
        result := SettleRefund(order.value, succeeded, now);
      }
      dedup.RecordResult(key, result);
      assert db.Db() == Recorded(if order.Some? then OnOrder(s, order.value, OpRefundCallback(succeeded), now) else s, key, result);
    }
  }

  lemma PayoutMoveIgnoresWebhooks(s: Db, webhooks: map<WebhookKey, WebhookResult>, id: nat, op: PayoutOp)
    ensures PayoutOutcomeOf(s.(webhooks := webhooks), id, op) == PayoutOutcomeOf(s, id, op)
    ensures OnPayout(s.(webhooks := webhooks), id, op) == OnPayout(s, id, op).(webhooks := webhooks)
    ensures OnPayout(s, id, op).webhooks == s.webhooks
    ensures PayoutOutcomeOf(s, id, op).Err? ==> OnPayout(s, id, op) == s
  {
    hide StepPayout;
  }

  lemma RefusedWritesChangeNothing(s: Db, id: nat, op: OrderOp, now: Time)
    ensures OrderOutcome(s, id, op, now).Err? ==> OnOrder(s, id, op, now) == s
  {
    hide StepOrder;
  }

  lemma ScheduledLeavesTheRest(s: Db, payee: Payee, netXAF: int, start: Time, end: Time, now: Time)
    ensures Scheduled(s, payee, netXAF, start, end, now).cashouts == s.cashouts
  {
  }
}
