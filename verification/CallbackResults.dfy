/** What callbacks are taken for, and what the dedup table says of them. */
module CallbackResults {
  import opened Common
  import opened Ledger
  import opened Orders
  import opened OrderInvariants
  import opened Payouts
  import opened Platform
  import opened Webhooks

  /** A callback names its reference, or else our own; transfers and refunds are
      settled by three words for success and two for failure, collects by one
      word for success. */
  lemma StatusesAreWords(cb: Callback)
    ensures ReferenceIn(cb) == if cb.reference == None then cb.external else cb.reference
    ensures Terminal(cb) <==> ReferenceIn(cb).Some? && cb.status != OtherStatus
    ensures Terminal(cb) ==> (Confirms(cb.status) <==> cb.status != FailedStatus && cb.status != CancelledStatus)
    ensures CollectTerminal(cb.status)
            <==> cb.status == Successful || cb.status == FailedStatus || cb.status == CancelledStatus
  {
  }

  /** The order a collect reference resolves to is the first with that code or
      that reference. */
  lemma {:induction false} CollectFindsTheFirst(orders: seq<Order>, reference: Ref)
    ensures var hit := FindCollect(orders, reference);
            forall i: nat :: i < (if hit.Some? then hit.value else |orders|) && i < |orders| ==>
              orders[i].code != reference && orders[i].paymentReference != Some(reference)
    ensures FindCollect(orders, reference).Some? ==>
              var i := FindCollect(orders, reference).value;
              i < |orders| && (orders[i].code == reference || orders[i].paymentReference == Some(reference))
  {
    if orders != [] {
      var init := orders[..|orders| - 1];
      CollectFindsTheFirst(init, reference);
      assert forall i :: 0 <= i < |init| ==> init[i] == orders[i];
    }
  }

  /** A transfer reference names a vendor's payout if one holds it, or else a
      rider's. */
  lemma TransferTargetHoldsIt(payouts: seq<Payout>, reference: Ref)
    ensures var hit := TransferTarget(payouts, reference);
            && (hit.Some? ==> hit.value < |payouts| && payouts[hit.value].campayRef == Some(reference))
            && (hit.None? <==> forall i :: 0 <= i < |payouts| ==> payouts[i].campayRef != Some(reference))
            && (hit.Some? && payouts[hit.value].payee.Rider? ==>
                  forall i :: 0 <= i < |payouts| && payouts[i].payee.Vendor? ==> payouts[i].campayRef != Some(reference))
  {
    FoundPayout(payouts, true, reference);
    FoundPayout(payouts, false, reference);
  }

  /** The dedup row of a first transfer callback: no such reference, not in
      flight, or what the payout became. */
  lemma TransferResultTells(s: Db, cb: Callback)
    requires Terminal(cb) && WebhookKey(Transfer, ReferenceIn(cb).value) !in s.webhooks
    ensures var key := WebhookKey(Transfer, ReferenceIn(cb).value); var t := TransferWebhook(s, cb);
            var hit := TransferTarget(s.payouts, key.reference);
            && key in t.webhooks
            && (t.webhooks[key] == NoMatch <==> hit == None)
            && (hit.Some? ==>
                  && hit.value < |s.payouts|
                  && (t.webhooks[key] == StatusMismatch <==> s.payouts[hit.value].status != PayoutInFlight)
                  && (t.webhooks[key] == Succeeded ==> Confirms(cb.status) && t.payouts[hit.value].status == PayoutPaid)
                  && (t.webhooks[key] == WebhookResult.Rejected ==> Denies(cb.status) && t.payouts[hit.value].status == PayoutFailed))
            && t.webhooks[key] in {NoMatch, StatusMismatch, Succeeded, WebhookResult.Rejected}
            && (forall k :: k in s.webhooks ==> k in t.webhooks && t.webhooks[k] == s.webhooks[k])
  {
    hide FindPayout;
    TransferTargetHoldsIt(s.payouts, ReferenceIn(cb).value);
  }

  /** Likewise for a first refund callback: REFUNDED, or back in the queue. */
  lemma RefundResultTells(s: Db, cb: Callback, now: Time)
    requires Terminal(cb) && WebhookKey(Refund, ReferenceIn(cb).value) !in s.webhooks
    ensures var key := WebhookKey(Refund, ReferenceIn(cb).value); var t := RefundWebhook(s, cb, now);
            var hit := FindRefund(s.orders, key.reference);
            && key in t.webhooks
            && (t.webhooks[key] == NoMatch <==> hit == None)
            && (hit.Some? ==>
                  && hit.value < |s.orders| && hit.value < |t.orders|
                  && (s.orders[hit.value].totalXAF != 0 ==>
                        (t.webhooks[key] == StatusMismatch <==> s.orders[hit.value].paymentStatus != RefundPending))
                  && (t.webhooks[key] == Succeeded ==>
                        Confirms(cb.status) && t.orders[hit.value].paymentStatus == Refunded
                        && t.orders[hit.value].refundedAt == Some(now))
                  && (t.webhooks[key] == WebhookResult.Rejected ==>
                        Denies(cb.status) && t.orders[hit.value].paymentStatus == RefundPending
                        && t.orders[hit.value].refundCampayRef == None && t.orders[hit.value].refundInitiatedAt == None))
            && t.webhooks[key] in {NoMatch, StatusMismatch, Succeeded, WebhookResult.Rejected}
            && (forall k :: k in s.webhooks ==> k in t.webhooks && t.webhooks[k] == s.webhooks[k])
  {
    hide FindRefund;
    hide Refusal;
    var hit := FindRefund(s.orders, ReferenceIn(cb).value);
    FoundRefund(s.orders, ReferenceIn(cb).value);
    if hit.Some? {
      RefundIsBookedIff(hit.value, s.orders[hit.value].totalXAF);
    }
  }

  /** And for a first collect callback, of whatever status. */
  lemma CollectResultTells(s: Db, cb: Callback, now: Time)
    requires ReferenceIn(cb).Some? && WebhookKey(Collect, ReferenceIn(cb).value) !in s.webhooks
    ensures var key := WebhookKey(Collect, ReferenceIn(cb).value); var t := CollectWebhook(s, cb, now);
            var hit := FindCollect(s.orders, key.reference);
            && key in t.webhooks
            && (t.webhooks[key] == NoMatch <==> hit == None)
            && (hit.Some? ==>
                  && hit.value < |s.orders| && hit.value < |t.orders|
                  && (t.webhooks[key] == Succeeded <==> cb.status == Successful)
                  && (t.webhooks[key] == IgnoredNonTerminal <==> !CollectTerminal(cb.status))
                  && (t.webhooks[key] == AlreadyPaidIgnored <==> Denies(cb.status) && s.orders[hit.value].paymentStatus == Paid)
                  && (t.webhooks[key] == WebhookResult.Rejected
                      <==> Denies(cb.status) && s.orders[hit.value].paymentStatus != Paid)
                  && (t.webhooks[key] == WebhookResult.Rejected ==> t.orders[hit.value].paymentStatus == PaymentStatus.Failed))
            && (forall k :: k in s.webhooks ==> k in t.webhooks && t.webhooks[k] == s.webhooks[k])
  {
    hide FindCollect;
    CollectFindsTheFirst(s.orders, ReferenceIn(cb).value);
  }
}
