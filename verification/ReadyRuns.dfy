/** READY_PICKUP against the checklist, over whole runs. */
module ReadyRuns {
  import opened Common
  import opened Orders
  import opened OrderInvariants
  import opened OrderRaces
  import opened Payouts
  import opened Platform
  import opened PlatformInvariant
  import opened PlatformRuns

  ghost predicate AllReadyPrepared(s: Db) {
    forall id: nat :: id < |s.orders| ==> ReadyMeansPrepared(s.orders[id])
  }

  /** A markOrderReady that goes through still finds every item ticked. */
  ghost predicate FreshChecklist(s: Db, m: Moment) {
    m.op.Write? && m.op.write.OpMarkReady? && OrderOutcome(s, m.op.order, m.op.write, m.now).Ok?
    ==> AllPrepared(s.orders[m.op.order].prepared)
  }

  lemma WriteKeepsReady(s: Db, order: nat, write: OrderOp, now: Time)
    requires AllReadyPrepared(s)
    ensures AllReadyPrepared(OnOrder(s, order, write, now)) <==> FreshChecklist(s, Moment(Write(order, write), now))
  {
    hide StepOrder;
    hide ReadyMeansPrepared;
    hide AllPrepared;
    var s' := OnOrder(s, order, write, now);
    if OrderOutcome(s, order, write, now).Ok? {
      ReadyStaysPrepared(order, s.orders[order], write, ReferenceClash(s, order, write), now);
      assert ReadyMeansPrepared(s'.orders[order]) <==> FreshChecklist(s, Moment(Write(order, write), now));
      assert forall id: nat :: id < |s.orders| && id != order ==> s'.orders[id] == s.orders[id];
    }
  }

  lemma PlacedIsNotReady(draft: Draft)
    ensures ReadyMeansPrepared(Placed(draft))
  {
  }

  lemma MovesLeaveOrders(s: Db, id: nat, move: PayoutOp)
    ensures OnPayout(s, id, move).orders == s.orders
  {
  }

  lemma NextKeepsReady(s: Db, m: Moment)
    requires AllReadyPrepared(s)
    ensures AllReadyPrepared(Next(s, m.op, m.now)) <==> FreshChecklist(s, m)
  {
    hide OnOrder;
    hide OnPayout;
    hide OrderOutcome;
    hide ReadyMeansPrepared;
    hide AllPrepared;
    hide VendorPayoutVerdict;
    hide RiderPayoutVerdict;
    hide CashoutVerdict;
    match m.op {
      case Place(draft) => PlacedIsNotReady(draft);
      case Write(order, write) => WriteKeepsReady(s, order, write, m.now);
      case CollectCallback(cb) =>
        if ReferenceIn(cb).Some? && FindCollect(s.orders, ReferenceIn(cb).value).Some? {
          WriteKeepsReady(s, FindCollect(s.orders, ReferenceIn(cb).value).value, OpCollectFailed, m.now);
        }
      case RefundCallbackOp(cb) =>
        if ReferenceIn(cb).Some? && FindRefund(s.orders, ReferenceIn(cb).value).Some? {
          WriteKeepsReady(s, FindRefund(s.orders, ReferenceIn(cb).value).value, OpRefundCallback(Confirms(cb.status)), m.now);
        }
      case Move(id, move) => MovesLeaveOrders(s, id, move);
      case TransferCallbackOp(cb) =>
        if ReferenceIn(cb).Some? && TransferTarget(s.payouts, ReferenceIn(cb).value).Some? {
          MovesLeaveOrders(s, TransferTarget(s.payouts, ReferenceIn(cb).value).value, OpTransferCallback(Confirms(cb.status)));
        }
      case _ =>
    }
  }

  /** In every state of a run each READY_PICKUP order has a non-empty, fully
      ticked item list, exactly when every markOrderReady of the run still found
      the list ticked at its guarded write. */
  lemma {:induction false} ReadyAlwaysPreparedIff(states: seq<Db>, moments: seq<Moment>)
    requires Run(states, moments)
    ensures (forall i: nat :: i < |states| ==> AllReadyPrepared(states[i]))
            <==> forall i: nat :: i < |moments| ==> FreshChecklist(states[i], moments[i])
    decreases |moments|
  {
    hide Next;
    hide Legal;
    hide FreshChecklist;
    hide ReadyMeansPrepared;
    if |moments| > 0 {
      var n := |moments| - 1;
      var before, earlier := states[..n + 1], moments[..n];
      assert Run(before, earlier);
      ReadyAlwaysPreparedIff(before, earlier);
      assert states[n + 1] == Next(states[n], moments[n].op, moments[n].now);
      if AllReadyPrepared(states[n]) {
        NextKeepsReady(states[n], moments[n]);
      } else {
        assert before[n] == states[n];
      }
      assert forall i: nat :: i < |before| ==> before[i] == states[i];
      assert forall i: nat :: i < |earlier| ==> earlier[i] == moments[i];
    }
  }
}
