/** When the vendor is told of an order, and how long it then has to decide. */
module Deadlines {
  import opened Common
  import opened Ledger
  import opened Orders
  import opened OrderInvariants
  import opened OrderBooks
  import opened OrderRules
  import opened Payouts
  import opened Platform
  import opened PlatformInvariant
  import opened PlatformRuns
  import opened RowRuns

  /** The clock starts, for sixty seconds, with the payment of an immediate order
      or the promotion of a pre-order; no other write touches it. */
  lemma DeadlineAfterWrite(id: nat, row: Order, op: OrderOp, taken: bool, now: Time)
    requires Coherent(row) && Possible(row, op) && StepOrder(id, row, op, taken, now).Ok?
    ensures var starts := op.OpPromote? || (op.OpPaymentSucceeded? && row.scheduledFor == None);
            && StepOrder(id, row, op, taken, now).value.row.acceptanceDeadlineAt
               == (if starts then Some(now + 60_000) else row.acceptanceDeadlineAt)
            && (starts ==> row.acceptanceDeadlineAt == None)
            && (starts <==> OrderCreated(id) in StepOrder(id, row, op, taken, now).value.log)
  {
    hide Refusal;
    hide SnapshotOf;
    hide AnyPrepared;
    hide AllPrepared;
    hide RefundTouched;
    hide PaymentTxn;
    hide DeliveryTxn;
    hide PenaltyTxn;
    hide CompensationTxn;
    hide RefundInitiatedTxn;
    hide RefundSettledTxn;
    NewsOfWrite(id, row, op, taken, now);
  }

  /** A promotion is of a pre-order's: immediate orders have their deadline from
      the payment on. */
  ghost predicate Timed(row: Order) {
    row.snapshot.Some? && row.scheduledFor == None ==> row.acceptanceDeadlineAt.Some?
  }

  lemma WriteKeepsTimed(id: nat, row: Order, op: OrderOp, taken: bool, now: Time)
    requires Coherent(row) && Timed(row) && Possible(row, op) && StepOrder(id, row, op, taken, now).Ok?
    ensures Timed(StepOrder(id, row, op, taken, now).value.row)
    ensures op.OpPromote? ==> row.scheduledFor.Some?
  {
    hide StepOrder;
    hide Coherent;
    DeadlineAfterWrite(id, row, op, taken, now);
    ColumnsAfterWrite(id, row, op, taken, now);
    FixedAfterWrite(id, row, op, taken, now);
  }

  lemma FixedAfterWrite(id: nat, row: Order, op: OrderOp, taken: bool, now: Time)
    requires Coherent(row) && Possible(row, op) && StepOrder(id, row, op, taken, now).Ok?
    ensures StepOrder(id, row, op, taken, now).value.row.scheduledFor == row.scheduledFor
    ensures op.OpPromote? ==> row.snapshot.Some?
  {
    hide StepOrder;
    ScheduleIsFixed(id, row, op, taken, now);
    if op.OpPromote? {
      PromotedIsPaid(id, row, op.read, op.cron, now, taken);
    }
  }

  lemma ScheduleIsFixed(id: nat, row: Order, op: OrderOp, taken: bool, now: Time)
    requires StepOrder(id, row, op, taken, now).Ok?
    ensures StepOrder(id, row, op, taken, now).value.row.scheduledFor == row.scheduledFor
  {
    hide Refusal;
    hide SnapshotOf;
    hide AnyPrepared;
    hide AllPrepared;
  }

  lemma PromotedIsPaid(id: nat, row: Order, read: Order, cron: bool, now: Time, taken: bool)
    requires Earlier(read, row) && StepOrder(id, row, OpPromote(read, cron), taken, now).Ok?
    ensures row.snapshot.Some?
  {
  }

  /** In every state of every run a paid immediate order has its deadline, and
      its vendor was told of it. */
  lemma {:induction false} PaidImmediateOrderIsTimed(states: seq<Db>, moments: seq<Moment>, i: nat, id: nat)
    requires Run(states, moments) && i < |states| && id < |states[i].orders|
    ensures var row := states[i].orders[id];
            row.snapshot.Some? && row.scheduledFor == None ==>
              row.acceptanceDeadlineAt.Some? && HearAll(Silence, id, states[i].log).created == 1
  {
    hide Next;
    hide Legal;
    hide StepOrder;
    hide RowOp;
    hide Coherent;
    if i > 0 && id < |states[i - 1].orders| {
      PaidImmediateOrderIsTimed(states, moments, i - 1, id);
      var s, m := states[i - 1], moments[i - 1];
      NextIsOneWrite(s, m.op, m.now, id);
      if RowOp(s, m.op, m.now, id).Some? {
        var op := RowOp(s, m.op, m.now, id).value;
        OrderIsOk(states, moments, i - 1, id);
        RowOpIsPossible(s, m.op, m.now, id);
        WriteKeepsTimed(id, s.orders[id], op, ReferenceClash(s, id, op), m.now);
      }
    } else if i > 0 {
      NewRowIsUnpaid(states[i - 1], moments[i - 1].op, moments[i - 1].now, id);
    }
    OrderIsOk(states, moments, i, id);
  }

  lemma NewRowIsUnpaid(s: Db, op: Op, now: Time, id: nat)
    requires |s.orders| <= id < |Next(s, op, now).orders|
    ensures var row := Next(s, op, now).orders[id]; row.snapshot == None && row.acceptanceDeadlineAt == None
  {
    hide StepOrder;
    hide StepPayout;
    hide VendorPayoutVerdict;
    hide RiderPayoutVerdict;
    hide CashoutVerdict;
  }

  /** A deadline that was not there before is the start of sixty seconds. */
  lemma DeadlineStarts(states: seq<Db>, moments: seq<Moment>, k: nat, id: nat)
    requires Run(states, moments) && k < |moments| && id < |states[k].orders|
    ensures id < |states[k + 1].orders| && states[k + 1].orders[id].scheduledFor == states[k].orders[id].scheduledFor
    ensures var was, now := states[k].orders[id].acceptanceDeadlineAt, states[k + 1].orders[id].acceptanceDeadlineAt;
            var write := RowOp(states[k], moments[k].op, moments[k].now, id);
            && (was.Some? ==> now == was)
            && (was == None && now.Some? ==>
                  && now.value == moments[k].now + 60_000 && write.Some?
                  && (if states[k].orders[id].scheduledFor == None then write.value.OpPaymentSucceeded? else write.value.OpPromote?))
  {
    hide Next;
    hide Legal;
    hide StepOrder;
    hide RowOp;
    hide Coherent;
    hide Accounted;
    hide Possible;
    var s, m := states[k], moments[k];
    NextIsOneWrite(s, m.op, m.now, id);
    OrderIsOk(states, moments, k, id);
    var write := RowOp(s, m.op, m.now, id);
    if write.Some? {
      RowOpIsPossible(s, m.op, m.now, id);
      PaidImmediateOrderIsTimed(states, moments, k, id);
      DeadlineAfterWrite(id, s.orders[id], write.value, ReferenceClash(s, id, write.value), m.now);
      WriteKeepsTimed(id, s.orders[id], write.value, ReferenceClash(s, id, write.value), m.now);
      FixedAfterWrite(id, s.orders[id], write.value, ReferenceClash(s, id, write.value), m.now);
    }
  }

  /** Every deadline goes back to the one write that set it: the payment of an
      immediate order, or the promotion of a pre-order, sixty seconds before. So
      a paid pre-order is neither announced nor timed until it is promoted. */
  lemma {:induction false} DeadlineHasItsWrite(states: seq<Db>, moments: seq<Moment>, i: nat, id: nat) returns (k: nat)
    requires Run(states, moments) && i < |states| && id < |states[i].orders|
    requires states[i].orders[id].acceptanceDeadlineAt.Some?
    ensures k < i && id < |states[k].orders| && states[k].orders[id].acceptanceDeadlineAt == None
    ensures states[i].orders[id].acceptanceDeadlineAt == Some(moments[k].now + 60_000)
    ensures var write := RowOp(states[k], moments[k].op, moments[k].now, id);
            && write.Some?
            && (if states[i].orders[id].scheduledFor == None then write.value.OpPaymentSucceeded? else write.value.OpPromote?)
    ensures HearAll(Silence, id, states[k].log).created == 0 && HearAll(Silence, id, states[i].log).created == 1
  {
    hide Next;
    hide Legal;
    hide StepOrder;
    hide RowOp;
    hide Coherent;
    OrderIsOk(states, moments, i, id);
    assert i > 0;
    var s, m := states[i - 1], moments[i - 1];
    if id < |s.orders| {
      DeadlineStarts(states, moments, i - 1, id);
      if s.orders[id].acceptanceDeadlineAt.Some? {
        k := DeadlineHasItsWrite(states, moments, i - 1, id);
      } else {
        OrderIsOk(states, moments, i - 1, id);
        k := i - 1;
      }
    } else {
      NewRowIsUnpaid(s, m.op, m.now, id);
      assert false;
    }
  }
}
