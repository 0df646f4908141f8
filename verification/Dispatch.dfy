/**
 Looking for a rider. Each acceptance raises ORDER_ACCEPTED; handling it, or a
 delayed retry, is an attempt: first it looks at the row, then it tries to claim
 a rider, and a failed attempt queues the next or gives up. Retry jobs are keyed
 by (order, attempt), so one order's queue is a set of attempt numbers.
 */
module Dispatch {
  import opened Common
  import opened Ledger
  import opened Pricing
  import opened Orders
  import opened OrderInvariants

  const MAX_RETRIES := 10

  /** tryDispatch's first read: nothing is left to do for this order. */
  predicate Settled(row: Order) {
    row.riderId.Some? || row.status.Cancelled? || row.status.Expired?
  }

  datatype Verdict = AlreadySettled | Assigned(rider: nat) | RetryAt(attempt: nat) | GaveUp

  /** The claim: guarded on riderId null, with the nearest rider in range if any. */
  function ClaimVerdict(row: Order, attempt: nat, candidate: Option<nat>): Verdict {
    if candidate.Some? && AssignRider(row, candidate.value).Ok? then Assigned(candidate.value)
    else if attempt < MAX_RETRIES - 1 then RetryAt(attempt + 1)
    else GaveUp
  }

  /** One attempt whose look and claim run back to back. */
  function TryDispatch(row: Order, attempt: nat, candidate: Option<nat>): Verdict {
    if Settled(row) then AlreadySettled else ClaimVerdict(row, attempt, candidate)
  }

  /** One order under dispatch: events not yet handled, retries queued, attempts
      past their look, and chains that gave up with the expiry still to write. */
  datatype Dispatching = Dispatching(
    row: Order,
    events: nat,
    queue: set<nat>,
    active: seq<nat>,
    givingUp: nat,
    accepts: nat,
    attempts: nat)

  datatype Step =
    | Elsewhere(op: OrderOp, now: Time)         // any other service's write
    | HandleEvent                               // onOrderAccepted
    | Fire(attempt: nat)                        // a retry job is due
    | Claim(which: nat, candidate: Option<nat>)
    | GiveUp                                    // expireForNoRider

  function Looked(s: Dispatching, attempt: nat): Dispatching {
    s.(attempts := s.attempts + 1, active := if Settled(s.row) then s.active else s.active + [attempt])
  }

  function Expired(id: nat, row: Order): Order {
    if ExpireForNoRider(id, row).Ok? then ExpireForNoRider(id, row).value.row else row
  }

  function Stepped(id: nat, s: Dispatching, step: Step): Dispatching {
    match step
    case Elsewhere(op, now) =>
      (match StepOrder(id, s.row, op, false, now)
       case Err(_) => s
       case Ok(p) =>
         s.(row := p.row, events := s.events + (if op.OpAccept? then 1 else 0),
            accepts := s.accepts + (if op.OpAccept? then 1 else 0)))
    case HandleEvent => Looked(s.(events := if s.events > 0 then s.events - 1 else 0), 0)
    case Fire(attempt) => Looked(s.(queue := s.queue - {attempt}), attempt)
    case Claim(which, candidate) =>
      if which >= |s.active| then s
      else
        var t := s.(active := s.active[..which] + s.active[which + 1..]);
        (match ClaimVerdict(s.row, s.active[which], candidate)
         case Assigned(rider) => t.(row := s.row.(riderId := Some(rider)))
         case RetryAt(n) => t.(queue := s.queue + {n})
         case GaveUp => t.(givingUp := s.givingUp + 1)
         case AlreadySettled => t)
    case GiveUp => s.(givingUp := if s.givingUp > 0 then s.givingUp - 1 else 0, row := Expired(id, s.row))
  }

  /** Events, jobs and give-ups happen only when there is one; no other service
      assigns a rider or expires for want of one, and their reads precede their
      writes. */
  ghost predicate Allowed(s: Dispatching, step: Step) {
    match step
    case Elsewhere(op, _) => !op.OpAssignRider? && !op.OpExpireForNoRider? && Possible(s.row, op)
    case HandleEvent => s.events > 0
    case Fire(attempt) => attempt in s.queue
    case Claim(which, _) => which < |s.active|
    case GiveUp => s.givingUp > 0
  }

  ghost predicate DispatchRun(id: nat, states: seq<Dispatching>, steps: seq<Step>) {
    && |states| == |steps| + 1
    && states[0] == Dispatching(states[0].row, 0, {}, [], 0, 0, 0)
    && states[0].row.status.Pending? && states[0].row.riderId.None?
    && forall i :: 0 <= i < |steps| ==> Allowed(states[i], steps[i]) && states[i + 1] == Stepped(id, states[i], steps[i])
  }

  // ── Attempts are bounded ─────────────────────────────────────────────

  /** The attempts still owed: a queued job k can lead to 10 - k, itself
      included; an attempt n past its look to 9 - n more. */
  function QueueFuel(queue: set<nat>, upto: nat): int {
    if upto == 0 then 0
    else QueueFuel(queue, upto - 1) + (if upto in queue then MAX_RETRIES - upto else 0)
  }

  function ActiveFuel(active: seq<nat>): int {
    if active == [] then 0 else ActiveFuel(active[..|active| - 1]) + MAX_RETRIES - 1 - active[|active| - 1]
  }

  lemma {:induction false} FuelWithout(queue: set<nat>, k: nat, upto: nat)
    ensures QueueFuel(queue, upto)
         == QueueFuel(queue - {k}, upto) + (if k in queue && 1 <= k <= upto then MAX_RETRIES - k else 0)
  {
    if upto > 0 {
      FuelWithout(queue, k, upto - 1);
    }
  }

  lemma {:induction false} FuelWith(queue: set<nat>, k: nat)
    requires 1 <= k < MAX_RETRIES
    ensures QueueFuel(queue + {k}, MAX_RETRIES - 1) <= QueueFuel(queue, MAX_RETRIES - 1) + MAX_RETRIES - k
  {
    FuelWithout(queue + {k}, k, MAX_RETRIES - 1);
    FuelWithout(queue, k, MAX_RETRIES - 1);
    assert queue + {k} - {k} == queue - {k};
  }

  lemma {:induction false} FuelOfRemoval(active: seq<nat>, i: nat)
    requires i < |active|
    ensures ActiveFuel(active[..i] + active[i + 1..]) == ActiveFuel(active) - (MAX_RETRIES - 1 - active[i])
  {
    var n := |active| - 1;
    if i == n {
      assert active[..i] + active[i + 1..] == active[..n];
    } else {
      var shorter := active[..i] + active[i + 1..];
      assert shorter[..|shorter| - 1] == active[..n][..i] + active[..n][i + 1..];
      FuelOfRemoval(active[..n], i);
    }
  }

  lemma {:induction false} FuelIsNotNegative(queue: set<nat>, upto: nat, active: seq<nat>)
    requires upto < MAX_RETRIES && forall i :: 0 <= i < |active| ==> active[i] < MAX_RETRIES
    ensures QueueFuel(queue, upto) >= 0 && ActiveFuel(active) >= 0
    decreases upto + |active|
  {
    if upto > 0 {
      FuelIsNotNegative(queue, upto - 1, active);
    } else if active != [] {
      FuelIsNotNegative(queue, upto, active[..|active| - 1]);
    }
  }

  lemma {:induction false} NoFuel(upto: nat)
    ensures QueueFuel({}, upto) == 0
  {
    if upto > 0 {
      NoFuel(upto - 1);
    }
  }

  ghost predicate Bounded(s: Dispatching) {
    && (forall k :: k in s.queue ==> 1 <= k < MAX_RETRIES)
    && (forall i :: 0 <= i < |s.active| ==> s.active[i] < MAX_RETRIES)
    && s.attempts + QueueFuel(s.queue, MAX_RETRIES - 1) + ActiveFuel(s.active) + MAX_RETRIES * s.events
       <= MAX_RETRIES * s.accepts
  }

  lemma ClaimKeepsBounded(id: nat, s: Dispatching, step: Step)
    requires Bounded(s) && Allowed(s, step) && step.Claim?
    ensures Bounded(Stepped(id, s, step))
  {
    hide StepOrder;
    var n := s.active[step.which];
    FuelOfRemoval(s.active, step.which);
    if n + 1 < MAX_RETRIES {
      FuelWith(s.queue, n + 1);
    }
  }

  lemma LookKeepsBounded(id: nat, s: Dispatching, step: Step)
    requires Bounded(s) && Allowed(s, step) && (step.HandleEvent? || step.Fire?)
    ensures Bounded(Stepped(id, s, step))
  {
    hide StepOrder;
    var attempt := if step.Fire? then step.attempt else 0;
    assert (s.active + [attempt])[..|s.active|] == s.active;
    if step.Fire? {
      FuelWithout(s.queue, attempt, MAX_RETRIES - 1);
    }
  }

  lemma StepKeepsBounded(id: nat, s: Dispatching, step: Step)
    requires Bounded(s) && Allowed(s, step)
    ensures Bounded(Stepped(id, s, step))
  {
    hide StepOrder;
    if step.Claim? {
      ClaimKeepsBounded(id, s, step);
    } else if step.HandleEvent? || step.Fire? {
      LookKeepsBounded(id, s, step);
    }
  }

  // ── Where dispatch ends ──────────────────────────────────────────────

  predicate Awaiting(row: Order) { InKitchen(row.status) || row.status.ReadyPickup? }

  predicate Carried(row: Order) { row.status.PickedUp? || row.status.Delivered? }

  predicate Live(s: Dispatching) {
    s.events > 0 || s.queue != {} || s.active != [] || s.givingUp > 0
  }

  /** Whatever still awaits a rider has an attempt coming, and whatever was
      carried has a rider. */
  ghost predicate Served(s: Dispatching) {
    && (Awaiting(s.row) && s.row.riderId.None? ==> Live(s))
    && (Carried(s.row) ==> s.row.riderId.Some?)
  }

  /** What another service's write can do to the columns dispatch looks at. */
  lemma OthersDoNotAssign(id: nat, row: Order, op: OrderOp, now: Time)
    requires !op.OpAssignRider? && !op.OpExpireForNoRider? && StepOrder(id, row, op, false, now).Ok?
    ensures var after := StepOrder(id, row, op, false, now).value.row;
            && after.riderId == row.riderId
            && (Awaiting(after) ==> op.OpAccept? || Awaiting(row))
            && (Carried(after) ==> Carried(row) || row.riderId.Some?)
  {
    hide Refusal;
  }

  lemma StepKeepsServed(id: nat, s: Dispatching, step: Step)
    requires Served(s) && Allowed(s, step)
    ensures Served(Stepped(id, s, step))
  {
    hide StepOrder;
    if step.Elsewhere? && StepOrder(id, s.row, step.op, false, step.now).Ok? {
      OthersDoNotAssign(id, s.row, step.op, step.now);
    }
  }

  lemma {:induction false} RunKeepsDispatch(id: nat, states: seq<Dispatching>, steps: seq<Step>, i: nat)
    requires DispatchRun(id, states, steps) && i < |states|
    ensures Bounded(states[i]) && Served(states[i])
  {
    hide Stepped;
    if i > 0 {
      RunKeepsDispatch(id, states, steps, i - 1);
      StepKeepsBounded(id, states[i - 1], steps[i - 1]);
      StepKeepsServed(id, states[i - 1], steps[i - 1]);
    } else {
      NoFuel(MAX_RETRIES - 1);
    }
  }

  /** Over any run attempts are at most ten per acceptance, however events,
      retries, claims and other writes interleave. And once nothing of dispatch
      is left to happen, the order has its rider, or is EXPIRED, or was closed by
      someone else, or is back before its acceptance. */
  lemma AtMostTenAttemptsPerAccept(id: nat, states: seq<Dispatching>, steps: seq<Step>, i: nat)
    requires DispatchRun(id, states, steps) && i < |states|
    ensures states[i].attempts <= MAX_RETRIES * states[i].accepts
    ensures !Live(states[i]) ==>
              var row := states[i].row;
              row.riderId.Some? || row.status.Expired? || row.status.Cancelled? || row.status.Refused? || Decidable(row.status)
  {
    hide Stepped;
    RunKeepsDispatch(id, states, steps, i);
    FuelIsNotNegative(states[i].queue, MAX_RETRIES - 1, states[i].active);
  }

  /** An assigned rider is never replaced or taken away. */
  lemma {:induction false} AssignedRiderNeverChanges(id: nat, states: seq<Dispatching>, steps: seq<Step>, i: nat, j: nat)
    requires DispatchRun(id, states, steps) && i <= j < |states| && states[i].row.riderId.Some?
    ensures states[j].row.riderId == states[i].row.riderId
    decreases j
  {
    hide StepOrder;
    if i < j {
      AssignedRiderNeverChanges(id, states, steps, i, j - 1);
      var s, step := states[j - 1], steps[j - 1];
      if step.Elsewhere? && StepOrder(id, s.row, step.op, false, step.now).Ok? {
        OthersDoNotAssign(id, s.row, step.op, step.now);
      }
    }
  }

  // ── Giving up ────────────────────────────────────────────────────────

  function Chains(s: Dispatching): nat { s.events + |s.queue| + |s.active| + s.givingUp }

  /** While the order was accepted once there is at most one chain, and while
      there is one there is no rider. */
  ghost predicate OneChain(s: Dispatching) {
    && (s.accepts == 0 ==> Chains(s) == 0 && s.row.riderId.None?)
    && (s.accepts == 1 ==> Chains(s) <= 1 && (Chains(s) == 1 ==> s.row.riderId.None?))
  }

  lemma ClaimKeepsOneChain(id: nat, s: Dispatching, step: Step)
    requires OneChain(s) && Allowed(s, step) && step.Claim?
    ensures OneChain(Stepped(id, s, step))
  {
    hide StepOrder;
    hide Possible;
    hide ExpireForNoRider;
    if s.accepts == 1 {
      assert |s.active| == 1 && s.queue == {} && step.which == 0;
    }
  }

  lemma StepKeepsOneChain(id: nat, s: Dispatching, step: Step)
    requires OneChain(s) && Allowed(s, step)
    ensures OneChain(Stepped(id, s, step))
  {
    hide StepOrder;
    hide Possible;
    hide ExpireForNoRider;
    hide ClaimVerdict;
    if step.Claim? {
      ClaimKeepsOneChain(id, s, step);
    }
    if step.Elsewhere? && StepOrder(id, s.row, step.op, false, step.now).Ok? {
      OthersDoNotAssign(id, s.row, step.op, step.now);
    }
    if step.Fire? {
      assert |s.queue - {step.attempt}| == |s.queue| - 1;
    }
  }

  lemma {:induction false} AlwaysOneChain(id: nat, states: seq<Dispatching>, steps: seq<Step>, i: nat)
    requires DispatchRun(id, states, steps) && i < |states|
    ensures OneChain(states[i])
  {
    hide Stepped;
    if i > 0 {
      AlwaysOneChain(id, states, steps, i - 1);
      StepKeepsOneChain(id, states[i - 1], steps[i - 1]);
    }
  }

  /** Of an order accepted once, an expiry for no rider leaves none on it. */
  lemma ExpiredForNoRiderHasNone(id: nat, states: seq<Dispatching>, steps: seq<Step>, i: nat)
    requires DispatchRun(id, states, steps) && i < |steps| && steps[i].GiveUp? && states[i].accepts == 1
    ensures states[i + 1].row.riderId.None?
  {
    AlwaysOneChain(id, states, steps, i);
  }

  /** expireForNoRider itself never looks at riderId: it expires an order that
      has a rider exactly when the row is still in the kitchen or ready. */
  lemma GiveUpIgnoresTheRider(id: nat, row: Order)
    requires row.riderId.Some?
    ensures Expired(id, row).status.Expired? && Expired(id, row).riderId.Some?
            <==> row.status.Expired? || Awaiting(row)
  {
  }

  // ── Two acceptances ──────────────────────────────────────────────────

  lemma DispatchExtends(id: nat, states: seq<Dispatching>, steps: seq<Step>, step: Step)
    requires DispatchRun(id, states, steps) && Allowed(states[|steps|], step)
    ensures DispatchRun(id, states + [Stepped(id, states[|steps|], step)], steps + [step])
  {
    hide Stepped;
    hide Allowed;
  }

  /** Accepted before payment, and nobody in range for k attempts. */
  lemma {:induction false} NobodyInRange(id: nat, row: Order, k: nat) returns (states: seq<Dispatching>, steps: seq<Step>)
    requires Coherent(row) && row.status.Pending? && row.riderId.None? && 1 <= k < MAX_RETRIES
    ensures DispatchRun(id, states, steps)
    ensures states[|steps|] == Dispatching(row.(status := Accepted), 0, {k}, [], 0, 1, k)
  {
    EarlierIsReflexive(row);
    if k == 1 {
      var s0 := Dispatching(row, 0, {}, [], 0, 0, 0);
      var accept := Elsewhere(OpAccept(row, row.vendorId), 0);
      states, steps := [s0], [];
      DispatchExtends(id, states, steps, accept);
      var s1 := Stepped(id, s0, accept);
      states, steps := states + [s1], steps + [accept];
      DispatchExtends(id, states, steps, HandleEvent);
      var s2 := Stepped(id, s1, HandleEvent);
      states, steps := states + [s2], steps + [HandleEvent];
      assert s2.active == [0];
      DispatchExtends(id, states, steps, Claim(0, None));
      states, steps := states + [Stepped(id, s2, Claim(0, None))], steps + [Claim(0, None)];
    } else {
      var s, t := NobodyInRange(id, row, k - 1);
      DispatchExtends(id, s, t, Fire(k - 1));
      var s1 := Stepped(id, s[|t|], Fire(k - 1));
      states, steps := s + [s1], t + [Fire(k - 1)];
      assert s1.active == [k - 1] && s1.queue == {};
      DispatchExtends(id, states, steps, Claim(0, None));
      states, steps := states + [Stepped(id, s1, Claim(0, None))], steps + [Claim(0, None)];
    }
  }

  /** The late payment of an order that is already accepted. */
  lemma LatePaymentReconfirms(id: nat, row: Order, reference: Ref, now: Time)
    requires Coherent(row) && row.status.Accepted? && AwaitingPayment(row.paymentStatus) && row.totalXAF > 0
    ensures var outcome := PaymentSucceeded(id, row, row, reference, None, now, false);
            outcome.Ok? && outcome.value.row.status.Confirmed? && outcome.value.row.riderId == row.riderId
            && outcome.value.row.vendorId == row.vendorId && Coherent(outcome.value.row)
  {
    var txn := PaymentTxn(id, row.totalXAF);
    AcceptedIffBalanced(txn);
    assert txn.lines[..1][..0] == [];
    assert SumOfLines(txn.lines[..1]) == row.totalXAF;
  }

  /** An unpaid order is accepted and its first chain comes to its last attempt,
      past its look; the late payment re-confirms the order, and the vendor
      accepts it again. */
  lemma AcceptedTwice(id: nat, row: Order, reference: Ref) returns (states: seq<Dispatching>, steps: seq<Step>)
    requires Coherent(row) && row.status.Pending? && AwaitingPayment(row.paymentStatus) && row.totalXAF > 0
    requires row.riderId.None?
    ensures DispatchRun(id, states, steps)
    ensures var s := states[|steps|];
            s == Dispatching(s.row, 1, {}, [MAX_RETRIES - 1], 0, 2, MAX_RETRIES) && s.row.status.Accepted? && s.row.riderId.None?
  {
    hide PaymentSucceeded;
    states, steps := NobodyInRange(id, row, MAX_RETRIES - 1);
    var accepted := row.(status := Accepted);
    DispatchExtends(id, states, steps, Fire(MAX_RETRIES - 1));
    var s1 := Stepped(id, states[|steps|], Fire(MAX_RETRIES - 1));
    states, steps := states + [s1], steps + [Fire(MAX_RETRIES - 1)];
    assert s1 == Dispatching(accepted, 0, {}, [MAX_RETRIES - 1], 0, 1, MAX_RETRIES);
    var pay := Elsewhere(OpPaymentSucceeded(accepted, reference, None), 0);
    LatePaymentReconfirms(id, accepted, reference, 0);
    EarlierIsReflexive(accepted);
    DispatchExtends(id, states, steps, pay);
    var s2 := Stepped(id, s1, pay);
    states, steps := states + [s2], steps + [pay];
    var again := Elsewhere(OpAccept(s2.row, s2.row.vendorId), 0);
    EarlierIsReflexive(s2.row);
    DispatchExtends(id, states, steps, again);
    states, steps := states + [Stepped(id, s2, again)], steps + [again];
  }

  /** The second chain assigns a rider; the first then loses its claim and
      expires the order with the rider on it. */
  lemma TwoChainsExpireAnAssignedOrder(id: nat, row: Order, reference: Ref, rider: nat, other: nat)
    returns (states: seq<Dispatching>, steps: seq<Step>)
    requires Coherent(row) && row.status.Pending? && AwaitingPayment(row.paymentStatus) && row.totalXAF > 0
    requires row.riderId.None?
    ensures DispatchRun(id, states, steps)
    ensures states[|steps|].row.status.Expired? && states[|steps|].row.riderId == Some(rider) && states[|steps|].accepts == 2
  {
    hide StepOrder;
    states, steps := AcceptedTwice(id, row, reference);
    DispatchExtends(id, states, steps, HandleEvent);
    var s4 := Stepped(id, states[|steps|], HandleEvent);
    states, steps := states + [s4], steps + [HandleEvent];
    assert s4.active == [MAX_RETRIES - 1, 0];
    DispatchExtends(id, states, steps, Claim(1, Some(rider)));
    var s5 := Stepped(id, s4, Claim(1, Some(rider)));
    states, steps := states + [s5], steps + [Claim(1, Some(rider))];
    assert s5.active == [MAX_RETRIES - 1];
    DispatchExtends(id, states, steps, Claim(0, Some(other)));
    var s6 := Stepped(id, s5, Claim(0, Some(other)));
    states, steps := states + [s6], steps + [Claim(0, Some(other))];
    DispatchExtends(id, states, steps, GiveUp);
    states, steps := states + [Stepped(id, s6, GiveUp)], steps + [GiveUp];
  }

  /** An attempt on its own: nothing to do for an order that has a rider or is
      closed; the nearest rider, if one is in range; the next attempt, of ten; or
      giving up. */
  lemma AttemptComesTo(row: Order, attempt: nat, candidate: Option<nat>)
    ensures var done := row.riderId.Some? || row.status == Cancelled || row.status == OrderStatus.Expired;
            var verdict := TryDispatch(row, attempt, candidate);
            && (verdict == AlreadySettled <==> done)
            && (forall rider: nat :: verdict == Assigned(rider) <==> !done && candidate == Some(rider))
            && (verdict == RetryAt(attempt + 1) <==> !done && candidate == None && attempt < 9)
            && (verdict == GaveUp <==> !done && candidate == None && attempt >= 9)
  {
  }
}
