/** Transfer and refund callbacks: any number, in any order, from any replica. */
module Webhooks {
  import opened Common
  import opened Ledger
  import opened Orders
  import opened Payouts
  import opened Platform
  import opened PlatformInvariant
  import opened PlatformRuns
  import opened OrderInvariants

  /** A callback for an outbound movement, with the instant it is handled. */
  datatype Incoming =
    | ForTransfer(cb: Callback)
    | ForRefund(cb: Callback, at: Time)

  function KeyOf(inc: Incoming): WebhookKey
    requires Terminal(inc.cb)
  {
    WebhookKey(if inc.ForTransfer? then Transfer else Refund, ReferenceIn(inc.cb).value)
  }

  function Handle(s: Db, inc: Incoming): Db {
    match inc
    case ForTransfer(cb) => TransferWebhook(s, cb)
    case ForRefund(cb, at) => RefundWebhook(s, cb, at)
  }

  function HandleAll(s: Db, calls: seq<Incoming>): Db
    decreases |calls|
  {
    if calls == [] then s else HandleAll(Handle(s, calls[0]), calls[1..])
  }

  /** The first terminal callback of each reference not yet recorded. */
  function FirstTerminals(calls: seq<Incoming>, seen: set<WebhookKey>): seq<Incoming> {
    if calls == [] then []
    else if !Terminal(calls[0].cb) || KeyOf(calls[0]) in seen then FirstTerminals(calls[1..], seen)
    else [calls[0]] + FirstTerminals(calls[1..], seen + {KeyOf(calls[0])})
  }

  lemma HandleRecordsItsKey(s: Db, inc: Incoming)
    ensures !Terminal(inc.cb) || KeyOf(inc) in s.webhooks ==> Handle(s, inc) == s
    ensures Terminal(inc.cb) ==> Handle(s, inc).webhooks.Keys == s.webhooks.Keys + {KeyOf(inc)}
  {
    hide StepOrder;
    hide StepPayout;
  }

  /** Duplicates, replays and non-terminal callbacks change nothing: handling a
      whole sequence equals handling the first terminal callback per reference. */
  lemma {:induction false} OnlyFirstTerminalsMatter(s: Db, calls: seq<Incoming>)
    ensures HandleAll(s, calls) == HandleAll(s, FirstTerminals(calls, s.webhooks.Keys))
    decreases |calls|
  {
    hide Handle;
    if calls != [] {
      HandleRecordsItsKey(s, calls[0]);
      OnlyFirstTerminalsMatter(Handle(s, calls[0]), calls[1..]);
      if Terminal(calls[0].cb) && KeyOf(calls[0]) !in s.webhooks {
        var rest := FirstTerminals(calls[1..], s.webhooks.Keys + {KeyOf(calls[0])});
        assert FirstTerminals(calls, s.webhooks.Keys) == [calls[0]] + rest;
        assert ([calls[0]] + rest)[1..] == rest;
      }
    }
  }

  // ── Callbacks for different references commute ───────────────────────

  /** Same rows everywhere; only the insertion order of ledger and log differs. */
  ghost predicate Equivalent(a: Db, b: Db) {
    && a.orders == b.orders && a.payouts == b.payouts && a.webhooks == b.webhooks
    && a.cashouts == b.cashouts && a.payoutTags == b.payoutTags && a.payees == b.payees && a.clock == b.clock
    && multiset(a.ledger) == multiset(b.ledger) && multiset(a.log) == multiset(b.log)
  }

  lemma {:induction false} FindPayoutReadsRefs(a: seq<Payout>, b: seq<Payout>, vendors: bool, reference: Ref)
    requires |a| == |b| && forall i :: 0 <= i < |a| ==> a[i].campayRef == b[i].campayRef && a[i].payee == b[i].payee
    ensures FindPayout(a, vendors, reference) == FindPayout(b, vendors, reference)
  {
    if a != [] {
      FindPayoutReadsRefs(a[..|a| - 1], b[..|b| - 1], vendors, reference);
    }
  }

  lemma {:induction false} FindRefundReadsRefs(a: seq<Order>, b: seq<Order>, reference: Ref)
    requires |a| == |b|
    requires forall i :: 0 <= i < |a| ==> (a[i].refundCampayRef == Some(reference) <==> b[i].refundCampayRef == Some(reference))
    ensures FindRefund(a, reference) == FindRefund(b, reference)
  {
    if a != [] {
      FindRefundReadsRefs(a[..|a| - 1], b[..|b| - 1], reference);
    }
  }

  /** What one fresh terminal callback does: at most one order row or one payout
      row, the rows it books, and its dedup result. */
  datatype Effect = Effect(order: Option<(nat, Order)>, payout: Option<(nat, Payout)>,
                           rows: seq<Row>, log: seq<LogEvent>, key: WebhookKey, result: WebhookResult)

  function EffectOf(s: Db, inc: Incoming): Effect
    requires Terminal(inc.cb)
  {
    var key := KeyOf(inc);
    var won := Confirms(inc.cb.status);
    var done := if won then Succeeded else WebhookResult.Rejected;
    match inc
    case ForTransfer(_) =>
      (match TransferTarget(s.payouts, key.reference)
       case None => Effect(None, None, [], [], key, NoMatch)
       case Some(id) =>
         match PayoutOutcomeOf(s, id, OpTransferCallback(won))
         case Err(_) => Effect(None, None, [], [], key, StatusMismatch)
         case Ok(p) => Effect(None, Some((id, p.row)), [], p.log, key, done))
    case ForRefund(_, at) =>
      match FindRefund(s.orders, key.reference)
      case None => Effect(None, None, [], [], key, NoMatch)
      case Some(id) =>
        match OrderOutcome(s, id, OpRefundCallback(won), at)
        case Err(_) => Effect(None, None, [], [], key, StatusMismatch)
        case Ok(p) => Effect(Some((id, p.row)), None, Post([], p.posting, at), p.log, key, done)
  }

  function Applied(s: Db, e: Effect): Db {
    s.(orders := if e.order.Some? && e.order.value.0 < |s.orders| then s.orders[e.order.value.0 := e.order.value.1] else s.orders,
       payouts := if e.payout.Some? && e.payout.value.0 < |s.payouts| then s.payouts[e.payout.value.0 := e.payout.value.1]
                  else s.payouts,
       ledger := s.ledger + e.rows, log := s.log + e.log, webhooks := s.webhooks[e.key := e.result])
  }

  lemma HandleIsItsEffect(s: Db, inc: Incoming)
    requires Terminal(inc.cb) && KeyOf(inc) !in s.webhooks
    ensures Handle(s, inc) == Applied(s, EffectOf(s, inc))
  {
    hide StepOrder;
    hide StepPayout;
    hide FindPayout;
    hide FindRefund;
    assert s.ledger + [] == s.ledger && s.log + [] == s.log;
    FoundPayout(s.payouts, true, KeyOf(inc).reference);
    FoundPayout(s.payouts, false, KeyOf(inc).reference);
    FoundRefund(s.orders, KeyOf(inc).reference);
    if inc.ForRefund? {
      RefundPosts(s, inc.cb, inc.at);
    }
  }

  lemma RefundPosts(s: Db, cb: Callback, at: Time)
    ensures forall posting: Option<Txn> :: Post(s.ledger, posting, at) == s.ledger + Post([], posting, at)
  {
    assert s.ledger + [] == s.ledger;
    assert forall rows: seq<Row> :: [] + rows == rows;
  }

  /** The row a callback touches holds its reference, and keeps or drops it. */
  lemma EffectTouchesItsReference(s: Db, inc: Incoming)
    requires Terminal(inc.cb)
    ensures var e := EffectOf(s, inc); var reference := KeyOf(inc).reference;
            && (inc.ForTransfer? ==> e.order.None?) && (inc.ForRefund? ==> e.payout.None?)
            && (e.order.Some? ==> e.order.value.0 < |s.orders|
                                  && s.orders[e.order.value.0].refundCampayRef == Some(reference)
                                  && (e.order.value.1.refundCampayRef.Some? ==> e.order.value.1.refundCampayRef == Some(reference)))
            && (e.payout.Some? ==> e.payout.value.0 < |s.payouts|
                                   && s.payouts[e.payout.value.0].campayRef == Some(reference)
                                   && e.payout.value.1.campayRef == Some(reference)
                                   && e.payout.value.1.payee == s.payouts[e.payout.value.0].payee)
  {
    FoundPayout(s.payouts, true, KeyOf(inc).reference);
    FoundPayout(s.payouts, false, KeyOf(inc).reference);
    FoundRefund(s.orders, KeyOf(inc).reference);
  }

  /** A callback for another reference leaves this one's effect as it was. */
  lemma EffectIsStable(s: Db, a: Incoming, b: Incoming)
    requires Terminal(a.cb) && Terminal(b.cb) && KeyOf(a) != KeyOf(b)
    ensures EffectOf(Applied(s, EffectOf(s, a)), b) == EffectOf(s, b)
  {
    var e := EffectOf(s, a);
    EffectTouchesItsReference(s, a);
    EffectTouchesItsReference(s, b);
    FoundRefund(s.orders, KeyOf(b).reference);
    FoundPayout(s.payouts, true, KeyOf(b).reference);
    FoundPayout(s.payouts, false, KeyOf(b).reference);
    StableLookups(s, e, b);
  }

  lemma StableLookups(s: Db, e: Effect, b: Incoming)
    requires Terminal(b.cb)
    requires b.ForRefund? && e.order.Some? ==>
      e.order.value.0 < |s.orders| && s.orders[e.order.value.0].refundCampayRef != Some(KeyOf(b).reference)
      && e.order.value.1.refundCampayRef != Some(KeyOf(b).reference)
    requires e.payout.Some? ==>
      e.payout.value.0 < |s.payouts| && s.payouts[e.payout.value.0].campayRef == e.payout.value.1.campayRef
      && s.payouts[e.payout.value.0].payee == e.payout.value.1.payee
    requires b.ForTransfer? && e.payout.Some? ==> e.payout.value.1.campayRef != Some(KeyOf(b).reference)
    ensures EffectOf(Applied(s, e), b) == EffectOf(s, b)
  {
    hide StepOrder;
    hide StepPayout;
    var t := Applied(s, e);
    var reference := KeyOf(b).reference;
    if b.ForRefund? {
      FoundRefund(s.orders, reference);
      FindRefundReadsRefs(s.orders, t.orders, reference);
    } else {
      FoundPayout(s.payouts, true, reference);
      FoundPayout(s.payouts, false, reference);
      FindPayoutReadsRefs(s.payouts, t.payouts, true, reference);
      FindPayoutReadsRefs(s.payouts, t.payouts, false, reference);
    }
  }

  lemma AppliedCommutes(s: Db, e: Effect, f: Effect)
    requires e.key != f.key
    requires e.order.Some? && f.order.Some? ==> e.order.value.0 != f.order.value.0
    requires e.payout.Some? && f.payout.Some? ==> e.payout.value.0 != f.payout.value.0
    ensures Equivalent(Applied(Applied(s, e), f), Applied(Applied(s, f), e))
  {
    var ef, fe := Applied(Applied(s, e), f), Applied(Applied(s, f), e);
    assert ef.orders == fe.orders;
    assert ef.payouts == fe.payouts;
    assert ef.webhooks == fe.webhooks;
  }

  /** Callbacks for different references commute, up to insertion order. */
  lemma DifferentReferencesCommute(s: Db, a: Incoming, b: Incoming)
    requires Terminal(a.cb) && Terminal(b.cb) && KeyOf(a) != KeyOf(b)
    ensures Equivalent(Handle(Handle(s, a), b), Handle(Handle(s, b), a))
  {
    hide Handle;
    hide EffectOf;
    hide Applied;
    HandleRecordsItsKey(s, a);
    HandleRecordsItsKey(s, b);
    HandleRecordsItsKey(Handle(s, a), b);
    HandleRecordsItsKey(Handle(s, b), a);
    if KeyOf(a) !in s.webhooks && KeyOf(b) !in s.webhooks {
      var e, f := EffectOf(s, a), EffectOf(s, b);
      HandleIsItsEffect(s, a);
      HandleIsItsEffect(s, b);
      HandleIsItsEffect(Handle(s, a), b);
      HandleIsItsEffect(Handle(s, b), a);
      EffectIsStable(s, a, b);
      EffectIsStable(s, b, a);
      EffectTouchesItsReference(s, a);
      EffectTouchesItsReference(s, b);
      EffectKeys(s, a);
      EffectKeys(s, b);
      AppliedCommutes(s, e, f);
    }
  }

  lemma EffectKeys(s: Db, inc: Incoming)
    requires Terminal(inc.cb)
    ensures EffectOf(s, inc).key == KeyOf(inc)
  {
    hide StepOrder;
    hide StepPayout;
  }

  // ── Collect callbacks differ ─────────────────────────────────────────

  lemma CollectTakesItsKey(s: Db, cb: Callback, now: Time)
    requires ReferenceIn(cb).Some?
    ensures WebhookKey(Collect, ReferenceIn(cb).value) in CollectWebhook(s, cb, now).webhooks
  {
    hide OnOrder;
    hide OrderOutcome;
  }

  lemma KnownCollectIsIgnored(s: Db, cb: Callback, now: Time)
    requires ReferenceIn(cb).Some? && WebhookKey(Collect, ReferenceIn(cb).value) in s.webhooks
    ensures CollectWebhook(s, cb, now) == s
  {
  }

  /** handleWebhook takes the dedup row before it looks at the status: the first
      callback of a reference is the only one that counts, terminal or not. */
  lemma CollectKeepsFirstOnly(s: Db, first: Callback, later: Callback, x: Time, y: Time)
    requires ReferenceIn(first).Some? && ReferenceIn(later) == ReferenceIn(first)
    ensures CollectWebhook(CollectWebhook(s, first, x), later, y) == CollectWebhook(s, first, x)
  {
    hide CollectWebhook;
    CollectTakesItsKey(s, first, x);
    KnownCollectIsIgnored(CollectWebhook(s, first, x), later, y);
  }

  predicate CollectTerminal(status: CampayStatus) { status.Successful? || Denies(status) }

  /** So a non-terminal callback swallows the terminal one behind it, whatever
      that is: nothing is raised, nothing is written. Alone, a success would have
      been raised exactly when its reference resolves to an order, and a failure
      would have changed the order exactly when it was neither PAID nor FAILED. */
  lemma PendingSwallowsTerminal(s: Db, pending: Callback, terminal: Callback, x: Time, y: Time)
    requires ReferenceIn(pending).Some? && ReferenceIn(terminal) == ReferenceIn(pending)
    requires !CollectTerminal(pending.status) && CollectTerminal(terminal.status)
    requires WebhookKey(Collect, ReferenceIn(pending).value) !in s.webhooks
    ensures var after := CollectWebhook(s, pending, x);
            && after.orders == s.orders && PaymentRaised(s, pending).None?
            && CollectWebhook(after, terminal, y) == after && PaymentRaised(after, terminal).None?
    ensures PaymentRaised(s, terminal).Some?
            <==> terminal.status.Successful? && FindCollect(s.orders, ReferenceIn(pending).value).Some?
    ensures CollectWebhook(s, terminal, y).orders == s.orders
            <==> var hit := FindCollect(s.orders, ReferenceIn(pending).value);
                 terminal.status.Successful? || hit.None? || hit.value >= |s.orders|
                 || s.orders[hit.value].paymentStatus.Paid? || s.orders[hit.value].paymentStatus.Failed?
  {
    CollectKeepsFirstOnly(s, pending, terminal, x, y);
    CollectTakesItsKey(s, pending, x);
    FoundCollect(s.orders, ReferenceIn(pending).value);
  }

  /** A failure that reaches the order by its code, while a later collect is in
      flight, sets it FAILED; the success of that collect then books nothing. */
  lemma FailureLosesTheSuccess(s: Db, cb: Callback, x: Time, id: nat, read: Order, reference: Ref, payer: Option<nat>, now: Time)
    requires ReferenceIn(cb).Some? && Denies(cb.status) && WebhookKey(Collect, ReferenceIn(cb).value) !in s.webhooks
    requires FindCollect(s.orders, ReferenceIn(cb).value) == Some(id) && id < |s.orders|
    requires s.orders[id].paymentStatus.Processing?
    ensures var t := CollectWebhook(s, cb, x);
            && id < |t.orders| && t.orders[id] == s.orders[id].(paymentStatus := PaymentStatus.Failed)
            && OnOrder(t, id, OpPaymentSucceeded(read, reference, payer), now) == t
  {
  }

  /** For any callback: the success of an order's collect is booked after it
      exactly when it would have been without it, and it was not a first FAILED
      or CANCELLED callback that resolves to this order. */
  lemma SuccessBooksAfterIff(s: Db, cb: Callback, x: Time, id: nat, read: Order, reference: Ref, payer: Option<nat>, now: Time)
    requires id < |s.orders|
    ensures var success := OpPaymentSucceeded(read, reference, payer);
            OrderOutcome(CollectWebhook(s, cb, x), id, success, now).Ok?
            <==> OrderOutcome(s, id, success, now).Ok?
                 && !(Denies(cb.status) && ReferenceIn(cb).Some? && WebhookKey(Collect, ReferenceIn(cb).value) !in s.webhooks
                      && FindCollect(s.orders, ReferenceIn(cb).value) == Some(id))
    ensures OrderOutcome(s, id, OpPaymentSucceeded(read, reference, payer), now).Ok?
            <==> && AwaitingPayment(s.orders[id].paymentStatus) && !read.paymentStatus.Paid? && read.totalXAF != 0
                 && (forall i :: 0 <= i < |s.orders| && i != id ==> s.orders[i].paymentReference != Some(reference))
  {
    hide FindCollect;
    hide SnapshotOf;
    hide Refusal;
    CollectKeepsReferences(s, cb, x);
    PaymentIsBookedIff(id, read.totalXAF);
  }

  lemma PaymentIsBookedIff(id: nat, totalXAF: int)
    ensures Refusal(PaymentTxn(id, totalXAF)).None? <==> totalXAF != 0
  {
    var txn := PaymentTxn(id, totalXAF);
    AcceptedIffBalanced(txn);
    assert txn.lines[..1][..0] == [];
    assert SumOfLines(txn.lines[..1]) == totalXAF;
  }

  lemma FailureTouchesOneRow(s: Db, id: nat, x: Time)
    ensures var t := OnOrder(s, id, OpCollectFailed, x);
            && |t.orders| == |s.orders|
            && forall i :: 0 <= i < |s.orders| ==>
                 t.orders[i].paymentReference == s.orders[i].paymentReference && (i != id ==> t.orders[i] == s.orders[i])
  {
  }

  lemma CollectKeepsReferences(s: Db, cb: Callback, x: Time)
    ensures var t := CollectWebhook(s, cb, x);
            && |t.orders| == |s.orders|
            && forall i :: 0 <= i < |s.orders| ==>
                 && t.orders[i].paymentReference == s.orders[i].paymentReference
                 && (t.orders[i] != s.orders[i] ==>
                       Denies(cb.status) && ReferenceIn(cb).Some? && FindCollect(s.orders, ReferenceIn(cb).value) == Some(i)
                       && WebhookKey(Collect, ReferenceIn(cb).value) !in s.webhooks)
  {
    hide FindCollect;
    hide OnOrder;
    hide OrderOutcome;
    if ReferenceIn(cb).Some? && FindCollect(s.orders, ReferenceIn(cb).value).Some? {
      FailureTouchesOneRow(s, FindCollect(s.orders, ReferenceIn(cb).value).value, x);
    }
  }

  // ── Too early is too late ────────────────────────────────────────────

  lemma WritesKeepKeys(s: Db, now: Time)
    ensures forall id, op :: OnOrder(s, id, op, now).webhooks == s.webhooks
    ensures forall id, op :: OnPayout(s, id, op).webhooks == s.webhooks
  {
    hide StepOrder;
    hide StepPayout;
  }

  lemma NextKeepsKeys(s: Db, op: Op, now: Time)
    ensures s.webhooks.Keys <= Next(s, op, now).webhooks.Keys
  {
    hide OnOrder;
    hide OnPayout;
    hide OrderOutcome;
    hide PayoutOutcomeOf;
    WritesKeepKeys(s, now);
  }

  lemma {:induction false} KeysStay(states: seq<Db>, moments: seq<Moment>, i: nat, j: nat)
    requires Run(states, moments) && i <= j < |states|
    ensures states[i].webhooks.Keys <= states[j].webhooks.Keys
    decreases j - i
  {
    hide Next;
    hide Legal;
    if i < j {
      KeysStay(states, moments, i, j - 1);
      NextKeepsKeys(states[j - 1], moments[j - 1].op, moments[j - 1].now);
    }
  }

  /** A terminal transfer or refund callback that comes before its reference is
      stored is recorded and moves nothing, and from then on, in every later
      state of the run, no callback for that reference does anything. */
  lemma EarlyCallbackIsLost(states: seq<Db>, moments: seq<Moment>, i: nat, j: nat, early: Incoming, later: Incoming)
    requires Run(states, moments) && i < j < |states| && Terminal(early.cb) && Terminal(later.cb)
    requires moments[i].op == (if early.ForTransfer? then TransferCallbackOp(early.cb) else RefundCallbackOp(early.cb))
    requires KeyOf(later) == KeyOf(early)
    requires if early.ForTransfer? then TransferTarget(states[i].payouts, KeyOf(early).reference).None?
             else FindRefund(states[i].orders, KeyOf(early).reference).None?
    ensures states[i + 1].orders == states[i].orders && states[i + 1].payouts == states[i].payouts
            && states[i + 1].ledger == states[i].ledger
    ensures Handle(states[j], later) == states[j]
  {
    hide OnOrder;
    hide OnPayout;
    hide OrderOutcome;
    hide PayoutOutcomeOf;
    hide FindRefund;
    hide TransferTarget;
    hide Legal;
    assert KeyOf(early) in states[i + 1].webhooks;
    KeysStay(states, moments, i + 1, j);
    HandleRecordsItsKey(states[j], later);
  }

  /** A terminal transfer callback moves a payout exactly when it is the first of
      its reference, the reference is stored, and the payout is in flight. */
  lemma TransferMovesIff(s: Db, cb: Callback)
    requires Terminal(cb)
    ensures TransferWebhook(s, cb).payouts != s.payouts
            <==> var hit := TransferTarget(s.payouts, ReferenceIn(cb).value);
                 && WebhookKey(Transfer, ReferenceIn(cb).value) !in s.webhooks && hit.Some? && hit.value < |s.payouts|
                 && s.payouts[hit.value].status.PayoutInFlight?
  {
    FoundPayout(s.payouts, true, ReferenceIn(cb).value);
    FoundPayout(s.payouts, false, ReferenceIn(cb).value);
  }

  /** A terminal refund callback moves an order exactly when it is the first of
      its reference, the reference is stored, and the refund is still pending;
      a success also needs a total the ledger books. */
  lemma RefundMovesIff(s: Db, cb: Callback, now: Time)
    requires Terminal(cb)
    ensures RefundWebhook(s, cb, now).orders != s.orders
            <==> var hit := FindRefund(s.orders, ReferenceIn(cb).value);
                 && WebhookKey(Refund, ReferenceIn(cb).value) !in s.webhooks && hit.Some? && hit.value < |s.orders|
                 && s.orders[hit.value].paymentStatus.RefundPending?
                 && (Confirms(cb.status) ==> s.orders[hit.value].totalXAF != 0)
  {
    hide Refusal;
    hide FindRefund;
    var hit := FindRefund(s.orders, ReferenceIn(cb).value);
    FoundRefund(s.orders, ReferenceIn(cb).value);
    if hit.Some? {
      RefundIsBookedIff(hit.value, s.orders[hit.value].totalXAF);
    }
  }

  lemma RefundIsBookedIff(id: nat, totalXAF: int)
    ensures Refusal(RefundSettledTxn(id, totalXAF)).None? <==> totalXAF != 0
  {
    var txn := RefundSettledTxn(id, totalXAF);
    AcceptedIffBalanced(txn);
    assert txn.lines[..1][..0] == [];
    assert SumOfLines(txn.lines[..1]) == totalXAF;
  }

  // ── Any order ────────────────────────────────────────────────────────

  ghost predicate DistinctTerminals(calls: seq<Incoming>) {
    && (forall i :: 0 <= i < |calls| ==> Terminal(calls[i].cb))
    && forall i, j :: 0 <= i < j < |calls| ==> KeyOf(calls[i]) != KeyOf(calls[j])
  }

  lemma HandleRespectsOrderOfEntries(a: Db, b: Db, inc: Incoming)
    requires Equivalent(a, b)
    ensures Equivalent(Handle(a, inc), Handle(b, inc))
  {
    hide Handle;
    HandleRecordsItsKey(a, inc);
    HandleRecordsItsKey(b, inc);
    if Terminal(inc.cb) && KeyOf(inc) !in a.webhooks {
      HandleIsItsEffect(a, inc);
      HandleIsItsEffect(b, inc);
      EffectReadsTables(a, b, inc);
    }
  }

  lemma EffectReadsTables(a: Db, b: Db, inc: Incoming)
    requires Terminal(inc.cb) && a.orders == b.orders && a.payouts == b.payouts
    ensures EffectOf(a, inc) == EffectOf(b, inc)
  {
    hide StepOrder;
    hide StepPayout;
  }

  lemma {:induction false} HandleAllRespectsOrderOfEntries(a: Db, b: Db, calls: seq<Incoming>)
    requires Equivalent(a, b)
    ensures Equivalent(HandleAll(a, calls), HandleAll(b, calls))
    decreases |calls|
  {
    hide Handle;
    hide Equivalent;
    if calls != [] {
      HandleRespectsOrderOfEntries(a, b, calls[0]);
      HandleAllRespectsOrderOfEntries(Handle(a, calls[0]), Handle(b, calls[0]), calls[1..]);
    }
  }

  lemma EquivalenceIsTransitive(a: Db, b: Db, c: Db)
    requires Equivalent(a, b) && Equivalent(b, c)
    ensures Equivalent(a, c)
  {
  }

  lemma {:induction false} HandleAllOfConcat(s: Db, a: seq<Incoming>, b: seq<Incoming>)
    ensures HandleAll(s, a + b) == HandleAll(HandleAll(s, a), b)
    decreases |a|
  {
    hide Handle;
    if a == [] {
      assert a + b == b;
    } else {
      assert (a + b)[1..] == a[1..] + b;
      HandleAllOfConcat(Handle(s, a[0]), a[1..], b);
    }
  }

  lemma HandleFirst(s: Db, x: Incoming, rest: seq<Incoming>)
    ensures HandleAll(s, [x] + rest) == HandleAll(Handle(s, x), rest)
  {
    assert ([x] + rest)[1..] == rest;
  }

  /** A callback may be handled before all those that came before it. */
  lemma {:induction false} MovesToFront(s: Db, before: seq<Incoming>, x: Incoming)
    requires DistinctTerminals(before + [x])
    ensures Equivalent(HandleAll(s, before + [x]), HandleAll(s, [x] + before))
    decreases |before|
  {
    hide Handle;
    hide HandleAll;
    hide Equivalent;
    if before == [] {
      assert before + [x] == [x] + before;
      SelfEquivalent(HandleAll(s, [x] + before));
    } else {
      var p, rest := before[0], before[1..];
      assert forall i :: 0 <= i < |rest| + 1 ==> (rest + [x])[i] == (before + [x])[i + 1];
      assert (before + [x])[|before|] == x && (before + [x])[0] == p;
      assert before + [x] == [p] + (rest + [x]) && before == [p] + rest;
      MovesToFront(Handle(s, p), rest, x);
      HandleFirst(s, p, rest + [x]);
      HandleFirst(Handle(s, p), x, rest);
      HandleFirst(s, x, before);
      HandleFirst(Handle(s, x), p, rest);
      DifferentReferencesCommute(s, p, x);
      HandleAllRespectsOrderOfEntries(Handle(Handle(s, p), x), Handle(Handle(s, x), p), rest);
      EquivalenceIsTransitive(HandleAll(s, before + [x]), HandleAll(Handle(s, p), [x] + rest), HandleAll(s, [x] + before));
    }
  }

  lemma SelfEquivalent(s: Db)
    ensures Equivalent(s, s)
  {
  }

  /** Taking one callback out of a sequence. */
  lemma Without(b: seq<Incoming>, k: nat)
    requires k < |b| && DistinctTerminals(b)
    ensures var rest := b[..k] + b[k + 1..];
            && b == b[..k] + [b[k]] + b[k + 1..]
            && multiset(b) == multiset{b[k]} + multiset(rest)
            && DistinctTerminals(rest) && DistinctTerminals(b[..k] + [b[k]])
  {
    var rest := b[..k] + b[k + 1..];
    assert b == b[..k] + [b[k]] + b[k + 1..];
    assert multiset(b) == multiset(b[..k]) + multiset{b[k]} + multiset(b[k + 1..]);
    assert forall i :: 0 <= i < |rest| ==> rest[i] == b[if i < k then i else i + 1];
  }

  /** The callback is handled first, and the others as they came. */
  lemma PullsForward(s: Db, b: seq<Incoming>, k: nat)
    requires k < |b| && DistinctTerminals(b)
    ensures Equivalent(HandleAll(Handle(s, b[k]), b[..k] + b[k + 1..]), HandleAll(s, b))
  {
    hide Handle;
    hide HandleAll;
    hide Equivalent;
    var x, before, after := b[k], b[..k], b[k + 1..];
    Without(b, k);
    MovesToFront(s, before, x);
    HandleAllOfConcat(s, before + [x], after);
    HandleAllOfConcat(s, [x] + before, after);
    HandleAllRespectsOrderOfEntries(HandleAll(s, before + [x]), HandleAll(s, [x] + before), after);
    assert [x] + before + after == [x] + (before + after);
    HandleFirst(s, x, before + after);
    EquivalenceIsSymmetric(HandleAll(s, b), HandleAll(s, [x] + (before + after)));
  }

  lemma EquivalenceIsSymmetric(a: Db, b: Db)
    requires Equivalent(a, b)
    ensures Equivalent(b, a)
  {
  }

  /** A callback common to two reorderings, taken out of both. */
  lemma SameWithout(a: seq<Incoming>, b: seq<Incoming>) returns (k: nat)
    requires a != [] && multiset(a) == multiset(b) && DistinctTerminals(a) && DistinctTerminals(b)
    ensures k < |b| && b[k] == a[0]
    ensures multiset(a[1..]) == multiset(b[..k] + b[k + 1..])
    ensures DistinctTerminals(a[1..]) && DistinctTerminals(b[..k] + b[k + 1..])
  {
    hide DistinctTerminals;
    hide Terminal;
    k := IndexOf(b, a[0]);
    Without(a, 0);
    Without(b, k);
    assert a[..0] + a[1..] == a[1..];
    CancelOne(multiset(a[1..]), multiset(b[..k] + b[k + 1..]), a[0]);
  }

  lemma IndexOf(b: seq<Incoming>, x: Incoming) returns (k: nat)
    requires x in multiset(b)
    ensures k < |b| && b[k] == x
  {
    k :| 0 <= k < |b| && b[k] == x;
  }

  lemma CancelOne(a: multiset<Incoming>, b: multiset<Incoming>, x: Incoming)
    requires multiset{x} + a == multiset{x} + b
    ensures a == b
  {
    assert multiset{x} + a - multiset{x} == a;
    assert multiset{x} + b - multiset{x} == b;
  }

  lemma {:induction false} PermutationsAgree(s: Db, a: seq<Incoming>, b: seq<Incoming>)
    requires DistinctTerminals(a) && DistinctTerminals(b) && multiset(a) == multiset(b)
    ensures Equivalent(HandleAll(s, a), HandleAll(s, b))
    decreases |a|
  {
    hide Handle;
    hide HandleAll;
    hide Equivalent;
    hide DistinctTerminals;
    if a == [] {
      assert |multiset(b)| == 0;
      assert b == [];
      SelfEquivalent(HandleAll(s, b));
    } else {
      var k := SameWithout(a, b);
      assert a == [a[0]] + a[1..];
      HandleFirst(s, a[0], a[1..]);
      PermutationsAgree(Handle(s, a[0]), a[1..], b[..k] + b[k + 1..]);
      PullsForward(s, b, k);
      EquivalenceIsTransitive(HandleAll(s, a), HandleAll(Handle(s, a[0]), b[..k] + b[k + 1..]), HandleAll(s, b));
    }
  }

  lemma {:induction false} FirstTerminalsAreDistinct(calls: seq<Incoming>, seen: set<WebhookKey>)
    ensures DistinctTerminals(FirstTerminals(calls, seen))
    ensures forall i :: 0 <= i < |FirstTerminals(calls, seen)| ==>
              Terminal(FirstTerminals(calls, seen)[i].cb) && KeyOf(FirstTerminals(calls, seen)[i]) !in seen
  {
    if calls != [] {
      if !Terminal(calls[0].cb) || KeyOf(calls[0]) in seen {
        FirstTerminalsAreDistinct(calls[1..], seen);
      } else {
        FirstTerminalsAreDistinct(calls[1..], seen + {KeyOf(calls[0])});
      }
    }
  }

  /** Two callback sequences whose first terminal callbacks per reference are the
      same, in whatever order, with whatever replays and non-terminal ones in
      between, end in the same tables, up to the insertion order of entries. */
  lemma AnyOrderAgrees(s: Db, a: seq<Incoming>, b: seq<Incoming>)
    requires multiset(FirstTerminals(a, s.webhooks.Keys)) == multiset(FirstTerminals(b, s.webhooks.Keys))
    ensures Equivalent(HandleAll(s, a), HandleAll(s, b))
  {
    hide Handle;
    OnlyFirstTerminalsMatter(s, a);
    OnlyFirstTerminalsMatter(s, b);
    FirstTerminalsAreDistinct(a, s.webhooks.Keys);
    FirstTerminalsAreDistinct(b, s.webhooks.Keys);
    PermutationsAgree(s, FirstTerminals(a, s.webhooks.Keys), FirstTerminals(b, s.webhooks.Keys));
  }
}
