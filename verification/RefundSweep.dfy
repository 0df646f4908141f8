/** One tick of the refund processor: the lock, Campay's answer, the counters. */
module RefundSweep {
  import opened Common
  import opened Ledger
  import opened Orders
  import opened OrderInvariants
  import opened Platform
  import opened PlatformInvariant
  import opened LedgerServices
  import opened S = Store

  datatype Attempt = Initiated | SkippedManual | Failed | RaceLost

  /** The log line's counters; a lost race is counted nowhere. */
  datatype Counters = Counters(attempted: nat, initiated: nat, skippedManual: nat, skippedMissingPayerPhone: nat, failed: nat)

  const NoneYet := Counters(0, 0, 0, 0, 0)

  /** A row as the candidate query read it, with Campay's answer to its refund
      call: the reference, or None when the call fails. */
  datatype Candidate = Candidate(id: nat, read: Order, answer: Option<Ref>)

  /** tryRefund, its steps back to back. */
  function TryRefund(s: Db, c: Candidate, enabled: bool, now: Time): (Attempt, Db) {
    if !enabled then (SkippedManual, s)
    else if OrderOutcome(s, c.id, OpRefundLock(c.read), now).Err? then (RaceLost, s)
    else
      var locked := OnOrder(s, c.id, OpRefundLock(c.read), now);
      if c.answer.None? then (Attempt.Failed, OnOrder(locked, c.id, OpRefundRejected, now))
      else
        var outcome := OrderOutcome(locked, c.id, OpRefundAccepted(c.read, c.answer.value), now);
        (if outcome.Ok? && outcome.value.posting.Some? then Initiated else Attempt.Failed,
         OnOrder(locked, c.id, OpRefundAccepted(c.read, c.answer.value), now))
  }

  /** `started` are the orders whose escrow this tick released, `races` the
      attempts lost to another writer. */
  datatype Sweeping = Sweeping(db: Db, counters: Counters, started: seq<nat>, races: nat)

  function SweepRow(w: Sweeping, c: Candidate, enabled: bool, now: Time): Sweeping {
    var n := w.counters.(attempted := w.counters.attempted + 1);
    if c.read.payerPhone.None? then w.(counters := n.(skippedMissingPayerPhone := n.skippedMissingPayerPhone + 1))
    else
      var (outcome, after) := TryRefund(w.db, c, enabled, now);
      match outcome
      case Initiated => Sweeping(after, n.(initiated := n.initiated + 1), w.started + [c.id], w.races)
      case SkippedManual => Sweeping(after, n.(skippedManual := n.skippedManual + 1), w.started, w.races)
      case Failed => Sweeping(after, n.(failed := n.failed + 1), w.started, w.races)
      case RaceLost => Sweeping(after, n, w.started, w.races + 1)
  }

  function Sweep(w: Sweeping, found: seq<Candidate>, enabled: bool, now: Time): Sweeping {
    if found == [] then w
    else SweepRow(Sweep(w, found[..|found| - 1], enabled, now), found[|found| - 1], enabled, now)
  }

  /** Each order started was waiting for its refund when the tick began, was
      started once, and now waits for its settlement under a reference; one
      initiation is booked for each. */
  ghost predicate Claimed(s: Db, w: Sweeping) {
    && |w.db.orders| == |s.orders|
    && (forall j, k :: 0 <= j < k < |w.started| ==> w.started[j] != w.started[k])
    && (forall k :: 0 <= k < |w.started| ==>
          && w.started[k] < |s.orders|
          && s.orders[w.started[k]].paymentStatus.RefundPending? && s.orders[w.started[k]].refundInitiatedAt.None?
          && w.db.orders[w.started[k]].refundCampayRef.Some? && w.db.orders[w.started[k]].refundInitiatedAt.Some?)
    && (forall i :: 0 <= i < |s.orders| && w.db.orders[i].refundInitiatedAt.None? ==> s.orders[i].refundInitiatedAt.None?)
    && (forall i :: 0 <= i < |s.orders| ==> w.db.orders[i].paymentStatus == s.orders[i].paymentStatus)
    && |w.db.ledger| == |s.ledger| + 2 * |w.started|
  }

  /** What an order write does to the other rows and to the ledger. */
  lemma WriteTouchesOneRow(s: Db, id: nat, op: OrderOp, now: Time)
    requires OrderOutcome(s, id, op, now).Ok?
    ensures var p := OrderOutcome(s, id, op, now).value; var after := OnOrder(s, id, op, now);
            && id < |s.orders| && after.orders == s.orders[id := p.row] && after.ledger == Post(s.ledger, p.posting, now)
  {
    hide StepOrder;
  }

  lemma LockRow(s: Db, id: nat, read: Order, now: Time)
    requires OrderOutcome(s, id, OpRefundLock(read), now).Ok?
    ensures var p := OrderOutcome(s, id, OpRefundLock(read), now).value;
            && s.orders[id].paymentStatus.RefundPending? && s.orders[id].refundInitiatedAt.None?
            && p.posting.None? && p.row.paymentStatus.RefundPending? && p.row.refundInitiatedAt.Some? && p.row.refundCallOpen
  {
  }

  lemma ConcludedRow(s: Db, id: nat, read: Order, answer: Option<Ref>, now: Time)
    requires id < |s.orders| && s.orders[id].refundCallOpen
    ensures var op := if answer.Some? then OpRefundAccepted(read, answer.value) else OpRefundRejected;
            var outcome := OrderOutcome(s, id, op, now);
            && outcome.Ok? && outcome.value.row.paymentStatus == s.orders[id].paymentStatus
            && (if outcome.value.posting.Some?
                then answer.Some? && outcome.value.row.refundCampayRef == answer
                     && outcome.value.row.refundInitiatedAt == s.orders[id].refundInitiatedAt
                     && outcome.value.posting == Some(RefundInitiatedTxn(id, read.totalXAF))
                else outcome.value.row.refundInitiatedAt.None?)
  {
    hide Refusal;
    hide RefundInitiatedTxn;
  }

  lemma RefundTouchesOneRow(s: Db, c: Candidate, enabled: bool, now: Time)
    ensures var (outcome, after) := TryRefund(s, c, enabled, now);
            && |after.orders| == |s.orders|
            && (outcome.SkippedManual? || outcome.RaceLost? ==> after == s)
            && (outcome.Initiated? || outcome.Failed? ==>
                  && c.id < |s.orders|
                  && s.orders[c.id].paymentStatus.RefundPending? && s.orders[c.id].refundInitiatedAt.None?
                  && after.orders[c.id].paymentStatus.RefundPending?)
            && (forall i :: 0 <= i < |s.orders| && i != c.id ==> after.orders[i] == s.orders[i])
            && (outcome.Initiated? ==> after.orders[c.id].refundInitiatedAt.Some? && c.answer.Some?
                                       && after.orders[c.id].refundCampayRef == c.answer
                                       && |after.ledger| == |s.ledger| + 2)
            && (outcome.Failed? ==> after.orders[c.id].refundInitiatedAt.None? && after.ledger == s.ledger)
  {
    hide OrderOutcome;
    hide OnOrder;
    var (outcome, after) := TryRefund(s, c, enabled, now);
    if outcome.Initiated? || outcome.Failed? {
      WriteTouchesOneRow(s, c.id, OpRefundLock(c.read), now);
      LockRow(s, c.id, c.read, now);
      var locked := OnOrder(s, c.id, OpRefundLock(c.read), now);
      ConcludedRow(locked, c.id, c.read, c.answer, now);
      WriteTouchesOneRow(locked, c.id, if c.answer.Some? then OpRefundAccepted(c.read, c.answer.value) else OpRefundRejected, now);
    }
  }

  lemma RowStaysClaimed(s: Db, w: Sweeping, c: Candidate, enabled: bool, now: Time)
    requires Claimed(s, w)
    ensures Claimed(s, SweepRow(w, c, enabled, now))
  {
    hide TryRefund;
    RefundTouchesOneRow(w.db, c, enabled, now);
    var t := SweepRow(w, c, enabled, now);
    var r := TryRefund(w.db, c, enabled, now);
    assert r.0.Initiated? ==> |r.1.ledger| == |w.db.ledger| + 2;
    assert |t.db.ledger| == |s.ledger| + 2 * |t.started|;
    assert forall k :: 0 <= k < |w.started| ==> t.started[k] == w.started[k];
    if TryRefund(w.db, c, enabled, now).0.Initiated? {
      assert forall k :: 0 <= k < |w.started| ==> w.started[k] != c.id;
    }
  }

  /** One sweep, over lists of any length: every candidate is counted once or
      lost a race, and each initiation counted is one order's, booked once. */
  lemma {:induction false} SweepInitiatesOnce(s: Db, found: seq<Candidate>, enabled: bool, now: Time)
    ensures var w := Sweep(Sweeping(s, NoneYet, [], 0), found, enabled, now); var c := w.counters;
            && Claimed(s, w) && c.initiated == |w.started| && c.attempted == |found|
            && c.attempted == c.initiated + c.skippedManual + c.skippedMissingPayerPhone + c.failed + w.races
            && (!enabled ==> w.db == s)
  {
    hide TryRefund;
    hide Claimed;
    if found == [] {
      NothingYet(s);
    } else {
      var n := |found| - 1;
      SweepInitiatesOnce(s, found[..n], enabled, now);
      var earlier := Sweep(Sweeping(s, NoneYet, [], 0), found[..n], enabled, now);
      RowStaysClaimed(s, earlier, found[n], enabled, now);
      ManualModeSkips(earlier.db, found[n], now);
    }
  }

  /** The candidates were read no later than now. */
  ghost predicate ReadBefore(s: Db, found: seq<Candidate>) {
    forall k :: 0 <= k < |found| && found[k].id < |s.orders| ==> Earlier(found[k].read, s.orders[found[k].id])
  }

  /** Every order's row is at least as late as it was. */
  ghost predicate Later(s: Db, t: Db) {
    |t.orders| == |s.orders| && forall i :: 0 <= i < |s.orders| ==> Earlier(s.orders[i], t.orders[i])
  }

  lemma WriteKeepsAll(s: Db, id: nat, op: OrderOp, now: Time)
    requires Inv(s) && (id < |s.orders| ==> Possible(s.orders[id], op))
    ensures Inv(OnOrder(s, id, op, now)) && Later(s, OnOrder(s, id, op, now))
  {
    hide StepOrder;
    hide Coherent;
    hide Accounted;
    hide Earlier;
    hide Inv;
    forall i: nat | i < |s.orders| ensures Earlier(s.orders[i], s.orders[i]) {
      RowIsCoherent(s, i);
      EarlierIsReflexive(s.orders[i]);
    }
    if OrderOutcome(s, id, op, now).Ok? {
      WriteKeepsInv(s, id, op, now);
    }
  }

  lemma RowIsCoherent(s: Db, i: nat)
    requires Inv(s) && i < |s.orders|
    ensures Coherent(s.orders[i])
  {
    assert OrderOk(s, i);
  }

  lemma RefundKeepsAll(s: Db, c: Candidate, enabled: bool, now: Time)
    requires Inv(s) && (c.id < |s.orders| ==> Earlier(c.read, s.orders[c.id]))
    ensures Inv(TryRefund(s, c, enabled, now).1) && Later(s, TryRefund(s, c, enabled, now).1)
  {
    hide OnOrder;
    hide OrderOutcome;
    hide Earlier;
    hide Inv;
    var locked := OnOrder(s, c.id, OpRefundLock(c.read), now);
    WriteKeepsAll(s, c.id, OpRefundLock(c.read), now);
    if c.id < |s.orders| {
      EarlierIsTransitive(c.read, s.orders[c.id], locked.orders[c.id]);
    }
    var op := if c.answer.Some? then OpRefundAccepted(c.read, c.answer.value) else OpRefundRejected;
    WriteKeepsAll(locked, c.id, op, now);
    LaterIsTransitive(s, locked, OnOrder(locked, c.id, op, now));
    WriteKeepsNothing(s);
  }

  lemma WriteKeepsNothing(s: Db)
    requires Inv(s)
    ensures Later(s, s)
  {
    forall i: nat | i < |s.orders| ensures Earlier(s.orders[i], s.orders[i]) {
      RowIsCoherent(s, i);
      EarlierIsReflexive(s.orders[i]);
    }
  }

  lemma LaterIsTransitive(a: Db, b: Db, c: Db)
    requires Later(a, b) && Later(b, c)
    ensures Later(a, c)
  {
    hide Earlier;
    forall i | 0 <= i < |a.orders| ensures Earlier(a.orders[i], c.orders[i]) {
      EarlierIsTransitive(a.orders[i], b.orders[i], c.orders[i]);
    }
  }

  /** A sweep over rows read before it keeps the platform's joint invariant. */
  lemma {:induction false} SweepKeepsInv(w: Sweeping, found: seq<Candidate>, enabled: bool, now: Time)
    requires Inv(w.db) && ReadBefore(w.db, found)
    ensures Inv(Sweep(w, found, enabled, now).db) && Later(w.db, Sweep(w, found, enabled, now).db)
  {
    hide Inv;
    hide TryRefund;
    hide Earlier;
    hide Later;
    if found == [] {
      WriteKeepsNothing(w.db);
    } else {
      var n := |found| - 1;
      assert forall k :: 0 <= k < n ==> found[..n][k] == found[k];
      SweepKeepsInv(w, found[..n], enabled, now);
      var mid := Sweep(w, found[..n], enabled, now);
      StillBefore(w.db, mid.db, found[n]);
      RefundKeepsAll(mid.db, found[n], enabled, now);
      WriteKeepsNothing(mid.db);
      LaterIsTransitive(w.db, mid.db, TryRefund(mid.db, found[n], enabled, now).1);
    }
  }

  lemma StillBefore(s: Db, t: Db, c: Candidate)
    requires Later(s, t) && (c.id < |s.orders| ==> Earlier(c.read, s.orders[c.id]))
    ensures c.id < |t.orders| ==> Earlier(c.read, t.orders[c.id])
  {
    hide Earlier;
    if c.id < |s.orders| {
      EarlierIsTransitive(c.read, s.orders[c.id], t.orders[c.id]);
    }
  }

  lemma NothingYet(s: Db)
    ensures Claimed(s, Sweeping(s, NoneYet, [], 0))
  {
  }

  lemma ManualModeSkips(s: Db, c: Candidate, now: Time)
    ensures TryRefund(s, c, false, now) == (SkippedManual, s)
  {
  }

  class RefundProcessorService {
    const db: S.Store
    const ledger: LedgerService

    constructor (db: S.Store, ledger: LedgerService)
      requires ledger.db == db
      ensures this.db == db && this.ledger == ledger
    {
      this.db, this.ledger := db, ledger;
    }

    method Lock(id: nat, read: Order, now: Time) returns (locked: bool)
      modifies db`orders
      ensures locked == OrderOutcome(old(db.Db()), id, OpRefundLock(read), now).Ok?
      ensures db.Db() == OnOrder(old(db.Db()), id, OpRefundLock(read), now)
    {
      if id >= |db.orders| || !read.paymentStatus.RefundPending? || read.refundInitiatedAt.Some? || read.payerPhone.None?
         || !db.orders[id].paymentStatus.RefundPending? || db.orders[id].refundInitiatedAt.Some? {
        return false;
      }
      assert db.log + [] == db.log;
      db.orders := db.orders[id := db.orders[id].(refundInitiatedAt := Some(now), refundCallOpen := true)];
      return true;
    }

    /** After the call: the reference and the escrow release commit together, or
        the lock is rolled back for the next tick. */
    method Conclude(c: Candidate, now: Time) returns (initiated: bool)
      requires ledger.db == db && c.id < |db.orders| && db.orders[c.id].refundCallOpen
      modifies db`orders, db`ledger
      ensures db.Db() == OnOrder(old(db.Db()), c.id,
                                 if c.answer.Some? then OpRefundAccepted(c.read, c.answer.value) else OpRefundRejected, now)
      ensures initiated <==>
              && c.answer.Some?
              && OrderOutcome(old(db.Db()), c.id, OpRefundAccepted(c.read, c.answer.value), now).Ok?
              && OrderOutcome(old(db.Db()), c.id, OpRefundAccepted(c.read, c.answer.value), now).value.posting.Some?
    {
      hide Refusal;
      hide RefundInitiatedTxn;
      assert db.log + [] == db.log;
      var row := db.orders[c.id];
      if c.answer.Some? && !(exists i :: 0 <= i < |db.orders| && i != c.id && db.orders[i].refundCampayRef == c.answer) {
        var referenced := row.(refundCampayRef := c.answer, refundCallOpen := false);
        var refusal := WriteAndBook(ledger, c.id, referenced, RefundInitiatedTxn(c.id, c.read.totalXAF), now);
        if refusal.None? {
          return true;
        }
      }
      db.orders := db.orders[c.id := row.(refundInitiatedAt := None, refundCallOpen := false)];
      return false;
    }

    method Refund(c: Candidate, enabled: bool, now: Time) returns (outcome: Attempt)
      requires ledger.db == db
      modifies db`orders, db`ledger
      ensures (outcome, db.Db()) == TryRefund(old(db.Db()), c, enabled, now)
    {
      hide OnOrder;
      hide OrderOutcome;
      if !enabled {
        return SkippedManual;
      }
      ghost var s := db.Db();
      LockLostChangesNothing(s, c.id, OpRefundLock(c.read), now);
      var locked := Lock(c.id, c.read, now);
      if !locked {
        return RaceLost;
      }
      LockOpensTheCall(s, c.id, c.read, now);
      var initiated := Conclude(c, now);
      return if initiated then Initiated else Attempt.Failed;
    }

    /** One candidate of the loop, counted. */
    method TryCandidate(c: Candidate, counters: Counters, enabled: bool, now: Time, ghost begun: seq<nat>, ghost races: nat)
      returns (after: Counters, ghost started: seq<nat>, ghost lost: nat)
      requires ledger.db == db
      modifies db`orders, db`ledger
      ensures Sweeping(db.Db(), after, started, lost)
           == SweepRow(Sweeping(old(db.Db()), counters, begun, races), c, enabled, now)
    {
      hide TryRefund;
      after, started, lost := counters.(attempted := counters.attempted + 1), begun, races;
      if c.read.payerPhone.None? {
        after := after.(skippedMissingPayerPhone := after.skippedMissingPayerPhone + 1);
        return;
      }
      var outcome := Refund(c, enabled, now);
      match outcome {
        case Initiated =>
          after := after.(initiated := after.initiated + 1);
          started := started + [c.id];
        case SkippedManual => after := after.(skippedManual := after.skippedManual + 1);
        case Failed => after := after.(failed := after.failed + 1);
        case RaceLost => lost := lost + 1;
      }
    }

    method SweepPendingRefunds(found: seq<Candidate>, enabled: bool, now: Time)
      returns (counters: Counters, ghost started: seq<nat>, ghost races: nat)
      requires ledger.db == db
      modifies db`orders, db`ledger
      ensures Sweeping(db.Db(), counters, started, races) == Sweep(Sweeping(old(db.Db()), NoneYet, [], 0), found, enabled, now)
      ensures Claimed(old(db.Db()), Sweeping(db.Db(), counters, started, races)) && counters.initiated == |started|
      ensures counters.attempted - races
              == counters.initiated + counters.skippedManual + counters.skippedMissingPayerPhone + counters.failed
      ensures old(Inv(db.Db()) && ReadBefore(db.Db(), found)) ==> Inv(db.Db())
    {
      hide Claimed;
      hide Inv;
      hide ReadBefore;
      counters, started, races := NoneYet, [], 0;
      ghost var s := db.Db();
      for k := 0 to |found|
        invariant Sweeping(db.Db(), counters, started, races) == Sweep(Sweeping(s, NoneYet, [], 0), found[..k], enabled, now)
      {
        hide SweepRow;
        assert found[..k + 1][..k] == found[..k];
        counters, started, races := TryCandidate(found[k], counters, enabled, now, started, races);
      }
      assert found[..|found|] == found;
      SweepInitiatesOnce(s, found, enabled, now);
      if Inv(s) && ReadBefore(s, found) {
        SweepKeepsInv(Sweeping(s, NoneYet, [], 0), found, enabled, now);
      }
    }
  }

  lemma LockLostChangesNothing(s: Db, id: nat, op: OrderOp, now: Time)
    ensures OrderOutcome(s, id, op, now).Err? ==> OnOrder(s, id, op, now) == s
  {
    hide StepOrder;
  }

  lemma LockOpensTheCall(s: Db, id: nat, read: Order, now: Time)
    requires OrderOutcome(s, id, OpRefundLock(read), now).Ok?
    ensures var locked := OnOrder(s, id, OpRefundLock(read), now);
            id < |locked.orders| && locked.orders[id].refundCallOpen
  {
  }

  /** Another order holds the reference. */
  ghost predicate HeldByAnother(orders: seq<Order>, id: nat, reference: Ref) {
    exists i :: 0 <= i < |orders| && i != id && orders[i].refundCampayRef == Some(reference)
  }

  /** The lock was free, as read and as it is. */
  ghost predicate Free(s: Db, c: Candidate) {
    && c.id < |s.orders| && s.orders[c.id].paymentStatus == RefundPending && s.orders[c.id].refundInitiatedAt == None
    && c.read.paymentStatus == RefundPending && c.read.refundInitiatedAt == None
  }

  lemma AttemptIs(s: Db, c: Candidate, now: Time)
    requires c.read.totalXAF != 0 && c.read.payerPhone.Some?
    ensures TryRefund(s, c, true, now).0
         == if !Free(s, c) then RaceLost
            else if c.answer == None || HeldByAnother(s.orders, c.id, c.answer.value) then Attempt.Failed
            else Initiated
  {
    hide Refusal;
    InitiationIsBooked(c.id, c.read.totalXAF);
    if Free(s, c) {
      var locked := OnOrder(s, c.id, OpRefundLock(c.read), now);
      assert forall i :: 0 <= i < |s.orders| && i != c.id ==> locked.orders[i] == s.orders[i];
      if c.answer.Some? {
        assert ReferenceClash(locked, c.id, OpRefundAccepted(c.read, c.answer.value)) <==> HeldByAnother(s.orders, c.id, c.answer.value);
      }
    }
  }

  /** Each candidate of a sweep adds one to the attempts and to one other count:
      the first of these that holds. */
  lemma EachCandidateIsCounted(w: Sweeping, c: Candidate, enabled: bool, now: Time)
    requires c.read.totalXAF != 0
    ensures var t := SweepRow(w, c, enabled, now); var n := w.counters.(attempted := w.counters.attempted + 1);
            (t.counters, t.races)
            == if c.read.payerPhone == None then
                 (n.(skippedMissingPayerPhone := w.counters.skippedMissingPayerPhone + 1), w.races)
               else if !enabled then (n.(skippedManual := w.counters.skippedManual + 1), w.races)
               else if !Free(w.db, c) then (n, w.races + 1)
               else if c.answer == None || HeldByAnother(w.db.orders, c.id, c.answer.value) then (n.(failed := w.counters.failed + 1), w.races)
               else (n.(initiated := w.counters.initiated + 1), w.races)
  {
    hide TryRefund;
    hide Free;
    hide HeldByAnother;
    ManualModeSkips(w.db, c, now);
    if c.read.payerPhone.Some? {
      AttemptIs(w.db, c, now);
    }
  }

  lemma InitiationIsBooked(id: nat, totalXAF: int)
    requires totalXAF != 0
    ensures Refusal(RefundInitiatedTxn(id, totalXAF)).None?
  {
    var txn := RefundInitiatedTxn(id, totalXAF);
    AcceptedIffBalanced(txn);
    assert txn.lines[..1][..0] == [];
    assert SumOfLines(txn.lines[..1]) == totalXAF;
  }
}
