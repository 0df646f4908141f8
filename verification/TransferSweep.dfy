/** One tick of the payout transfer worker: the float, the counters, the rows. */
module TransferSweep {
  import opened Common
  import opened Ledger
  import opened Orders
  import opened Payouts
  import opened Platform
  import opened PlatformInvariant
  import opened S = Store

  datatype Attempt = Initiated | SkippedManual | Failed | RaceLost

  datatype Counters = Counters(attempted: nat, initiated: nat, skippedManual: nat, skippedInsufficient: nat, failed: nat,
                               raceLost: nat)

  const NoneYet := Counters(0, 0, 0, 0, 0, 0)

  /** tryTransfer on a row, its steps back to back. `answer` is the reference
      Campay gives, or None when the call fails. */
  function TryTransfer(s: Db, id: nat, enabled: bool, answer: Option<Ref>): (Attempt, Db) {
    if !enabled then (SkippedManual, s)
    else if PayoutOutcomeOf(s, id, OpTransferLock).Err? then (RaceLost, s)
    else
      var locked := OnPayout(s, id, OpTransferLock);
      (if answer.Some? && !CampayRefTaken(locked, id, answer.value) then Initiated else Attempt.Failed,
       OnPayout(locked, id, if answer.Some? then OpTransferAccepted(answer.value) else OpTransferRejected))
  }

  predicate CampayRefTaken(s: Db, id: nat, reference: Ref) {
    id < |s.payouts| && CampayRefClash(s, id, OpTransferAccepted(reference))
  }

  /** A sweep part way through: `started` are the payouts it initiated. */
  datatype Sweeping = Sweeping(db: Db, counters: Counters, remaining: Option<int>, started: seq<nat>)

  function Counted(c: Counters, outcome: Attempt): Counters {
    match outcome
    case Initiated => c.(initiated := c.initiated + 1)
    case SkippedManual => c.(skippedManual := c.skippedManual + 1)
    case Failed => c.(failed := c.failed + 1)
    case RaceLost => c.(raceLost := c.raceLost + 1)
  }

  /** One row of the loop. The float is known exactly in automatic mode. */
  function SweepRow(w: Sweeping, id: nat, answer: Option<Ref>): Sweeping
    requires id < |w.db.payouts|
  {
    var net := w.db.payouts[id].netXAF;
    var c := w.counters.(attempted := w.counters.attempted + 1);
    if w.remaining.Some? && net > w.remaining.value then w.(counters := c.(skippedInsufficient := c.skippedInsufficient + 1))
    else
      var (outcome, after) := TryTransfer(w.db, id, w.remaining.Some?, answer);
      Sweeping(after, Counted(c, outcome),
               if outcome.Initiated? && w.remaining.Some? then Some(w.remaining.value - net) else w.remaining,
               if outcome.Initiated? then w.started + [id] else w.started)
  }

  predicate RowsExist(s: Db, rows: seq<nat>) {
    forall k :: 0 <= k < |rows| ==> rows[k] < |s.payouts|
  }

  /** Vendor rows, then rider rows: the source runs this loop over each. */
  function Sweep(w: Sweeping, rows: seq<nat>, answers: seq<Option<Ref>>): (t: Sweeping)
    requires RowsExist(w.db, rows) && |answers| == |rows|
    ensures |t.db.payouts| == |w.db.payouts|
  {
    if rows == [] then w
    else
      var n := |rows| - 1;
      var earlier := Sweep(w, rows[..n], answers[..n]);
      SweepRow(earlier, rows[n], answers[n])
  }

  function Nets(payouts: seq<Payout>, ids: seq<nat>): int
    requires forall k :: 0 <= k < |ids| ==> ids[k] < |payouts|
  {
    if ids == [] then 0 else Nets(payouts, ids[..|ids| - 1]) + payouts[ids[|ids| - 1]].netXAF
  }

  // ── A sweep never overcommits ────────────────────────────────────────

  /** What one tick guarantees, against the table it started from. */
  ghost predicate Within(payouts: seq<Payout>, float: Option<int>, w: Sweeping) {
    var c := w.counters;
    && c.attempted == c.initiated + c.skippedManual + c.skippedInsufficient + c.failed + c.raceLost
    && c.initiated == |w.started| && (float.None? ==> w.started == [])
    && |w.db.payouts| == |payouts|
    && (forall k :: 0 <= k < |w.started| ==> w.started[k] < |payouts|)
    && (forall i :: 0 <= i < |payouts| ==> w.db.payouts[i].netXAF == payouts[i].netXAF)
    && w.remaining.Some? == float.Some?
    && (float.Some? ==> float.value - w.remaining.value == Nets(payouts, w.started))
    && (float.Some? ==> 0 <= Nets(payouts, w.started) <= if float.value > 0 then float.value else 0)
  }

  /** Every row started was claimed by this sweep alone, once, and is in flight
      under the reference Campay gave. */
  ghost predicate Claimed(payouts: seq<Payout>, w: Sweeping) {
    && |w.db.payouts| == |payouts|
    && (forall j, k :: 0 <= j < k < |w.started| ==> w.started[j] != w.started[k])
    && (forall k :: 0 <= k < |w.started| ==>
          var id := w.started[k];
          && id < |payouts| && payouts[id].status.PayoutPending?
          && w.db.payouts[id].status.PayoutInFlight? && w.db.payouts[id].campayRef.Some? && !w.db.payouts[id].callOpen)
  }

  lemma TransferTouchesOneRow(s: Db, id: nat, enabled: bool, answer: Option<Ref>)
    requires id < |s.payouts|
    ensures var (outcome, after) := TryTransfer(s, id, enabled, answer);
            && |after.payouts| == |s.payouts|
            && (forall i :: 0 <= i < |s.payouts| && i != id ==> after.payouts[i] == s.payouts[i])
            && after.payouts[id].netXAF == s.payouts[id].netXAF
            && (outcome.SkippedManual? <==> !enabled)
            && (outcome.RaceLost? <==> enabled && !s.payouts[id].status.PayoutPending?)
            && (outcome.SkippedManual? || outcome.RaceLost? ==> after == s)
            && (outcome.Initiated? ==> s.payouts[id].status.PayoutPending? && after.payouts[id].status.PayoutInFlight?
                                       && after.payouts[id].campayRef == answer && answer.Some? && !after.payouts[id].callOpen)
            && (outcome.Failed? ==> after.payouts[id].status.PayoutFailed?)
  {
  }

  lemma RowStaysWithin(payouts: seq<Payout>, float: Option<int>, w: Sweeping, id: nat, answer: Option<Ref>)
    requires Within(payouts, float, w) && id < |payouts| && payouts[id].netXAF > 0
    ensures Within(payouts, float, SweepRow(w, id, answer))
  {
    hide TryTransfer;
    TransferTouchesOneRow(w.db, id, w.remaining.Some?, answer);
    assert (w.started + [id])[..|w.started|] == w.started;
  }

  lemma RowStaysClaimed(payouts: seq<Payout>, w: Sweeping, id: nat, answer: Option<Ref>)
    requires Claimed(payouts, w) && id < |payouts|
    requires forall i :: 0 <= i < |payouts| && w.db.payouts[i].status.PayoutPending? ==> payouts[i].status.PayoutPending?
    ensures Claimed(payouts, SweepRow(w, id, answer))
    ensures var t := SweepRow(w, id, answer).db.payouts;
            forall i :: 0 <= i < |payouts| && t[i].status.PayoutPending? ==> payouts[i].status.PayoutPending?
  {
    hide TryTransfer;
    TransferTouchesOneRow(w.db, id, w.remaining.Some?, answer);
  }

  /** One sweep, over lists of any length: what leaves the fetched float is
      exactly the initiated nets, never more than a positive float; and every
      attempt is counted once. */
  lemma {:induction false} SweepNeverOvercommits(s: Db, float: Option<int>, rows: seq<nat>, answers: seq<Option<Ref>>)
    requires RowsExist(s, rows) && |answers| == |rows|
    requires forall i :: 0 <= i < |s.payouts| ==> s.payouts[i].netXAF > 0
    ensures var w := Sweep(Sweeping(s, NoneYet, float, []), rows, answers);
            Within(s.payouts, float, w) && w.counters.attempted == |rows|
  {
    hide SweepRow;
    hide Within;
    if rows == [] {
      NothingYet(s, float);
    } else {
      var n := |rows| - 1;
      SweepNeverOvercommits(s, float, rows[..n], answers[..n]);
      var earlier := Sweep(Sweeping(s, NoneYet, float, []), rows[..n], answers[..n]);
      RowStaysWithin(s.payouts, float, earlier, rows[n], answers[n]);
      RowIsAttempted(earlier, rows[n], answers[n]);
    }
  }

  lemma NothingYet(s: Db, float: Option<int>)
    ensures Within(s.payouts, float, Sweeping(s, NoneYet, float, []))
  {
  }

  lemma RowIsAttempted(w: Sweeping, id: nat, answer: Option<Ref>)
    requires id < |w.db.payouts|
    ensures SweepRow(w, id, answer).counters.attempted == w.counters.attempted + 1
  {
  }

  lemma {:induction false} SweepClaimsOnce(s: Db, float: Option<int>, rows: seq<nat>, answers: seq<Option<Ref>>)
    requires RowsExist(s, rows) && |answers| == |rows|
    ensures var w := Sweep(Sweeping(s, NoneYet, float, []), rows, answers);
            && Claimed(s.payouts, w)
            && forall i :: 0 <= i < |s.payouts| && w.db.payouts[i].status.PayoutPending? ==> s.payouts[i].status.PayoutPending?
  {
    hide SweepRow;
    if rows != [] {
      var n := |rows| - 1;
      SweepClaimsOnce(s, float, rows[..n], answers[..n]);
      var earlier := Sweep(Sweeping(s, NoneYet, float, []), rows[..n], answers[..n]);
      RowStaysClaimed(s.payouts, earlier, rows[n], answers[n]);
    }
  }

  lemma RowKeepsInv(w: Sweeping, id: nat, answer: Option<Ref>)
    requires Inv(w.db) && id < |w.db.payouts|
    ensures Inv(SweepRow(w, id, answer).db)
  {
    hide Inv;
    hide OnPayout;
    hide PayoutOutcomeOf;
    MoveKeepsInv(w.db, id, OpTransferLock);
    var locked := OnPayout(w.db, id, OpTransferLock);
    MoveKeepsInv(locked, id, if answer.Some? then OpTransferAccepted(answer.value) else OpTransferRejected);
  }

  /** A sweep keeps the platform's joint invariant. */
  lemma {:induction false} SweepKeepsInv(w: Sweeping, rows: seq<nat>, answers: seq<Option<Ref>>)
    requires RowsExist(w.db, rows) && |answers| == |rows| && Inv(w.db)
    ensures Inv(Sweep(w, rows, answers).db)
  {
    hide Inv;
    hide SweepRow;
    if rows != [] {
      var n := |rows| - 1;
      SweepKeepsInv(w, rows[..n], answers[..n]);
      RowKeepsInv(Sweep(w, rows[..n], answers[..n]), rows[n], answers[n]);
    }
  }

  // ── The worker ───────────────────────────────────────────────────────

  class PayoutTransferWorker {
    const db: S.Store

    constructor (db: S.Store)
      ensures this.db == db
    {
      this.db := db;
    }

    /** The guarded claim of a row. */
    method Lock(id: nat) returns (locked: bool)
      modifies db`payouts, db`log
      ensures locked == PayoutOutcomeOf(old(db.Db()), id, OpTransferLock).Ok?
      ensures db.Db() == OnPayout(old(db.Db()), id, OpTransferLock)
    {
      if id >= |db.payouts| || !db.payouts[id].status.PayoutPending? {
        return false;
      }
      db.payouts := db.payouts[id := db.payouts[id].(status := PayoutInFlight, callOpen := true)];
      db.log := db.log + [TransferCalled(id)];
      return true;
    }

    /** Campay answered: its reference is stored, or the row is FAILED. */
    method Conclude(id: nat, answer: Option<Ref>) returns (initiated: bool)
      requires id < |db.payouts| && db.payouts[id].callOpen
      modifies db`payouts
      ensures initiated == (answer.Some? && !CampayRefTaken(old(db.Db()), id, answer.value))
      ensures db.Db() == OnPayout(old(db.Db()), id, if answer.Some? then OpTransferAccepted(answer.value) else OpTransferRejected)
    {
      assert db.log + [] == db.log;
      if answer.Some? && !(exists i :: 0 <= i < |db.payouts| && i != id && db.payouts[i].campayRef == answer
                                       && db.payouts[i].payee.Vendor? == db.payouts[id].payee.Vendor?) {
        db.payouts := db.payouts[id := db.payouts[id].(campayRef := answer, callOpen := false)];
        return true;
      }
      db.payouts := db.payouts[id := db.payouts[id].(status := PayoutFailed, callOpen := false)];
      return false;
    }

    method Transfer(id: nat, enabled: bool, answer: Option<Ref>) returns (outcome: Attempt)
      requires id < |db.payouts|
      modifies db`payouts, db`log
      ensures (outcome, db.Db()) == TryTransfer(old(db.Db()), id, enabled, answer)
    {
      if !enabled {
        return SkippedManual;
      }
      var locked := Lock(id);
      if !locked {
        return RaceLost;                                   // the guarded update matched no row
      }
      var initiated := Conclude(id, answer);
      return if initiated then Initiated else Attempt.Failed;
    }

    /** One row of the loop, counted. */
    method TryRow(id: nat, answer: Option<Ref>, counters: Counters, float: Option<int>, ghost begun: seq<nat>)
      returns (c: Counters, remaining: Option<int>, ghost started: seq<nat>)
      requires id < |db.payouts|
      modifies db`payouts, db`log
      ensures Sweeping(db.Db(), c, remaining, started) == SweepRow(Sweeping(old(db.Db()), counters, float, begun), id, answer)
    {
      hide TryTransfer;
      var net := db.payouts[id].netXAF;
      c, remaining, started := counters.(attempted := counters.attempted + 1), float, begun;
      if remaining.Some? && net > remaining.value {
        c := c.(skippedInsufficient := c.skippedInsufficient + 1);
        return;
      }
      var outcome := Transfer(id, remaining.Some?, answer);
      match outcome {
        case Initiated =>
          c := c.(initiated := c.initiated + 1);
          started := started + [id];
          if remaining.Some? {
            remaining := Some(remaining.value - net);
          }
        case SkippedManual => c := c.(skippedManual := c.skippedManual + 1);
        case Failed => c := c.(failed := c.failed + 1);
        case RaceLost => c := c.(raceLost := c.raceLost + 1);
      }
    }

    method SweepRows(rows: seq<nat>, answers: seq<Option<Ref>>, counters: Counters, float: Option<int>, ghost begun: seq<nat>)
      returns (c: Counters, remaining: Option<int>, ghost started: seq<nat>)
      requires RowsExist(db.Db(), rows) && |answers| == |rows|
      modifies db`payouts, db`log
      ensures Sweeping(db.Db(), c, remaining, started) == Sweep(Sweeping(old(db.Db()), counters, float, begun), rows, answers)
    {
      c, remaining, started := counters, float, begun;
      ghost var w := Sweeping(db.Db(), counters, float, begun);
      for k := 0 to |rows|
        invariant |db.payouts| == |old(db.payouts)|
        invariant Sweeping(db.Db(), c, remaining, started) == Sweep(w, rows[..k], answers[..k])
      {
        hide SweepRow;
        assert rows[..k + 1][..k] == rows[..k] && answers[..k + 1][..k] == answers[..k];
        c, remaining, started := TryRow(rows[k], answers[k], c, remaining, started);
      }
      assert rows[..|rows|] == rows && answers[..|answers|] == answers;
    }

    /** `fetched` is Campay's answer to the balance call, None when it fails;
        the rows are what the two queries found. */
    method SweepPendingTransfers(enabled: bool, fetched: Option<int>, vendorRows: seq<nat>, vendorAnswers: seq<Option<Ref>>,
                                 riderRows: seq<nat>, riderAnswers: seq<Option<Ref>>)
      returns (c: Counters, ending: Option<int>, ghost started: seq<nat>)
      requires RowsExist(db.Db(), vendorRows + riderRows)
      requires |vendorAnswers| == |vendorRows| && |riderAnswers| == |riderRows|
      requires forall i :: 0 <= i < |db.payouts| ==> db.payouts[i].netXAF > 0
      modifies db`payouts, db`log
      ensures c.attempted == c.initiated + c.skippedManual + c.skippedInsufficient + c.failed + c.raceLost
      ensures enabled && fetched.None? ==> db.Db() == old(db.Db()) && c == NoneYet
      ensures !enabled ==> db.Db() == old(db.Db()) && c.skippedManual == |vendorRows| + |riderRows|
      ensures enabled && fetched.Some? ==>
              && Within(old(db.payouts), fetched, Sweeping(db.Db(), c, ending, started))
              && Claimed(old(db.payouts), Sweeping(db.Db(), c, ending, started))
              && c.attempted == |vendorRows| + |riderRows|
      ensures old(Inv(db.Db())) ==> Inv(db.Db())
    {
      hide SweepRow;
      hide Claimed;
      hide Inv;
      c, ending, started := NoneYet, None, [];
      if enabled && fetched.None? {
        return;
      }
      ghost var s := db.Db();
      var float := if enabled then fetched else None;
      assert RowsExist(s, vendorRows) by {
        assert forall k :: 0 <= k < |vendorRows| ==> vendorRows[k] == (vendorRows + riderRows)[k];
      }
      assert RowsExist(s, riderRows) by {
        assert forall k :: 0 <= k < |riderRows| ==> riderRows[k] == (vendorRows + riderRows)[|vendorRows| + k];
      }
      c, ending, started := SweepRows(vendorRows, vendorAnswers, NoneYet, float, []);
      c, ending, started := SweepRows(riderRows, riderAnswers, c, ending, started);
      SweepsCompose(Sweeping(s, NoneYet, float, []), vendorRows, vendorAnswers, riderRows, riderAnswers);
      SweepNeverOvercommits(s, float, vendorRows + riderRows, vendorAnswers + riderAnswers);
      SweepClaimsOnce(s, float, vendorRows + riderRows, vendorAnswers + riderAnswers);
      if Inv(s) {
        SweepKeepsInv(Sweeping(s, NoneYet, float, []), vendorRows + riderRows, vendorAnswers + riderAnswers);
      }
      if !enabled {
        ManualModeMovesNothing(s, vendorRows + riderRows, vendorAnswers + riderAnswers);
      }
    }
  }

  lemma {:induction false} SweepsCompose(w: Sweeping, rows: seq<nat>, answers: seq<Option<Ref>>,
                                         more: seq<nat>, moreAnswers: seq<Option<Ref>>)
    requires RowsExist(w.db, rows) && RowsExist(w.db, more) && RowsExist(w.db, rows + more)
    requires |answers| == |rows| && |moreAnswers| == |more|
    ensures Sweep(Sweep(w, rows, answers), more, moreAnswers) == Sweep(w, rows + more, answers + moreAnswers)
  {
    hide SweepRow;
    if more == [] {
      assert rows + more == rows && answers + moreAnswers == answers;
    } else {
      var n := |more| - 1;
      assert (rows + more)[..|rows| + n] == rows + more[..n];
      assert (answers + moreAnswers)[..|rows| + n] == answers + moreAnswers[..n];
      SweepsCompose(w, rows, answers, more[..n], moreAnswers[..n]);
    }
  }

  /** With transfers disabled the sweep only counts. */
  lemma {:induction false} ManualModeMovesNothing(s: Db, rows: seq<nat>, answers: seq<Option<Ref>>)
    requires RowsExist(s, rows) && |answers| == |rows|
    ensures Sweep(Sweeping(s, NoneYet, None, []), rows, answers)
         == Sweeping(s, NoneYet.(attempted := |rows|, skippedManual := |rows|), None, [])
  {
    if rows != [] {
      ManualModeMovesNothing(s, rows[..|rows| - 1], answers[..|rows| - 1]);
    }
  }

  /** Another payout of the same table holds the reference. */
  ghost predicate HeldByAnother(payouts: seq<Payout>, id: nat, reference: Ref)
    requires id < |payouts|
  {
    exists i :: 0 <= i < |payouts| && i != id && payouts[i].campayRef == Some(reference)
                && payouts[i].payee.Vendor? == payouts[id].payee.Vendor?
  }

  lemma LockLeavesReferences(s: Db, id: nat, reference: Ref)
    requires id < |s.payouts| && s.payouts[id].status == PayoutPending
    ensures CampayRefTaken(OnPayout(s, id, OpTransferLock), id, reference) <==> HeldByAnother(s.payouts, id, reference)
  {
    var locked := OnPayout(s, id, OpTransferLock);
    assert forall i :: 0 <= i < |s.payouts| && i != id ==> locked.payouts[i] == s.payouts[i];
  }

  /** Each row of a sweep adds one to the attempts and one to exactly one other
      counter: the first of these that holds. */
  lemma EachRowIsCounted(w: Sweeping, id: nat, answer: Option<Ref>)
    requires id < |w.db.payouts|
    ensures var row := w.db.payouts[id]; var c := w.counters; var t := SweepRow(w, id, answer);
            var n := c.(attempted := c.attempted + 1);
            t.counters == if w.remaining.Some? && row.netXAF > w.remaining.value then
                            n.(skippedInsufficient := c.skippedInsufficient + 1)
                          else if w.remaining == None then n.(skippedManual := c.skippedManual + 1)
                          else if row.status != PayoutPending then n.(raceLost := c.raceLost + 1)
                          else if answer == None || HeldByAnother(w.db.payouts, id, answer.value) then n.(failed := c.failed + 1)
                          else n.(initiated := c.initiated + 1)
  {
    hide CampayRefTaken;
    hide HeldByAnother;
    if w.db.payouts[id].status == PayoutPending && answer.Some? {
      LockLeavesReferences(w.db, id, answer.value);
    }
  }
}
