/** The weekly vendor pass and the daily rider pass. Each row's transaction has
    its own stamp; all share the pass's start as their periodEnd. */
module PayoutCrons {
  import opened Common
  import opened Ledger
  import opened Orders
  import opened Payouts
  import opened Platform
  import opened PlatformInvariant
  import opened PlatformRuns
  import opened PayoutPeriods
  import opened FinanceServices
  import opened S = Store

  /** A payee of the pass: for a rider, whether both identity photos are there. */
  datatype PassRow = ForVendor(vendor: nat) | ForRider(rider: nat, kycComplete: bool)

  function PayeeOf(row: PassRow): Payee {
    match row
    case ForVendor(vendor) => Vendor(vendor)
    case ForRider(rider, _) => Rider(rider)
  }

  /** The row's transition, its queries answered by the state it runs in. */
  function OpOf(s: Db, row: PassRow, end: Time): Op {
    match row
    case ForVendor(vendor) => PayVendor(vendor, ReadNow(s, Vendor(vendor)), end)
    case ForRider(rider, kycComplete) => PayRider(rider, kycComplete, ReadNow(s, Rider(rider)), end)
  }

  function VerdictOf(s: Db, row: PassRow): Result<int, PayoutError> {
    match row
    case ForVendor(vendor) => VendorPayoutVerdict(s, vendor, ReadNow(s, Vendor(vendor)))
    case ForRider(rider, kycComplete) => RiderPayoutVerdict(s, rider, kycComplete, ReadNow(s, Rider(rider)))
  }

  /** The counters of the completion log line; an already scheduled row is a
      silent re-run. */
  datatype Tally = Tally(scheduled: nat, belowMinimum: nat, notPositive: nat, openDisputes: nat, kycIncomplete: nat,
                         failed: nat, rerun: nat, totalXAF: int)

  const Nothing := Tally(0, 0, 0, 0, 0, 0, 0, 0)

  function Counted(t: Tally, verdict: Result<int, PayoutError>): Tally {
    match verdict
    case Ok(net) => t.(scheduled := t.scheduled + 1, totalXAF := t.totalXAF + net)
    case Err(BelowMinimum(_)) => t.(belowMinimum := t.belowMinimum + 1)
    case Err(NegativeOrZeroBalance(_)) => t.(notPositive := t.notPositive + 1)
    case Err(OpenDisputes) => t.(openDisputes := t.openDisputes + 1)
    case Err(KycIncomplete) => t.(kycIncomplete := t.kycIncomplete + 1)
    case Err(AlreadyScheduled(_)) => t.(rerun := t.rerun + 1)
    case Err(_) => t.(failed := t.failed + 1)
  }

  /** The pass as transitions of the platform, one per row. */
  function Pass(s: Db, rows: seq<PassRow>, stamps: seq<Time>, end: Time): (Tally, Db)
    requires |stamps| == |rows|
  {
    if rows == [] then (Nothing, s)
    else
      var n := |rows| - 1;
      var (t, mid) := Pass(s, rows[..n], stamps[..n], end);
      (Counted(t, VerdictOf(mid, rows[n])), Next(mid, OpOf(mid, rows[n], end), stamps[n]))
  }

  /** The counters add up to the rows, and the total is what left the float: one
      payout row per scheduled payee, its net debited and credited once. */
  lemma {:induction false} PassAddsUp(s: Db, rows: seq<PassRow>, stamps: seq<Time>, end: Time)
    requires |stamps| == |rows|
    ensures var (t, after) := Pass(s, rows, stamps, end);
            && |rows| == t.scheduled + t.belowMinimum + t.notPositive + t.openDisputes + t.kycIncomplete + t.failed + t.rerun
            && |after.payouts| == |s.payouts| + t.scheduled
            && AllNets(after.payouts) == AllNets(s.payouts) + t.totalXAF
            && Total(after.ledger, Float) == Total(s.ledger, Float) - t.totalXAF
            && Total(after.ledger, Everything) == Total(s.ledger, Everything)
            && after.orders == s.orders && 500 * t.scheduled <= t.totalXAF
  {
    hide Next;
    hide OpOf;
    hide VerdictOf;
    if rows != [] {
      var n := |rows| - 1;
      PassAddsUp(s, rows[..n], stamps[..n], end);
      var (t, mid) := Pass(s, rows[..n], stamps[..n], end);
      RowAddsUp(mid, rows[n], stamps[n], end);
    }
  }

  lemma RowAddsUp(s: Db, row: PassRow, now: Time, end: Time)
    ensures var verdict := VerdictOf(s, row); var after := Next(s, OpOf(s, row, end), now);
            && (verdict.Err? ==> after == s.(clock := now))
            && (verdict.Ok? ==>
                  && verdict.value >= 500
                  && |after.payouts| == |s.payouts| + 1 && after.orders == s.orders
                  && AllNets(after.payouts) == AllNets(s.payouts) + verdict.value
                  && Total(after.ledger, Float) == Total(s.ledger, Float) - verdict.value
                  && Total(after.ledger, Everything) == Total(s.ledger, Everything))
  {
    hide ReadNow;
    hide PayoutTxn;
    var verdict, payee := VerdictOf(s, row), PayeeOf(row);
    if verdict.Ok? {
      var id := |s.payouts|;
      var after := Next(s, OpOf(s, row, end), now);
      var rows := Rows(PayoutTxn(payee, id, verdict.value), now);
      assert after.ledger == s.ledger + rows;
      TotalOfAppend(s.ledger, rows, Float);
      TotalOfAppend(s.ledger, rows, Everything);
      PayoutReconciles(payee, id, verdict.value, now, Float);
      PayoutReconciles(payee, id, verdict.value, now, Everything);
      assert after.payouts[..id] == s.payouts;
    }
  }

  // ── A pass is a stretch of a run that keeps every payee's clock ──────

  lemma RowIsLegal(states: seq<Db>, moments: seq<Moment>, row: PassRow, end: Time)
    requires Run(states, moments)
    ensures Legal(states[|moments|], OpOf(states[|moments|], row, end))
    ensures var award := AwardOf(states[|moments|], OpOf(states[|moments|], row, end));
            award.Some? ==> award.value.payee == PayeeOf(row) && award.value.end == end
  {
    hide Next;
    hide Legal;
    hide Balance;
    hide OpenDispute;
    FreshReadIsLegal(states[|moments|], row, end);
  }

  /** A pass keeps the platform's joint invariant. */
  lemma {:induction false} PassKeepsInv(s: Db, rows: seq<PassRow>, stamps: seq<Time>, end: Time)
    requires Inv(s) && |stamps| == |rows|
    ensures Inv(Pass(s, rows, stamps, end).1)
  {
    hide Inv;
    hide Next;
    hide Legal;
    hide OpOf;
    hide VerdictOf;
    if rows != [] {
      var n := |rows| - 1;
      PassKeepsInv(s, rows[..n], stamps[..n], end);
      var mid := Pass(s, rows[..n], stamps[..n], end).1;
      FreshReadIsLegal(mid, rows[n], end);
      NextKeepsInv(mid, OpOf(mid, rows[n], end), stamps[n]);
    }
  }

  lemma FreshReadIsLegal(s: Db, row: PassRow, end: Time)
    ensures Legal(s, OpOf(s, row, end))
  {
    hide Balance;
    hide OpenDispute;
    if PayeeOf(row) in s.payees && Cutoff(s.payouts, PayeeOf(row)).Some? {
      var q := CutoffIsAnEnd(s.payouts, PayeeOf(row));
    }
  }

  /** Each award of `ext` from moment `lo` on pays some row's payee. */
  ghost predicate PaysRows(ext: seq<Db>, more: seq<Moment>, lo: nat, rows: seq<PassRow>) {
    forall j: nat :: lo <= j < |more| && j < |ext| && AwardAt(ext, more, j).Some? ==>
      exists k :: 0 <= k < |rows| && PayeeOf(rows[k]) == AwardAt(ext, more, j).value.payee
  }

  /** A pass that starts after the clock and lists no payee twice extends a run
      paid in passes to another one, and ends where Pass says. */
  lemma {:induction false} PassExtendsTheRun(states: seq<Db>, moments: seq<Moment>, rows: seq<PassRow>, stamps: seq<Time>, end: Time)
    returns (ext: seq<Db>, more: seq<Moment>)
    requires Run(states, moments) && PaidInPasses(states, moments) && |stamps| == |rows|
    requires states[|moments|].clock < end
    requires forall k :: 0 <= k < |stamps| ==> end <= stamps[k]
    requires forall j, k :: 0 <= j < k < |stamps| ==> stamps[j] <= stamps[k]
    requires forall j, k :: 0 <= j < k < |rows| ==> PayeeOf(rows[j]) != PayeeOf(rows[k])
    ensures Run(ext, more) && PaidInPasses(ext, more) && PayeeClock(ext, more)
    ensures |more| == |moments| + |rows| && moments <= more && states <= ext
    ensures ext[|more|] == Pass(states[|moments|], rows, stamps, end).1
    ensures ext[|more|].clock == if rows == [] then states[|moments|].clock else stamps[|stamps| - 1]
    ensures PaysRows(ext, more, |moments|, rows)
    decreases |rows|
  {
    hide Next;
    hide Legal;
    hide AwardOf;
    hide OpOf;
    hide VerdictOf;
    hide PaidInPasses;
    hide PayeeClock;
    if rows == [] {
      ext, more := states, moments;
    } else {
      var n := |rows| - 1;
      var s, m := PassExtendsTheRun(states, moments, rows[..n], stamps[..n], end);
      var moment := Moment(OpOf(s[|m|], rows[n], end), stamps[n]);
      RowIsLegal(s, m, rows[n], end);
      ext, more := s + [Next(s[|m|], moment.op, moment.now)], m + [moment];
      StartIsLate(states, moments, s, m, end);
      PaidInPassesExtends(s, m, moment, |moments|);
      StampIsClock(s[|m|], moment);
      RowsExtend(s, m, ext, more, |moments|, rows, moment);
    }
    PassesKeepThePayeeClock(ext, more);
  }

  lemma StampIsClock(s: Db, m: Moment)
    ensures Next(s, m.op, m.now).clock == m.now
  {
  }

  lemma StartIsLate(states: seq<Db>, moments: seq<Moment>, s: seq<Db>, m: seq<Moment>, end: Time)
    requires Run(states, moments) && Run(s, m) && states[|moments|].clock < end && moments <= m && states <= s
    ensures |moments| > 0 ==> m[|moments| - 1].now < end
    ensures forall p :: p in s[|m|].payees ==> s[|m|].payees[p] < end
  {
    hide Next;
    hide Legal;
    ClockIsBehind(states, moments, |moments|);
    PayeesStay(states, moments, |moments|);
    PayeesStay(s, m, |m|);
  }

  lemma RowsExtend(s: seq<Db>, m: seq<Moment>, ext: seq<Db>, more: seq<Moment>, lo: nat, rows: seq<PassRow>, moment: Moment)
    requires rows != [] && |s| == |m| + 1 && |ext| == |s| + 1 && s <= ext && more == m + [moment] && lo <= |m|
    requires PaysRows(s, m, lo, rows[..|rows| - 1])
    requires AwardOf(s[|m|], moment.op).Some? ==> AwardOf(s[|m|], moment.op).value.payee == PayeeOf(rows[|rows| - 1])
    ensures PaysRows(ext, more, lo, rows)
  {
    hide AwardOf;
    forall j: nat | lo <= j < |more| && AwardAt(ext, more, j).Some?
      ensures exists k :: 0 <= k < |rows| && PayeeOf(rows[k]) == AwardAt(ext, more, j).value.payee
    {
      if j < |m| {
        assert AwardAt(ext, more, j) == AwardAt(s, m, j);
        var k :| 0 <= k < |rows| - 1 && PayeeOf(rows[..|rows| - 1][k]) == AwardAt(s, m, j).value.payee;
        assert rows[k] == rows[..|rows| - 1][k];
      } else {
        assert PayeeOf(rows[|rows| - 1]) == AwardAt(ext, more, j).value.payee;
      }
    }
  }

  /** One more transition of a run paid in passes: no award, or one of a pass
      that started after moment `lo` and has not paid this payee. */
  lemma PaidInPassesExtends(states: seq<Db>, moments: seq<Moment>, m: Moment, lo: nat)
    requires Run(states, moments) && PaidInPasses(states, moments)
    requires Legal(states[|moments|], m.op) && states[|moments|].clock <= m.now && lo <= |moments|
    requires AwardOf(states[|moments|], m.op).Some? ==>
               var a := AwardOf(states[|moments|], m.op).value;
               && (a.payee in states[|moments|].payees ==> states[|moments|].payees[a.payee] < a.end)
               && a.end <= m.now && (lo > 0 ==> moments[lo - 1].now < a.end)
               && forall j: nat :: lo <= j < |moments| && AwardAt(states, moments, j).Some? ==>
                    AwardAt(states, moments, j).value.payee != a.payee
    ensures Run(states + [Next(states[|moments|], m.op, m.now)], moments + [m])
    ensures PaidInPasses(states + [Next(states[|moments|], m.op, m.now)], moments + [m])
  {
    hide Next;
    hide Legal;
    hide AwardOf;
    var n, ext, more := |moments|, states + [Next(states[|moments|], m.op, m.now)], moments + [m];
    RunExtends(states, moments, m);
    assert forall i: nat :: i < n ==> more[i] == moments[i] && AwardAt(ext, more, i) == AwardAt(states, moments, i);
    forall i: nat | i < |more| && AwardAt(ext, more, i).Some?
      ensures (AwardAt(ext, more, i).value.payee in ext[i].payees ==>
                 ext[i].payees[AwardAt(ext, more, i).value.payee] < AwardAt(ext, more, i).value.end)
              && AwardAt(ext, more, i).value.end <= more[i].now
              && exists k: nat :: PassSince(ext, more, k, i)
    {
      if i < n {
        var k: nat :| PassSince(states, moments, k, i);
        assert PassSince(ext, more, k, i);
      } else {
        assert ext[n] == states[n];
        assert PassSince(ext, more, lo, n);
      }
    }
  }

  class PayoutCronService {
    const db: S.Store
    const finance: FinanceService

    constructor (db: S.Store, finance: FinanceService)
      requires finance.db == db && finance.Wired()
      ensures this.db == db && this.finance == finance
    {
      this.db, this.finance := db, finance;
    }

    predicate Wired() {
      finance.db == db && finance.Wired()
    }

    /** The checks and the insert, on what the queries returned. */
    method ScheduleVendorPayout(vendor: nat, seen: Reading, end: Time, now: Time) returns (outcome: Result<int, PayoutError>)
      requires Wired()
      modifies db`payouts, db`ledger, db`payoutTags
      ensures outcome == VendorPayoutVerdict(old(db.Db()), vendor, seen)
      ensures db.Db() == Platform.ScheduleVendorPayout(old(db.Db()), vendor, seen, end, now)
    {
      hide Scheduled;
      if Vendor(vendor) !in db.payees {
        return Err(PayeeNotFound);
      }
      if seen.balanceXAF <= 0 {
        return Err(NegativeOrZeroBalance(seen.balanceXAF));
      }
      if seen.balanceXAF < MIN_VENDOR_PAYOUT_XAF {
        return Err(BelowMinimum(seen.balanceXAF));
      }
      if seen.disputed {
        return Err(OpenDisputes);
      }
      var existing := PeriodHolder(db.payouts, Vendor(vendor), seen.start);
      if existing.Some? {
        return Err(AlreadyScheduled(existing.value));
      }
      var _ := finance.Schedule(Vendor(vendor), seen.balanceXAF, seen.start, end, now);
      return Ok(seen.balanceXAF);
    }

    method ScheduleRiderPayout(rider: nat, kycComplete: bool, seen: Reading, end: Time, now: Time)
      returns (outcome: Result<int, PayoutError>)
      requires Wired()
      modifies db`payouts, db`ledger, db`payoutTags
      ensures outcome == RiderPayoutVerdict(old(db.Db()), rider, kycComplete, seen)
      ensures db.Db() == Platform.ScheduleRiderPayout(old(db.Db()), rider, kycComplete, seen, end, now)
    {
      hide Scheduled;
      if !kycComplete {
        return Err(KycIncomplete);
      }
      if Rider(rider) !in db.payees {
        return Err(PayeeNotFound);
      }
      if seen.balanceXAF <= 0 {
        return Err(NegativeOrZeroBalance(seen.balanceXAF));
      }
      if seen.balanceXAF < MIN_RIDER_PAYOUT_XAF {
        return Err(BelowMinimum(seen.balanceXAF));
      }
      var existing := PeriodHolder(db.payouts, Rider(rider), seen.start);
      if existing.Some? {
        return Err(AlreadyScheduled(existing.value));
      }
      var _ := finance.Schedule(Rider(rider), seen.balanceXAF, seen.start, end, now);
      return Ok(seen.balanceXAF);
    }

    /** One row of a pass: queries and insert back to back, then the clock. */
    method TryRow(row: PassRow, end: Time, now: Time) returns (outcome: Result<int, PayoutError>)
      requires Wired()
      modifies db`payouts, db`ledger, db`payoutTags, db`clock
      ensures outcome == VerdictOf(old(db.Db()), row)
      ensures db.Db() == Next(old(db.Db()), OpOf(old(db.Db()), row, end), now)
    {
      hide VendorPayoutVerdict;
      hide RiderPayoutVerdict;
      hide Platform.ScheduleVendorPayout;
      hide Platform.ScheduleRiderPayout;
      hide ReadNow;
      UnknownPayeeReads(db.Db(), PayeeOf(row));
      var seen := finance.ReadPayee(PayeeOf(row));
      var reading := if seen.Ok? then seen.value else Reading(0, false, 0);
      match row {
        case ForVendor(vendor) => outcome := ScheduleVendorPayout(vendor, reading, end, now);
        case ForRider(rider, kycComplete) => outcome := ScheduleRiderPayout(rider, kycComplete, reading, end, now);
      }
      db.clock := now;
    }

    /** sweepWeeklyVendorPayouts and sweepDailyRiderPayouts. */
    method SweepPayouts(rows: seq<PassRow>, stamps: seq<Time>, startedAt: Time) returns (t: Tally)
      requires Wired() && |stamps| == |rows|
      modifies db`payouts, db`ledger, db`payoutTags, db`clock
      ensures (t, db.Db()) == Pass(old(db.Db()), rows, stamps, startedAt)
      ensures |rows| == t.scheduled + t.belowMinimum + t.notPositive + t.openDisputes + t.kycIncomplete + t.failed + t.rerun
      ensures |db.payouts| == |old(db.payouts)| + t.scheduled
      ensures t.totalXAF == Total(old(db.ledger), Float) - Total(db.ledger, Float)
      ensures old(Inv(db.Db())) ==> Inv(db.Db())
    {
      hide Inv;
      hide Next;
      hide VerdictOf;
      hide OpOf;
      t := Nothing;
      ghost var s := db.Db();
      for k := 0 to |rows|
        invariant (t, db.Db()) == Pass(s, rows[..k], stamps[..k], startedAt)
      {
        assert rows[..k + 1][..k] == rows[..k] && stamps[..k + 1][..k] == stamps[..k];
        var outcome := TryRow(rows[k], startedAt, stamps[k]);
        match outcome {
          case Ok(netXAF) => t := t.(scheduled := t.scheduled + 1, totalXAF := t.totalXAF + netXAF);
          case Err(BelowMinimum(_)) => t := t.(belowMinimum := t.belowMinimum + 1);
          case Err(NegativeOrZeroBalance(_)) => t := t.(notPositive := t.notPositive + 1);
          case Err(OpenDisputes) => t := t.(openDisputes := t.openDisputes + 1);
          case Err(KycIncomplete) => t := t.(kycIncomplete := t.kycIncomplete + 1);
          case Err(AlreadyScheduled(_)) => t := t.(rerun := t.rerun + 1);
          case Err(_) => t := t.(failed := t.failed + 1);
        }
      }
      assert rows[..|rows|] == rows && stamps[..|stamps|] == stamps;
      PassAddsUp(s, rows, stamps, startedAt);
      if Inv(s) {
        PassKeepsInv(s, rows, stamps, startedAt);
      }
    }
  }

  lemma UnknownPayeeReads(s: Db, payee: Payee)
    ensures payee !in s.payees ==> ReadNow(s, payee) == Reading(0, false, 0)
  {
  }

  /** Each row of a pass adds one to exactly one counter, by what its verdict is,
      and its net to the total if it is scheduled. */
  lemma EachRowIsCounted(s: Db, rows: seq<PassRow>, stamps: seq<Time>, end: Time)
    requires |stamps| == |rows| && rows != []
    ensures var n := |rows| - 1;
            var (t, mid) := Pass(s, rows[..n], stamps[..n], end);
            var verdict := VerdictOf(mid, rows[n]);
            Pass(s, rows, stamps, end).0
            == if verdict.Ok? then t.(scheduled := t.scheduled + 1, totalXAF := t.totalXAF + verdict.value)
               else if verdict.error.BelowMinimum? then t.(belowMinimum := t.belowMinimum + 1)
               else if verdict.error.NegativeOrZeroBalance? then t.(notPositive := t.notPositive + 1)
               else if verdict.error == OpenDisputes then t.(openDisputes := t.openDisputes + 1)
               else if verdict.error == KycIncomplete then t.(kycIncomplete := t.kycIncomplete + 1)
               else if verdict.error.AlreadyScheduled? then t.(rerun := t.rerun + 1)
               else t.(failed := t.failed + 1)
  {
    hide Next;
    hide OpOf;
    hide VerdictOf;
  }
}
