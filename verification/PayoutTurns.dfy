/** Each delivery in at most one payout period of a payee: exactly when. */
module PayoutTurns {
  import opened Common
  import opened Ledger
  import opened Orders
  import opened OrderInvariants
  import opened Payouts
  import opened Platform
  import opened PlatformInvariant
  import opened PlatformRuns
  import opened PayoutPeriods

  /** The latest end among the payee's periods, or the account's creation. */
  function Latest(payouts: seq<Payout>, payee: Payee, since: Time): Time {
    if payouts == [] then since
    else
      var last, earlier := payouts[|payouts| - 1], Latest(payouts[..|payouts| - 1], payee, since);
      if last.payee == payee && earlier < last.periodEnd then last.periodEnd else earlier
  }

  /** No instant lies in two of the payee's periods. */
  ghost predicate Once(payouts: seq<Payout>, payee: Payee) {
    forall p: nat, q: nat, at: Time :: p < q < |payouts| && Covers(payouts[p], payee, at) ==> !Covers(payouts[q], payee, at)
  }

  lemma {:induction false} LatestBounds(payouts: seq<Payout>, payee: Payee, since: Time)
    ensures since <= Latest(payouts, payee, since)
    ensures Frontier(payouts, payee, since) <= Latest(payouts, payee, since)
    ensures forall p :: 0 <= p < |payouts| && payouts[p].payee == payee ==> payouts[p].periodEnd <= Latest(payouts, payee, since)
  {
    if payouts != [] {
      var init := payouts[..|payouts| - 1];
      LatestBounds(init, payee, since);
      assert forall p :: 0 <= p < |init| ==> init[p] == payouts[p];
    }
  }

  lemma {:induction false} FrontierIsLate(payouts: seq<Payout>, payee: Payee, since: Time)
    requires forall p :: 0 <= p < |payouts| && payouts[p].payee == payee ==> since <= payouts[p].periodEnd
    ensures since <= Frontier(payouts, payee, since)
  {
    if payouts != [] {
      assert forall p :: 0 <= p < |payouts| - 1 ==> payouts[..|payouts| - 1][p] == payouts[p];
      FrontierIsLate(payouts[..|payouts| - 1], payee, since);
    }
  }

  /** A chain leaves no instant out between the creation and its latest end. */
  lemma {:induction false} ChainCovers(payouts: seq<Payout>, payee: Payee, since: Time, at: Time) returns (p: nat)
    requires Chained(payouts, payee, since) && since < at <= Latest(payouts, payee, since)
    requires forall p :: 0 <= p < |payouts| && payouts[p].payee == payee ==> since <= payouts[p].periodEnd
    ensures p < |payouts| && Covers(payouts[p], payee, at)
  {
    var init := payouts[..|payouts| - 1];
    assert forall p :: 0 <= p < |init| ==> init[p] == payouts[p];
    if at <= Latest(init, payee, since) {
      p := ChainCovers(init, payee, since, at);
    } else {
      p := |init|;
      LatestBounds(init, payee, since);
    }
  }

  /** One more payout keeps each instant in one period exactly when it covers
      nothing, or starts where the latest of the payee's periods ended. */
  lemma OnceMoreIff(payouts: seq<Payout>, row: Payout, since: Time)
    requires Once(payouts, row.payee) && Chained(payouts, row.payee, since)
    requires row.periodStart == Frontier(payouts, row.payee, since)
    requires forall p :: 0 <= p < |payouts| && payouts[p].payee == row.payee ==> since <= payouts[p].periodEnd
    ensures Once(payouts + [row], row.payee)
            <==> row.periodEnd <= row.periodStart || row.periodStart == Latest(payouts, row.payee, since)
  {
    var payee, latest, after := row.payee, Latest(payouts, row.payee, since), payouts + [row];
    LatestBounds(payouts, payee, since);
    if row.periodEnd <= row.periodStart || row.periodStart == latest {
      forall p: nat, q: nat, at: Time | p < q < |after| && Covers(after[p], payee, at) ensures !Covers(after[q], payee, at) {
        assert after[p] == payouts[p];
      }
    } else {
      FrontierIsLate(payouts, payee, since);
      var at := if row.periodEnd < latest then row.periodEnd else latest;
      var p := ChainCovers(payouts, payee, since, at);
      assert Covers(after[p], payee, at) && Covers(after[|payouts|], payee, at);
    }
  }

  lemma OnceReadsPeriodsOnly(a: seq<Payout>, b: seq<Payout>, payee: Payee)
    requires SamePeriods(a, b)
    ensures Once(a, payee) <==> Once(b, payee)
  {
    assert forall p, at :: 0 <= p < |a| ==> (Covers(a[p], payee, at) <==> Covers(b[p], payee, at));
  }

  /** This payout covers nothing, or starts at the latest end of its payee's. */
  ghost predicate InTurn(states: seq<Db>, moments: seq<Moment>, i: nat)
    requires i < |moments| && i < |states| && AwardAt(states, moments, i).Some?
  {
    var a := AwardAt(states, moments, i).value;
    a.end <= a.start || (a.payee in states[i].payees && a.start == Latest(states[i].payouts, a.payee, states[i].payees[a.payee]))
  }

  ghost predicate AllInTurn(states: seq<Db>, moments: seq<Moment>, payee: Payee) {
    forall i: nat :: i < |moments| && i < |states| && PaysTo(states, moments, i, payee) ==> InTurn(states, moments, i)
  }

  /** No payout ends before its payee's account was created. */
  ghost predicate EndsAfterCreation(states: seq<Db>, moments: seq<Moment>, payee: Payee) {
    forall i: nat :: i < |moments| && i < |states| && PaysTo(states, moments, i, payee) && payee in states[0].payees ==>
      states[0].payees[payee] <= AwardAt(states, moments, i).value.end
  }

  lemma RowsEndAfterCreation(states: seq<Db>, moments: seq<Moment>, i: nat, payee: Payee)
    requires Run(states, moments) && EndsAfterCreation(states, moments, payee) && i < |states| && payee in states[0].payees
    ensures forall p :: 0 <= p < |states[i].payouts| && states[i].payouts[p].payee == payee ==>
                        states[0].payees[payee] <= states[i].payouts[p].periodEnd
  {
    hide Next;
    hide Legal;
    hide AwardOf;
    forall p | 0 <= p < |states[i].payouts| && states[i].payouts[p].payee == payee
      ensures states[0].payees[payee] <= states[i].payouts[p].periodEnd
    {
      var j := AwardedBy(states, moments, i, p);
    }
  }

  lemma NextKeepsOnceIff(states: seq<Db>, moments: seq<Moment>, i: nat, payee: Payee)
    requires Run(states, moments) && EndsAfterCreation(states, moments, payee) && i < |moments| && payee in states[0].payees
    requires Once(states[i].payouts, payee)
    ensures Once(states[i + 1].payouts, payee)
            <==> (PaysTo(states, moments, i, payee) ==> InTurn(states, moments, i))
  {
    hide Next;
    hide Legal;
    hide AwardOf;
    hide Once;
    var s, m := states[i], moments[i];
    PeriodsAlwaysChain(states, moments, i, payee);
    if AwardAt(states, moments, i).Some? {
      var a := AwardAt(states, moments, i).value;
      AwardIsGuarded(s, m.op, m.now);
      if a.payee == payee {
        RowsEndAfterCreation(states, moments, i, payee);
        AwardStartsAtTheFrontier(s, m.op);
        OnceMoreIff(s.payouts, AwardRow(a), s.payees[payee]);
      } else {
        OthersAddNothing(s.payouts, AwardRow(a), payee);
      }
    } else {
      OtherwisePeriodsStay(s, m.op, m.now);
      OnceReadsPeriodsOnly(s.payouts, states[i + 1].payouts, payee);
    }
  }

  lemma OthersAddNothing(payouts: seq<Payout>, row: Payout, payee: Payee)
    requires row.payee != payee && Once(payouts, payee)
    ensures Once(payouts + [row], payee)
  {
    assert forall p :: 0 <= p < |payouts| ==> (payouts + [row])[p] == payouts[p];
  }

  lemma {:induction false} OnceWhileInTurn(states: seq<Db>, moments: seq<Moment>, i: nat, payee: Payee)
    requires Run(states, moments) && AllInTurn(states, moments, payee) && i < |states| && payee in states[0].payees
    requires EndsAfterCreation(states, moments, payee)
    ensures Once(states[i].payouts, payee)
  {
    hide Next;
    hide Legal;
    hide AwardOf;
    hide InTurn;
    hide EndsAfterCreation;
    if i > 0 {
      OnceWhileInTurn(states, moments, i - 1, payee);
      NextKeepsOnceIff(states, moments, i - 1, payee);
    }
  }

  /** In every state each delivery instant falls in at most one of a payee's
      periods, exactly when every payout of the payee covered nothing or started
      at the latest end of the payee's periods as it went in. */
  lemma DeliveryInOnePeriodIff(states: seq<Db>, moments: seq<Moment>, payee: Payee)
    requires Run(states, moments) && payee in states[0].payees && EndsAfterCreation(states, moments, payee)
    ensures (forall i: nat :: i < |states| ==> Once(states[i].payouts, payee)) <==> AllInTurn(states, moments, payee)
  {
    hide Next;
    hide Legal;
    hide AwardOf;
    hide InTurn;
    hide Once;
    hide EndsAfterCreation;
    if AllInTurn(states, moments, payee) {
      forall i: nat | i < |states| ensures Once(states[i].payouts, payee) {
        OnceWhileInTurn(states, moments, i, payee);
      }
    } else {
      var i: nat :| i < |moments| && i < |states| && PaysTo(states, moments, i, payee) && !InTurn(states, moments, i);
      if Once(states[i].payouts, payee) {
        NextKeepsOnceIff(states, moments, i, payee);
        assert !Once(states[i + 1].payouts, payee);
      }
    }
  }

  /** An order delivered at some instant falls in at most one payout period. */
  lemma DeliveryInOnePeriod(states: seq<Db>, moments: seq<Moment>, i: nat, payee: Payee, at: Time, p: nat, q: nat)
    requires Run(states, moments) && AllInTurn(states, moments, payee) && EndsAfterCreation(states, moments, payee)
    requires i < |states| && p < |states[i].payouts| && Covers(states[i].payouts[p], payee, at)
    requires q < |states[i].payouts| && Covers(states[i].payouts[q], payee, at)
    ensures p == q
  {
    hide Next;
    hide Legal;
    hide AllInTurn;
    hide EndsAfterCreation;
    PayeesAreRegistered(states, moments, i, p);
    OnceWhileInTurn(states, moments, i, payee);
  }

  /** A clock that rises payee by payee gives every payout its turn. */
  lemma PayeeClockTakesTurns(states: seq<Db>, moments: seq<Moment>, payee: Payee)
    requires Run(states, moments) && PayeeClock(states, moments)
    ensures AllInTurn(states, moments, payee) && EndsAfterCreation(states, moments, payee)
  {
    hide Next;
    hide Legal;
    hide AwardOf;
    forall i: nat | i < |moments| && PaysTo(states, moments, i, payee)
      ensures InTurn(states, moments, i)
      ensures payee in states[0].payees ==> states[0].payees[payee] <= AwardAt(states, moments, i).value.end
    {
      var s := states[i];
      AwardIsGuarded(s, moments[i].op, moments[i].now);
      PayeesStay(states, moments, i);
      PeriodsAlwaysTile(states, moments, i, payee);
      TiledIsChained(s.payouts, payee, s.payees[payee]);
      AwardStartsAtTheFrontier(s, moments[i].op);
      TiledEndsLatest(s.payouts, payee, s.payees[payee]);
    }
  }

  lemma {:induction false} TiledEndsLatest(payouts: seq<Payout>, payee: Payee, since: Time)
    requires Tiled(payouts, payee, since)
    ensures Latest(payouts, payee, since) == Frontier(payouts, payee, since)
  {
    if payouts != [] {
      TiledEndsLatest(payouts[..|payouts| - 1], payee, since);
    }
  }
}
