/** The breaker around Campay's outbound calls. */
module CircuitBreaker {
  import opened Common

  const THRESHOLD_FAILURES := 5
  const OPEN_DURATION_MS := 60_000

  datatype CircuitState = Closed | Open | HalfOpen

  datatype Breaker = Breaker(state: CircuitState, consecutiveFailures: nat, openedAt: Time)

  const Fresh := Breaker(Closed, 0, 0)

  /** A wrapped call: when it is attempted, whether it succeeds, when it ends. */
  datatype Call = Call(start: Time, succeeds: bool, end: Time)

  /** The breaker lets the call run. */
  predicate Admits(b: Breaker, start: Time) {
    !b.state.Open? || b.openedAt + OPEN_DURATION_MS <= start
  }

  /** The breaker after the call. */
  function Wrapped(b: Breaker, c: Call): Breaker {
    if !Admits(b, c.start) then b
    else if c.succeeds then Fresh
    else if !b.state.Closed? then Breaker(Open, b.consecutiveFailures, c.end)
    else if b.consecutiveFailures + 1 >= THRESHOLD_FAILURES then Breaker(Open, b.consecutiveFailures + 1, c.end)
    else Breaker(Closed, b.consecutiveFailures + 1, b.openedAt)
  }

  class CampayCircuitBreakerService {
    var state: CircuitState
    var consecutiveFailures: nat
    var openedAt: Time

    ghost function Model(): Breaker reads this {
      Breaker(state, consecutiveFailures, openedAt)
    }

    constructor ()
      ensures Model() == Fresh
    {
      state, consecutiveFailures, openedAt := Closed, 0, 0;
    }

    /** `c` stands for the wrapped function and the clock around it. */
    method Wrap(c: Call) returns (ran: bool)
      modifies this
      ensures ran == Admits(old(Model()), c.start)
      ensures Model() == Wrapped(old(Model()), c)
    {
      if state == Open {
        if c.start < openedAt + OPEN_DURATION_MS {
          return false;
        }
        state := HalfOpen;
      }
      if c.succeeds {
        OnSuccess();
      } else {
        OnFailure(c.end);
      }
      ran := true;
    }

    method OnSuccess()
      modifies this
      ensures Model() == Fresh
    {
      state := Closed;
      consecutiveFailures := 0;
      openedAt := 0;
    }

    method OnFailure(now: Time)
      modifies this
      ensures old(state) == HalfOpen ==> Model() == Breaker(Open, old(consecutiveFailures), now)
      ensures old(state) != HalfOpen && old(consecutiveFailures) + 1 >= THRESHOLD_FAILURES
              ==> Model() == Breaker(Open, old(consecutiveFailures) + 1, now)
      ensures old(state) != HalfOpen && old(consecutiveFailures) + 1 < THRESHOLD_FAILURES
              ==> Model() == Breaker(old(state), old(consecutiveFailures) + 1, old(openedAt))
    {
      if state == HalfOpen {
        state := Open;
        openedAt := now;
        return;
      }
      consecutiveFailures := consecutiveFailures + 1;
      if consecutiveFailures >= THRESHOLD_FAILURES {
        state := Open;
        openedAt := now;
      }
    }
  }

  // ── Any sequence of calls, one after another ─────────────────────────

  function After(b: Breaker, calls: seq<Call>): Breaker {
    if calls == [] then b else Wrapped(After(b, calls[..|calls| - 1]), calls[|calls| - 1])
  }

  /** How many of the calls ran. */
  function Executed(b: Breaker, calls: seq<Call>): nat {
    if calls == [] then 0
    else
      var earlier := calls[..|calls| - 1];
      Executed(b, earlier) + (if Admits(After(b, earlier), calls[|calls| - 1].start) then 1 else 0)
  }

  ghost predicate OneAfterAnother(calls: seq<Call>) {
    && (forall i :: 0 <= i < |calls| ==> calls[i].start <= calls[i].end)
    && forall i, j :: 0 <= i < j < |calls| ==> calls[i].end <= calls[j].start
  }

  /** Between calls the breaker is never half-open, is closed exactly below the
      threshold, and while it is open no call runs within 60 s of openedAt. */
  lemma {:induction false} BetweenCalls(calls: seq<Call>, start: Time)
    ensures var b := After(Fresh, calls);
            && !b.state.HalfOpen?
            && (b.state.Closed? <==> b.consecutiveFailures < THRESHOLD_FAILURES)
            && b.consecutiveFailures <= THRESHOLD_FAILURES
            && (b.state.Open? && Admits(b, start) ==> b.openedAt + OPEN_DURATION_MS <= start)
  {
    if calls != [] {
      BetweenCalls(calls[..|calls| - 1], calls[|calls| - 1].start);
    }
  }

  /** One success closes the breaker and forgets every failure. */
  lemma SuccessResets(calls: seq<Call>, c: Call)
    requires c.succeeds && Admits(After(Fresh, calls), c.start)
    ensures After(Fresh, calls + [c]) == Fresh
  {
  }

  /** When every call fails: below five executed the breaker is closed and has
      counted them; from the fifth on it is open, and each further executed call
      pushed openedAt at least another 60 s past the first opening. */
  ghost predicate Outage(b: Breaker, executed: nat, firstOpening: Time) {
    if executed < THRESHOLD_FAILURES then b.state.Closed? && b.consecutiveFailures == executed
    else b.state.Open? && firstOpening + (executed - THRESHOLD_FAILURES) * OPEN_DURATION_MS <= b.openedAt
  }

  /** The end of the fifth executed call. */
  function FirstOpening(calls: seq<Call>): Time {
    if calls == [] then 0
    else
      var earlier := calls[..|calls| - 1];
      if Executed(Fresh, earlier) >= THRESHOLD_FAILURES then FirstOpening(earlier) else calls[|calls| - 1].end
  }

  lemma {:induction false} OutageSlowsDown(calls: seq<Call>)
    requires OneAfterAnother(calls) && forall i :: 0 <= i < |calls| ==> !calls[i].succeeds
    ensures Outage(After(Fresh, calls), Executed(Fresh, calls), FirstOpening(calls))
  {
    if calls != [] {
      var earlier := calls[..|calls| - 1];
      assert forall i :: 0 <= i < |earlier| ==> earlier[i] == calls[i];
      OutageSlowsDown(earlier);
      assert calls[|calls| - 1].start <= calls[|calls| - 1].end;
    }
  }

  /** During an outage at most 5 + (T - first opening) / 60000 calls reach Campay
      by time T. */
  lemma OutageBound(calls: seq<Call>, until: Time)
    requires OneAfterAnother(calls) && forall i :: 0 <= i < |calls| ==> !calls[i].succeeds
    requires calls != [] && calls[|calls| - 1].start <= until && FirstOpening(calls) <= until
    ensures Executed(Fresh, calls) <= THRESHOLD_FAILURES + (until - FirstOpening(calls)) / OPEN_DURATION_MS
  {
    var earlier := calls[..|calls| - 1];
    var last := calls[|calls| - 1];
    assert forall i :: 0 <= i < |earlier| ==> earlier[i] == calls[i];
    OutageSlowsDown(earlier);
    var n := Executed(Fresh, earlier);
    if n >= THRESHOLD_FAILURES {
      if Admits(After(Fresh, earlier), last.start) {
        assert FirstOpening(calls) + (n + 1 - THRESHOLD_FAILURES) * OPEN_DURATION_MS <= until;
      } else {
        OutageOpenedInThePast(earlier);
        assert After(Fresh, earlier).openedAt <= last.start;
      }
    }
  }

  lemma {:induction false} OutageOpenedInThePast(calls: seq<Call>)
    requires OneAfterAnother(calls)
    ensures After(Fresh, calls).openedAt == 0 || (calls != [] && After(Fresh, calls).openedAt <= calls[|calls| - 1].end)
  {
    if calls != [] {
      var earlier := calls[..|calls| - 1];
      assert forall i :: 0 <= i < |earlier| ==> earlier[i] == calls[i];
      OutageOpenedInThePast(earlier);
      assert calls[|calls| - 1].start <= calls[|calls| - 1].end;
    }
  }

  // ── When it opens, and when it tries again ───────────────────────────

  /** Calls that ran and failed since the last one that ran and succeeded. */
  function FailedSince(calls: seq<Call>): nat {
    if calls == [] then 0
    else
      var earlier, last := calls[..|calls| - 1], calls[|calls| - 1];
      if !Admits(After(Fresh, earlier), last.start) then FailedSince(earlier)
      else if last.succeeds then 0
      else FailedSince(earlier) + 1
  }

  /** The last call that ran. */
  function LastRun(calls: seq<Call>): Option<Call> {
    if calls == [] then None
    else
      var earlier, last := calls[..|calls| - 1], calls[|calls| - 1];
      if Admits(After(Fresh, earlier), last.start) then Some(last) else LastRun(earlier)
  }

  /** After any calls the breaker lets the next one run exactly when fewer than
      five calls failed in a row, or the last that ran ended sixty seconds ago or
      more: it opens with the fifth failure, and never for good. */
  lemma {:induction false} RunsAgainIff(calls: seq<Call>, start: Time)
    ensures Admits(After(Fresh, calls), start)
            <==> FailedSince(calls) < 5 || (LastRun(calls).Some? && LastRun(calls).value.end + 60_000 <= start)
    ensures var b := After(Fresh, calls);
            && b.consecutiveFailures == (if FailedSince(calls) < 5 then FailedSince(calls) else 5)
            && (b.state == Open <==> FailedSince(calls) >= 5)
            && (b.state == Open ==> LastRun(calls).Some? && b.openedAt == LastRun(calls).value.end)
            && b.state != HalfOpen
  {
    if calls != [] {
      RunsAgainIff(calls[..|calls| - 1], calls[|calls| - 1].start);
    }
  }
}
