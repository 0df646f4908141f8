/**
 Refresh-token rotation. A raw token is an opaque value, verifying its hash is
 equality, and a refresh runs in three steps that other requests interleave
 with: take the per-token lock, match the row, rotate.
 */
module RefreshTokens {
  import opened Common

  datatype Token = Token(
    userId: nat,
    raw: nat,
    deviceId: Option<nat>,
    expiresAt: Time,
    revokedAt: Option<Time>,
    replacedBy: Option<nat>)

  /** A refresh in progress: locked and not yet matched, or matched to a row. */
  datatype Call =
    | Locked(user: nat, raw: nat, cookie: Option<nat>)
    | Matched(user: nat, raw: nat, row: nat, device: nat)

  /** The table, the Redis locks, the refreshes in progress, and one history
      variable: the row each row was minted from, None for a sign-in's. */
  datatype Sessions = Sessions(tokens: seq<Token>, locks: set<nat>, calls: map<nat, Call>, born: seq<Option<nat>>)

  const Empty := Sessions([], {}, map[], [])

  datatype AuthError = UserSuspended | RefreshInFlight | RefreshInvalid | ReuseDetected | DeviceMismatch

  datatype Step =
    | SignIn(user: nat, raw: nat, device: nat, expiresAt: Time)                     // verifyOtp, issueAdminSession
    | Begin(request: nat, user: nat, active: bool, raw: nat, cookie: Option<nat>, now: Time)
    | Match(request: nat, device: nat, now: Time)
    | Rotate(request: nat, minted: nat, expiresAt: Time, now: Time)
    | Logout(user: nat, raw: nat, now: Time)
    | RevokeAll(user: nat, now: Time)
    | LockExpires(raw: nat)                                                         // the 5 s TTL runs out

  // ── Pieces of a refresh ──────────────────────────────────────────────

  /** updateMany({ userId, revokedAt: null } -> revokedAt: now). */
  function Wiped(tokens: seq<Token>, user: nat, now: Time): (w: seq<Token>)
    ensures |w| == |tokens|
    ensures forall i :: 0 <= i < |w| ==>
      w[i] == if tokens[i].userId == user && tokens[i].revokedAt.None? then tokens[i].(revokedAt := Some(now)) else tokens[i]
  {
    seq(|tokens|, i requires 0 <= i < |tokens| =>
      if tokens[i].userId == user && tokens[i].revokedAt.None? then tokens[i].(revokedAt := Some(now)) else tokens[i])
  }

  predicate Candidate(t: Token, user: nat, raw: nat, now: Time) {
    t.userId == user && t.expiresAt > now && t.raw == raw
  }

  /** The newest unexpired row of the user that the token verifies against. */
  function Find(tokens: seq<Token>, user: nat, raw: nat, now: Time): (hit: Option<nat>)
    ensures hit.Some? ==> hit.value < |tokens| && Candidate(tokens[hit.value], user, raw, now)
    ensures hit.None? ==> forall i :: 0 <= i < |tokens| ==> !Candidate(tokens[i], user, raw, now)
  {
    if tokens == [] then None
    else if Candidate(tokens[|tokens| - 1], user, raw, now) then Some(|tokens| - 1)
    else Find(tokens[..|tokens| - 1], user, raw, now)
  }

  predicate Mismatch(t: Token, cookie: Option<nat>) {
    t.deviceId.Some? && cookie.Some? && t.deviceId != cookie
  }

  /** What matching decides, before anything is written. */
  function Verdict(tokens: seq<Token>, call: Call, now: Time): Result<nat, AuthError>
    requires call.Locked?
  {
    match Find(tokens, call.user, call.raw, now)
    case None => Err(RefreshInvalid)
    case Some(row) =>
      if tokens[row].revokedAt.Some? then Err(ReuseDetected)
      else if Mismatch(tokens[row], call.cookie) then Err(DeviceMismatch)
      else Ok(row)
  }

  /** signTokens: the new row, and the old one revoked and linked to it. The old
      row is written by id, whatever became of it since it was matched. */
  function Rotated(tokens: seq<Token>, row: nat, user: nat, minted: nat, device: nat, expiresAt: Time, now: Time): seq<Token>
    requires row < |tokens|
  {
    tokens[row := tokens[row].(revokedAt := Some(now), replacedBy := Some(|tokens|))]
    + [Token(user, minted, Some(device), expiresAt, None, None)]
  }

  /** finally: the lock is deleted on every way out. */
  function Finished(s: Sessions, request: nat): Sessions
    requires request in s.calls
  {
    s.(locks := s.locks - {s.calls[request].raw}, calls := s.calls - {request})
  }

  function Stepped(s: Sessions, step: Step): Sessions {
    match step
    case SignIn(user, raw, device, expiresAt) =>
      s.(tokens := s.tokens + [Token(user, raw, Some(device), expiresAt, None, None)], born := s.born + [None])
    case Begin(request, user, active, raw, cookie, now) =>
      if !active then s.(tokens := Wiped(s.tokens, user, now))
      else if raw in s.locks then s
      else s.(locks := s.locks + {raw}, calls := s.calls[request := Locked(user, raw, cookie)])
    case Match(request, device, now) =>
      if request !in s.calls || !s.calls[request].Locked? then s
      else
        var call := s.calls[request];
        (match Verdict(s.tokens, call, now)
         case Ok(row) => s.(calls := s.calls[request := Matched(call.user, call.raw, row, device)])
         case Err(RefreshInvalid) => Finished(s, request)
         case Err(_) => Finished(s, request).(tokens := Wiped(s.tokens, call.user, now)))
    case Rotate(request, minted, expiresAt, now) =>
      if request !in s.calls || !s.calls[request].Matched? || s.calls[request].row >= |s.tokens| then s
      else
        var call := s.calls[request];
        Finished(s, request).(tokens := Rotated(s.tokens, call.row, call.user, minted, call.device, expiresAt, now),
                              born := s.born + [Some(call.row)])
    case Logout(user, raw, now) =>
      (match FindActive(s.tokens, user, raw)
       case None => s
       case Some(row) => s.(tokens := s.tokens[row := s.tokens[row].(revokedAt := Some(now))]))
    case RevokeAll(user, now) => s.(tokens := Wiped(s.tokens, user, now))
    case LockExpires(raw) => s.(locks := s.locks - {raw})
  }

  /** logout's scan: the user's unrevoked row the token verifies against. */
  function FindActive(tokens: seq<Token>, user: nat, raw: nat): (hit: Option<nat>)
    ensures hit.Some? ==>
      hit.value < |tokens| && tokens[hit.value].userId == user && tokens[hit.value].raw == raw && tokens[hit.value].revokedAt.None?
  {
    if tokens == [] then None
    else
      var earlier := FindActive(tokens[..|tokens| - 1], user, raw);
      var last := tokens[|tokens| - 1];
      if earlier.Some? then earlier
      else if last.userId == user && last.raw == raw && last.revokedAt.None? then Some(|tokens| - 1)
      else None
  }

  predicate Issued(tokens: seq<Token>, raw: nat) {
    exists i :: 0 <= i < |tokens| && tokens[i].raw == raw
  }

  /** Tokens carry a random id, so a newly signed one is new; request ids too. */
  ghost predicate Allowed(s: Sessions, step: Step) {
    match step
    case SignIn(_, raw, _, _) => !Issued(s.tokens, raw)
    case Begin(request, _, _, _, _, _) => request !in s.calls
    case Rotate(_, minted, _, _) => !Issued(s.tokens, minted)
    case _ => true
  }

  ghost predicate AuthRun(states: seq<Sessions>, steps: seq<Step>) {
    && |states| == |steps| + 1 && states[0] == Empty
    && forall i :: 0 <= i < |steps| ==> Allowed(states[i], steps[i]) && states[i + 1] == Stepped(states[i], steps[i])
  }

  /** No lock runs out while a refresh still holds it. */
  ghost predicate LocksHeld(states: seq<Sessions>, steps: seq<Step>) {
    forall i :: 0 <= i < |steps| && i < |states| && steps[i].LockExpires? ==>
      forall r :: r in states[i].calls ==> states[i].calls[r].raw != steps[i].raw
  }

  // ── Lineages ─────────────────────────────────────────────────────────

  /** Links lead from a revoked row to a later row of the same user, and no two
      rows lead to the same one. */
  ghost predicate Linear(tokens: seq<Token>) {
    && (forall i :: 0 <= i < |tokens| && tokens[i].replacedBy.Some? ==>
          && i < tokens[i].replacedBy.value < |tokens| && tokens[i].revokedAt.Some?
          && tokens[tokens[i].replacedBy.value].userId == tokens[i].userId)
    && (forall i, j :: 0 <= i < j < |tokens| && tokens[i].replacedBy.Some? ==> tokens[i].replacedBy != tokens[j].replacedBy)
  }

  ghost predicate Distinct(tokens: seq<Token>) {
    forall i, j :: 0 <= i < j < |tokens| ==> tokens[i].raw != tokens[j].raw
  }

  /** A call's lock is its own, and the row it matched has no successor yet. */
  ghost predicate CallsOk(s: Sessions) {
    && (forall r :: r in s.calls ==> s.calls[r].raw in s.locks)
    && (forall q, r :: q in s.calls && r in s.calls && q != r ==> s.calls[q].raw != s.calls[r].raw)
    && (forall r :: r in s.calls && s.calls[r].Matched? ==>
          var c := s.calls[r];
          c.row < |s.tokens| && s.tokens[c.row].raw == c.raw && s.tokens[c.row].userId == c.user
          && s.tokens[c.row].replacedBy.None?)
  }

  /** The stored links are the whole history: a row was minted from another
      exactly when the other links to it. */
  ghost predicate LinksAreHistory(tokens: seq<Token>, born: seq<Option<nat>>) {
    && |born| == |tokens|
    && (forall j :: 0 <= j < |born| && born[j].Some? ==> born[j].value < j && tokens[born[j].value].replacedBy == Some(j))
    && (forall i :: 0 <= i < |tokens| && tokens[i].replacedBy.Some? && tokens[i].replacedBy.value < |born| ==>
          born[tokens[i].replacedBy.value] == Some(i))
  }

  ghost predicate AuthInv(s: Sessions) {
    Linear(s.tokens) && Distinct(s.tokens) && CallsOk(s) && LinksAreHistory(s.tokens, s.born)
  }

  /** Revoking rows, and nothing else. */
  ghost predicate OnlyRevoked(before: seq<Token>, after: seq<Token>) {
    |before| == |after| && forall i :: 0 <= i < |before| ==>
      && after[i] == before[i].(revokedAt := after[i].revokedAt)
      && (before[i].revokedAt.Some? ==> after[i].revokedAt.Some?)
  }

  lemma RevokingKeepsInv(s: Sessions, tokens: seq<Token>)
    requires AuthInv(s) && OnlyRevoked(s.tokens, tokens)
    ensures AuthInv(s.(tokens := tokens))
  {
  }

  lemma FinishingKeepsInv(s: Sessions, request: nat)
    requires AuthInv(s) && request in s.calls
    ensures AuthInv(Finished(s, request))
  {
    hide Linear;
    hide Distinct;
    hide LinksAreHistory;
  }

  lemma FirstRotationStaysLinear(tokens: seq<Token>, row: nat, user: nat, minted: nat, device: nat, expiresAt: Time, now: Time)
    requires Linear(tokens) && row < |tokens| && tokens[row].userId == user && tokens[row].replacedBy.None?
    ensures Linear(Rotated(tokens, row, user, minted, device, expiresAt, now))
  {
    var after := Rotated(tokens, row, user, minted, device, expiresAt, now);
    assert after[row].replacedBy == Some(|tokens|);
    assert forall i :: 0 <= i < |tokens| && i != row ==> after[i] == tokens[i];
  }

  lemma FirstRotationIsRecorded(tokens: seq<Token>, born: seq<Option<nat>>, row: nat, user: nat, minted: nat, device: nat,
                                expiresAt: Time, now: Time)
    requires Linear(tokens) && LinksAreHistory(tokens, born) && row < |tokens| && tokens[row].replacedBy.None?
    ensures LinksAreHistory(Rotated(tokens, row, user, minted, device, expiresAt, now), born + [Some(row)])
  {
    var after := Rotated(tokens, row, user, minted, device, expiresAt, now);
    assert after[row].replacedBy == Some(|tokens|);
    var history := born + [Some(row)];
    forall j | 0 <= j < |history| && history[j].Some?
      ensures history[j].value < j && after[history[j].value].replacedBy == Some(j)
    {
      if j < |born| {
        assert history[j] == born[j] && born[j].value != row;
      }
    }
    forall i | 0 <= i < |after| && after[i].replacedBy.Some? && after[i].replacedBy.value < |history|
      ensures history[after[i].replacedBy.value] == Some(i)
    {
      if i != row {
        assert i < |tokens| && after[i] == tokens[i];
      }
    }
  }

  /** A rotation keeps the lineages linear and truly recorded exactly when the
      row it replaces has no successor yet. */
  lemma RotationKeepsLineagesIff(tokens: seq<Token>, born: seq<Option<nat>>, row: nat, user: nat, minted: nat, device: nat,
                                 expiresAt: Time, now: Time)
    requires Linear(tokens) && LinksAreHistory(tokens, born) && row < |tokens| && tokens[row].userId == user
    ensures var after := Rotated(tokens, row, user, minted, device, expiresAt, now);
            Linear(after) && LinksAreHistory(after, born + [Some(row)]) <==> tokens[row].replacedBy.None?
  {
    var after := Rotated(tokens, row, user, minted, device, expiresAt, now);
    if tokens[row].replacedBy.Some? {
      var sibling := tokens[row].replacedBy.value;
      assert after[row].replacedBy == Some(|tokens|);
      assert (born + [Some(row)])[sibling] == Some(row) && after[row].replacedBy != Some(sibling);
    } else {
      FirstRotationStaysLinear(tokens, row, user, minted, device, expiresAt, now);
      FirstRotationIsRecorded(tokens, born, row, user, minted, device, expiresAt, now);
    }
  }

  lemma RotateKeepsCalls(s: Sessions, step: Step)
    requires AuthInv(s) && Allowed(s, step) && step.Rotate?
    ensures Distinct(Stepped(s, step).tokens) && CallsOk(Stepped(s, step))
  {
    hide Linear;
    hide LinksAreHistory;
  }

  lemma RotateKeepsInv(s: Sessions, step: Step)
    requires AuthInv(s) && Allowed(s, step) && step.Rotate?
    ensures AuthInv(Stepped(s, step))
  {
    hide Linear;
    hide LinksAreHistory;
    hide Distinct;
    RotateKeepsCalls(s, step);
    if step.request in s.calls && s.calls[step.request].Matched? {
      var call := s.calls[step.request];
      RotationKeepsLineagesIff(s.tokens, s.born, call.row, call.user, step.minted, call.device, step.expiresAt, step.now);
    }
  }

  lemma MatchKeepsInv(s: Sessions, step: Step)
    requires AuthInv(s) && step.Match?
    ensures AuthInv(Stepped(s, step))
  {
    hide Linear;
    hide LinksAreHistory;
    if step.request in s.calls && s.calls[step.request].Locked? {
      var call := s.calls[step.request];
      FinishingKeepsInv(s, step.request);
      RevokingKeepsInv(Finished(s, step.request), Wiped(s.tokens, call.user, step.now));
      var verdict := Verdict(s.tokens, call, step.now);
      if verdict.Ok? {
        LinkedRowsAreRevoked(s.tokens, verdict.value);
      }
    }
  }

  lemma LinkedRowsAreRevoked(tokens: seq<Token>, row: nat)
    requires Linear(tokens) && row < |tokens| && tokens[row].revokedAt.None?
    ensures tokens[row].replacedBy.None?
  {
  }

  lemma BeginKeepsInv(s: Sessions, step: Step)
    requires AuthInv(s) && Allowed(s, step) && step.Begin?
    ensures AuthInv(Stepped(s, step))
  {
    hide Linear;
    hide Distinct;
    hide LinksAreHistory;
    if !step.active {
      WipingRevokes(s.tokens, step.user, step.now);
      RevokingKeepsInv(s, Wiped(s.tokens, step.user, step.now));
    }
  }

  lemma WipingRevokes(tokens: seq<Token>, user: nat, now: Time)
    ensures OnlyRevoked(tokens, Wiped(tokens, user, now))
  {
  }

  lemma StepKeepsInv(s: Sessions, step: Step)
    requires AuthInv(s) && Allowed(s, step)
    requires step.LockExpires? ==> forall r :: r in s.calls ==> s.calls[r].raw != step.raw
    ensures AuthInv(Stepped(s, step))
  {
    hide AuthInv;
    match step {
      case Rotate(_, _, _, _) => RotateKeepsInv(s, step);
      case Match(_, _, _) => MatchKeepsInv(s, step);
      case Begin(_, _, _, _, _, _) => BeginKeepsInv(s, step);
      case Logout(_, _, _) => RevokingKeepsInv(s, Stepped(s, step).tokens);
      case RevokeAll(user, now) =>
        WipingRevokes(s.tokens, user, now);
        RevokingKeepsInv(s, Wiped(s.tokens, user, now));
      case SignIn(_, _, _, _) => SignInKeepsInv(s, step);
      case LockExpires(raw) => ExpiryKeepsInv(s, raw);
    }
  }

  lemma SignInKeepsInv(s: Sessions, step: Step)
    requires AuthInv(s) && Allowed(s, step) && step.SignIn?
    ensures AuthInv(Stepped(s, step))
  {
  }

  lemma ExpiryKeepsInv(s: Sessions, raw: nat)
    requires AuthInv(s) && forall r :: r in s.calls ==> s.calls[r].raw != raw
    ensures AuthInv(s.(locks := s.locks - {raw}))
  {
  }

  lemma {:induction false} RunKeepsAuthInv(states: seq<Sessions>, steps: seq<Step>, i: nat)
    requires AuthRun(states, steps) && LocksHeld(states, steps) && i < |states|
    ensures AuthInv(states[i])
  {
    hide Stepped;
    hide AuthInv;
    if i > 0 {
      RunKeepsAuthInv(states, steps, i - 1);
      StepKeepsInv(states[i - 1], steps[i - 1]);
    } else {
      EmptyInv();
    }
  }

  lemma EmptyInv()
    ensures AuthInv(Empty)
  {
  }

  // ── What holds of every run ──────────────────────────────────────────

  /** Of all the refreshes that ever presented one token, however they overlap,
      at most one minted a successor: the row the token links to. */
  lemma AtMostOneSuccessor(states: seq<Sessions>, steps: seq<Step>, i: nat, j: nat, k: nat)
    requires AuthRun(states, steps) && LocksHeld(states, steps) && i < |states| && j < |states[i].born|
    ensures var s := states[i];
            && |s.born| == |s.tokens|
            && (s.born[j].Some? ==> s.born[j].value < j && s.tokens[s.born[j].value].replacedBy == Some(j)
                                    && s.tokens[s.born[j].value].revokedAt.Some?
                                    && s.tokens[s.born[j].value].userId == s.tokens[j].userId)
            && (k < |s.born| && s.born[j].Some? && s.born[k] == s.born[j] ==> k == j)
  {
    RunKeepsAuthInv(states, steps, i);
  }

  /** A refresh that rotates mints the one successor its token will ever have. */
  lemma {:induction false} ExactlyOneSuccessor(states: seq<Sessions>, steps: seq<Step>, i: nat, m: nat, k: nat)
    requires AuthRun(states, steps) && LocksHeld(states, steps) && i < m < |states| && steps[i].Rotate?
    requires steps[i].request in states[i].calls && states[i].calls[steps[i].request].Matched?
    requires k < |states[m].born|
    ensures states[m].born[k] == Some(states[i].calls[steps[i].request].row) <==> k == |states[i].born|
  {
    RunKeepsAuthInv(states, steps, i);
    HistoryGrows(states, steps, i + 1, m);
    AtMostOneSuccessor(states, steps, m, |states[i].born|, k);
  }

  lemma {:induction false} HistoryGrows(states: seq<Sessions>, steps: seq<Step>, i: nat, m: nat)
    requires AuthRun(states, steps) && i <= m < |states|
    ensures states[i].born <= states[m].born
    decreases m - i
  {
    if i < m {
      HistoryGrows(states, steps, i, m - 1);
    }
  }

  lemma {:induction false} LinksArePermanent(states: seq<Sessions>, steps: seq<Step>, i: nat, j: nat, row: nat)
    requires AuthRun(states, steps) && LocksHeld(states, steps) && i <= j < |states| && row < |states[i].tokens|
    ensures row < |states[j].tokens| && states[j].tokens[row].userId == states[i].tokens[row].userId
    ensures states[i].tokens[row].replacedBy.Some? ==> states[j].tokens[row].replacedBy == states[i].tokens[row].replacedBy
    ensures states[i].tokens[row].revokedAt.Some? ==> states[j].tokens[row].revokedAt.Some?
    decreases j - i
  {
    hide AuthInv;
    hide Stepped;
    if i < j {
      LinksArePermanent(states, steps, i, j - 1, row);
      RunKeepsAuthInv(states, steps, j - 1);
      StepKeepsRows(states[j - 1], steps[j - 1], row);
    }
  }

  lemma StepKeepsRows(s: Sessions, step: Step, row: nat)
    requires AuthInv(s) && row < |s.tokens|
    ensures var t := Stepped(s, step).tokens;
            && row < |t| && t[row].userId == s.tokens[row].userId
            && (s.tokens[row].replacedBy.Some? ==> t[row].replacedBy == s.tokens[row].replacedBy)
            && (s.tokens[row].revokedAt.Some? ==> t[row].revokedAt.Some?)
  {
    hide Linear;
    hide Distinct;
    hide LinksAreHistory;
  }

  // ── One live token per sign-in ───────────────────────────────────────

  /** The sign-in a row descends from, and how many rotations ago. */
  function Origin(born: seq<Option<nat>>, j: nat): nat
    requires j < |born|
  {
    if born[j].Some? && born[j].value < j then Origin(born, born[j].value) else j
  }

  function Depth(born: seq<Option<nat>>, j: nat): nat
    requires j < |born|
  {
    if born[j].Some? && born[j].value < j then Depth(born, born[j].value) + 1 else 0
  }

  /** The row n links down from a row. */
  function Follow(tokens: seq<Token>, start: nat, n: nat): Option<nat> {
    if n == 0 then Some(start)
    else
      var at := Follow(tokens, start, n - 1);
      if at.Some? && at.value < |tokens| then tokens[at.value].replacedBy else None
  }

  lemma {:induction false} LinksLeadFromTheOrigin(s: Sessions, j: nat)
    requires AuthInv(s) && j < |s.tokens|
    ensures Follow(s.tokens, Origin(s.born, j), Depth(s.born, j)) == Some(j)
  {
    if s.born[j].Some? {
      LinksLeadFromTheOrigin(s, s.born[j].value);
    }
  }

  lemma {:induction false} LineageEnds(tokens: seq<Token>, start: nat, n: nat, m: nat)
    requires n < m && Follow(tokens, start, n).Some? && Follow(tokens, start, n).value < |tokens|
    requires tokens[Follow(tokens, start, n).value].replacedBy.None?
    ensures Follow(tokens, start, m).None?
  {
    if n < m - 1 {
      LineageEnds(tokens, start, n, m - 1);
    }
  }

  /** Of two rows of one lineage, the deeper does not follow a live one. */
  lemma NothingFollowsALiveToken(s: Sessions, live: nat, other: nat)
    requires AuthInv(s) && live < |s.tokens| && other < |s.tokens| && s.tokens[live].revokedAt.None?
    requires |s.born| == |s.tokens| && Origin(s.born, live) == Origin(s.born, other)
    ensures Depth(s.born, other) <= Depth(s.born, live)
  {
    hide Distinct;
    hide CallsOk;
    LinksLeadFromTheOrigin(s, live);
    LinksLeadFromTheOrigin(s, other);
    LinkedRowsAreRevoked(s.tokens, live);
    hide Linear;
    hide LinksAreHistory;
    if Depth(s.born, live) < Depth(s.born, other) {
      LineageEnds(s.tokens, Origin(s.born, live), Depth(s.born, live), Depth(s.born, other));
    }
  }

  /** In each sign-in's lineage at most one token is live, and it is the last. */
  lemma LiveTokenIsTheLast(s: Sessions, live: nat, other: nat)
    requires AuthInv(s) && live < |s.tokens| && other < |s.tokens| && s.tokens[live].revokedAt.None?
    requires |s.born| == |s.tokens| && Origin(s.born, live) == Origin(s.born, other)
    ensures Depth(s.born, other) <= Depth(s.born, live)
    ensures s.tokens[other].revokedAt.None? ==> other == live
  {
    hide AuthInv;
    NothingFollowsALiveToken(s, live, other);
    if s.tokens[other].revokedAt.None? {
      NothingFollowsALiveToken(s, other, live);
      LinksLeadFromTheOrigin(s, live);
      LinksLeadFromTheOrigin(s, other);
    }
  }

  /** So it is in every state of every run. */
  lemma OneLiveTokenPerSignIn(states: seq<Sessions>, steps: seq<Step>, i: nat, live: nat, other: nat)
    requires AuthRun(states, steps) && LocksHeld(states, steps) && i < |states|
    requires live < |states[i].born| && other < |states[i].born|
    ensures var s := states[i];
            && |s.born| == |s.tokens|
            && (Origin(s.born, live) == Origin(s.born, other) && s.tokens[live].revokedAt.None? ==>
                  && Depth(s.born, other) <= Depth(s.born, live)
                  && (s.tokens[other].revokedAt.None? ==> other == live))
  {
    RunKeepsAuthInv(states, steps, i);
    if Origin(states[i].born, live) == Origin(states[i].born, other) && states[i].tokens[live].revokedAt.None? {
      LiveTokenIsTheLast(states[i], live, other);
    }
  }

  // ── Replays and foreign devices ──────────────────────────────────────

  ghost predicate NothingLive(tokens: seq<Token>, user: nat) {
    forall i :: 0 <= i < |tokens| && tokens[i].userId == user ==> tokens[i].revokedAt.Some?
  }

  /** A replayed token or a foreign device mints nothing, leaves the user no live
      token, and touches nobody else's; a plain miss changes no row. */
  lemma CompromiseRevokesEverything(s: Sessions, request: nat, device: nat, now: Time)
    requires request in s.calls && s.calls[request].Locked?
    ensures var call := s.calls[request]; var verdict := Verdict(s.tokens, call, now);
            var t := Stepped(s, Match(request, device, now)).tokens;
            && |t| == |s.tokens|
            && (verdict == Err(ReuseDetected) || verdict == Err(DeviceMismatch) ==> NothingLive(t, call.user))
            && (verdict == Err(RefreshInvalid) || verdict.Ok? ==> t == s.tokens)
            && (forall i :: 0 <= i < |t| && s.tokens[i].userId != call.user ==> t[i] == s.tokens[i])
            && (Distinct(s.tokens) ==>
                  forall i: nat :: i < |t| && Presents(s.tokens, call, now, i) ==>
                    if s.tokens[i].revokedAt.Some? || Foreign(s.tokens[i], call.cookie) then NothingLive(t, call.user)
                    else t == s.tokens)
  {
    var call := s.calls[request];
    if Distinct(s.tokens) {
      RefreshIsToldIff(s.tokens, call, now);
    }
    assert forall i: nat :: i < |s.tokens| ==>
      (Foreign(s.tokens[i], call.cookie) <==> s.tokens[i].deviceId.Some? && call.cookie.Some? && s.tokens[i].deviceId.value != call.cookie.value);
  }

  /** The row and the request are known to be of two devices. */
  predicate Foreign(t: Token, cookie: Option<nat>) {
    match (t.deviceId, cookie)
    case (Some(d), Some(c)) => d != c
    case _ => false
  }

  /** With distinct tokens, the verdict is a reuse exactly when the presented
      token is one of the user's unexpired, revoked rows. */
  lemma ReuseIff(s: Sessions, call: Call, now: Time)
    requires Distinct(s.tokens) && call.Locked?
    ensures Verdict(s.tokens, call, now) == Err(ReuseDetected)
            <==> exists i :: 0 <= i < |s.tokens| && Candidate(s.tokens[i], call.user, call.raw, now) && s.tokens[i].revokedAt.Some?
  {
  }

  /** The row a presented token is: the user's, unexpired. */
  ghost predicate Presents(tokens: seq<Token>, call: Call, now: Time, i: nat)
    requires call.Locked? && i < |tokens|
  {
    tokens[i].userId == call.user && tokens[i].raw == call.raw && now < tokens[i].expiresAt
  }

  /** With distinct tokens, what a refresh is told: nothing of the user's matches;
      it was revoked before; it comes from another device, both being known; or it
      rotates, the device or the cookie being unknown or the two the same. */
  lemma RefreshIsToldIff(tokens: seq<Token>, call: Call, now: Time)
    requires Distinct(tokens) && call.Locked?
    ensures var verdict := Verdict(tokens, call, now);
            && (verdict == Err(RefreshInvalid) <==> !exists i: nat :: i < |tokens| && Presents(tokens, call, now, i))
            && (verdict == Err(ReuseDetected)
                <==> exists i: nat :: i < |tokens| && Presents(tokens, call, now, i) && tokens[i].revokedAt.Some?)
            && (verdict == Err(DeviceMismatch)
                <==> exists i: nat :: i < |tokens| && Presents(tokens, call, now, i) && tokens[i].revokedAt == None
                                 && tokens[i].deviceId.Some? && call.cookie.Some?
                                 && tokens[i].deviceId.value != call.cookie.value)
            && (verdict.Ok?
                <==> exists i: nat :: i < |tokens| && Presents(tokens, call, now, i) && tokens[i].revokedAt == None
                                 && (tokens[i].deviceId == None || call.cookie == None
                                     || tokens[i].deviceId.value == call.cookie.value))
            && (verdict.Ok? ==> verdict.value < |tokens| && Presents(tokens, call, now, verdict.value))
  {
    var hit := Find(tokens, call.user, call.raw, now);
    if hit.Some? {
      assert Presents(tokens, call, now, hit.value);
    } else {
      assert forall i: nat :: i < |tokens| ==> (Presents(tokens, call, now, i) ==> Candidate(tokens[i], call.user, call.raw, now));
    }
  }

  lemma MismatchIff(tokens: seq<Token>, call: Call, now: Time)
    requires call.Locked?
    ensures Distinct(tokens) ==>
      (Verdict(tokens, call, now) == Err(DeviceMismatch)
       <==> exists i: nat :: i < |tokens| && Presents(tokens, call, now, i) && tokens[i].revokedAt == None
                             && Foreign(tokens[i], call.cookie))
  {
    if Distinct(tokens) {
      RefreshIsToldIff(tokens, call, now);
    }
    assert forall i: nat :: i < |tokens| ==>
      (Foreign(tokens[i], call.cookie) <==> tokens[i].deviceId.Some? && call.cookie.Some? && tokens[i].deviceId.value != call.cookie.value);
  }

  /** The wipe does not reach a refresh that has already matched: rotating after
      it leaves the user a live token exactly when that refresh is the user's. */
  lemma MatchedRefreshOutlivesTheWipe(s: Sessions, user: nat, request: nat, minted: nat, expiresAt: Time, now: Time)
    requires AuthInv(s) && request in s.calls && s.calls[request].Matched?
    ensures var wiped := Stepped(s, RevokeAll(user, now));
            var after := Stepped(wiped, Rotate(request, minted, expiresAt, now));
            NothingLive(wiped.tokens, user) && (NothingLive(after.tokens, user) <==> s.calls[request].user != user)
  {
    var wiped := Stepped(s, RevokeAll(user, now));
    var after := Stepped(wiped, Rotate(request, minted, expiresAt, now));
    assert after.tokens[|s.tokens|].revokedAt.None? && after.tokens[|s.tokens|].userId == s.calls[request].user;
  }

  /** Signed in, refreshing, and the lock gone before the rotation. */
  lemma LockGoneMidRefresh(user: nat, device: nat) returns (states: seq<Sessions>, steps: seq<Step>)
    ensures AuthRun(states, steps)
    ensures states[|steps|]
         == Sessions([Token(user, 0, Some(device), 9, None, None)], {}, map[1 := Matched(user, 0, 0, device)], [None])
  {
    var a0, a1, a2, a3 := SignIn(user, 0, device, 9), Begin(1, user, true, 0, None, 0), Match(1, device, 0), LockExpires(0);
    var s1 := Stepped(Empty, a0);
    var s2 := Stepped(s1, a1);
    var s3 := Stepped(s2, a2);
    var s4 := Stepped(s3, a3);
    assert s2.locks == {0} && s3.locks - {0} == {};
    states, steps := [Empty, s1, s2, s3, s4], [a0, a1, a2, a3];
  }

  /** A lock that expires under a slow refresh lets a second one match the same
      row. Both rotate: one sign-in then has two live tokens, and the link to the
      first is lost. */
  lemma ExpiredLockForksTheLineage(user: nat, device: nat) returns (states: seq<Sessions>, steps: seq<Step>)
    ensures AuthRun(states, steps)
    ensures var s := states[|steps|];
            && |s.tokens| == 3 && s.born == [None, Some(0), Some(0)]
            && s.tokens[1].revokedAt.None? && s.tokens[2].revokedAt.None? && s.tokens[0].replacedBy == Some(2)
  {
    states, steps := LockGoneMidRefresh(user, device);
    var s0 := states[|steps|];
    var a1, a2, a3, a4 := Begin(2, user, true, 0, None, 0), Match(2, device, 0), Rotate(1, 1, 9, 0), Rotate(2, 2, 9, 0);
    var s1 := Stepped(s0, a1);
    var s2 := Stepped(s1, a2);
    assert s2.calls[1] == Matched(user, 0, 0, device) && s2.calls[2] == Matched(user, 0, 0, device) && s2.tokens == s0.tokens;
    var s3 := Stepped(s2, a3);
    assert s3.calls[2] == Matched(user, 0, 0, device) && |s3.tokens| == 2;
    states, steps := states + [s1, s2, s3, Stepped(s3, a4)], steps + [a1, a2, a3, a4];
  }
}
