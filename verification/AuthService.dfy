/** The session methods, each one request running alone. */
module Auth {
  import opened Common
  import opened RefreshTokens

  /** A whole refresh: lock, match, rotate. */
  function Refreshed(s: Sessions, user: nat, active: bool, raw: nat, cookie: Option<nat>, device: nat, minted: nat,
                     expiresAt: Time, now: Time): Sessions
  {
    var locked := Stepped(s, Begin(0, user, active, raw, cookie, now));
    var matched := Stepped(locked, Match(0, device, now));
    Stepped(matched, Rotate(0, minted, expiresAt, now))
  }

  class AuthService {
    var tokens: seq<Token>
    var locks: set<nat>
    ghost var born: seq<Option<nat>>

    ghost function Model(): Sessions reads this {
      Sessions(tokens, locks, map[], born)
    }

    constructor ()
      ensures Model() == Empty
    {
      tokens, locks, born := [], {}, [];
    }

    /** The scan over candidate rows, newest first, verifying each hash. */
    method MatchToken(user: nat, raw: nat, now: Time) returns (hit: Option<nat>)
      ensures hit == Find(tokens, user, raw, now)
    {
      var i := |tokens|;
      assert tokens[..i] == tokens;
      while i > 0
        invariant 0 <= i <= |tokens|
        invariant Find(tokens, user, raw, now) == Find(tokens[..i], user, raw, now)
      {
        i := i - 1;
        if tokens[i].userId == user && tokens[i].expiresAt > now && tokens[i].raw == raw {
          return Some(i);
        }
        assert tokens[..i + 1][..i] == tokens[..i];
      }
      return None;
    }

    method RevokeAllSessions(user: nat, now: Time)
      modifies this
      ensures Model() == Stepped(old(Model()), RevokeAll(user, now))
      ensures NothingLive(tokens, user)
    {
      tokens := Wiped(tokens, user, now);
    }

    /** signTokens: insert the new row; revoke and link the replaced one. */
    method SignTokens(user: nat, replaced: Option<nat>, minted: nat, device: nat, expiresAt: Time, now: Time)
      requires replaced.Some? ==> replaced.value < |tokens|
      modifies this
      ensures locks == old(locks) && born == old(born) + [replaced]
      ensures tokens == if replaced.Some? then Rotated(old(tokens), replaced.value, user, minted, device, expiresAt, now)
                        else old(tokens) + [Token(user, minted, Some(device), expiresAt, None, None)]
    {
      var id := |tokens|;
      tokens := tokens + [Token(user, minted, Some(device), expiresAt, None, None)];
      if replaced.Some? {
        tokens := tokens[replaced.value := tokens[replaced.value].(revokedAt := Some(now), replacedBy := Some(id))];
      }
      born := born + [replaced];
    }

    /** verifyOtp once the code checks out, and issueAdminSession. */
    method VerifyOtp(user: nat, minted: nat, device: nat, expiresAt: Time, now: Time)
      modifies this
      ensures Model() == Stepped(old(Model()), SignIn(user, minted, device, expiresAt))
    {
      SignTokens(user, None, minted, device, expiresAt, now);
    }

    method Refresh(user: nat, active: bool, raw: nat, cookie: Option<nat>, device: nat, minted: nat, expiresAt: Time, now: Time)
      returns (error: Option<AuthError>)
      modifies this
      ensures Model() == Refreshed(old(Model()), user, active, raw, cookie, device, minted, expiresAt, now)
      ensures !active <==> error == Some(UserSuspended)
      ensures active && raw in old(locks) <==> error == Some(RefreshInFlight)
      ensures active && raw !in old(locks) ==>
        error == (match Verdict(old(tokens), Locked(user, raw, cookie), now) case Err(e) => Some(e) case Ok(_) => None)
      ensures Distinct(old(tokens)) && active && raw !in old(locks) ==>
        (error == Some(DeviceMismatch)
         <==> exists i: nat :: i < |old(tokens)| && Presents(old(tokens), Locked(user, raw, cookie), now, i)
                           && old(tokens)[i].revokedAt == None && Foreign(old(tokens)[i], cookie))
    {
      ghost var was := tokens;
      MismatchIff(was, Locked(user, raw, cookie), now);
      if !active {
        tokens := Wiped(tokens, user, now);
        return Some(UserSuspended);
      }
      if raw in locks {
        return Some(RefreshInFlight);
      }
      locks := locks + {raw};
      var hit := MatchToken(user, raw, now);
      if hit.None? {
        error := Some(RefreshInvalid);
      } else if tokens[hit.value].revokedAt.Some? {
        tokens := Wiped(tokens, user, now);
        error := Some(ReuseDetected);
      } else if tokens[hit.value].deviceId.Some? && cookie.Some? && tokens[hit.value].deviceId != cookie {
        tokens := Wiped(tokens, user, now);
        error := Some(DeviceMismatch);
      } else {
        SignTokens(user, hit, minted, device, expiresAt, now);
        error := None;
      }
      locks := locks - {raw};
    }

    method Logout(user: nat, raw: nat, now: Time)
      modifies this
      ensures Model() == Stepped(old(Model()), Step.Logout(user, raw, now))
    {
      var i := 0;
      assert tokens[..|tokens|] == tokens;
      while i < |tokens|
        invariant 0 <= i <= |tokens| && Model() == old(Model())
        invariant FindActive(tokens[..i], user, raw).None?
      {
        assert tokens[..i + 1][..i] == tokens[..i];
        if tokens[i].userId == user && tokens[i].revokedAt.None? && tokens[i].raw == raw {
          FirstActiveStands(tokens, i + 1, user, raw);
          tokens := tokens[i := tokens[i].(revokedAt := Some(now))];
          return;
        }
        i := i + 1;
      }
    }
  }

  lemma {:induction false} FirstActiveStands(tokens: seq<Token>, n: nat, user: nat, raw: nat)
    requires n <= |tokens| && FindActive(tokens[..n], user, raw).Some?
    ensures FindActive(tokens, user, raw) == FindActive(tokens[..n], user, raw)
  {
    if n == |tokens| {
      assert tokens[..n] == tokens;
    } else {
      assert tokens[..|tokens| - 1][..n] == tokens[..n];
      FirstActiveStands(tokens[..|tokens| - 1], n, user, raw);
    }
  }

  /** A refresh that goes through keeps one live token in the lineage and hands
      it on; one refused for reuse or a foreign device leaves the user none. */
  lemma RefreshHandsOn(s: Sessions, user: nat, active: bool, raw: nat, cookie: Option<nat>, device: nat, minted: nat,
                       expiresAt: Time, now: Time)
    requires AuthInv(s) && s.calls == map[] && !Issued(s.tokens, minted)
    ensures var t := Refreshed(s, user, active, raw, cookie, device, minted, expiresAt, now);
            && AuthInv(t) && t.calls == map[]
            && (!active ==> NothingLive(t.tokens, user))
            && (active && raw !in s.locks ==>
                  match Verdict(s.tokens, Locked(user, raw, cookie), now)
                  case Ok(row) => |t.tokens| == |s.tokens| + 1 && t.tokens[row].replacedBy == Some(|s.tokens|)
                                  && t.tokens[|s.tokens|].revokedAt.None? && t.tokens[|s.tokens|].raw == minted
                  case Err(RefreshInvalid) => t.tokens == s.tokens
                  case Err(_) => NothingLive(t.tokens, user))
  {
    hide Linear;
    hide Distinct;
    hide LinksAreHistory;
    hide AuthInv;
    var locked := Stepped(s, Begin(0, user, active, raw, cookie, now));
    StepKeepsInv(s, Begin(0, user, active, raw, cookie, now));
    var matched := Stepped(locked, Match(0, device, now));
    StepKeepsInv(locked, Match(0, device, now));
    assert !Issued(matched.tokens, minted) by {
      assert forall i :: 0 <= i < |matched.tokens| ==> matched.tokens[i].raw == s.tokens[i].raw;
    }
    StepKeepsInv(matched, Rotate(0, minted, expiresAt, now));
  }

  // ── A session's round trip ───────────────────────────────────────────

  /** Signed in, then refreshed before it expires from the same device, or with no
      cookie: the session goes on under the new token, for that device, until the
      new expiry; the old token is spent. */
  lemma SignedInRefreshesOnce(s: Sessions, user: nat, raw: nat, device: nat, expiresAt: Time, cookie: Option<nat>,
                              minted: nat, again: Time, now: Time)
    requires AuthInv(s) && s.calls == map[] && !Issued(s.tokens, raw) && raw !in s.locks
    requires now < expiresAt && (cookie == None || cookie == Some(device))
    ensures var t := Stepped(s, SignIn(user, raw, device, expiresAt)); var row := |s.tokens|;
            var u := Refreshed(t, user, true, raw, cookie, device, minted, again, now);
            && Verdict(t.tokens, Locked(user, raw, cookie), now) == Ok(row)
            && u.tokens == s.tokens + [ Token(user, raw, Some(device), expiresAt, Some(now), Some(row + 1)),
                                        Token(user, minted, Some(device), again, None, None) ]
            && u.locks == s.locks && u.calls == map[]
  {
    var t := Stepped(s, SignIn(user, raw, device, expiresAt));
    assert Candidate(t.tokens[|s.tokens|], user, raw, now);
  }

  lemma RefreshedTokens(s: Sessions, user: nat, raw: nat, cookie: Option<nat>, device: nat, minted: nat, expiresAt: Time, now: Time)
    requires s.calls == map[] && raw !in s.locks
    ensures Refreshed(s, user, true, raw, cookie, device, minted, expiresAt, now).tokens
            == match Verdict(s.tokens, Locked(user, raw, cookie), now)
               case Ok(row) => if row < |s.tokens| then Rotated(s.tokens, row, user, minted, device, expiresAt, now) else s.tokens
               case Err(RefreshInvalid) => s.tokens
               case Err(_) => Wiped(s.tokens, user, now)
  {
    hide Verdict;
  }

  /** Presented again, the spent token wipes the user's sessions; presented from
      another device, a live one does; presented after its expiry, or by another
      user, it is nobody's. */
  lemma StolenTokenEndsTheSession(s: Sessions, user: nat, raw: nat, i: nat, cookie: Option<nat>, device: nat, minted: nat,
                                  expiresAt: Time, now: Time)
    requires AuthInv(s) && s.calls == map[] && raw !in s.locks && i < |s.tokens|
    requires s.tokens[i].raw == raw
    ensures var u := Refreshed(s, user, true, raw, cookie, device, minted, expiresAt, now);
            var known := s.tokens[i].userId == user && now < s.tokens[i].expiresAt;
            var foreign := cookie.Some? && s.tokens[i].deviceId.Some? && s.tokens[i].deviceId != cookie;
            && (!known ==> u.tokens == s.tokens)
            && (known && (s.tokens[i].revokedAt.Some? || foreign) ==> |u.tokens| == |s.tokens| && NothingLive(u.tokens, user))
            && (known && s.tokens[i].revokedAt == None && !foreign ==> |u.tokens| == |s.tokens| + 1 && u.tokens[i].replacedBy == Some(|s.tokens|))
  {
    hide Refreshed;
    hide Verdict;
    hide Linear;
    hide LinksAreHistory;
    hide CallsOk;
    RefreshedTokens(s, user, raw, cookie, device, minted, expiresAt, now);
    RefreshIsToldIff(s.tokens, Locked(user, raw, cookie), now);
    assert Presents(s.tokens, Locked(user, raw, cookie), now, i) <==> s.tokens[i].userId == user && now < s.tokens[i].expiresAt;
    assert forall j: nat :: j < |s.tokens| && Presents(s.tokens, Locked(user, raw, cookie), now, j) ==> j == i;
  }

  /** Logging out revokes the session presented, and no other. */
  lemma LogoutEndsOneSession(s: Sessions, user: nat, raw: nat, now: Time)
    requires AuthInv(s)
    ensures var t := Stepped(s, Step.Logout(user, raw, now)).tokens;
            && |t| == |s.tokens|
            && forall i :: 0 <= i < |t| ==>
                 t[i] == if s.tokens[i].userId == user && s.tokens[i].raw == raw && s.tokens[i].revokedAt == None
                         then s.tokens[i].(revokedAt := Some(now)) else s.tokens[i]
  {
    NoLiveRowLeft(s.tokens, user, raw);
  }

  lemma {:induction false} NoLiveRowLeft(tokens: seq<Token>, user: nat, raw: nat)
    ensures FindActive(tokens, user, raw) == None ==>
              forall i :: 0 <= i < |tokens| ==> tokens[i].userId != user || tokens[i].raw != raw || tokens[i].revokedAt.Some?
  {
    if tokens != [] {
      NoLiveRowLeft(tokens[..|tokens| - 1], user, raw);
      assert forall i :: 0 <= i < |tokens| - 1 ==> tokens[..|tokens| - 1][i] == tokens[i];
    }
  }
}
