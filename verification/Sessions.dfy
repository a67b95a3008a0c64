/**
 * Sessions and their token families, as the server keeps them
 * (backend/identity/services.py, backend/identity/serializers.py, backend/identity/authentication.py).
 *
 * A token is opaque: its signature verifies exactly if this server minted it.
 */
module Sessions {
  import opened Wrappers
  import opened Journal

  type Sid = nat
  type Jti = nat

  datatype Kind = RefreshKind | AccessKind

  /** `sid` is absent on tokens minted before sessions existed. */
  datatype Token = Token(kind: Kind, jti: Jti, sid: Option<Sid>, user: UserId, exp: Instant)

  datatype Pair = Pair(access: Token, refresh: Token)

  datatype RevokeReason = LoggedOutByUser | ReuseDetected

  datatype AuthSession = AuthSession(user: UserId, revokedAt: Option<Instant>, reason: Option<RevokeReason>)

  const ACCESS_LIFETIME: int := 900000000
  const REFRESH_LIFETIME: int := 86400000000

  /** `alarms` are the TOKEN_REUSE_DETECTED audit rows; `next` stands in for fresh random ids. */
  datatype Server = Server(sessions: map<Sid, AuthSession>, minted: seq<Token>, black: set<Jti>, alarms: seq<Sid>,
    next: nat)

  /** Signature and expiry: `UntypedToken(raw)`. */
  predicate Verifies(s: Server, t: Token, now: Instant) { t in s.minted && now < t.exp }

  /** `RefreshToken(raw)`: also the right kind, and not blacklisted. */
  predicate Accepts(s: Server, t: Token,
                    now: Instant) { Verifies(s, t, now) && t.kind == RefreshKind && t.jti !in s.black }

  /** `active_session`. */
  predicate Active(s: Server, sid: Option<Sid>)
  {
    sid.Some? && sid.value in s.sessions && s.sessions[sid.value].revokedAt.None?
  }

  predicate MayRefresh(s: Server, t: Token, now: Instant) { Accepts(s, t, now) && Active(s, t.sid) }

  /** `SessionAwareJWTAuthentication`: what every authenticated request must pass. */
  predicate Authenticates(s: Server, t: Token, now: Instant)
  {
    Verifies(s, t, now) && t.kind == AccessKind && Active(s, t.sid)
  }

  function PairFor(sid: Option<Sid>, user: UserId, now: Instant, next: nat): Pair
  {
    Pair(Token(AccessKind, next + 1, sid, user, now + ACCESS_LIFETIME),
      Token(RefreshKind, next, sid, user, now + REFRESH_LIFETIME))
  }

  function Minted(s: Server, p: Pair): Server { s.(minted := s.minted + [p.refresh, p.access], next := s.next + 2) }

  /** `_issue_pair`: a new session, and two tokens bound to it. */
  function Issued(s: Server, user: UserId, now: Instant): (Server, Pair)
  {
    var p := PairFor(Some(s.next), user, now, s.next);
    (Minted(s, p).(sessions := s.sessions[s.next := AuthSession(user, None, None)]), p)
  }

  /** Rotation: the old token goes on the blacklist, its successor carries the same session. */
  function Rotated(s: Server, t: Token, now: Instant): (Server, Pair)
  {
    var p := PairFor(t.sid, t.user, now, s.next);
    (Minted(s, p).(black := s.black + {t.jti}), p)
  }

  predicate InFamily(s: Server, t: Token, sid: Sid, user: UserId, now: Instant)
  {
    t.kind == RefreshKind && t.user == user && now < t.exp && t.jti !in s.black && t.sid == Some(sid)
  }

  function Family(s: Server, sid: Sid, user: UserId, now: Instant): set<Jti>
  {
    set t | t in s.minted && InFamily(s, t, sid, user, now) :: t.jti
  }

  /** `revoke_session`: the first revocation wins, and takes every live refresh token of the family with it. */
  function Revoked(s: Server, sid: Sid, why: RevokeReason, now: Instant): Server
  {
    if !Active(s, Some(sid)) then s
    else
      var a := s.sessions[sid];
      s.(sessions := s.sessions[sid := AuthSession(a.user, Some(now), Some(why))],
         black := s.black + Family(s, sid, a.user, now))
  }

  /** `handle_possible_reuse`. */
  function AfterReuse(s: Server, t: Token, now: Instant): Server
  {
    if !Verifies(s, t, now) || t.sid.None? || t.jti !in s.black || !Active(s, t.sid) then s
    else Revoked(s.(alarms := s.alarms + [t.sid.value]), t.sid.value, ReuseDetected, now)
  }

  /** `SessionRefreshSerializer.validate`. */
  function Refreshed(s: Server, t: Token, now: Instant): (Server, Option<Pair>)
  {
    if !Accepts(s, t, now) then (AfterReuse(s, t, now), None)
    else if !Active(s, t.sid) then (s, None)
    else (Rotated(s, t, now).0, Some(Rotated(s, t, now).1))
  }

  /** `LogoutSerializer`, for a caller its access token has let in. */
  function LoggedOut(s: Server, t: Token, now: Instant): Server
  {
    if !Accepts(s, t, now) then s
    else
      var b := s.(black := s.black + {t.jti});
      if t.sid.None? then b else Revoked(b, t.sid.value, LoggedOutByUser, now)
  }

  // ---------------------------------------------------------------------------------------------
  // What every run keeps
  // ---------------------------------------------------------------------------------------------

  datatype Op =
    | DoLogin(user: UserId, now: Instant)
    | DoRefresh(token: Token, now: Instant)
    | DoLogout(token: Token, now: Instant)

  function Do(s: Server, op: Op): Server
  {
    match op
    case DoLogin(user, now) => Issued(s, user, now).0
    case DoRefresh(t, now) => Refreshed(s, t, now).0
    case DoLogout(t, now) => LoggedOut(s, t, now)
  }

  function DoAll(s: Server, ops: seq<Op>): Server
  {
    if ops == [] then s else Do(DoAll(s, ops[..|ops| - 1]), ops[|ops| - 1])
  }

  ghost predicate TokenOk(s: Server, t: Token)
  {
    && t.jti < s.next
    && (t.sid.Some? ==> t.sid.value in s.sessions && s.sessions[t.sid.value].user == t.user)
  }

  /** A revoked session's refresh tokens are blacklisted, unless they had already expired by then. */
  ghost predicate Buried(s: Server, t: Token)
  {
    t.kind == RefreshKind && t.sid.Some? && t.sid.value in s.sessions && s.sessions[t.sid.value].revokedAt.Some? ==>
      t.jti in s.black || t.exp <= s.sessions[t.sid.value].revokedAt.value
  }

  ghost predicate ServerOk(s: Server)
  {
    && (forall t :: t in s.minted ==> TokenOk(s, t) && Buried(s, t))
    && (forall t, u :: t in s.minted && u in s.minted && t.jti == u.jti ==> t == u)
    && (forall j :: j in s.black ==> j < s.next)
    && (forall sid :: sid in s.sessions ==> sid < s.next)
  }

  lemma {:induction false} MintKeeps(s: Server, p: Pair, sessions: map<Sid, AuthSession>, black: set<Jti>)
    requires ServerOk(s)
    requires p.refresh.jti == s.next && p.access.jti == s.next + 1 && p.access.sid == p.refresh.sid
    requires p.access.user == p.refresh.user
    requires p.refresh.kind == RefreshKind && p.access.kind == AccessKind
    requires forall sid :: sid in s.sessions ==> sid in sessions && sessions[sid] == s.sessions[sid]
    requires forall sid :: sid in sessions ==> sid <= s.next
    requires p.refresh.sid.Some? && Active(s.(sessions := sessions), p.refresh.sid)
    requires sessions[p.refresh.sid.value].user == p.refresh.user
    requires s.black <= black && forall j :: j in black ==> j < s.next
    ensures ServerOk(Minted(s, p).(sessions := sessions, black := black))
  {
  }

  lemma {:induction false} RevokeKeeps(s: Server, sid: Sid, why: RevokeReason, now: Instant)
    requires ServerOk(s)
    ensures ServerOk(Revoked(s, sid, why, now))
  {
  }

  lemma {:induction false} BlackKeeps(s: Server, j: Jti)
    requires ServerOk(s) && j < s.next
    ensures ServerOk(s.(black := s.black + {j}))
  {
  }

  lemma {:induction false} AlarmKeeps(s: Server, alarms: seq<Sid>)
    requires ServerOk(s)
    ensures ServerOk(s.(alarms := alarms))
  {
  }

  lemma {:induction false} DoKeeps(s: Server, op: Op)
    requires ServerOk(s)
    ensures ServerOk(Do(s, op))
  {
    match op {
      case DoLogin(user, now) =>
        MintKeeps(s, Issued(s, user, now).1, s.sessions[s.next := AuthSession(user, None, None)], s.black);
      case DoRefresh(t, now) =>
        if Accepts(s, t, now) {
          if Active(s, t.sid) {
            assert TokenOk(s, t);
            MintKeeps(s, Rotated(s, t, now).1, s.sessions, s.black + {t.jti});
          }
        } else if AfterReuse(s, t, now) != s {
          AlarmKeeps(s, s.alarms + [t.sid.value]);
          RevokeKeeps(s.(alarms := s.alarms + [t.sid.value]), t.sid.value, ReuseDetected, now);
        }
      case DoLogout(t, now) =>
        if Accepts(s, t, now) {
          assert TokenOk(s, t);
          BlackKeeps(s, t.jti);
          if t.sid.Some? {
            RevokeKeeps(s.(black := s.black + {t.jti}), t.sid.value, LoggedOutByUser, now);
          }
        }
    }
  }

  lemma {:induction false} RunKeeps(s: Server, ops: seq<Op>)
    requires ServerOk(s)
    ensures ServerOk(DoAll(s, ops))
  {
    if ops == [] {
    } else {
      RunKeeps(s, ops[..|ops| - 1]);
      DoKeeps(DoAll(s, ops[..|ops| - 1]), ops[|ops| - 1]);
    }
  }

  // ---------------------------------------------------------------------------------------------
  // Replay kills the family, and only the family
  // ---------------------------------------------------------------------------------------------

  ghost predicate IsRevoked(s: Server, sid: Sid) { sid in s.sessions && s.sessions[sid].revokedAt.Some? }

  lemma {:induction false} StaysRevoked(s: Server, ops: seq<Op>, sid: Sid)
    requires ServerOk(s) && IsRevoked(s, sid)
    ensures IsRevoked(DoAll(s, ops), sid)
    ensures DoAll(s, ops).sessions[sid] == s.sessions[sid]
  {
    if ops == [] {
    } else {
      var n := |ops| - 1;
      StaysRevoked(s, ops[..n], sid);
      RunKeeps(s, ops[..n]);
    }
  }

  /** What a refresh does to sessions: it revokes exactly the live session of a verified, blacklisted token. */
  lemma {:induction false} ReuseExactly(s: Server, t: Token, now: Instant)
    ensures var g := Refreshed(s, t, now).0;
      && (g.sessions != s.sessions <==> Verifies(s, t, now) && t.jti in s.black && Active(s, t.sid))
      && (g.alarms != s.alarms <==> g.sessions != s.sessions)
      && (g.sessions != s.sessions ==>
            && g.alarms == s.alarms + [t.sid.value]
            && g.sessions == s.sessions[t.sid.value :=
                AuthSession(s.sessions[t.sid.value].user, Some(now), Some(ReuseDetected))])
  {
    var g := Refreshed(s, t, now).0;
    if Verifies(s, t, now) && t.jti in s.black && Active(s, t.sid) {
      assert g.sessions[t.sid.value] != s.sessions[t.sid.value];
      assert g.alarms[|s.alarms|] == t.sid.value;
    }
  }

  /**
   * Once a rotated token of a live session is replayed, nothing of that session is accepted by any later
   * request, whatever anybody does next: no refresh token, no access token, not even the thief's successor;
   * and its unexpired refresh tokens stay blacklisted on their own account, session check or not.
   */
  lemma {:induction false} FamilyDies(s: Server, t: Token, now: Instant, ops: seq<Op>, u: Token, later: Instant)
    requires ServerOk(s) && Verifies(s, t, now) && t.jti in s.black && Active(s, t.sid)
    requires u.sid == t.sid
    ensures var g := DoAll(Refreshed(s, t, now).0, ops);
      && !MayRefresh(g, u, later)
      && !Authenticates(g, u, later)
      && (later >= now ==> !Accepts(g, u, later))
  {
    var first := Refreshed(s, t, now).0;
    DoKeeps(s, DoRefresh(t, now));
    ReuseExactly(s, t, now);
    assert IsRevoked(first, t.sid.value);
    StaysRevoked(first, ops, t.sid.value);
    RunKeeps(first, ops);
    var g := DoAll(first, ops);
    if u in g.minted {
      assert Buried(g, u);
    }
  }

  /** Whoever presents what, tokens of other sessions are accepted now as they were before. */
  ghost predicate AcceptedAlike(s: Server, g: Server, u: Token)
  {
    forall when ::
      && (MayRefresh(g, u, when) <==> MayRefresh(s, u, when))
      && (Authenticates(g, u, when) <==> Authenticates(s, u, when))
      && (Accepts(g, u, when) <==> Accepts(s, u, when))
  }

  /** An operation that presents no token of this session. */
  predicate Elsewhere(op: Op, sid: Option<Sid>) { op.DoLogin? || op.token.sid != sid }

  lemma {:induction false} OneOpElsewhere(s: Server, op: Op, u: Token)
    requires ServerOk(s) && u in s.minted && Elsewhere(op, u.sid)
    ensures u in Do(s, op).minted && AcceptedAlike(s, Do(s, op), u)
  {
    assert TokenOk(s, u);
    match op {
      case DoLogin(_, _) =>
      case DoRefresh(t, now) =>
        if t.sid.Some? && t.sid.value in s.sessions {
          FamilyOnly(s.(alarms := s.alarms + [t.sid.value]), t.sid.value, s.sessions[t.sid.value].user, now, u);
        }
      case DoLogout(t, now) =>
        if t.sid.Some? && t.sid.value in s.sessions {
          FamilyOnly(s.(black := s.black + {t.jti}), t.sid.value, s.sessions[t.sid.value].user, now, u);
        }
    }
  }

  lemma {:induction false} OpsElsewhere(s: Server, ops: seq<Op>, u: Token)
    requires ServerOk(s) && u in s.minted && forall i :: 0 <= i < |ops| ==> Elsewhere(ops[i], u.sid)
    ensures u in DoAll(s, ops).minted && AcceptedAlike(s, DoAll(s, ops), u)
  {
    if ops == [] {
    } else {
      var n := |ops| - 1;
      OpsElsewhere(s, ops[..n], u);
      RunKeeps(s, ops[..n]);
      OneOpElsewhere(DoAll(s, ops[..n]), ops[n], u);
    }
  }

  /**
   * Only the family dies. After a token is presented, replayed or not, and after any operations that present no
   * token of another session, every token of that other session is accepted exactly as it was before.
   */
  lemma {:induction false} OthersUnaffected(s: Server, t: Token, now: Instant, ops: seq<Op>, u: Token)
    requires ServerOk(s) && u in s.minted && u.sid != t.sid
    requires forall i :: 0 <= i < |ops| ==> Elsewhere(ops[i], u.sid)
    ensures AcceptedAlike(s, DoAll(Refreshed(s, t, now).0, ops), u)
  {
    OneOpElsewhere(s, DoRefresh(t, now), u);
    DoKeeps(s, DoRefresh(t, now));
    OpsElsewhere(Refreshed(s, t, now).0, ops, u);
  }

  /** No token outside the session is ever in its family: ids are never shared. */
  lemma {:induction false} FamilyOnly(s: Server, sid: Sid, user: UserId, now: Instant, u: Token)
    requires u in s.minted && u.sid != Some(sid)
    requires forall t, v :: t in s.minted && v in s.minted && t.jti == v.jti ==> t == v
    ensures u.jti !in Family(s, sid, user, now)
  {
  }

  // ---------------------------------------------------------------------------------------------
  // What each request comes to
  // ---------------------------------------------------------------------------------------------

  ghost predicate Live(s: Server, sid: Option<Sid>)
  {
    sid.Some? && sid.value in s.sessions && s.sessions[sid.value].revokedAt.None?
  }

  /** A refresh token this server signed, unexpired and not blacklisted. */
  ghost predicate Spendable(s: Server, t: Token, now: Instant)
  {
    t in s.minted && t.kind == RefreshKind && now < t.exp && t.jti !in s.black
  }

  /** A new pair for a session: an access token good for fifteen minutes and a refresh token good for a day. */
  ghost predicate Mints(s: Server, g: Server, p: Pair, sid: Option<Sid>, user: UserId, now: Instant)
  {
    && g.minted == s.minted + [p.refresh, p.access]
    && p.refresh == Token(RefreshKind, p.refresh.jti, sid, user, now + 24 * 60 * 60 * 1000000)
    && p.access == Token(AccessKind, p.access.jti, sid, user, now + 15 * 60 * 1000000)
    && p.refresh.jti != p.access.jti && p.refresh.jti !in g.black
    && forall t :: t in s.minted ==> t.jti != p.refresh.jti && t.jti != p.access.jti
  }

  /** A login: one new live session of the user's, and a pair for it. */
  ghost predicate OpensSession(s: Server, user: UserId, now: Instant, g: Server, p: Pair)
  {
    && p.refresh.sid.Some? && p.refresh.sid.value !in s.sessions
    && g.sessions == s.sessions[p.refresh.sid.value := AuthSession(user, None, None)]
    && Mints(s, g, p, p.refresh.sid, user, now) && g.black == s.black && g.alarms == s.alarms
  }

  /** A refresh is granted exactly for a spendable token of a live session; then that token is spent for a new pair. */
  ghost predicate Refreshes(s: Server, t: Token, now: Instant, g: Server, r: Option<Pair>)
  {
    && (r.Some? <==> Spendable(s, t, now) && Live(s, t.sid))
    && (r.Some? ==>
          && Mints(s, g, r.value, t.sid, t.user, now)
          && g.black == s.black + {t.jti} && g.sessions == s.sessions && g.alarms == s.alarms)
  }

  /** Signing out with a spendable token spends it and closes its session; with any other nothing happens. */
  ghost predicate SignsOut(s: Server, t: Token, now: Instant, g: Server)
  {
    if !Spendable(s, t, now) then g == s
    else
      && s.black + {t.jti} <= g.black && g.minted == s.minted && g.alarms == s.alarms
      && g.sessions ==
         if Live(s, t.sid)
         then s.sessions[t.sid.value := AuthSession(s.sessions[t.sid.value].user, Some(now), Some(LoggedOutByUser))]
         else s.sessions
  }

  lemma {:induction false} LoginOutcome(s: Server, user: UserId, now: Instant)
    requires ServerOk(s)
    ensures OpensSession(s, user, now, Issued(s, user, now).0, Issued(s, user, now).1)
  {
    forall t | t in s.minted ensures t.jti < s.next {
      assert TokenOk(s, t);
    }
  }

  lemma {:induction false} RefreshOutcome(s: Server, t: Token, now: Instant)
    requires ServerOk(s)
    ensures Refreshes(s, t, now, Refreshed(s, t, now).0, Refreshed(s, t, now).1)
  {
    forall u | u in s.minted ensures u.jti < s.next {
      assert TokenOk(s, u);
    }
  }

  lemma {:induction false} LogoutOutcome(s: Server, t: Token, now: Instant)
    requires ServerOk(s)
    ensures SignsOut(s, t, now, LoggedOut(s, t, now))
  {
  }

  /**
   * What a request may do with a token: refresh a live session with a spendable one, authenticate with an access
   * token.
   */
  lemma {:induction false} AcceptanceIs(s: Server, t: Token, now: Instant)
    ensures MayRefresh(s, t, now) <==> Spendable(s, t, now) && Live(s, t.sid)
    ensures Authenticates(s, t, now) <==> t in s.minted && t.kind == AccessKind && now < t.exp && Live(s, t.sid)
  {
  }

  /**
   * Signing out ends the session. With a spendable token of a session, whichever rotation it came from, nothing
   * of that session is accepted by any later request, whatever anybody does next; and the token itself, with a
   * session or without, is accepted no more.
   */
  lemma {:induction false} SignOutEnds(s: Server, t: Token, now: Instant, ops: seq<Op>, u: Token, when: Instant)
    requires ServerOk(s) && Spendable(s, t, now)
    ensures !Accepts(LoggedOut(s, t, now), t, when)
    ensures t.sid.Some? && u.sid == t.sid ==>
      var g := DoAll(LoggedOut(s, t, now), ops);
      !MayRefresh(g, u, when) && !Authenticates(g, u, when)
  {
    if t.sid.Some? {
      assert TokenOk(s, t);
      DoKeeps(s, DoLogout(t, now));
      StaysRevoked(LoggedOut(s, t, now), ops, t.sid.value);
    }
  }

  // ---------------------------------------------------------------------------------------------
  // The service
  // ---------------------------------------------------------------------------------------------

  class AuthServer {
    var sessions: map<Sid, AuthSession>
    var minted: seq<Token>
    var black: set<Jti>
    var alarms: seq<Sid>
    var next: nat

    function State(): Server
      reads this
    {
      Server(sessions, minted, black, alarms, next)
    }

    constructor ()
      ensures State() == Server(map[], [], {}, [], 0) && ServerOk(State())
    {
      sessions, minted, black, alarms, next := map[], [], {}, [], 0;
    }

    /** `_issue_pair`. */
    method IssuePair(user: UserId, now: Instant) returns (p: Pair)
      requires ServerOk(State())
      modifies this
      ensures (State(), p) == Issued(old(State()), user, now)
      ensures ServerOk(State()) && OpensSession(old(State()), user, now, State(), p)
    {
      LoginOutcome(State(), user, now);
      DoKeeps(State(), DoLogin(user, now));
      p := PairFor(Some(next), user, now, next);
      sessions := sessions[next := AuthSession(user, None, None)];
      minted := minted + [p.refresh, p.access];
      next := next + 2;
    }

    /** `_blacklist_family_refresh_tokens`: a scan of the user's live outstanding tokens for this session's. */
    method BlacklistFamily(sid: Sid, user: UserId, now: Instant)
      modifies this`black
      ensures black == old(black) + Family(old(State()), sid, user, now)
    {
      ghost var was := State();
      var live := black;
      for i := 0 to |minted|
        invariant black == was.black + set t | t in minted[..i] && InFamily(was, t, sid, user, now) :: t.jti
      {
        var t := minted[i];
        assert minted[..i + 1] == minted[..i] + [t];
        if t.kind == RefreshKind && t.user == user && now < t.exp && t.jti !in live {
          if t.sid == Some(sid) {
            black := black + {t.jti};
          }
        }
      }
      assert minted[..|minted|] == minted;
    }

    /** `revoke_session`: a conditional update, then the family. */
    method RevokeSession(sid: Sid, why: RevokeReason, now: Instant) returns (done: bool)
      requires ServerOk(State())
      modifies this`sessions, this`black
      ensures State() == Revoked(old(State()), sid, why, now) && ServerOk(State())
      ensures done <==> Active(old(State()), Some(sid))
    {
      RevokeKeeps(State(), sid, why, now);
      if sid !in sessions || sessions[sid].revokedAt.Some? {
        return false;
      }
      var user := sessions[sid].user;
      ghost var family := Family(State(), sid, user, now);
      sessions := sessions[sid := AuthSession(user, Some(now), Some(why))];
      BlacklistFamily(sid, user, now);
      return true;
    }

    /** `handle_possible_reuse`. */
    method HandlePossibleReuse(t: Token, now: Instant)
      requires ServerOk(State())
      modifies this`sessions, this`black, this`alarms
      ensures State() == AfterReuse(old(State()), t, now) && ServerOk(State())
    {
      if t !in minted || now >= t.exp {
        return;
      }
      if t.sid.None? || t.jti !in black {
        return;
      }
      if t.sid.value !in sessions || sessions[t.sid.value].revokedAt.Some? {
        return;
      }
      AlarmKeeps(State(), alarms + [t.sid.value]);
      alarms := alarms + [t.sid.value];
      var done := RevokeSession(t.sid.value, ReuseDetected, now);
    }

    /** `SessionRefreshSerializer.validate`. */
    method Refresh(t: Token, now: Instant) returns (r: Option<Pair>)
      requires ServerOk(State())
      modifies this
      ensures (State(), r) == Refreshed(old(State()), t, now) && ServerOk(State())
      ensures Refreshes(old(State()), t, now, State(), r)
    {
      RefreshOutcome(State(), t, now);
      DoKeeps(State(), DoRefresh(t, now));
      if t !in minted || now >= t.exp || t.kind != RefreshKind || t.jti in black {
        HandlePossibleReuse(t, now);
        return None;
      }
      if !Active(State(), t.sid) {
        return None;
      }
      var p := PairFor(t.sid, t.user, now, next);
      black := black + {t.jti};
      minted := minted + [p.refresh, p.access];
      next := next + 2;
      return Some(p);
    }

    /** `SessionAwareJWTAuthentication.get_user`: what every authenticated request passes through. */
    method Authenticate(t: Token, now: Instant) returns (user: Option<UserId>)
      ensures user == if Authenticates(State(), t, now) then Some(t.user) else None
      ensures user.Some? <==> t in minted && t.kind == AccessKind && now < t.exp && Live(State(), t.sid)
    {
      if t !in minted || now >= t.exp || t.kind != AccessKind {
        return None;
      }
      if t.sid.None? || !Active(State(), t.sid) {
        return None;
      }
      return Some(t.user);
    }

    /** `LogoutSerializer`. */
    method Logout(t: Token, now: Instant)
      requires ServerOk(State())
      modifies this`sessions, this`black
      ensures State() == LoggedOut(old(State()), t, now) && ServerOk(State())
      ensures SignsOut(old(State()), t, now, State())
    {
      LogoutOutcome(State(), t, now);
      DoKeeps(State(), DoLogout(t, now));
      if t !in minted || now >= t.exp || t.kind != RefreshKind || t.jti in black {
        return;
      }
      assert TokenOk(State(), t);
      BlackKeeps(State(), t.jti);
      black := black + {t.jti};
      if t.sid.Some? {
        var done := RevokeSession(t.sid.value, LoggedOutByUser, now);
      }
    }
  }
}
