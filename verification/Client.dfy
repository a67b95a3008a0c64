/**
 * One browser tab against the server: the deduplicated refresh
 * (frontend/src/api/client.ts, frontend/src/auth/store.ts, frontend/src/auth/AuthProvider.tsx).
 *
 * Steps are what one JavaScript task does without yielding; a refresh on the wire is a state of its own, and a
 * request whose connection was lost may still reach the server later. One clock, which never runs backwards, says
 * what has expired.
 */
module SingleTab {
  import opened Wrappers
  import opened Journal
  import opened Sessions

  /** The in-flight refresh promise: not yet served, or served with the answer on its way back. */
  datatype Flight = Idle | Sent(token: Token) | Answered(pair: Option<Pair>)

  /**
   * `mine` are the sessions this tab has opened, `rotated` the ids of tokens of its own that were rotated
   * away, `strays` its refresh requests that nobody waits for any more.
   */
  datatype World = World(
    clock: Instant, server: Server, access: Option<Token>, refresh: Option<Token>, flight: Flight,
    strays: set<Token>, mine: set<Sid>, rotated: set<Jti>)

  datatype Action =
    | Wait(until: Instant)
    | SignIn(user: UserId)
    | Unauthorized                  // a 401 comes back to a request that carried a token
    | Serve                         // the refresh reaches the server
    | Deliver                       // its answer reaches the tab
    | Lose                          // or its connection fails
    | ServeStray(token: Token)
    | SignOutRequest(token: Token)
    | ClearLocal                    // announceExpiry, or the end of signing out
    | Others(op: Op)                // everybody else, with tokens of their own
    | Reload

  predicate NotMine(w: World, t: Token) { t.sid.None? || t.sid.value !in w.mine }

  predicate Enabled(w: World, a: Action)
  {
    match a
    case Wait(until) => w.clock <= until
    case Serve => w.flight.Sent?
    case Deliver => w.flight.Answered?
    case Lose => !w.flight.Idle?
    case ServeStray(t) => t in w.strays
    case SignOutRequest(t) => !NotMine(w, t)
    case Others(op) => op.now == w.clock && (op.DoLogin? || NotMine(w, op.token))
    case _ => true
  }

  function Cleared(w: World): World { w.(access := None, refresh := None) }

  function WithTokens(w: World, p: Pair): World { w.(access := Some(p.access), refresh := Some(p.refresh)) }

  /** The server handles a refresh request of this tab. */
  function Handled(w: World, t: Token): World
  {
    var (s, r) := Refreshed(w.server, t, w.clock);
    w.(server := s, rotated := if r.Some? then w.rotated + {t.jti} else w.rotated)
  }

  function Dropped(w: World): World
  {
    w.(flight := Idle, strays := if w.flight.Sent? then w.strays + {w.flight.token} else w.strays)
  }

  function Next(w: World, a: Action): World
    requires Enabled(w, a)
  {
    match a
    case Wait(until) => w.(clock := until)
    case SignIn(user) =>
      var (s, p) := Issued(w.server, user, w.clock);
      WithTokens(w.(server := s, mine := w.mine + {w.server.next}), p)
    case Unauthorized =>
      // refreshOnce: join the refresh in progress, or start one with whatever token is stored.
      if !w.flight.Idle? then w
      else if w.refresh.None? then Cleared(w)
      else w.(flight := Sent(w.refresh.value))
    case Serve => Handled(w, w.flight.token).(flight := Answered(Refreshed(w.server, w.flight.token, w.clock).1))
    case Deliver => if w.flight.pair.Some? then WithTokens(w.(flight := Idle), w.flight.pair.value)
      else Cleared(w.(flight := Idle))
    case Lose => Cleared(Dropped(w))
    case ServeStray(t) => Handled(w, t).(strays := w.strays - {t})
    case SignOutRequest(t) => w.(server := LoggedOut(w.server, t, w.clock))
    case ClearLocal => Cleared(w)
    case Others(op) => w.(server := Do(w.server, op))
    case Reload => Dropped(w).(access := None)
  }

  const INITIAL := World(0, Server(map[], [], {}, [], 0), None, None, Idle, {}, {}, {})

  predicate Legal(acts: seq<Action>)
    decreases |acts|, 0
  {
    acts == [] || (Legal(acts[..|acts| - 1]) && Enabled(After(acts[..|acts| - 1]), acts[|acts| - 1]))
  }

  function After(acts: seq<Action>): World
    requires Legal(acts)
    decreases |acts|, 1
  {
    if acts == [] then INITIAL else Next(After(acts[..|acts| - 1]), acts[|acts| - 1])
  }

  /**
   * A refresh of the stored token is on the wire, not yet served or already served, its session is live and it
   * has not expired: forget that refresh now and the token in storage is spent, or will be, without the tab
   * knowing.
   */
  predicate Exposed(w: World)
  {
    && w.refresh.Some? && Active(w.server, w.refresh.value.sid) && w.clock < w.refresh.value.exp
    && match w.flight
       case Idle => false
       case Sent(t) => t == w.refresh.value
       case Answered(_) => w.refresh.value.jti in w.server.black
  }

  /** The strict reading counts every reload during a refresh, the exact one only those that expose the stored token. */
  predicate Risky(w: World, strict: bool) { if strict then !w.flight.Idle? else Exposed(w) }

  /** No risky reload from the n-th action on. */
  predicate Undisturbed(acts: seq<Action>, n: nat, strict: bool)
    requires Legal(acts)
  {
    |acts| <= n ||
    (Undisturbed(acts[..|acts| - 1], n, strict)
      && (acts[|acts| - 1].Reload? ==> !Risky(After(acts[..|acts| - 1]), strict)))
  }

  // ---------------------------------------------------------------------------------------------
  // The invariant
  // ---------------------------------------------------------------------------------------------

  predicate Known(s: Server, mine: set<Sid>, t: Token)
  {
    t in s.minted && t.kind == RefreshKind && t.sid.Some? && t.sid.value in mine
  }

  /** A blacklisted token of this tab's was rotated by it, or belongs to a session already closed. */
  ghost predicate Blameless(s: Server, mine: set<Sid>, rotated: set<Jti>)
  {
    && ServerOk(s)
    && (forall sid :: sid in mine ==> sid in s.sessions)
    && (forall t :: Known(s, mine, t) && t.jti in s.black ==> t.jti in rotated || IsRevoked(s, t.sid.value))
    && (forall j :: j in rotated ==> j in s.black)
    && (forall sid :: sid in s.alarms ==> sid in s.sessions && sid !in mine)
    && (forall sid :: sid in mine && IsRevoked(s, sid) ==> s.sessions[sid].reason == Some(LoggedOutByUser))
  }

  /** A token has expired or its session has been closed; under the exact reading it no longer matters. */
  ghost predicate Closed(w: World, t: Token, strict: bool)
  {
    !strict && (t.exp <= w.clock || (t.sid.Some? && IsRevoked(w.server, t.sid.value)))
  }

  ghost predicate Unspent(w: World, t: Token, strict: bool)
  {
    Known(w.server, w.mine, t) && (t.jti !in w.rotated || Closed(w, t, strict))
  }

  ghost predicate Apart(w: World, t: Token, strict: bool) { t !in w.strays || Closed(w, t, strict) }

  ghost predicate Usable(w: World, t: Token, strict: bool) { Unspent(w, t, strict) && Apart(w, t, strict) }

  ghost predicate TokensOk(w: World, strict: bool)
  {
    && (forall t :: t in w.strays ==> Unspent(w, t, strict))
    && match w.flight
       case Idle => w.refresh.Some? ==> Usable(w, w.refresh.value, strict)
       case Sent(t) => Usable(w, t, strict) && (w.refresh.Some? ==> Usable(w, w.refresh.value, strict))
       case Answered(p) =>
         && (p.Some? ==> Usable(w, p.value.refresh, strict))
         && (w.refresh.Some? ==> Known(w.server, w.mine, w.refresh.value) && Apart(w, w.refresh.value, strict))
  }

  ghost predicate Calm(w: World, strict: bool) { Blameless(w.server, w.mine, w.rotated) && TokensOk(w, strict) }

  // ---------------------------------------------------------------------------------------------
  // The server's side of each step
  // ---------------------------------------------------------------------------------------------

  lemma {:induction false} LoginBlameless(s: Server, mine: set<Sid>, rotated: set<Jti>, user: UserId, now: Instant,
                                          own: bool)
    requires Blameless(s, mine, rotated)
    ensures Blameless(Issued(s, user, now).0, if own then mine + {s.next} else mine, rotated)
  {
    DoKeeps(s, DoLogin(user, now));
    var g, after := Issued(s, user, now).0, if own then mine + {s.next} else mine;
    forall t | Known(g, after, t) && t.jti in g.black ensures t.jti in rotated || IsRevoked(g, t.sid.value) {
      assert t in s.minted;
      assert TokenOk(s, t);
      assert Known(s, mine, t);
    }
  }

  /** Presenting one of this tab's tokens, unless spent, unexpired and of a live session, rotates it or does nothing. */
  lemma {:induction false} UnspentPresented(s: Server, mine: set<Sid>, rotated: set<Jti>, t: Token, now: Instant)
    requires Blameless(s, mine, rotated) && Known(s, mine, t)
    requires (t.jti !in rotated || IsRevoked(s, t.sid.value) || t.exp <= now)
    ensures Refreshed(s, t, now).1.None? ==> Refreshed(s, t, now).0 == s
    ensures Refreshed(s, t, now).1.Some? ==>
      MayRefresh(s, t, now) && (Refreshed(s, t, now).0, Refreshed(s, t, now).1.value) == Rotated(s, t, now)
  {
  }

  lemma {:induction false} RotateBlameless(s: Server, mine: set<Sid>, rotated: set<Jti>, t: Token, now: Instant)
    requires Blameless(s, mine, rotated) && Known(s, mine, t) && MayRefresh(s, t, now)
    ensures Blameless(Rotated(s, t, now).0, mine, rotated + {t.jti})
  {
  }

  lemma {:induction false} OwnLogoutBlameless(s: Server, mine: set<Sid>, rotated: set<Jti>, t: Token, now: Instant)
    requires Blameless(s, mine, rotated) && t.sid.Some? && t.sid.value in mine
    ensures Blameless(LoggedOut(s, t, now), mine, rotated)
  {
  }

  lemma {:induction false} OthersRefreshBlameless(s: Server, mine: set<Sid>, rotated: set<Jti>, t: Token, now: Instant)
    requires Blameless(s, mine, rotated) && (t.sid.None? || t.sid.value !in mine)
    ensures Blameless(Refreshed(s, t, now).0, mine, rotated)
  {
    DoKeeps(s, DoRefresh(t, now));
    ReuseExactly(s, t, now);
    var g := Refreshed(s, t, now).0;
    forall u | Known(g, mine, u) && u.jti in g.black ensures u.jti in rotated || IsRevoked(g, u.sid.value) {
      OthersBlacklist(s, t, now, mine, u);
    }
  }

  lemma {:induction false} OthersBlacklist(s: Server, t: Token, now: Instant, mine: set<Sid>, u: Token)
    requires ServerOk(s) && (t.sid.None? || t.sid.value !in mine)
    requires Known(Refreshed(s, t, now).0, mine, u) && u.jti in Refreshed(s, t, now).0.black
    ensures Known(s, mine, u) && u.jti in s.black
  {
  }

  lemma {:induction false} OthersLogoutBlameless(s: Server, mine: set<Sid>, rotated: set<Jti>, t: Token, now: Instant)
    requires Blameless(s, mine, rotated) && (t.sid.None? || t.sid.value !in mine)
    ensures Blameless(LoggedOut(s, t, now), mine, rotated)
  {
  }

  // ---------------------------------------------------------------------------------------------
  // The tab's side of each step
  // ---------------------------------------------------------------------------------------------

  /** Nothing this tab holds goes stale when the server only mints more, revokes more, or changes for somebody else. */
  lemma {:induction false} StillUsable(w: World, g: World, strict: bool)
    requires forall t :: t in w.server.minted ==> t in g.server.minted
    requires forall sid :: IsRevoked(w.server, sid) ==> IsRevoked(g.server, sid)
    requires w.mine <= g.mine && g.rotated == w.rotated && g.strays == w.strays && w.clock <= g.clock
    ensures forall t :: Unspent(w, t, strict) ==> Unspent(g, t, strict)
    ensures forall t :: Apart(w, t, strict) ==> Apart(g, t, strict)
    ensures forall t :: Known(w.server, w.mine, t) ==> Known(g.server, g.mine, t)
  {
  }

  /** A token just minted has an id nobody has seen. */
  lemma {:induction false} NewToken(w: World, t: Token, strict: bool)
    requires Calm(w, strict) && t.jti == w.server.next
    ensures t.jti !in w.rotated && t !in w.strays
  {
    forall u | u in w.strays ensures u.jti < w.server.next {
      assert TokenOk(w.server, u);
    }
  }

  lemma {:induction false} SignInCalm(w: World, user: UserId, strict: bool)
    requires Calm(w, strict)
    ensures Calm(Next(w, SignIn(user)), strict)
  {
    hide Blameless, TokensOk, Unspent, Apart;
    var g, p := Next(w, SignIn(user)), Issued(w.server, user, w.clock).1;
    CalmParts(w, strict);
    LoginBlameless(w.server, w.mine, w.rotated, user, w.clock, true);
    LoginKeeps(w.server, user, w.clock);
    StillUsable(w, g, strict);
    NewToken(w, p.refresh, strict);
    NewUsable(g, p.refresh, strict);
    StoredAnew(w, g, strict);
  }

  lemma {:induction false} CalmParts(w: World, strict: bool)
    requires Calm(w, strict)
    ensures Blameless(w.server, w.mine, w.rotated) && TokensOk(w, strict) && ServerOk(w.server)
  {
  }

  lemma {:induction false} LoginKeeps(s: Server, user: UserId, now: Instant)
    requires ServerOk(s)
    ensures var g := Issued(s, user, now).0;
      && (forall t :: t in s.minted ==> t in g.minted)
      && (forall sid :: IsRevoked(s, sid) ==> IsRevoked(g, sid))
  {
  }

  lemma {:induction false} NewUsable(g: World, t: Token, strict: bool)
    requires Known(g.server, g.mine, t) && t.jti !in g.rotated && t !in g.strays
    ensures Usable(g, t, strict)
  {
  }

  /** Only the stored token changes, to a usable one. */
  lemma {:induction false} StoredAnew(w: World, g: World, strict: bool)
    requires TokensOk(w, strict) && g.flight == w.flight && g.strays == w.strays
    requires forall t :: Unspent(w, t, strict) ==> Unspent(g, t, strict)
    requires forall t :: Apart(w, t, strict) ==> Apart(g, t, strict)
    requires g.refresh.Some? && Usable(g, g.refresh.value, strict)
    ensures TokensOk(g, strict)
  {
  }

  lemma {:induction false} HandledBlameless(w: World, t: Token, strict: bool)
    requires Calm(w, strict) && Unspent(w, t, strict)
    ensures var g := Handled(w, t);
      && Blameless(g.server, g.mine, g.rotated)
      && (forall u :: Unspent(w, u, strict) && (u != t || Closed(w, t, strict)) ==> Unspent(g, u, strict))
      && (forall u :: Known(w.server, w.mine, u) ==> Known(g.server, g.mine, u))
      && (forall u :: Closed(w, u, strict) ==> Closed(g, u, strict))
      && (var r := Refreshed(w.server, t, w.clock).1; r.Some? ==>
          Unspent(g, r.value.refresh, strict) && r.value.refresh !in w.strays)
  {
    UnspentPresented(w.server, w.mine, w.rotated, t, w.clock);
    if Refreshed(w.server, t, w.clock).1.Some? {
      RotateBlameless(w.server, w.mine, w.rotated, t, w.clock);
      NewToken(w, Rotated(w.server, t, w.clock).1.refresh, strict);
      assert TokenOk(w.server, t);
    }
  }

  lemma {:induction false} ServeCalm(w: World, strict: bool)
    requires Calm(w, strict) && w.flight.Sent?
    ensures Calm(Next(w, Serve), strict)
  {
    hide Blameless, Refreshed;
    HandledBlameless(w, w.flight.token, strict);
  }

  lemma {:induction false} ServeStrayCalm(w: World, t: Token, strict: bool)
    requires Calm(w, strict) && t in w.strays
    ensures Calm(Next(w, ServeStray(t)), strict)
  {
    hide Blameless, Refreshed;
    HandledBlameless(w, t, strict);
  }

  lemma {:induction false} LocalCalm(w: World, a: Action, strict: bool)
    requires Calm(w, strict) && Enabled(w, a) && (a.Unauthorized? || a.Deliver? || a.Lose? || a.ClearLocal? || a.Wait?)
    ensures Calm(Next(w, a), strict)
  {
    hide Blameless;
  }

  /** A known token that has not expired and whose session is live may still be told from a closed one. */
  lemma {:induction false} LiveOrClosed(w: World, t: Token)
    requires Blameless(w.server, w.mine, w.rotated) && Known(w.server, w.mine, t)
    ensures (Active(w.server, t.sid) && w.clock < t.exp) || Closed(w, t, false)
    ensures t.jti in w.rotated ==> t.jti in w.server.black
  {
  }

  lemma {:induction false} ReloadCalm(w: World, strict: bool)
    requires Calm(w, strict) && !Risky(w, strict)
    ensures Calm(Next(w, Reload), strict)
  {
    if !strict && w.refresh.Some? && !w.flight.Idle? {
      LiveOrClosed(w, w.refresh.value);
    }
    hide Blameless;
  }

  lemma {:induction false} LogoutKeeps(s: Server, t: Token, now: Instant)
    ensures LoggedOut(s, t, now).minted == s.minted
    ensures forall sid :: IsRevoked(s, sid) ==> IsRevoked(LoggedOut(s, t, now), sid)
  {
  }

  lemma {:induction false} OthersKeep(s: Server, op: Op)
    requires ServerOk(s)
    ensures forall t :: t in s.minted ==> t in Do(s, op).minted
    ensures forall sid :: IsRevoked(s, sid) ==> IsRevoked(Do(s, op), sid)
  {
  }

  lemma {:induction false} OutsideCalm(w: World, a: Action, strict: bool)
    requires Calm(w, strict) && Enabled(w, a) && (a.SignOutRequest? || a.Others?)
    ensures Calm(Next(w, a), strict)
  {
    hide Blameless, Unspent, Apart, Do, LoggedOut;
    var g := Next(w, a);
    CalmParts(w, strict);
    match a {
      case SignOutRequest(t) =>
        OwnLogoutBlameless(w.server, w.mine, w.rotated, t, w.clock);
        LogoutKeeps(w.server, t, w.clock);
      case Others(op) =>
        OthersKeep(w.server, op);
        OthersBlameless(w.server, w.mine, w.rotated, op);
    }
    StillUsable(w, g, strict);
  }

  lemma {:induction false} OthersBlameless(s: Server, mine: set<Sid>, rotated: set<Jti>, op: Op)
    requires Blameless(s, mine, rotated) && (op.DoLogin? || op.token.sid.None? || op.token.sid.value !in mine)
    ensures Blameless(Do(s, op), mine, rotated)
  {
    match op {
      case DoLogin(user, now) => LoginBlameless(s, mine, rotated, user, now, false);
      case DoRefresh(t, now) => OthersRefreshBlameless(s, mine, rotated, t, now);
      case DoLogout(t, now) => OthersLogoutBlameless(s, mine, rotated, t, now);
    }
  }

  lemma {:induction false} StepCalm(w: World, a: Action, strict: bool)
    requires Calm(w, strict) && Enabled(w, a) && (a.Reload? ==> !Risky(w, strict))
    ensures Calm(Next(w, a), strict)
  {
    hide Calm;
    match a {
      case SignIn(user) => SignInCalm(w, user, strict);
      case Serve => ServeCalm(w, strict);
      case ServeStray(t) => ServeStrayCalm(w, t, strict);
      case SignOutRequest(_) => OutsideCalm(w, a, strict);
      case Others(_) => OutsideCalm(w, a, strict);
      case Reload => ReloadCalm(w, strict);
      case _ => LocalCalm(w, a, strict);
    }
  }

  lemma {:induction false} StaysCalm(acts: seq<Action>, n: nat, strict: bool)
    requires Legal(acts) && n <= |acts| && Legal(acts[..n]) && Calm(After(acts[..n]), strict)
    requires Undisturbed(acts, n, strict)
    ensures Calm(After(acts), strict)
  {
    hide Calm;
    if n == |acts| {
      assert acts[..n] == acts;
    } else {
      var earlier := acts[..|acts| - 1];
      assert earlier[..n] == acts[..n];
      StaysCalm(earlier, n, strict);
      StepCalm(After(earlier), acts[|acts| - 1], strict);
    }
  }

  lemma {:induction false} AlwaysCalm(acts: seq<Action>, strict: bool)
    requires Legal(acts) && Undisturbed(acts, 0, strict)
    ensures Calm(After(acts), strict)
  {
    assert acts[..0] == [];
    StaysCalm(acts, 0, strict);
  }

  ghost predicate Accused(w: World) { exists sid :: sid in w.mine && sid in w.server.alarms }

  /**
   * However many requests come back 401 at once, whatever is lost on the wire and whatever everybody else
   * does: unless the page is reloaded in the middle of a refresh, the tab never presents a token it has had
   * rotated. Unless such a reload leaves a live session's stored token to be spent behind its back, reuse
   * detection never fires on one of its sessions, and none is revoked but by signing out.
   */
  lemma {:induction false} NeverMistakenForThief(acts: seq<Action>)
    requires Legal(acts)
    ensures var w := After(acts);
      && (Undisturbed(acts, 0, true) ==>
          && (w.flight.Sent? ==> w.flight.token.jti !in w.rotated)
          && (forall t :: t in w.strays ==> t.jti !in w.rotated))
      && (Undisturbed(acts, 0, false) ==>
          && !Accused(w)
          && (forall sid :: sid in w.mine && IsRevoked(w.server, sid) ==>
              w.server.sessions[sid].reason == Some(LoggedOutByUser)))
  {
    if Undisturbed(acts, 0, true) {
      AlwaysCalm(acts, true);
    }
    if Undisturbed(acts, 0, false) {
      AlwaysCalm(acts, false);
    }
  }

  // ---------------------------------------------------------------------------------------------
  // Exactly which reloads are harmful
  // ---------------------------------------------------------------------------------------------

  /** One more action; anything but a reload leaves a run as undisturbed as it was. */
  lemma {:induction false} Extend(acts: seq<Action>, w: World, a: Action, n: nat) returns (more: seq<Action>, g: World)
    requires Legal(acts) && After(acts) == w && Enabled(w, a)
    ensures more == acts + [a] && Legal(more) && g == Next(w, a) && After(more) == g
    ensures !a.Reload? && Undisturbed(acts, n, false) ==> Undisturbed(more, n, false)
  {
    more, g := acts + [a], Next(w, a);
    assert more[..|acts|] == acts;
  }

  /** With the page reloaded after these actions, this is one way things can go on, no other reload being to blame. */
  ghost predicate AccusedLater(acts: seq<Action>, more: seq<Action>)
  {
    && Legal(acts + [Reload] + more)
    && Undisturbed(acts + [Reload] + more, |acts| + 1, false)
    && Accused(After(acts + [Reload] + more))
  }

  lemma {:induction false} ReloadNow(acts: seq<Action>, w: World) returns (run: seq<Action>, g: World)
    requires Legal(acts) && After(acts) == w
    ensures run == acts + [Reload] && Legal(run) && g == Next(w, Reload) && After(run) == g
    ensures Undisturbed(run, |acts| + 1, false)
  {
    run, g := Extend(acts, w, Reload, 0);
  }

  /** The stored token has been spent in a live session and no refresh is under way: the next 401 gives the tab away. */
  predicate Doomed(w: World)
  {
    && w.flight.Idle? && w.refresh.Some? && Known(w.server, w.mine, w.refresh.value)
    && w.refresh.value.jti in w.server.black && Active(w.server, w.refresh.value.sid) && w.clock < w.refresh.value.exp
  }

  lemma {:induction false} Presented(acts: seq<Action>, w: World, n: nat) returns (run: seq<Action>)
    requires Legal(acts) && After(acts) == w && Undisturbed(acts, n, false) && Doomed(w)
    ensures acts <= run && Legal(run) && Undisturbed(run, n, false) && Accused(After(run))
  {
    hide After, Legal, Undisturbed;
    var g;
    var t := w.refresh.value;
    run, g := Extend(acts, w, Unauthorized, n);
    ReuseExactly(g.server, t, g.clock);
    run, g := Extend(run, g, Serve, n);
    assert t.sid.value in g.mine && g.server.alarms[|w.server.alarms|] == t.sid.value;
  }

  /** A refresh nobody waits for any more can still be served, and spends the token the tab has kept. */
  lemma {:induction false} StrayServed(w: World, t: Token)
    requires Calm(w, false) && Exposed(w) && w.flight == Sent(t)
    ensures t in Next(w, Reload).strays
    ensures Doomed(Next(Next(w, Reload), ServeStray(t)))
  {
  }

  lemma {:induction false} ServedAlready(w: World)
    requires Calm(w, false) && Exposed(w) && w.flight.Answered?
    ensures Doomed(Next(w, Reload))
  {
  }

  lemma {:induction false} ExposedReload(acts: seq<Action>, w: World) returns (run: seq<Action>)
    requires Legal(acts) && After(acts) == w && Calm(w, false) && Exposed(w)
    ensures acts + [Reload] <= run && Legal(run) && Undisturbed(run, |acts| + 1, false) && Accused(After(run))
  {
    hide After, Legal, Undisturbed, Calm, Doomed, Next;
    var g;
    var reloaded;
    reloaded, g := ReloadNow(acts, w);
    run := reloaded;
    if w.flight.Sent? {
      var t := w.flight.token;
      StrayServed(w, t);
      run, g := Extend(reloaded, g, ServeStray(t), |acts| + 1);
    } else {
      ServedAlready(w);
    }
    run := Presented(run, g, |acts| + 1);
  }

  /**
   * Exactly which reloads are harmful. In any run without a harmful reload so far, reloading the page now can
   * get the tab accused of replaying its own token if and only if a refresh of the stored token is on the wire
   * or has been served, the session is live and the token has not expired.
   */
  lemma {:induction false} HarmfulExactly(acts: seq<Action>)
    requires Legal(acts) && Undisturbed(acts, 0, false)
    ensures (exists more :: AccusedLater(acts, more)) <==> Exposed(After(acts))
  {
    hide Calm, After, Legal, Undisturbed, Accused, Exposed, Next;
    AlwaysCalm(acts, false);
    var w := After(acts);
    if Exposed(w) {
      var run := ExposedReload(acts, w);
      assert acts + [Reload] + run[|acts| + 1..] == run;
      assert AccusedLater(acts, run[|acts| + 1..]);
    } else {
      var reloaded, g := ReloadNow(acts, w);
      ReloadCalm(w, false);
      forall more ensures !AccusedLater(acts, more) {
        HarmlessReload(acts, more);
      }
    }
  }

  lemma {:induction false} HarmlessReload(acts: seq<Action>, more: seq<Action>)
    requires Legal(acts) && Legal(acts + [Reload]) && Calm(After(acts + [Reload]), false)
    ensures !AccusedLater(acts, more)
  {
    var run := acts + [Reload] + more;
    if Legal(run) && Undisturbed(run, |acts| + 1, false) {
      assert run[..|acts| + 1] == acts + [Reload];
      StaysCalm(run, |acts| + 1, false);
    }
  }

  lemma {:induction false} FirstRefresh(user: UserId)
    ensures Exposed(Next(Next(INITIAL, SignIn(user)), Unauthorized))
  {
  }

  lemma {:induction false} Opened() returns (w: World)
    ensures Legal([]) && Undisturbed([], 0, false) && After([]) == w && w == INITIAL
  {
    w := INITIAL;
  }

  /**
   * Such a state is reached by signing in and getting one 401: reload before the refresh is answered, and the
   * tab's own session can be taken from it.
   */
  lemma {:induction false} ReloadMidRefresh(user: UserId) returns (acts: seq<Action>, more: seq<Action>)
    ensures Legal(acts) && Undisturbed(acts, 0, false) && AccusedLater(acts, more)
  {
    hide After, Legal, Undisturbed, AccusedLater, Next, Exposed;
    FirstRefresh(user);
    var w := Opened();
    acts, w := Extend([], w, SignIn(user), 0);
    acts, w := Extend(acts, w, Unauthorized, 0);
    HarmfulExactly(acts);
    more :| AccusedLater(acts, more);
  }
}
