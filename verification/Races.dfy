/**
 * Refreshes taken apart: a request checks its token and session, checks the token again, and only then rotates
 * it (backend/identity/serializers.py, backend/identity/services.py). Other requests run in between.
 */
module RacingRefreshes {
  import opened Journal
  import opened Sessions
  import opened Wrappers

  /**
   * `checked` are requests past the first check and the session check, `pending` those past the second check
   * too. `late` records the refresh tokens minted after their session had been closed.
   */
  datatype Race = Race(
    clock: Instant, server: Server, checked: map<nat, Token>, pending: map<nat, Token>, late: set<Token>)

  datatype Action =
    | Tick(until: Instant)
    | Check(id: nat, token: Token)
    | Recheck(id: nat)
    | Finish(id: nat)
    | Login(user: UserId)
    | SignOut(token: Token)

  const INITIAL := Race(0, Server(map[], [], {}, [], 0), map[], map[], {})

  predicate Enabled(r: Race, a: Action)
  {
    match a
    case Tick(until) => r.clock <= until
    case Check(id, _) => id !in r.checked && id !in r.pending
    case Recheck(id) => id in r.checked && id !in r.pending
    case Finish(id) => id in r.pending
    case _ => true
  }

  function Without(m: map<nat, Token>, id: nat): map<nat, Token> { map x | x in m && x != id :: m[x] }

  function Next(r: Race, a: Action): Race
    requires Enabled(r, a)
  {
    match a
    case Tick(until) => r.(clock := until)
    case Check(id, t) =>
      if MayRefresh(r.server, t, r.clock) then r.(checked := r.checked[id := t])
      else if Accepts(r.server, t, r.clock) then r
      else r.(server := AfterReuse(r.server, t, r.clock))
    case Recheck(id) =>
      var t := r.checked[id];
      r.(checked := Without(r.checked, id),
         pending := if Accepts(r.server, t, r.clock) then r.pending[id := t] else r.pending)
    case Finish(id) =>
      var t := r.pending[id];
      var (s, p) := Rotated(r.server, t, r.clock);
      r.(server := s, pending := Without(r.pending, id),
         late := if Active(r.server, t.sid) then r.late else r.late + {p.refresh})
    case Login(user) => r.(server := Issued(r.server, user, r.clock).0)
    case SignOut(t) => r.(server := LoggedOut(r.server, t, r.clock))
  }

  predicate Legal(acts: seq<Action>)
    decreases |acts|, 0
  {
    acts == [] || (Legal(acts[..|acts| - 1]) && Enabled(After(acts[..|acts| - 1]), acts[|acts| - 1]))
  }

  function After(acts: seq<Action>): Race
    requires Legal(acts)
    decreases |acts|, 1
  {
    if acts == [] then INITIAL else Next(After(acts[..|acts| - 1]), acts[|acts| - 1])
  }

  // ---------------------------------------------------------------------------------------------
  // The invariant
  // ---------------------------------------------------------------------------------------------

  ghost predicate IdsOk(s: Server)
  {
    && (forall t :: t in s.minted ==> TokenOk(s, t))
    && (forall t, u :: t in s.minted && u in s.minted && t.jti == u.jti ==> t == u)
    && (forall j :: j in s.black ==> j < s.next)
    && (forall sid :: sid in s.sessions ==> sid < s.next)
  }

  /** A refresh token of a known session. */
  predicate Refreshable(s: Server, t: Token) { t in s.minted && t.kind == RefreshKind && t.sid.Some? }

  ghost predicate Underway(s: Server, m: map<nat, Token>) { forall id :: id in m ==> Refreshable(s, m[id]) }

  /** Minted after its session was closed, and so good for longer than the session was. */
  ghost predicate IsLate(s: Server, t: Token)
  {
    Refreshable(s, t) && IsRevoked(s, t.sid.value) && s.sessions[t.sid.value].revokedAt.value < t.exp
  }

  ghost predicate RaceOk(r: Race)
  {
    && IdsOk(r.server)
    && (forall sid :: IsRevoked(r.server, sid) ==> r.server.sessions[sid].revokedAt.value <= r.clock)
    && (forall t :: t in r.server.minted ==> Buried(r.server, t) || t in r.late)
    && (forall t :: t in r.late ==> IsLate(r.server, t))
    && Underway(r.server, r.checked) && Underway(r.server, r.pending)
  }

  lemma {:induction false} RevokeRace(r: Race, sid: Sid, why: RevokeReason)
    requires RaceOk(r)
    ensures RaceOk(r.(server := Revoked(r.server, sid, why, r.clock)))
  {
    var s, g := r.server, Revoked(r.server, sid, why, r.clock);
    forall t | t in g.minted ensures TokenOk(g, t) && (Buried(g, t) || t in r.late) {
      assert TokenOk(s, t);
    }
  }

  /** The blacklist and the alarms can grow without harm. */
  lemma {:induction false} BlackRace(r: Race, black: set<Jti>, alarms: seq<Sid>)
    requires RaceOk(r) && r.server.black <= black && forall j :: j in black ==> j < r.server.next
    ensures RaceOk(r.(server := r.server.(black := black, alarms := alarms)))
  {
    var s, g := r.server, r.server.(black := black, alarms := alarms);
    forall t | t in g.minted ensures TokenOk(g, t) && (Buried(g, t) || t in r.late) {
      assert TokenOk(s, t) && (Buried(s, t) || t in r.late);
    }
  }

  lemma {:induction false} CheckRace(r: Race, id: nat, t: Token)
    requires RaceOk(r) && Enabled(r, Check(id, t))
    ensures RaceOk(Next(r, Check(id, t)))
  {
    if !Accepts(r.server, t, r.clock) && AfterReuse(r.server, t, r.clock) != r.server {
      var alarmed := r.server.alarms + [t.sid.value];
      BlackRace(r, r.server.black, alarmed);
      RevokeRace(r.(server := r.server.(alarms := alarmed)), t.sid.value, ReuseDetected);
    }
  }

  /** A new pair, minted for a session that is known. */
  lemma {:induction false} MintRace(r: Race, t: Token)
    requires RaceOk(r) && Refreshable(r.server, t)
    ensures var (s, p) := Rotated(r.server, t, r.clock);
      RaceOk(r.(server := s, late := if Active(r.server, t.sid) then r.late else r.late + {p.refresh}))
  {
    var s := r.server;
    var (g, p) := Rotated(r.server, t, r.clock);
    assert TokenOk(s, t);
    forall u | u in g.minted ensures u in s.minted || u == p.refresh || u == p.access {
    }
    forall u | u in s.minted ensures u.jti < s.next && TokenOk(g, u) && (Buried(g, u) || u in r.late) {
      assert TokenOk(s, u) && (Buried(s, u) || u in r.late);
    }
  }

  lemma {:induction false} LoginRace(r: Race, user: UserId)
    requires RaceOk(r)
    ensures RaceOk(Next(r, Login(user)))
  {
    var s := r.server;
    var (g, p) := Issued(r.server, user, r.clock);
    forall u | u in g.minted ensures u in s.minted || u == p.refresh || u == p.access {
    }
    forall u | u in s.minted ensures u.jti < s.next && TokenOk(g, u) && (Buried(g, u) || u in r.late) {
      assert TokenOk(s, u) && (Buried(s, u) || u in r.late);
    }
  }

  lemma {:induction false} SignOutRace(r: Race, t: Token)
    requires RaceOk(r)
    ensures RaceOk(Next(r, SignOut(t)))
  {
    if Accepts(r.server, t, r.clock) {
      assert TokenOk(r.server, t);
      var black := r.server.black + {t.jti};
      BlackRace(r, black, r.server.alarms);
      if t.sid.Some? {
        RevokeRace(r.(server := r.server.(black := black)), t.sid.value, LoggedOutByUser);
      }
    }
  }

  lemma {:induction false} StepRace(r: Race, a: Action)
    requires RaceOk(r) && Enabled(r, a)
    ensures RaceOk(Next(r, a))
  {
    match a {
      case Tick(_) =>
      case Check(id, t) => CheckRace(r, id, t);
      case Recheck(_) =>
      case Finish(id) => MintRace(r, r.pending[id]);
      case Login(user) => LoginRace(r, user);
      case SignOut(t) => SignOutRace(r, t);
    }
  }

  lemma {:induction false} AlwaysRaceOk(acts: seq<Action>)
    requires Legal(acts)
    ensures RaceOk(After(acts))
  {
    if acts == [] {
    } else {
      var n := |acts| - 1;
      AlwaysRaceOk(acts[..n]);
      StepRace(After(acts[..n]), acts[n]);
    }
  }

  // ---------------------------------------------------------------------------------------------
  // What survives the race, and what does not
  // ---------------------------------------------------------------------------------------------

  lemma {:induction false} StillRevoked(r: Race, a: Action, sid: Sid)
    requires RaceOk(r) && Enabled(r, a) && IsRevoked(r.server, sid)
    ensures IsRevoked(Next(r, a).server, sid)
  {
  }

  lemma {:induction false} RevokedForGood(acts: seq<Action>, n: nat, sid: Sid)
    requires Legal(acts) && n <= |acts| && Legal(acts[..n]) && IsRevoked(After(acts[..n]).server, sid)
    ensures IsRevoked(After(acts).server, sid)
  {
    if n == |acts| {
      assert acts[..n] == acts;
    } else {
      var earlier := acts[..|acts| - 1];
      assert earlier[..n] == acts[..n];
      RevokedForGood(earlier, n, sid);
      AlwaysRaceOk(earlier);
      StillRevoked(After(earlier), acts[|acts| - 1], sid);
    }
  }

  /**
   * The family dies in every interleaving. Once a request presents a blacklisted token of a live session, no
   * token of that session is accepted by any check from then on, not even one that a refresh already under way
   * goes on to mint.
   */
  lemma {:induction false} FamilyDiesRacing(acts: seq<Action>, n: nat, u: Token, when: Instant)
    requires Legal(acts) && n < |acts| && Legal(acts[..n]) && acts[n].Check?
    requires var r, t := After(acts[..n]), acts[n].token;
      Verifies(r.server, t, r.clock) && t.jti in r.server.black && Active(r.server, t.sid) && u.sid == t.sid
    ensures !MayRefresh(After(acts).server, u, when) && !Authenticates(After(acts).server, u, when)
  {
    LegalUpTo(acts, n + 1);
    assert acts[..n + 1][..n] == acts[..n];
    RevokedForGood(acts, n + 1, acts[n].token.sid.value);
  }

  lemma {:induction false} LegalUpTo(acts: seq<Action>, n: nat)
    requires Legal(acts) && n <= |acts|
    ensures Legal(acts[..n])
    decreases |acts|
  {
    if n == |acts| {
      assert acts[..n] == acts;
    } else {
      LegalUpTo(acts[..|acts| - 1], n);
      assert acts[..|acts| - 1][..n] == acts[..n];
    }
  }

  /**
   * The blacklist alone does not bury a family. In every interleaving, a refresh token of a closed session that
   * the blacklist would still let through, and that was good for longer than the session, is exactly one minted
   * by a refresh already under way when the session was closed.
   */
  lemma {:induction false} EscapesExactly(acts: seq<Action>, t: Token)
    requires Legal(acts)
    requires var s := After(acts).server; Refreshable(s, t) && IsRevoked(s, t.sid.value) && t.jti !in s.black
    ensures After(acts).server.sessions[t.sid.value].revokedAt.value < t.exp <==> t in After(acts).late
  {
    AlwaysRaceOk(acts);
    var r := After(acts);
    assert Buried(r.server, t) || t in r.late;
  }

  lemma {:induction false} Extend(acts: seq<Action>, r: Race, a: Action) returns (more: seq<Action>)
    requires Legal(acts) && After(acts) == r && Enabled(r, a)
    ensures more == acts + [a] && Legal(more) && After(more) == Next(r, a)
  {
    more := acts + [a];
    assert more[..|acts|] == acts;
  }

  /** One login, whose refresh token a request has carried past all its checks. */
  lemma {:induction false} OnePending(user: UserId) returns (acts: seq<Action>, r: Race, t: Token)
    ensures Legal(acts) && After(acts) == r && r == PendingRace(user) && t == r.pending[0]
  {
    hide After, Legal;
    acts, r := Start();
    acts := Extend(acts, r, Login(user));
    r := Next(r, Login(user));
    t := PairFor(Some(0), user, 0, 0).refresh;
    assert r.server.minted == [t, PairFor(Some(0), user, 0, 0).access] && Active(r.server, t.sid);
    assert t in r.server.minted;
    acts := Extend(acts, r, Check(0, t));
    r := Next(r, Check(0, t));
    acts := Extend(acts, r, Recheck(0));
    r := Next(r, Recheck(0));
    assert r.checked == map[] && r.pending == map[0 := t];
  }

  lemma {:induction false} Start() returns (acts: seq<Action>, r: Race)
    ensures Legal(acts) && After(acts) == r && r == INITIAL && acts == []
  {
    acts, r := [], INITIAL;
  }

  function PendingRace(user: UserId): Race
  {
    var p := PairFor(Some(0), user, 0, 0);
    var s := Server(map[0 := AuthSession(user, None, None)], [p.refresh, p.access], {}, [], 2);
    Race(0, s, map[], map[0 := p.refresh], {})
  }

  /** Sign out while a refresh is past its checks: its successor is minted on the closed session, not blacklisted. */
  lemma {:induction false} SuccessorEscapes(user: UserId) returns (acts: seq<Action>, u: Token)
    ensures Legal(acts) && Accepts(After(acts).server, u, After(acts).clock)
    ensures u.sid == Some(0) && IsRevoked(After(acts).server, 0) && u in After(acts).late
  {
    hide After, Legal;
    var r, t;
    acts, r, t := OnePending(user);
    assert t in r.server.minted;
    acts := Extend(acts, r, SignOut(t));
    r := Next(r, SignOut(t));
    assert r.pending[0] == t && r.server.next == 2 && IsRevoked(r.server, 0);
    u := PairFor(t.sid, user, 0, 2).refresh;
    var black := r.server.black;
    assert forall j :: j in black ==> j < 2;
    acts := Extend(acts, r, Finish(0));
    r := Next(r, Finish(0));
    assert r.server.minted[2] == u;
  }

  /** A token once spent gets through neither check, so only requests past both before that can spend it again. */
  lemma {:induction false} SpentIsStopped(r: Race, id: nat, t: Token)
    requires t.jti in r.server.black
    ensures Enabled(r, Check(id, t)) ==> id !in Next(r, Check(id, t)).checked && id !in Next(r, Check(id, t)).pending
    ensures Enabled(r, Recheck(id)) && r.checked[id] == t ==>
      id !in Next(r, Recheck(id)).checked && id !in Next(r, Recheck(id)).pending
    ensures Enabled(r, Finish(id)) && r.pending[id] == t ==> id !in Next(r, Finish(id)).pending
  {
  }

  /** Two requests past their checks with one token both succeed: two live successors, and no alarm. */
  lemma {:induction false} TwinSuccessors(user: UserId) returns (acts: seq<Action>, u: Token, v: Token)
    ensures Legal(acts) && u != v && After(acts).server.alarms == []
    ensures MayRefresh(After(acts).server, u, After(acts).clock) && MayRefresh(After(acts).server, v, After(acts).clock)
  {
    hide After, Legal;
    var r, t;
    acts, r, t := OnePending(user);
    assert t in r.server.minted;
    acts := Extend(acts, r, Check(1, t));
    r := Next(r, Check(1, t));
    acts := Extend(acts, r, Recheck(1));
    r := Next(r, Recheck(1));
    assert r.pending[0] == t && r.pending[1] == t;
    u, v := PairFor(t.sid, user, 0, 2).refresh, PairFor(t.sid, user, 0, 4).refresh;
    acts := Extend(acts, r, Finish(0));
    r := Next(r, Finish(0));
    assert r.server.minted[2] == u && r.server.black == {0};
    acts := Extend(acts, r, Finish(1));
    r := Next(r, Finish(1));
    assert r.server.minted[2] == u && r.server.minted[4] == v && r.server.black == {0};
  }
}

/**
 * Placements taken apart: a keyed request looks its token up, scoped to its user, and only then inserts its row
 * against the unique index (backend/trading/services.py). Requests for one token run side by side.
 */
module RacingPlacements {
  import opened Journal
  import opened Orders
  import opened Wrappers

  datatype Pc = Looking | Inserting | Answered(result: Result<OrderId, PlaceError>)

  /** `seen` are the orders there were when the request looked its token up. */
  datatype Proc = Proc(pk: OrderId, ask: Ask, pc: Pc, seen: set<OrderId>)

  datatype State = State(orders: map<OrderId, Order>, procs: map<nat, Proc>)

  datatype Action =
    | Arrive(id: nat, pk: OrderId, ask: Ask)
    | Look(id: nat)
    | Insert(id: nat)
    | Move(o: OrderId, now: Order)   // the order is filled, cancelled or rejected meanwhile

  const INITIAL := State(map[], map[])

  /** Keys of rows to come are fresh, and only keyed requests that passed the argument checks are followed. */
  predicate Enabled(s: State, a: Action)
  {
    match a
    case Arrive(id, pk, ask) =>
      id !in s.procs && ask.token.Some? && pk !in s.orders && forall x :: x in s.procs ==> s.procs[x].pk != pk
    case Look(id) => id in s.procs && s.procs[id].pc == Looking
    case Insert(id) => id in s.procs && s.procs[id].pc == Inserting
    case Move(o, now) => o in s.orders && SameIdentity(s.orders[o], now)
  }

  predicate Holds(orders: map<OrderId, Order>, o: OrderId, ask: Ask)
  {
    o in orders && ask.token.Some? && orders[o].token == ask.token
  }

  predicate SameDigest(o: Order, p: Proc) { o.digest == Some(OrderDigest(TicketOf(p.ask, p.pk))) }

  ghost function Next(s: State, a: Action): State
    requires Enabled(s, a)
  {
    match a
    case Arrive(id, pk, ask) => s.(procs := s.procs[id := Proc(pk, ask, Looking, {})])
    case Look(id) =>
      var p := s.procs[id].(seen := s.orders.Keys);
      s.(procs := s.procs[id := p.(pc :=
        if o :| Holds(s.orders, o, p.ask) && s.orders[o].ticket.user == p.ask.user
        then Answered(if SameDigest(s.orders[o], p) then Success(o) else Failure(KeyTaken))
        else Inserting)])
    case Insert(id) =>
      var p := s.procs[id];
      if o :| Holds(s.orders, o, p.ask) then s.(procs := s.procs[id := p.(pc := Answered(Failure(KeyTaken)))])
      else
        State(s.orders[p.pk := NewOrder(p.ask, p.pk)], s.procs[id := p.(pc := Answered(Success(p.pk)))])
    case Move(o, now) => s.(orders := s.orders[o := now])
  }

  ghost predicate Legal(acts: seq<Action>)
    decreases |acts|, 0
  {
    acts == [] || (Legal(acts[..|acts| - 1]) && Enabled(After(acts[..|acts| - 1]), acts[|acts| - 1]))
  }

  ghost function After(acts: seq<Action>): State
    requires Legal(acts)
    decreases |acts|, 1
  {
    if acts == [] then INITIAL else Next(After(acts[..|acts| - 1]), acts[|acts| - 1])
  }

  /** The one row under a token is the row of the request that created it. */
  ghost predicate RowsOk(s: State)
  {
    && (forall a, b, ask :: Holds(s.orders, a, ask) && Holds(s.orders, b, ask) ==> a == b)
    && (forall o, ask :: Holds(s.orders, o, ask) ==> s.orders[o].digest == Some(OrderDigest(s.orders[o].ticket)))
  }

  ghost predicate ProcsOk(s: State)
  {
    && (forall x :: x in s.procs ==> s.procs[x].ask.token.Some? && s.procs[x].seen <= s.orders.Keys)
    && (forall x, y :: x in s.procs && y in s.procs && s.procs[x].pk == s.procs[y].pk ==> x == y)
    && (forall x :: x in s.procs ==> s.procs[x].pk !in s.procs[x].seen)
    && (forall x :: x in s.procs && s.procs[x].pk in s.orders ==> s.procs[x].pc == Answered(Success(s.procs[x].pk)))
  }

  /** A request that looked and found nothing of its own knows of no row of its own user's under the token. */
  ghost predicate LookedOk(s: State, p: Proc)
  {
    p.pc == Inserting ==> forall o :: Holds(s.orders, o, p.ask) && s.orders[o].ticket.user == p.ask.user ==>
      o !in p.seen
  }

  /**
   * What an answered request was told: its own row if it created it; otherwise the holder's row exactly when
   * that row was there at the lookup and asks for the same, and a conflict in every other case.
   */
  ghost predicate Told(s: State, p: Proc)
  {
    p.pc.Answered? ==>
      exists o: OrderId :: Holds(s.orders, o, p.ask)
        && p.pc.result == if o == p.pk
            || (o in p.seen && SameDigest(s.orders[o], p)) then Success(o) else Failure(KeyTaken)
  }

  ghost predicate RaceOk(s: State)
  {
    RowsOk(s) && ProcsOk(s) && forall x :: x in s.procs ==> LookedOk(s, s.procs[x]) && Told(s, s.procs[x])
  }

  predicate SameIdentity(o: Order, now: Order)
  {
    now.ticket == o.ticket && now.token == o.token && now.digest == o.digest
  }

  /** Rows stay, with ticket, token and digest; new rows are of tokens nobody held. */
  ghost predicate Kept(s: State, g: State)
  {
    && (forall o :: o in s.orders ==> o in g.orders && SameIdentity(s.orders[o], g.orders[o]))
    && (forall o, ask :: Holds(g.orders, o, ask) && o !in s.orders ==> forall x :: !Holds(s.orders, x, ask))
  }

  lemma {:induction false} OthersTold(s: State, g: State, p: Proc)
    requires RowsOk(s) && Kept(s, g) && LookedOk(s, p) && Told(s, p) && p.seen <= s.orders.Keys
    ensures LookedOk(g, p) && Told(g, p)
  {
    forall o | Holds(g.orders, o, p.ask) ensures Holds(s.orders, o, p.ask) || o !in s.orders {
    }
    if p.pc.Answered? {
      var o :| Holds(s.orders, o, p.ask)
        && p.pc.result == if o == p.pk
            || (o in p.seen && SameDigest(s.orders[o], p)) then Success(o) else Failure(KeyTaken);
      assert Holds(g.orders, o, p.ask);
    }
  }

  lemma {:induction false} OrdersKept(s: State, a: Action)
    requires RowsOk(s) && ProcsOk(s) && Enabled(s, a)
    ensures Kept(s, Next(s, a)) && RowsOk(Next(s, a))
  {
    var g := Next(s, a);
    match a {
      case Move(o, now) =>
        forall x, ask | Holds(g.orders, x, ask) ensures Holds(s.orders, x, ask) {
        }
      case Insert(id) =>
        var p := s.procs[id];
        assert p.pk !in s.orders;
        forall x, ask | Holds(g.orders, x, ask) && x != p.pk ensures Holds(s.orders, x, ask) {
        }
        forall x, ask | Holds(s.orders, x, ask) && ask.token == p.ask.token ensures Holds(s.orders, x, p.ask) {
        }
      case _ =>
    }
  }

  lemma {:induction false} ProcsKept(s: State, a: Action)
    requires ProcsOk(s) && Enabled(s, a)
    ensures ProcsOk(Next(s, a))
  {
    var g := Next(s, a);
    if a.Look? || a.Insert? {
      OneProcMoves(s, g, a.id);
    }
  }

  lemma {:induction false} OneProcMoves(s: State, g: State, id: nat)
    requires ProcsOk(s) && id in s.procs && id in g.procs && g.procs == s.procs[id := g.procs[id]]
    requires g.procs[id].pk == s.procs[id].pk && g.procs[id].ask == s.procs[id].ask
    requires g.procs[id].seen <= s.orders.Keys && s.procs[id].pk !in s.orders
    requires g.orders.Keys == s.orders.Keys
          || (g.orders.Keys == s.orders.Keys + {s.procs[id].pk} && g.procs[id].pc == Answered(Success(s.procs[id].pk)))
    ensures ProcsOk(g)
  {
  }

  /** A digest names its user, so the row behind an equal digest is always the user's own. */
  lemma {:induction false} LookAnswers(s: State, id: nat)
    requires RaceOk(s) && Enabled(s, Look(id))
    ensures LookedOk(Next(s, Look(id)), Next(s, Look(id)).procs[id])
    ensures Told(Next(s, Look(id)), Next(s, Look(id)).procs[id])
  {
    var g := Next(s, Look(id));
    var p := g.procs[id];
    if p.pc.Answered? {
      var o :| Holds(s.orders, o, p.ask) && s.orders[o].ticket.user == p.ask.user;
      assert o in p.seen && s.procs[id].pk !in s.orders;
      assert Holds(g.orders, o, p.ask);
    }
  }

  lemma {:induction false} InsertAnswers(s: State, id: nat)
    requires RaceOk(s) && Enabled(s, Insert(id))
    ensures LookedOk(Next(s, Insert(id)), Next(s, Insert(id)).procs[id])
    ensures Told(Next(s, Insert(id)), Next(s, Insert(id)).procs[id])
  {
    var g := Next(s, Insert(id));
    var p := s.procs[id];
    assert LookedOk(s, p) && p.pk !in s.orders;
    if o :| Holds(s.orders, o, p.ask) {
      assert SameDigest(s.orders[o], p) ==> s.orders[o].ticket.user == p.ask.user;
      assert Holds(g.orders, o, p.ask) && o != p.pk;
    } else {
      assert Holds(g.orders, p.pk, p.ask);
    }
  }

  lemma {:induction false} StepRace(s: State, a: Action)
    requires RaceOk(s) && Enabled(s, a)
    ensures RaceOk(Next(s, a))
  {
    var g := Next(s, a);
    OrdersKept(s, a);
    ProcsKept(s, a);
    forall x | x in g.procs ensures LookedOk(g, g.procs[x]) && Told(g, g.procs[x]) {
      if a.Look? && a.id == x {
        LookAnswers(s, x);
      } else if a.Insert? && a.id == x {
        InsertAnswers(s, x);
      } else if x in s.procs {
        OthersTold(s, g, s.procs[x]);
      }
    }
  }

  lemma {:induction false} AlwaysRaceOk(acts: seq<Action>)
    requires Legal(acts)
    ensures RaceOk(After(acts))
  {
    if acts == [] {
    } else {
      var n := |acts| - 1;
      AlwaysRaceOk(acts[..n]);
      StepRace(After(acts[..n]), acts[n]);
    }
  }

  /**
   * Racing placements. In every interleaving a token has at most one order, and every answered request is told
   * of that order: its own, if it inserted it; the holder's, exactly when it asks for the same and the holder's
   * row was already there when it looked; and a conflict otherwise, so the loser of a race between two equal
   * requests is refused although its order exists.
   */
  lemma {:induction false} RaceOutcome(acts: seq<Action>, x: nat, o: OrderId)
    requires Legal(acts) && x in After(acts).procs && After(acts).procs[x].pc.Answered?
    requires Holds(After(acts).orders, o, After(acts).procs[x].ask)
    ensures var s, p := After(acts), After(acts).procs[x];
      && (forall y :: Holds(s.orders, y, p.ask) ==> y == o)
      && p.pc.result == if o == p.pk
          || (o in p.seen && SameDigest(s.orders[o], p)) then Success(o) else Failure(KeyTaken)
  {
    AlwaysRaceOk(acts);
    assert Told(After(acts), After(acts).procs[x]);
  }

  lemma {:induction false} Extend(acts: seq<Action>, s: State, a: Action) returns (more: seq<Action>, g: State)
    requires Legal(acts) && After(acts) == s && Enabled(s, a)
    ensures more == acts + [a] && Legal(more) && g == Next(s, a) && After(more) == g && g.procs.Keys >= s.procs.Keys
  {
    more, g := acts + [a], Next(s, a);
    assert more[..|acts|] == acts;
  }

  lemma {:induction false} Start() returns (s: State)
    ensures Legal([]) && After([]) == s && s == INITIAL
  {
    s := INITIAL;
  }

  lemma {:induction false} BothInsert(acts: seq<Action>, s: State, ask: Ask) returns (more: seq<Action>)
    requires Legal(acts) && After(acts) == s && ask.token.Some?
    requires s.orders == map[] && s.procs == map[0 := Proc(7, ask, Inserting, {}), 1 := Proc(8, ask, Inserting, {})]
    ensures Legal(more) && 0 in After(more).procs && 1 in After(more).procs
    ensures After(more).procs[0] == Proc(7, ask, Answered(Success(7)), {})
    ensures After(more).procs[1] == Proc(8, ask, Answered(Failure(KeyTaken)), {})
  {
    hide After, Legal;
    var g;
    more, g := Extend(acts, s, Insert(0));
    assert g.orders == map[7 := NewOrder(ask, 7)] && Holds(g.orders, 7, ask);
    more, g := Extend(more, g, Insert(1));
  }

  /**
   * The same request twice at once: both look before either has inserted, one creates the order, the other is
   * refused.
   */
  lemma {:induction false} EqualsCollide(ask: Ask) returns (acts: seq<Action>)
    requires ask.token.Some?
    ensures Legal(acts) && 0 in After(acts).procs && 1 in After(acts).procs
    ensures After(acts).procs[0].ask == ask && After(acts).procs[0].pc == Answered(Success(7))
    ensures After(acts).procs[1].ask == ask && After(acts).procs[1].pc == Answered(Failure(KeyTaken))
  {
    hide After, Legal;
    var s := Start();
    assert s.orders.Keys == {};
    acts, s := Extend([], s, Arrive(0, 7, ask));
    acts, s := Extend(acts, s, Arrive(1, 8, ask));
    acts, s := Extend(acts, s, Look(0));
    acts, s := Extend(acts, s, Look(1));
    assert s.orders == map[] && s.procs == map[0 := Proc(7, ask, Inserting, {}), 1 := Proc(8, ask, Inserting, {})];
    acts := BothInsert(acts, s, ask);
  }
}
