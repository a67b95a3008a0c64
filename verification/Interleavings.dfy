/** Proof that every interleaving of the protocol is a serial history. */
module Interleavings {
  import opened Wrappers
  import opened Ascending
  import opened Journal
  import opened Trading
  import opened Serial
  import opened Protocol

  // ---------------------------------------------------------------------------------------------
  // Frames: a posting that stays off a call's rows changes nothing that call knows
  // ---------------------------------------------------------------------------------------------

  lemma {:induction false} OffTheRow(j: seq<Entry>, e: Entry, a: AccountId)
    requires forall l :: l in e.lines ==> l.account != a
    ensures Balance(Rows(j + [e]), a) == Balance(Rows(j), a)
    ensures Held(Rows(j + [e]), a) == Held(Rows(j), a)
  {
    BalancePosted(j, e, a);
    UntouchedSum(e.lines, a);
  }

  ghost predicate StaysOff(e: Entry, r: Request)
  {
    forall l :: l in e.lines ==> l.account !in Touched(r)
  }

  lemma {:induction false} ReadsFrame(j: seq<Entry>, e: Entry, r: Request)
    requires StaysOff(e, r)
    ensures Balance(Rows(j + [e]), Reads(r)) == Balance(Rows(j), Reads(r))
    ensures Held(Rows(j + [e]), Reads(r)) == Held(Rows(j), Reads(r))
  {
    OffTheRow(j, e, Reads(r));
  }

  lemma {:induction false} NewsFrame(j: seq<Entry>, e: Entry, own: Entry, r: Request)
    requires StaysOff(e, r)
    ensures NewsFor(j + [e] + [own], r) == NewsFor(j + [own], r)
  {
    forall a | a in Touched(r) ensures Balance(Rows(j + [e] + [own]), a) == Balance(Rows(j + [own]), a) {
      BalancePosted(j + [e], own, a);
      BalancePosted(j, own, a);
      OffTheRow(j, e, a);
    }
  }

  lemma {:induction false} KnowsFrame(j: seq<Entry>, e: Entry, p: Proc)
    requires Knows(j, p) && (InTransaction(p.pc) ==> StaysOff(e, p.request))
    ensures Knows(j + [e], p)
  {
    if InTransaction(p.pc) {
      ReadsFrame(j, e, p.request);
      if p.pc.Committing? {
        NewsFrame(j, e, EntryFor(p.request, p.pc.lines), p.request);
      }
    }
    if p.pc.Recovering? {
      FindStable(j, e, KeyOf(p.request).value);
    }
  }

  lemma {:induction false} PlacedFrame(j: seq<Entry>, e: Entry, p: Proc, log: Option<(Request, Outcome)>)
    requires Placed(j, p, log) && (InTransaction(p.pc) ==> StaysOff(e, p.request))
    ensures Placed(j + [e], p, log)
  {
    if InTransaction(p.pc) && p.request.Transfer? {
      OffTheRow(j, e, p.request.source);
    }
  }

  /** A decision writes only on rows its call has locked, or on income and contra accounts nobody reads. */
  lemma {:induction false} DecisionReach(accounts: Accounts, r: Request, held: int, balance: int)
    requires RequestFits(accounts, r) && Sound(r) && Decide(r, held, balance).Success?
    ensures forall l :: l in Decide(r, held, balance).value ==>
      l.account in Touched(r) || (l.account in accounts && accounts[l.account].kind != Asset)
  {
  }

  lemma {:induction false} TouchedAreAssets(accounts: Accounts, r: Request)
    requires RequestFits(accounts, r)
    ensures forall a :: a in Touched(r) ==> a in accounts && accounts[a].kind == Asset
  {
  }

  /** Two calls inside their transactions have no row in common. */
  lemma {:induction false} RowsApart(s: State, t: Tid, u: Tid)
    requires LocksOk(s) && t in s.procs && u in s.procs && t != u
    requires InTransaction(s.procs[t].pc) && InTransaction(s.procs[u].pc)
    ensures Touched(s.procs[t].request) !! Touched(s.procs[u].request)
  {
    forall a | a in Touched(s.procs[t].request) ensures a !in Touched(s.procs[u].request) {
      assert Holds(s.procs[t], a);
      assert s.locks[a] == t;
      assert !Holds(s.procs[u], a);
    }
  }

  lemma {:induction false} CommitStaysOff(s: State, t: Tid, u: Tid)
    requires LocksOk(s) && Fits(s) && AllKnow(s) && t in s.procs && u in s.procs && t != u
    requires s.procs[t].pc.Committing? && InTransaction(s.procs[u].pc)
    ensures StaysOff(EntryFor(s.procs[t].request, s.procs[t].pc.lines), s.procs[u].request)
  {
    var r := s.procs[t].request;
    assert Knows(s.journal, s.procs[t]);
    DecisionReach(s.accounts, r, if NeedsShares(r) then Held(Rows(s.journal), Reads(r))
      else 0, Balance(Rows(s.journal), Reads(r)));
    RowsApart(s, t, u);
    TouchedAreAssets(s.accounts, s.procs[u].request);
  }

  // ---------------------------------------------------------------------------------------------
  // The serial record
  // ---------------------------------------------------------------------------------------------

  lemma {:induction false} HistoryGrows(h: seq<Item>, item: Item)
    ensures (h + [item])[..|h + [item]| - 1] == h
  {
  }

  lemma {:induction false} LogGrows(h: seq<Item>, item: Item, t: Tid)
    ensures LogOf(h + [item], t) == if item.Call?
      && item.id == t then Some((item.request, item.outcome)) else LogOf(h, t)
  {
  }

  /** Recording an outcome that running the call alone would give here. */
  ghost predicate Recordable(s: State, t: Tid, o: Outcome)
  {
    && t in s.procs
    && LogOf(s.history, t).None?
    && o == Execute(s.journal, s.procs[t].request).0
    && !o.Created?
  }

  lemma {:induction false} QuietExecute(j: seq<Entry>, r: Request)
    ensures !Execute(j, r).0.Created? ==> Execute(j, r).1 == j
  {
  }

  lemma {:induction false} RecordedHistory(s: State, t: Tid, o: Outcome)
    requires HistoryOk(s) && Fits(s) && ReportsOk(s) && Recordable(s, t, o)
    ensures var g := Log(s, t, o);
      && Agrees(g.history) && JournalOf(g.history) == s.journal
      && HistoryFits(s.accounts, g.history) && OncePerCall(g.history)
      && (forall u :: LogOf(g.history, u) == if u == t then Some((s.procs[t].request, o)) else LogOf(s.history, u))
      && ReportsOk(g)
  {
  }

  // ---------------------------------------------------------------------------------------------
  // Kinds of step
  // ---------------------------------------------------------------------------------------------

  ghost predicate LockState(s: State) { LocksOk(s) && ClaimsOk(s) }

  /** One call's marker moves, with the same rows held. */
  lemma {:induction false} SameRows(s: State, g: State, t: Tid, p: Proc)
    requires LocksOk(s) && g.procs == s.procs[t := p] && g.locks == s.locks
    requires forall a :: Holds(p, a) <==> a in s.locks && s.locks[a] == t
    ensures LocksOk(g)
  {
  }

  lemma {:induction false} SameClaims(s: State, g: State, t: Tid, p: Proc)
    requires ClaimsOk(s) && g.procs == s.procs[t := p] && g.claims == s.claims
    requires forall k :: Claims(p, k) <==> k in s.claims && s.claims[k] == t
    requires forall k :: k in s.claims ==> FindKey(g.journal, k).None?
    ensures ClaimsOk(g)
  {
  }

  lemma {:induction false} GotoLocks(s: State, t: Tid, pc: Pc)
    requires LockState(s) && t in s.procs
    requires forall a :: Holds(Proc(s.procs[t].request, pc), a) <==> Holds(s.procs[t], a)
    requires HasInserted(pc) <==> HasInserted(s.procs[t].pc)
    ensures LockState(Goto(s, t, pc))
  {
    hide Holds;
    var g := Goto(s, t, pc);
    forall u, k | u in g.procs ensures Claims(g.procs[u], k) <==> k in g.claims && g.claims[k] == u {
      assert Claims(g.procs[u], k) <==> Claims(s.procs[u], k);
    }
  }

  lemma {:induction false} ReleaseRows(s: State, t: Tid, pc: Pc)
    requires LocksOk(s) && t in s.procs && (pc.Done? || pc.Recovering?)
    ensures LocksOk(Goto(Released(s, t), t, pc))
  {
    hide Plan, Sorted, Touched;
    var g := Goto(Released(s, t), t, pc);
    forall u, a | u in g.procs ensures Holds(g.procs[u], a) <==> a in g.locks && g.locks[a] == u {
      assert u in s.procs;
      assert Holds(s.procs[u], a) <==> a in s.locks && s.locks[a] == u;
    }
  }

  lemma {:induction false} ReleaseClaims(s: State, t: Tid, pc: Pc)
    requires ClaimsOk(s) && t in s.procs && (pc.Done? || pc.Recovering?)
    ensures ClaimsOk(Goto(Released(s, t), t, pc))
  {
  }

  lemma {:induction false} ReleaseLocks(s: State, t: Tid, pc: Pc)
    requires LockState(s) && t in s.procs
    requires pc.Done? || pc.Recovering?
    ensures LockState(Goto(Released(s, t), t, pc))
  {
    ReleaseRows(s, t, pc);
    ReleaseClaims(s, t, pc);
  }

  lemma {:induction false} OthersKnow(s: State, t: Tid, pc: Pc)
    requires AllKnow(s) && t in s.procs
    requires Knows(s.journal, Proc(s.procs[t].request, pc))
    ensures forall u :: u in s.procs ==> Knows(s.journal, Goto(s, t, pc).procs[u])
  {
  }

  /** Only one call's marker and record change: everyone else keeps their place. */
  lemma {:induction false} OthersPlaced(s: State, g: State, t: Tid, p: Proc)
    requires HistoryOk(s) && t in s.procs
    requires g.journal == s.journal && g.procs == s.procs[t := p]
    requires forall u :: u != t ==> LogOf(g.history, u) == LogOf(s.history, u)
    requires Placed(g.journal, p, LogOf(g.history, t))
    ensures forall u :: u !in g.procs ==> LogOf(g.history, u).None?
    ensures forall u :: u in g.procs ==> Placed(g.journal, g.procs[u], LogOf(g.history, u))
  {
  }

  ghost predicate OneMoved(s: State, g: State, t: Tid, p: Proc)
  {
    && t in s.procs && p.request == s.procs[t].request
    && g == s.(procs := s.procs[t := p], locks := g.locks, claims := g.claims)
  }

  /** A step that moves one call's marker keeps everything, if what the call now remembers is true. */
  lemma {:induction false} MoveKeeps(s: State, g: State, t: Tid, p: Proc)
    requires Inv(s) && OneMoved(s, g, t, p) && LockState(g)
    requires Knows(s.journal, p) && Placed(s.journal, p, LogOf(s.history, t))
    ensures Inv(g)
  {
  }

  /** What the invariant says of one call. */
  lemma {:induction false} Facts(s: State, t: Tid)
    requires Inv(s) && t in s.procs
    ensures Knows(s.journal, s.procs[t]) && Placed(s.journal, s.procs[t], LogOf(s.history, t))
  {
  }

  lemma {:induction false} GotoKeeps(s: State, t: Tid, pc: Pc)
    requires Inv(s) && t in s.procs
    requires LockState(Goto(s, t, pc))
    requires Knows(s.journal, Proc(s.procs[t].request, pc))
    requires Placed(s.journal, Proc(s.procs[t].request, pc), LogOf(s.history, t))
    ensures Inv(Goto(s, t, pc))
  {
    MoveKeeps(s, Goto(s, t, pc), t, Proc(s.procs[t].request, pc));
  }

  lemma {:induction false} SettleKeeps(s: State, t: Tid, pc: Pc)
    requires Inv(s) && t in s.procs
    requires pc.Done? || pc.Recovering?
    requires Knows(s.journal, Proc(s.procs[t].request, pc))
    requires Placed(s.journal, Proc(s.procs[t].request, pc), LogOf(s.history, t))
    ensures Inv(Goto(Released(s, t), t, pc))
  {
    ReleaseLocks(s, t, pc);
    MoveKeeps(s, Goto(Released(s, t), t, pc), t, Proc(s.procs[t].request, pc));
  }

  lemma {:induction false} LogKeepsLocks(s: State, t: Tid, o: Outcome)
    requires LockState(s) && t in s.procs
    ensures LockState(Log(s, t, o))
  {
  }

  lemma {:induction false} FinishKeeps(s: State, t: Tid, o: Outcome)
    requires Inv(s) && Recordable(s, t, o) && o != Aborted
    ensures Inv(Finish(s, t, o))
  {
    var l, g := Log(s, t, o), Finish(s, t, o);
    RecordedHistory(s, t, o);
    LogKeepsLocks(s, t, o);
    ReleaseLocks(l, t, Done(o));
    OthersKnow(s, t, Done(o));
    assert AllKnow(g);
    OthersPlaced(s, g, t, Proc(s.procs[t].request, Done(o)));
    assert Fits(g);
  }

  // ---------------------------------------------------------------------------------------------
  // Each step
  // ---------------------------------------------------------------------------------------------

  lemma {:induction false} StepStarted(s: State, t: Tid)
    requires Inv(s) && CanAdvance(s, t) && s.procs[t].pc.Started?
    ensures Inv(Advance(s, t))
  {
    var r := s.procs[t].request;
    assert Placed(s.journal, s.procs[t], LogOf(s.history, t));
    if !Sound(r) {
      FinishKeeps(s, t, Invalid);
    } else if Resolve(s.journal, r).Some? {
      FinishKeeps(s, t, Resolve(s.journal, r).value);
    } else {
      GotoLocks(s, t, Locking(0));
      GotoKeeps(s, t, Locking(0));
    }
  }

  lemma {:induction false} PlanPrefix(r: Request, n: nat, a: AccountId)
    requires n < |Plan(r)|
    ensures a in Plan(r)[..n + 1] <==> a in Plan(r)[..n] || a == Plan(r)[n]
  {
  }

  lemma {:induction false} AcquireRow(s: State, t: Tid, r: Request, n: nat)
    requires LocksOk(s) && t in s.procs && s.procs[t] == Proc(r, Locking(n)) && n < |Plan(r)| && Plan(r)[n] !in s.locks
    ensures LocksOk(Goto(s.(locks := s.locks[Plan(r)[n] := t]), t, Locking(n + 1)))
  {
    hide Plan, Sorted, Touched;
    var row := Plan(r)[n];
    var g := Goto(s.(locks := s.locks[row := t]), t, Locking(n + 1));
    forall u, a | u in g.procs ensures Holds(g.procs[u], a) <==> a in g.locks && g.locks[a] == u {
      assert Holds(s.procs[u], a) <==> a in s.locks && s.locks[a] == u;
      if u == t {
        PlanPrefix(r, n, a);
      } else {
        assert g.procs[u] == s.procs[u];
      }
    }
  }

  lemma {:induction false} StepAcquire(s: State, t: Tid, r: Request, n: nat)
    requires Inv(s) && t in s.procs && s.procs[t] == Proc(r, Locking(n)) && n < |Plan(r)| && Plan(r)[n] !in s.locks
    ensures Inv(Goto(s.(locks := s.locks[Plan(r)[n] := t]), t, Locking(n + 1)))
  {
    hide AllKnow, HistoryOk, ReportsOk, Fits, LocksOk;
    var p := Proc(r, Locking(n + 1));
    var g := Goto(s.(locks := s.locks[Plan(r)[n] := t]), t, Locking(n + 1));
    Facts(s, t);
    AcquireRow(s, t, r, n);
    SameClaims(s, g, t, p);
    MoveKeeps(s, g, t, p);
  }

  lemma {:induction false} StepAllLocked(s: State, t: Tid, r: Request, n: nat)
    requires Inv(s) && t in s.procs && s.procs[t] == Proc(r, Locking(n)) && n >= |Plan(r)|
    ensures Inv(Goto(s, t, AfterLocks(r)))
  {
    hide AllKnow, HistoryOk, ReportsOk, Fits;
    Facts(s, t);
    assert Plan(r)[..n] == Plan(r);
    GotoLocks(s, t, AfterLocks(r));
    GotoKeeps(s, t, AfterLocks(r));
  }

  lemma {:induction false} StepLocking(s: State, t: Tid)
    requires Inv(s) && CanAdvance(s, t) && s.procs[t].pc.Locking?
    ensures Inv(Advance(s, t))
  {
    hide AllKnow, HistoryOk, ReportsOk, Fits, LocksOk, ClaimsOk;
    var r, n := s.procs[t].request, s.procs[t].pc.next;
    Facts(s, t);
    if n < |Plan(r)| {
      StepAcquire(s, t, r, n);
    } else {
      StepAllLocked(s, t, r, n);
    }
  }

  lemma {:induction false} NoteKeeps(s: State, t: Tid)
    requires Inv(s) && t in s.procs && s.procs[t].pc.Rechecking?
    requires Recordable(s, t, Refused(InsufficientFunds))
    requires s.procs[t].request.Transfer?
    requires Balance(Rows(s.journal), s.procs[t].request.source) < s.procs[t].request.amount
    ensures Inv(Goto(Log(s, t, Refused(InsufficientFunds)), t, ReadingBalance(0)))
  {
    var o := Refused(InsufficientFunds);
    var l := Log(s, t, o);
    var g := Goto(l, t, ReadingBalance(0));
    assert Knows(s.journal, s.procs[t]);
    RecordedHistory(s, t, o);
    LogKeepsLocks(s, t, o);
    GotoLocks(l, t, ReadingBalance(0));
    OthersKnow(s, t, ReadingBalance(0));
    OthersPlaced(s, g, t, Proc(s.procs[t].request, ReadingBalance(0)));
  }

  lemma {:induction false} StepRechecking(s: State, t: Tid)
    requires Inv(s) && CanAdvance(s, t) && s.procs[t].pc.Rechecking?
    ensures Inv(Advance(s, t))
  {
    hide AllKnow, HistoryOk, ReportsOk, Fits;
    var r := s.procs[t].request;
    Facts(s, t);
    if Resolve(s.journal, r).Some? {
      FinishKeeps(s, t, Resolve(s.journal, r).value);
    } else if Balance(Rows(s.journal), r.source) < r.amount {
      NoteKeeps(s, t);
    } else {
      GotoLocks(s, t, ReadingBalance(0));
      GotoKeeps(s, t, ReadingBalance(0));
    }
  }

  lemma {:induction false} StepReadingShares(s: State, t: Tid)
    requires Inv(s) && CanAdvance(s, t) && s.procs[t].pc.ReadingShares?
    ensures Inv(Advance(s, t))
  {
    hide AllKnow, HistoryOk, ReportsOk, Fits;
    Facts(s, t);
    var pc := ReadingBalance(Held(Rows(s.journal), Reads(s.procs[t].request)));
    GotoLocks(s, t, pc);
    GotoKeeps(s, t, pc);
  }

  lemma {:induction false} StepReadingBalance(s: State, t: Tid)
    requires Inv(s) && CanAdvance(s, t) && s.procs[t].pc.ReadingBalance?
    ensures Inv(Advance(s, t))
  {
    hide AllKnow, HistoryOk, ReportsOk, Fits, LocksOk, ClaimsOk;
    var r, held := s.procs[t].request, s.procs[t].pc.held;
    Facts(s, t);
    var verdict := Decide(r, held, Balance(Rows(s.journal), Reads(r)));
    assert verdict == DecideOn(s.journal, r);
    match verdict {
      case Failure(reason) =>
        if Keyed(r) {
          SettleKeeps(s, t, Done(Refused(reason)));
        } else {
          FinishKeeps(s, t, Refused(reason));
        }
      case Success(lines) =>
        GotoLocks(s, t, Inserting(lines));
        GotoKeeps(s, t, Inserting(lines));
    }
  }

  lemma {:induction false} ClaimKey(s: State, t: Tid, r: Request, lines: seq<Line>)
    requires ClaimsOk(s) && t in s.procs && s.procs[t] == Proc(r, Inserting(lines))
    requires KeyOf(r).Some? ==> KeyOf(r).value !in s.claims && FindKey(s.journal, KeyOf(r).value).None?
    ensures ClaimsOk(Goto(Claimed(s, t), t, Auditing(lines)))
  {
  }

  lemma {:induction false} StillHolds(s: State, g: State, t: Tid, p: Proc)
    requires LocksOk(s) && t in s.procs && g.procs == s.procs[t := p] && g.locks == s.locks
    requires p.request == s.procs[t].request && InTransaction(p.pc) && InTransaction(s.procs[t].pc)
    ensures LocksOk(g)
  {
    assert forall a :: Holds(p, a) <==> Holds(s.procs[t], a);
    SameRows(s, g, t, p);
  }

  lemma {:induction false} StepClaim(s: State, t: Tid, r: Request, lines: seq<Line>)
    requires Inv(s) && t in s.procs && s.procs[t] == Proc(r, Inserting(lines))
    requires KeyOf(r).Some? ==> KeyOf(r).value !in s.claims && FindKey(s.journal, KeyOf(r).value).None?
    ensures Inv(Goto(Claimed(s, t), t, Auditing(lines)))
  {
    hide AllKnow, HistoryOk, ReportsOk, Fits, LocksOk, ClaimsOk;
    var g := Goto(Claimed(s, t), t, Auditing(lines));
    Facts(s, t);
    ClaimKey(s, t, r, lines);
    StillHolds(s, g, t, Proc(r, Auditing(lines)));
    MoveKeeps(s, g, t, Proc(r, Auditing(lines)));
  }

  lemma {:induction false} StepInserting(s: State, t: Tid)
    requires Inv(s) && CanAdvance(s, t) && s.procs[t].pc.Inserting?
    ensures Inv(Advance(s, t))
  {
    hide AllKnow, HistoryOk, ReportsOk, Fits;
    var r, lines := s.procs[t].request, s.procs[t].pc.lines;
    Facts(s, t);
    if KeyOf(r).Some? && FindKey(s.journal, KeyOf(r).value).Some? {
      if r.Fill? {
        FinishKeeps(s, t, Duplicate);
      } else {
        SettleKeeps(s, t, Recovering);
      }
    } else {
      StepClaim(s, t, r, lines);
    }
  }

  lemma {:induction false} StepReporting(s: State, t: Tid)
    requires Inv(s) && CanAdvance(s, t) && (s.procs[t].pc.Auditing? || s.procs[t].pc.Announcing?)
    ensures Inv(Advance(s, t))
  {
    hide AllKnow, HistoryOk, ReportsOk, Fits;
    var r, lines := s.procs[t].request, s.procs[t].pc.lines;
    Facts(s, t);
    var pc := if s.procs[t].pc.Auditing? then Announcing(lines)
              else Committing(lines, NewsFor(s.journal + [EntryFor(r, lines)], r));
    GotoLocks(s, t, pc);
    GotoKeeps(s, t, pc);
  }

  lemma {:induction false} StepRecovering(s: State, t: Tid)
    requires Inv(s) && CanAdvance(s, t) && s.procs[t].pc.Recovering?
    ensures Resolve(s.journal, s.procs[t].request).Some?
    ensures Inv(Advance(s, t))
  {
    hide AllKnow, HistoryOk, ReportsOk, Fits;
    Facts(s, t);
    FinishKeeps(s, t, Resolve(s.journal, s.procs[t].request).value);
  }

  lemma {:induction false} StepCrash(s: State, t: Tid)
    requires Inv(s) && Live(s, t)
    ensures Inv(Settle(s, t, Aborted))
  {
    assert Placed(s.journal, s.procs[t], LogOf(s.history, t));
    SettleKeeps(s, t, Done(Aborted));
  }

  // ---------------------------------------------------------------------------------------------
  // Commit
  // ---------------------------------------------------------------------------------------------

  lemma {:induction false} CommitExecutes(s: State, t: Tid)
    requires Inv(s) && t in s.procs && s.procs[t].pc.Committing?
    ensures var r, lines := s.procs[t].request, s.procs[t].pc.lines;
      Execute(s.journal, r) == (Created(|s.journal|), s.journal + [EntryFor(r, lines)])
  {
    hide LocksOk, Fits, HistoryOk, ReportsOk, DecideOn, Rows;
    var r := s.procs[t].request;
    assert Knows(s.journal, s.procs[t]);
    if KeyOf(r).Some? {
      assert Claims(s.procs[t], KeyOf(r).value);
    }
  }

  lemma {:induction false} CommitHistory(s: State, t: Tid)
    requires Inv(s) && t in s.procs && s.procs[t].pc.Committing?
    ensures var g := Commit(s, t, s.procs[t].pc.lines, s.procs[t].pc.news);
      && Agrees(g.history) && JournalOf(g.history) == g.journal
      && HistoryFits(g.accounts, g.history) && OncePerCall(g.history)
      && (forall u :: u != t ==> LogOf(g.history, u) == LogOf(s.history, u))
      && LogOf(g.history, t) == Some((s.procs[t].request, Created(|s.journal|)))
      && ReportsOk(g)
  {
    hide AllKnow, LocksOk, ClaimsOk, DecideOn, Execute, Knows, NewsFor;
    var r, lines, news := s.procs[t].request, s.procs[t].pc.lines, s.procs[t].pc.news;
    var item := Call(t, r, Created(|s.journal|));
    var g := Commit(s, t, lines, news);
    Facts(s, t);
    CommitExecutes(s, t);
    HistoryGrows(s.history, item);
    assert g.history == s.history + [item];
    forall u ensures LogOf(s.history + [item], u) == if u == t then Some((r, item.outcome)) else LogOf(s.history, u) {
      LogGrows(s.history, item, u);
    }
  }

  lemma {:induction false} JournalKeepsLocks(s: State, g: State, e: Entry)
    requires LockState(s) && g.locks == s.locks && g.claims == s.claims && g.procs == s.procs
    requires g.journal == s.journal + [e]
    requires forall k :: k in s.claims ==> e.key != Some(k)
    ensures LockState(g)
  {
  }

  lemma {:induction false} CommitLocks(s: State, t: Tid)
    requires Inv(s) && t in s.procs && s.procs[t].pc.Committing?
    ensures LockState(Commit(s, t, s.procs[t].pc.lines, s.procs[t].pc.news))
  {
    var r := s.procs[t].request;
    var o := Done(Created(|s.journal|));
    ReleaseLocks(s, t, o);
    assert forall k :: Claims(s.procs[t], k) <==> k in s.claims && s.claims[k] == t;
    JournalKeepsLocks(Goto(Released(s, t), t, o), Commit(s, t, s.procs[t].pc.lines, s.procs[t].pc.news),
      EntryFor(r, s.procs[t].pc.lines));
  }

  lemma {:induction false} CommitOthers(s: State, t: Tid, u: Tid)
    requires Inv(s) && t in s.procs && s.procs[t].pc.Committing? && u in s.procs && u != t
    ensures var g := Commit(s, t, s.procs[t].pc.lines, s.procs[t].pc.news);
      && Knows(g.journal, s.procs[u])
      && Placed(g.journal, s.procs[u], LogOf(s.history, u))
  {
    var e := EntryFor(s.procs[t].request, s.procs[t].pc.lines);
    assert Knows(s.journal, s.procs[u]);
    assert Placed(s.journal, s.procs[u], LogOf(s.history, u));
    if InTransaction(s.procs[u].pc) {
      CommitStaysOff(s, t, u);
    }
    KnowsFrame(s.journal, e, s.procs[u]);
    PlacedFrame(s.journal, e, s.procs[u], LogOf(s.history, u));
  }

  lemma {:induction false} StepCommitting(s: State, t: Tid)
    requires Inv(s) && CanAdvance(s, t) && s.procs[t].pc.Committing?
    ensures Inv(Advance(s, t))
  {
    var g := Commit(s, t, s.procs[t].pc.lines, s.procs[t].pc.news);
    CommitHistory(s, t);
    CommitLocks(s, t);
    forall u | u in g.procs
      ensures Knows(g.journal, g.procs[u])
      ensures Placed(g.journal, g.procs[u], LogOf(g.history, u))
    {
      if u != t {
        CommitOthers(s, t, u);
      }
    }
    assert Fits(g) && AllKnow(g) && HistoryOk(g);
  }

  // ---------------------------------------------------------------------------------------------
  // Arrivals
  // ---------------------------------------------------------------------------------------------

  lemma {:induction false} FitsGrows(small: Accounts, big: Accounts, r: Request)
    requires RequestFits(small, r) && forall a :: a in small ==> a in big && big[a] == small[a]
    ensures RequestFits(big, r)
  {
  }

  lemma {:induction false} ItemFitsGrows(small: Accounts, big: Accounts, item: Item)
    requires ItemFits(small, item) && forall a :: a in small ==> a in big && big[a] == small[a]
    ensures ItemFits(big, item)
  {
  }

  lemma {:induction false} AccountsGrow(s: State, big: Accounts)
    requires Inv(s) && forall a :: a in s.accounts ==> a in big && big[a] == s.accounts[a]
    ensures Inv(s.(accounts := big))
  {
    var g := s.(accounts := big);
    forall t | t in g.procs ensures RequestFits(big, g.procs[t].request) {
      FitsGrows(s.accounts, big, s.procs[t].request);
    }
    forall i | 0 <= i < |g.history| ensures ItemFits(big, g.history[i]) {
      ItemFitsGrows(s.accounts, big, s.history[i]);
    }
    SameLocks(s, g);
    SameHistory(s, g);
    assert AllKnow(g) && ReportsOk(g);
  }

  lemma {:induction false} SameHistory(s: State, g: State)
    requires HistoryOk(s) && HistoryFits(g.accounts, g.history)
    requires g.journal == s.journal && g.history == s.history && g.procs == s.procs
    ensures HistoryOk(g)
  {
  }

  lemma {:induction false} SameLocks(s: State, g: State)
    requires LockState(s)
    requires g.journal == s.journal && g.procs == s.procs && g.locks == s.locks && g.claims == s.claims
    ensures LockState(g)
  {
    assert LocksOk(g);
    assert ClaimsOk(g);
  }

  lemma {:induction false} StepBegin(s: State, t: Tid, r: Request)
    requires Inv(s) && t !in s.procs && RequestFits(s.accounts, r)
    ensures Inv(s.(procs := s.procs[t := Proc(r, Started)]))
  {
    var p := Proc(r, Started);
    var g := s.(procs := s.procs[t := p]);
    SameRows(s, g, t, p);
    SameClaims(s, g, t, p);
    forall u | u in g.procs
      ensures Knows(g.journal, g.procs[u])
      ensures Placed(g.journal, g.procs[u], LogOf(g.history, u))
    {
      if u != t {
        assert g.procs[u] == s.procs[u];
      }
    }
    assert HistoryOk(g);
  }

  lemma {:induction false} DepositFrames(s: State, e: Entry)
    requires AllKnow(s) && HistoryOk(s)
    requires forall t :: t in s.procs ==> StaysOff(e, s.procs[t].request)
    ensures forall u :: u in s.procs ==>
      Knows(s.journal + [e], s.procs[u]) && Placed(s.journal + [e], s.procs[u], LogOf(s.history, u))
  {
    forall u | u in s.procs
      ensures Knows(s.journal + [e], s.procs[u]) && Placed(s.journal + [e], s.procs[u], LogOf(s.history, u))
    {
      KnowsFrame(s.journal, e, s.procs[u]);
      PlacedFrame(s.journal, e, s.procs[u], LogOf(s.history, u));
    }
  }

  /** A deposit on rows nobody could have named yet. */
  lemma {:induction false} DepositKeeps(s: State, q: AccountId, c: AccountId, n: int, at: Instant)
    requires Inv(s) && ItemFits(s.accounts, Opening(q, c, n, at))
    requires forall t :: t in s.procs ==> q !in Touched(s.procs[t].request) && c !in Touched(s.procs[t].request)
    ensures Inv(s.(journal := s.journal + [OpeningEntry(q, c, n, at)], history := s.history + [Opening(q, c, n, at)]))
  {
    var e, item := OpeningEntry(q, c, n, at), Opening(q, c, n, at);
    var g := s.(journal := s.journal + [e], history := s.history + [item]);
    HistoryGrows(s.history, item);
    forall u ensures LogOf(g.history, u) == LogOf(s.history, u) {
      LogGrows(s.history, item, u);
    }
    DepositFrames(s, e);
    JournalKeepsLocks(s, g, e);
    assert HistoryOk(g);
  }

  lemma {:induction false} StepRegister(s: State, q: AccountId, qa: Account, c: AccountId, ca: Account, n: int,
                                        at: Instant)
    requires Inv(s) && Enabled(s, Register(q, qa, c, ca, n, at))
    ensures Inv(Next(s, Register(q, qa, c, ca, n, at)))
  {
    var big := s.accounts[q := qa][c := ca];
    forall t | t in s.procs ensures q !in Touched(s.procs[t].request) && c !in Touched(s.procs[t].request) {
      TouchedAreAssets(s.accounts, s.procs[t].request);
    }
    AccountsGrow(s, big);
    DepositKeeps(s.(accounts := big), q, c, n, at);
  }

  lemma {:induction false} StepKeeps(s: State, t: Tid)
    requires Inv(s) && CanAdvance(s, t)
    ensures Inv(Advance(s, t))
  {
    match s.procs[t].pc {
      case Started => StepStarted(s, t);
      case Locking(_) => StepLocking(s, t);
      case Rechecking => StepRechecking(s, t);
      case ReadingShares => StepReadingShares(s, t);
      case ReadingBalance(_) => StepReadingBalance(s, t);
      case Inserting(_) => StepInserting(s, t);
      case Auditing(_) => StepReporting(s, t);
      case Announcing(_) => StepReporting(s, t);
      case Committing(_, _) => StepCommitting(s, t);
      case Recovering => StepRecovering(s, t);
    }
  }

  lemma {:induction false} NextKeeps(s: State, a: Action)
    requires Inv(s) && Enabled(s, a)
    ensures Inv(Next(s, a))
  {
    match a {
      case OpenAccount(id, row) => AccountsGrow(s, s.accounts[id := row]);
      case Register(q, qa, c, ca, n, at) => StepRegister(s, q, qa, c, ca, n, at);
      case Begin(t, r) => StepBegin(s, t, r);
      case Step(t) => StepKeeps(s, t);
      case Crash(t) => StepCrash(s, t);
    }
  }

  /** The invariant holds after every schedule of arrivals, steps and failures. */
  lemma {:induction false} AlwaysInv(acts: seq<Action>)
    requires Legal(acts)
    ensures Inv(After(acts))
    decreases |acts|
  {
    if acts == [] {
    } else {
      AlwaysInv(acts[..|acts| - 1]);
      NextKeeps(After(acts[..|acts| - 1]), acts[|acts| - 1]);
    }
  }
}
