/**
 * What the protocol guarantees over every schedule: serial order, exactly-once, clean books, progress, honest
 * reports.
 */
module Guarantees {
  import opened Wrappers
  import opened Sums
  import opened Ascending
  import opened Journal
  import opened Reconciliation
  import opened Trading
  import opened Serial
  import opened Protocol
  import opened Interleavings

  // ---------------------------------------------------------------------------------------------
  // Serializability
  // ---------------------------------------------------------------------------------------------

  lemma {:induction false} LogIsItem(h: seq<Item>, t: Tid)
    ensures LogOf(h, t).Some? ==> exists i :: 0 <= i < |h| && h[i] == Call(t, LogOf(h, t).value.0, LogOf(h, t).value.1)
    ensures LogOf(h, t).None? ==> forall i :: 0 <= i < |h| && h[i].Call? ==> h[i].id != t
  {
    if h == [] {
    } else {
      LogIsItem(h[..|h| - 1], t);
    }
  }

  lemma {:induction false} ItemIsLog(h: seq<Item>, i: nat)
    requires OncePerCall(h) && i < |h| && h[i].Call?
    ensures LogOf(h, h[i].id) == Some((h[i].request, h[i].outcome))
    ensures forall k :: 0 <= k < |h| && h[k].Call? && h[k].id == h[i].id ==> k == i
  {
    var g := h[..|h| - 1];
    if i < |g| {
      ItemIsLog(g, i);
      if h[|g|].Call? && h[|g|].id == h[i].id {
        assert false;
      }
    } else if h != [] {
      LogIsItem(g, h[i].id);
    }
  }

  /** The calls' outcomes, as their callers saw them, in one serial order that explains journal and decisions alike. */
  ghost predicate ExplainedBy(s: State, h: seq<Item>)
  {
    && Agrees(h) && JournalOf(h) == s.journal && HistoryFits(s.accounts, h)
    && (forall t :: t in s.procs && s.procs[t].pc.Done? && s.procs[t].pc.outcome != Aborted ==>
          exists i :: 0 <= i < |h| && h[i] == Call(t, s.procs[t].request, s.procs[t].pc.outcome))
    && (forall i :: 0 <= i < |h| && h[i].Call? ==>
          && h[i].id in s.procs && h[i].request == s.procs[h[i].id].request
          && (s.procs[h[i].id].pc == Done(h[i].outcome) || h[i].outcome == Refused(InsufficientFunds)))
    && (forall i, k :: 0 <= i < k < |h| && h[i].Call? && h[k].Call? ==> h[i].id != h[k].id)
  }

  /**
   * Every interleaving of transfers and fills, failures included, ends with the journal and the decisions of
   * running the calls one at a time: journal entries in commit order, each finished call with exactly the
   * outcome the lone run gives at its place. A call recorded but not reported was refused and posted nothing.
   */
  lemma {:induction false} Serializable(acts: seq<Action>)
    requires Legal(acts)
    ensures ExplainedBy(After(acts), After(acts).history)
  {
    AlwaysInv(acts);
    var s := After(acts);
    var h := s.history;
    forall t | t in s.procs && s.procs[t].pc.Done? && s.procs[t].pc.outcome != Aborted
      ensures exists i :: 0 <= i < |h| && h[i] == Call(t, s.procs[t].request, s.procs[t].pc.outcome)
    {
      assert Placed(s.journal, s.procs[t], LogOf(h, t));
      LogIsItem(h, t);
    }
    forall i | 0 <= i < |h| && h[i].Call?
      ensures h[i].id in s.procs && h[i].request == s.procs[h[i].id].request
      ensures s.procs[h[i].id].pc == Done(h[i].outcome) || h[i].outcome == Refused(InsufficientFunds)
      ensures forall k :: 0 <= k < |h| && h[k].Call? && h[k].id == h[i].id ==> k == i
    {
      ItemIsLog(h, i);
      assert h[i].id in s.procs;
      assert Placed(s.journal, s.procs[h[i].id], LogOf(h, h[i].id));
    }
  }

  lemma {:induction false} HistoryExtends(acts: seq<Action>, i: nat)
    requires Legal(acts) && i <= |acts|
    ensures Legal(acts[..i]) && After(acts[..i]).history <= After(acts).history
    ensures forall t :: t in After(acts[..i]).procs ==>
      && t in After(acts).procs && After(acts).procs[t].request == After(acts[..i]).procs[t].request
      && (After(acts[..i]).procs[t].pc.Done? ==> After(acts).procs[t] == After(acts[..i]).procs[t])
    decreases |acts|
  {
    if i < |acts| {
      var earlier := acts[..|acts| - 1];
      HistoryExtends(earlier, i);
      assert earlier[..i] == acts[..i];
      AlwaysInv(earlier);
      NextExtends(After(earlier), acts[|acts| - 1]);
    } else {
      assert acts[..i] == acts;
    }
  }

  /** A step touches one call only, never forgets a recorded outcome, and leaves the call with less to do. */
  ghost predicate OneStep(s: State, g: State, t: Tid)
  {
    && t in s.procs && t in g.procs
    && g.procs == s.procs[t := g.procs[t]]
    && g.procs[t].request == s.procs[t].request
    && s.history <= g.history
    && Weight(g.procs[t]) < Weight(s.procs[t])
  }

  lemma {:induction false} GotoShape(s: State, t: Tid, pc: Pc)
    requires t in s.procs && Weight(Proc(s.procs[t].request, pc)) < Weight(s.procs[t])
    ensures OneStep(s, Goto(s, t, pc), t)
    ensures OneStep(s, Goto(Released(s, t), t, pc), t)
    ensures OneStep(s, Goto(Claimed(s, t), t, pc), t)
    ensures forall o :: OneStep(s, Goto(Log(s, t, o), t, pc), t)
    ensures forall o :: OneStep(s, Goto(Released(Log(s, t, o), t), t, pc), t)
  {
  }

  lemma {:induction false} EarlyShape(s: State, t: Tid)
    requires CanAdvance(s, t) && (s.procs[t].pc.Started? || s.procs[t].pc.Locking? || s.procs[t].pc.Rechecking?)
    requires Knows(s.journal, s.procs[t])
    ensures OneStep(s, Advance(s, t), t)
  {
    hide Resolve, NewsFor, Rows;
    var r := s.procs[t].request;
    match s.procs[t].pc {
      case Started =>
        GotoShape(s, t, Done(Invalid));
        GotoShape(s, t, Locking(0));
        if Resolve(s.journal, r).Some? {
          GotoShape(s, t, Done(Resolve(s.journal, r).value));
        }
      case Locking(n) =>
        GotoShape(s, t, if n < |Plan(r)| then Locking(n + 1) else AfterLocks(r));
      case Rechecking =>
        GotoShape(s, t, ReadingBalance(0));
        if Resolve(s.journal, r).Some? {
          GotoShape(s, t, Done(Resolve(s.journal, r).value));
        }
    }
  }

  lemma {:induction false} ReadingShape(s: State, t: Tid)
    requires CanAdvance(s, t)
    requires (s.procs[t].pc.ReadingShares? || s.procs[t].pc.ReadingBalance? || s.procs[t].pc.Inserting?)
    ensures OneStep(s, Advance(s, t), t)
  {
    hide Resolve, Decide, NewsFor, Rows;
    var r := s.procs[t].request;
    match s.procs[t].pc {
      case ReadingShares =>
        GotoShape(s, t, ReadingBalance(Held(Rows(s.journal), Reads(r))));
      case ReadingBalance(held) =>
        match Decide(r, held, Balance(Rows(s.journal), Reads(r))) {
          case Failure(reason) => GotoShape(s, t, Done(Refused(reason)));
          case Success(lines) => GotoShape(s, t, Inserting(lines));
        }
      case Inserting(lines) =>
        GotoShape(s, t, Done(Duplicate));
        GotoShape(s, t, Recovering);
        GotoShape(s, t, Auditing(lines));
    }
  }

  lemma {:induction false} WritingShape(s: State, t: Tid)
    requires CanAdvance(s, t)
    requires s.procs[t].pc.Auditing? || s.procs[t].pc.Announcing? || s.procs[t].pc.Committing?
      || s.procs[t].pc.Recovering?
    ensures OneStep(s, Advance(s, t), t)
  {
    hide Resolve, NewsFor, Rows;
    var r := s.procs[t].request;
    match s.procs[t].pc {
      case Auditing(lines) => GotoShape(s, t, Announcing(lines));
      case Announcing(lines) => GotoShape(s, t, Committing(lines, NewsFor(s.journal + [EntryFor(r, lines)], r)));
      case Committing(lines, news) => GotoShape(s, t, Done(Created(|s.journal|)));
      case Recovering =>
        GotoShape(s, t, Done(Aborted));
        if Resolve(s.journal, r).Some? {
          GotoShape(s, t, Done(Resolve(s.journal, r).value));
        }
    }
  }

  lemma {:induction false} AdvanceShape(s: State, t: Tid)
    requires AllKnow(s) && CanAdvance(s, t)
    ensures OneStep(s, Advance(s, t), t)
  {
    assert Knows(s.journal, s.procs[t]);
    if s.procs[t].pc.Started? || s.procs[t].pc.Locking? || s.procs[t].pc.Rechecking? {
      EarlyShape(s, t);
    } else if s.procs[t].pc.ReadingShares? || s.procs[t].pc.ReadingBalance? || s.procs[t].pc.Inserting? {
      ReadingShape(s, t);
    } else {
      WritingShape(s, t);
    }
  }

  lemma {:induction false} NextExtends(s: State, a: Action)
    requires AllKnow(s) && Enabled(s, a)
    ensures s.history <= Next(s, a).history
    ensures forall t :: t in s.procs ==>
      && t in Next(s, a).procs && Next(s, a).procs[t].request == s.procs[t].request
      && (s.procs[t].pc.Done? ==> Next(s, a).procs[t] == s.procs[t])
  {
    match a {
      case Step(t) => AdvanceShape(s, t);
      case Crash(t) => GotoShape(s, t, Done(Aborted));
      case _ =>
    }
  }

  /** The serial order respects real time: a call that finished before another arrived is placed before it. */
  lemma {:induction false} RealTime(acts: seq<Action>, i: nat, t: Tid, u: Tid)
    requires Legal(acts) && i <= |acts| && Legal(acts[..i])
    requires t in After(acts[..i]).procs && After(acts[..i]).procs[t].pc.Done?
    requires After(acts[..i]).procs[t].pc.outcome != Aborted
    requires u !in After(acts[..i]).procs
    ensures var h := After(acts).history;
      forall m, n ::
      (0 <= m < |h| && 0 <= n < |h| && h[m].Call? && h[n].Call? && h[m].id == t && h[n].id == u) ==> m < n
  {
    HistoryExtends(acts, i);
    AlwaysInv(acts);
    AlwaysInv(acts[..i]);
    var s := After(acts[..i]);
    assert Placed(s.journal, s.procs[t], LogOf(s.history, t));
    RecordedFirst(s.history, After(acts).history, t, u);
  }

  lemma {:induction false} RecordedFirst(g: seq<Item>, h: seq<Item>, t: Tid, u: Tid)
    requires g <= h && OncePerCall(h) && LogOf(g, t).Some? && LogOf(g, u).None?
    ensures forall m, n ::
      (0 <= m < |h| && 0 <= n < |h| && h[m].Call? && h[n].Call? && h[m].id == t && h[n].id == u) ==> m < n
  {
    LogIsItem(g, t);
    LogIsItem(g, u);
    var k :| 0 <= k < |g| && g[k] == Call(t, LogOf(g, t).value.0, LogOf(g, t).value.1);
    assert h[k] == g[k];
    ItemIsLog(h, k);
    assert forall n :: 0 <= n < |g| ==> h[n] == g[n];
  }

  /**
   * In every committed state any schedule can reach, the reconciliation report is empty: entries balance,
   * shares net to zero per instrument, no asset account is overdrawn, no holding is short. Closed holdings
   * carry exactly zero cost, and each key names at most one entry.
   */
  lemma {:induction false} AlwaysClean(acts: seq<Action>)
    requires Legal(acts)
    ensures var s := After(acts);
      CheckInvariants(Rows(s.journal), s.accounts) == {} && Good(s.accounts, s.journal)
  {
    AlwaysInv(acts);
    SerialGood(After(acts).accounts, After(acts).history);
  }

  // ---------------------------------------------------------------------------------------------
  // Exactly once
  // ---------------------------------------------------------------------------------------------

  ghost predicate Finished(s: State, t: Tid, o: Outcome) { t in s.procs && s.procs[t].pc == Done(o) }

  ghost predicate UnderToken(s: State, t: Tid, token: string)
  {
    t in s.procs && s.procs[t].request.Transfer? && s.procs[t].request.token == Some(token)
  }

  /** What a call under a token is told when the token's entry is already there. */
  function Answer(q: Request, r: Request, e: nat): Outcome
    requires q.Transfer? && r.Transfer?
  {
    if !Sound(q) then Invalid else if SameRequest(q, r) then Replayed(e) else Conflict
  }

  /**
   * Exactly once, under any race. If one call under a token reports having created the entry, then among all
   * other calls under that token none does. Each of them that did not fail has its place in the serial order:
   * after the creator it is answered from the entry, whatever the balances have become; before the creator it
   * was refused for lack of funds, or its request was unsound.
   */
  lemma {:induction false} OneCreator(acts: seq<Action>, token: string, t: Tid, e: nat, u: Tid, o: Outcome)
    returns (i: nat, k: nat)
    requires Legal(acts)
    requires UnderToken(After(acts), t, token) && Finished(After(acts), t, Created(e))
    requires UnderToken(After(acts), u, token) && Finished(After(acts), u, o) && u != t
    ensures var s := After(acts);
      var h, r, q := s.history, s.procs[t].request, s.procs[u].request;
      && e < |s.journal| && s.journal[e].key == Some(ClientKey(token)) && s.journal[e].fingerprint == Some(PrintOf(r))
      && !o.Created?
      && i < |h| && h[i] == Call(t, r, Created(e))
      && (o != Aborted ==>
          && k < |h| && h[k] == Call(u, q, o) && i != k
          && (i < k ==> o == Answer(q, r, e))
          && (k < i ==> o == if Sound(q) then Refused(InsufficientFunds) else Invalid))
  {
    Serializable(acts);
    i, k := PlacesOf(After(acts), After(acts).history, token, t, e, u, o);
  }

  lemma {:induction false} PlacesOf(s: State, h: seq<Item>, token: string, t: Tid, e: nat, u: Tid, o: Outcome)
    returns (i: nat, k: nat)
    requires ExplainedBy(s, h)
    requires UnderToken(s, t, token) && Finished(s, t, Created(e)) && UnderToken(s, u, token) && Finished(s, u, o)
    requires u != t
    ensures var r, q := s.procs[t].request, s.procs[u].request;
      && e < |s.journal| && s.journal[e].key == Some(ClientKey(token)) && s.journal[e].fingerprint == Some(PrintOf(r))
      && !o.Created?
      && i < |h| && h[i] == Call(t, r, Created(e))
      && (o != Aborted ==>
          && k < |h| && h[k] == Call(u, q, o) && i != k
          && (i < k ==> o == Answer(q, r, e))
          && (k < i ==> o == if Sound(q) then Refused(InsufficientFunds) else Invalid))
  {
    hide Execute;
    i :| 0 <= i < |h| && h[i] == Call(t, s.procs[t].request, Created(e));
    k := 0;
    ExactlyOnce(h, i);
    KeyOrigin(h, ClientKey(token));
    if o != Aborted {
      k :| 0 <= k < |h| && h[k] == Call(u, s.procs[u].request, o);
      ExactlyOnce(h, k);
      OutcomesUnderToken(h, k);
    }
  }

  /**
   * An unsound request is invalid wherever it is placed; a sound keyed one is never that, nor refused for anything
   * but funds.
   */
  lemma {:induction false} OutcomesUnderToken(h: seq<Item>, k: nat)
    requires Agrees(h) && k < |h| && h[k].Call? && h[k].request.Transfer?
    ensures var o := h[k].outcome;
      if Sound(h[k].request) then o.Created? || o.Replayed? || o.Conflict?
        || o == Refused(InsufficientFunds) else o == Invalid
  {
    AgreesPrefix(h, k);
  }

  /**
   * A retry is always answered. A sound call under the token that arrives after the creator has finished, and
   * does not fail, gets the same entry back or a conflict: never a refusal, even if the source has been
   * emptied since.
   */
  lemma {:induction false} RetryAnswered(acts: seq<Action>, n: nat, token: string, t: Tid, e: nat, u: Tid, o: Outcome)
    requires Legal(acts) && n <= |acts| && Legal(acts[..n])
    requires UnderToken(After(acts[..n]), t, token) && Finished(After(acts[..n]), t, Created(e))
    requires u !in After(acts[..n]).procs
    requires UnderToken(After(acts), u, token) && Finished(After(acts), u, o) && o != Aborted
    ensures t in After(acts).procs && After(acts).procs[t].request.Transfer?
    ensures o == Answer(After(acts).procs[u].request, After(acts).procs[t].request, e)
  {
    HistoryExtends(acts, n);
    RealTime(acts, n, t, u);
    var i, k := OneCreator(acts, token, t, e, u, o);
  }

  /** Conversely, whoever is told of a replay or a conflict is told about an entry that one finished call created. */
  lemma {:induction false} ReplayHasCreator(acts: seq<Action>, token: string, u: Tid, o: Outcome)
    returns (t: Tid, e: nat)
    requires Legal(acts)
    requires UnderToken(After(acts), u, token) && Finished(After(acts), u, o)
    requires o.Replayed? || o.Conflict?
    ensures UnderToken(After(acts), t, token) && Finished(After(acts), t, Created(e)) && t != u
  {
    Serializable(acts);
    t, e := CreatorFinished(After(acts), After(acts).history, token, u, o);
  }

  lemma {:induction false} CreatorFinished(s: State, h: seq<Item>, token: string, u: Tid, o: Outcome)
    returns (t: Tid, e: nat)
    requires ExplainedBy(s, h) && UnderToken(s, u, token) && Finished(s, u, o)
    requires o.Replayed? || o.Conflict?
    ensures UnderToken(s, t, token) && Finished(s, t, Created(e)) && t != u
  {
    var k :| 0 <= k < |h| && h[k] == Call(u, s.procs[u].request, o);
    ExactlyOnce(h, k);
    var c := Creator(h, ClientKey(token)).value;
    assert h[c].Call?;
    t, e := h[c].id, h[c].outcome.entry;
    assert s.procs[t].pc == Done(Created(e));
  }

  // ---------------------------------------------------------------------------------------------
  // Progress and termination
  // ---------------------------------------------------------------------------------------------

  lemma {:induction false} NotWaitingOnRows(s: State, u: Tid)
    requires Inv(s) && Live(s, u) && !s.procs[u].pc.Locking?
    ensures exists v :: CanAdvance(s, v)
  {
    var p := s.procs[u];
    assert Knows(s.journal, p);
    if !CanAdvance(s, u) {
      var k := KeyOf(p.request).value;
      var v := s.claims[k];
      assert Claims(s.procs[v], k);
      assert CanAdvance(s, v);
    }
  }

  ghost function Above(s: State, t: Tid): set<AccountId>
    requires t in s.procs
  {
    var p := s.procs[t];
    if p.pc.Locking? && p.pc.next < |Plan(p.request)|
    then set a | a in s.accounts && a > Plan(p.request)[p.pc.next]
    else {}
  }

  /** Whoever holds the row a call waits for is either not waiting for a row, or waiting for a higher one. */
  lemma {:induction false} Unblock(s: State, t: Tid)
    requires Inv(s) && Live(s, t)
    ensures exists u :: CanAdvance(s, u)
    decreases Above(s, t)
  {
    var p := s.procs[t];
    if !p.pc.Locking? {
      NotWaitingOnRows(s, t);
    } else if !CanAdvance(s, t) {
      var plan, n := Plan(p.request), p.pc.next;
      var a := plan[n];
      var u := s.locks[a];
      var q := s.procs[u];
      assert Holds(q, a);
      if !q.pc.Locking? {
        NotWaitingOnRows(s, u);
      } else if q.pc.next < |Plan(q.request)| {
        var b := Plan(q.request)[q.pc.next];
        assert a < b;
        assert b in Touched(q.request);
        TouchedAreAssets(s.accounts, q.request);
        assert b in Above(s, t) && b !in Above(s, u);
        Unblock(s, u);
      } else {
        assert CanAdvance(s, u);
      }
    }
  }

  /** Deadlock freedom: in no reachable state are all unfinished calls blocked. */
  lemma {:induction false} NeverStuck(acts: seq<Action>, t: Tid)
    requires Legal(acts) && Live(After(acts), t)
    ensures exists u :: Live(After(acts), u) && CanAdvance(After(acts), u)
  {
    AlwaysInv(acts);
    Unblock(After(acts), t);
  }

  /** Steps a call can still take. */
  ghost function Weight(p: Proc): nat
  {
    match p.pc
    case Started => |Plan(p.request)| + 9
    case Locking(n) => if n <= |Plan(p.request)| then |Plan(p.request)| - n + 8 else 8
    case Rechecking => 7
    case ReadingShares => 7
    case ReadingBalance(_) => 6
    case Inserting(_) => 5
    case Auditing(_) => 4
    case Announcing(_) => 3
    case Committing(_, _) => 2
    case Recovering => 1
    case Done(_) => 0
  }

  ghost function WeightIn(procs: map<Tid, Proc>): Tid -> int
  {
    (t: Tid) => if t in procs then Weight(procs[t]) else 0
  }

  ghost function Work(s: State): int { Sum(Sorted(s.procs.Keys), WeightIn(s.procs)) }

  lemma {:induction false} WorkShrinks(s: State, a: Action)
    requires AllKnow(s) && Enabled(s, a) && (a.Step? || a.Crash?)
    ensures Work(Next(s, a)) < Work(s)
  {
    if a.Step? {
      AdvanceShape(s, a.t);
    } else {
      GotoShape(s, a.t, Done(Aborted));
    }
    LessWork(s, Next(s, a), a.t);
  }

  lemma {:induction false} LessWork(s: State, g: State, t: Tid)
    requires OneStep(s, g, t)
    ensures Work(g) < Work(s)
  {
    assert g.procs.Keys == s.procs.Keys;
    var ids := Sorted(s.procs.Keys);
    assert t in ids;
    assert WeightIn(g.procs)(t) < WeightIn(s.procs)(t);
    SumAtMost(ids, WeightIn(g.procs), WeightIn(s.procs));
  }

  lemma {:induction false} KnowsAlways(acts: seq<Action>)
    requires Legal(acts)
    ensures AllKnow(After(acts))
  {
    AlwaysInv(acts);
  }

  lemma {:induction false} WorkNatural(s: State)
    ensures Work(s) >= 0
  {
    SumAtMost(Sorted(s.procs.Keys), (t: Tid) => 0, WeightIn(s.procs));
    SumZero(Sorted(s.procs.Keys), (t: Tid) => 0);
  }

  /** Once arrivals stop, every schedule of the calls in flight ends within the work they have left. */
  lemma {:induction false} BoundedSteps(acts: seq<Action>, i: nat)
    requires Legal(acts) && i <= |acts| && Legal(acts[..i])
    requires forall k :: i <= k < |acts| ==> acts[k].Step? || acts[k].Crash?
    ensures |acts| - i + Work(After(acts)) <= Work(After(acts[..i]))
    ensures Work(After(acts)) >= 0
    decreases |acts|
  {
    hide Work, AllKnow, Advance;
    WorkNatural(After(acts));
    if i < |acts| {
      var earlier := acts[..|acts| - 1];
      assert earlier[..i] == acts[..i];
      BoundedSteps(earlier, i);
      KnowsAlways(earlier);
      WorkShrinks(After(earlier), acts[|acts| - 1]);
    } else {
      assert acts[..i] == acts;
    }
  }

  // ---------------------------------------------------------------------------------------------
  // Reports
  // ---------------------------------------------------------------------------------------------

  /** Who posted each entry, entry by entry: an opening deposit or a call. */
  function PostedBy(h: seq<Item>): seq<Item>
  {
    if h == [] then []
    else
      var item := h[|h| - 1];
      PostedBy(h[..|h| - 1]) + if item.Opening? || item.outcome.Created? then [item] else []
  }

  /** The entry an item posts at a place in the journal; a transfer's lines are its own, a fill's are as decided. */
  ghost predicate Posts(item: Item, entry: Entry, e: nat)
  {
    match item
    case Opening(q, c, n, at) => entry == OpeningEntry(q, c, n, at)
    case Call(_, r, o) =>
      o == Created(e) && entry == EntryFor(r, entry.lines)
      && (r.Transfer? ==> entry.lines == TransferPosting(r.source, r.destination, r.amount))
  }

  /** The accounts whose balances are announced, each with its balance in the journal given. */
  ghost predicate Announces(news: seq<BalanceNews>, j: seq<Entry>, named: seq<AccountId>)
  {
    |news| == |named| && forall i :: 0 <= i < |news| ==> news[i] == BalanceNews(named[i], Balance(Rows(j), named[i]))
  }

  /**
   * What is said about one entry a call posted: a transfer row and both balances for a transfer, a fill row
   * naming the order and the cash balance for a fill, each balance as it stood right after that entry.
   */
  ghost predicate Told(j: seq<Entry>, c: Item, e: nat, row: AuditRow, batch: Batch)
  {
    && c.Call? && e < |j| && batch.entry == e
    && match c.request
       case Transfer(s, d, _, _, _) => row == TransferPosted(e) && Announces(batch.news, j[..e + 1], [s, d])
       case Fill(t, _, _) => row == OrderFilled(e, t.order) && Announces(batch.news, j[..e + 1], [t.cash])
  }

  ghost predicate Listed(audit: seq<AuditRow>, e: nat)
  {
    exists i :: 0 <= i < |audit| && audit[i].entry == e
  }

  /**
   * Entries, audit rows and announcement batches: one row and one batch for each entry a call posted, in
   * order, and none for an opening deposit.
   */
  ghost predicate Matched(posted: seq<Item>, audit: seq<AuditRow>, published: seq<Batch>, j: seq<Entry>)
  {
    && |posted| == |j| && |audit| == |published|
    && (forall e :: 0 <= e < |j| ==> Posts(posted[e], j[e], e))
    && (forall i, k :: 0 <= i < k < |audit| ==> audit[i].entry < audit[k].entry)
    && (forall i :: 0 <= i < |audit| ==>
        audit[i].entry < |j| && Told(j, posted[audit[i].entry], audit[i].entry, audit[i], published[i]))
    && (forall e :: 0 <= e < |j| ==> (posted[e].Call? <==> Listed(audit, e)))
  }

  lemma {:induction false} ToldStays(j: seq<Entry>, entry: Entry, c: Item, e: nat, row: AuditRow, batch: Batch)
    requires Told(j, c, e, row, batch)
    ensures Told(j + [entry], c, e, row, batch)
  {
    assert (j + [entry])[..e + 1] == j[..e + 1];
  }

  lemma {:induction false} ListedMore(audit: seq<AuditRow>, row: AuditRow, e: nat)
    ensures Listed(audit + [row], e) <==> Listed(audit, e) || row.entry == e
  {
    var more := audit + [row];
    if Listed(audit, e) {
      var i :| 0 <= i < |audit| && audit[i].entry == e;
      assert more[i].entry == e;
    }
    assert more[|audit|] == row;
  }

  lemma {:induction false} QuietMatched(posted: seq<Item>, audit: seq<AuditRow>, published: seq<Batch>, j: seq<Entry>,
                                        item: Item, entry: Entry)
    requires Matched(posted, audit, published, j) && item.Opening? && Posts(item, entry, |j|)
    ensures Matched(posted + [item], audit, published, j + [entry])
  {
    var j', posted' := j + [entry], posted + [item];
    forall i | 0 <= i < |audit| ensures Told(j', posted'[audit[i].entry], audit[i].entry, audit[i], published[i]) {
      ToldStays(j, entry, posted[audit[i].entry], audit[i].entry, audit[i], published[i]);
    }
    hide Told, Posts;
    forall e | 0 <= e < |j'| ensures posted'[e].Call? <==> Listed(audit, e) {
      assert e < |j| ==> posted'[e] == posted[e];
    }
  }

  lemma {:induction false} OneMoreReport(posted: seq<Item>, audit: seq<AuditRow>, published: seq<Batch>, j: seq<Entry>,
                                         item: Item, entry: Entry, row: AuditRow, batch: Batch)
    requires Matched(posted, audit, published, j) && Posts(item, entry, |j|)
    requires row.entry == |j| && Told(j + [entry], item, |j|, row, batch)
    ensures Matched(posted + [item], audit + [row], published + [batch], j + [entry])
  {
    hide Posts, Told, Listed;
    var j', posted', audit', published' := j + [entry], posted + [item], audit + [row], published + [batch];
    forall i | 0 <= i < |audit'|
      ensures audit'[i].entry < |j'| && Told(j', posted'[audit'[i].entry], audit'[i].entry, audit'[i], published'[i])
    {
      if i < |audit| {
        ToldStays(j, entry, posted[audit[i].entry], audit[i].entry, audit[i], published[i]);
      }
    }
    CallIfTold(j', item, |j|, row, batch);
    forall e: nat | e < |j'| ensures posted'[e].Call? <==> Listed(audit', e) {
      ListedMore(audit, row, e);
      if e == |j| {
        assert posted'[e] == item;
      } else {
        assert posted'[e] == posted[e];
      }
    }
  }

  lemma {:induction false} CallIfTold(j: seq<Entry>, c: Item, e: nat, row: AuditRow, batch: Batch)
    requires Told(j, c, e, row, batch)
    ensures c.Call?
  {
  }

  /** What a commit writes and announces is what `Told` asks for. */
  lemma {:induction false} CommitTells(j: seq<Entry>, c: Item, lines: seq<Line>)
    requires c.Call? && c.outcome == Created(|j|)
    ensures var j', r := j + [EntryFor(c.request, lines)], c.request;
      Told(j', c, |j|, AuditFor(r, |j|), Batch(|j|, NewsFor(j', r)))
  {
    var j' := j + [EntryFor(c.request, lines)];
    assert j'[..|j| + 1] == j';
  }

  lemma {:induction false} ReportsMatch(h: seq<Item>)
    requires Agrees(h)
    ensures Matched(PostedBy(h), AuditOf(h), PublishedOf(h), JournalOf(h))
  {
    hide Execute, Matched, Posts, NewsFor, Told;
    if h == [] {
      NothingMatched();
    } else {
      var g, item := h[..|h| - 1], h[|h| - 1];
      ReportsMatch(g);
      var j := JournalOf(g);
      if item.Opening? {
        assert AuditOf(h) == AuditOf(g) && PublishedOf(h) == PublishedOf(g);
        OpeningPosts(item, |j|);
        QuietMatched(PostedBy(g), AuditOf(g), PublishedOf(g), j, item,
          OpeningEntry(item.equity, item.checking, item.deposit, item.at));
      } else if item.outcome.Created? {
        CreatedLines(j, item.request);
        var lines := DecideOn(j, item.request).value;
        var entry := EntryFor(item.request, lines);
        CommitTells(j, item, lines);
        CallPosts(item, lines, |j|);
        OneMoreReport(PostedBy(g), AuditOf(g), PublishedOf(g), j, item, entry, AuditFor(item.request, |j|),
          Batch(|j|, NewsFor(JournalOf(h), item.request)));
      } else {
        QuietExecute(j, item.request);
        assert AuditOf(h) == AuditOf(g) && PublishedOf(h) == PublishedOf(g) && PostedBy(h) == PostedBy(g);
      }
    }
  }

  lemma {:induction false} NothingMatched()
    ensures Matched([], [], [], [])
  {
  }

  lemma {:induction false} OpeningPosts(item: Item, e: nat)
    requires item.Opening?
    ensures Posts(item, OpeningEntry(item.equity, item.checking, item.deposit, item.at), e)
  {
  }

  lemma {:induction false} CallPosts(item: Item, lines: seq<Line>, e: nat)
    requires item.Call? && item.outcome == Created(e)
    requires item.request.Transfer? ==>
      lines == TransferPosting(item.request.source, item.request.destination, item.request.amount)
    ensures Posts(item, EntryFor(item.request, lines), e)
  {
  }

  /** A row's kind agrees with the key of the entry it is about. */
  ghost predicate KindAgrees(j: seq<Entry>, row: AuditRow)
  {
    row.entry < |j| && forall o :: row == OrderFilled(row.entry, o) <==> j[row.entry].key == Some(OrderKey(o))
  }

  lemma {:induction false} KindFollowsKey(posted: seq<Item>, audit: seq<AuditRow>, published: seq<Batch>,
                                          j: seq<Entry>, i: nat)
    requires Matched(posted, audit, published, j) && i < |audit|
    ensures KindAgrees(j, audit[i])
  {
    var e := audit[i].entry;
    assert Told(j, posted[e], e, audit[i], published[i]);
    assert Posts(posted[e], j[e], e);
  }

  /**
   * Reports agree with the ledger on every schedule. Each committed entry was posted by an opening deposit or
   * by a call of the serial order; the entries of calls, and only they, have one audit row and one batch of
   * announcements each; the row says TRANSFER_POSTED for a transfer and ORDER_FILLED, with its order, for a
   * fill; the batch names the accounts whose rows were locked, each with its balance at that very commit; and
   * a call that did not report creating an entry posted none.
   */
  lemma {:induction false} HonestReports(acts: seq<Action>)
    requires Legal(acts)
    ensures var s := After(acts);
      && Matched(PostedBy(s.history), s.audit, s.published, s.journal)
      && (forall i :: 0 <= i < |s.audit| ==> KindAgrees(s.journal, s.audit[i]))
      && (forall t, o :: Finished(s, t, o) && !o.Created? ==>
            forall i :: 0 <= i < |s.history| && s.history[i].Call? && s.history[i].id == t ==>
              !s.history[i].outcome.Created?)
  {
    hide Matched, KindAgrees, Execute, PostedBy, AuditOf, PublishedOf, JournalOf;
    AlwaysInv(acts);
    Serializable(acts);
    var s := After(acts);
    ReportsMatch(s.history);
    forall i | 0 <= i < |s.audit| ensures KindAgrees(s.journal, s.audit[i]) {
      KindFollowsKey(PostedBy(s.history), s.audit, s.published, s.journal, i);
    }
  }
}
