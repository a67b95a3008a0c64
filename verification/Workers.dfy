/**
 * Sweep workers, the market path and cancellations racing over the same orders
 * (backend/trading/tasks.py, backend/trading/services.py).
 *
 * Row locks on orders and the unique key index are modelled; prices and the outcome of a fill's funds checks
 * are left to chance, so what holds here holds whatever they turn out to be.
 */
module Workers {
  import opened Wrappers
  import opened Journal
  import opened Orders

  type Tid = nat

  datatype OrderRow = OrderRow(market: bool, status: OrderStatus, entry: Option<nat>)

  /** A sweep worker on one candidate, or the request that placed a market order and fills it at once. */
  datatype Role = Sweeper | Placer

  datatype Pc =
    | Locking    // about to SELECT ... FOR UPDATE SKIP LOCKED
    | Looking    // row locked, price not yet compared
    | Filling    // inside the fill
    | Saving     // entry inserted, order row not yet written
    | Committing // everything written, nothing visible
    | Rejecting  // the fill has rolled back, its rejection is not yet saved
    | Done

  datatype Proc = Proc(order: OrderId, role: Role, pc: Pc)

  /** `entries` lists the committed fills by the order each is keyed on. */
  datatype State = State(
    orders: map<OrderId, OrderRow>, entries: seq<OrderId>,
    rows: map<OrderId, Tid>, claims: map<OrderId, Tid>, procs: map<Tid, Proc>)

  const INITIAL := State(map[], [], map[], map[], map[])

  datatype Action =
    | Rest(o: OrderId)
    | Place(t: Tid, o: OrderId)
    | Begin(t: Tid, o: OrderId)
    | Lock(t: Tid)
    | Look(t: Tid, crosses: bool)
    | Refuse(t: Tid)
    | Post(t: Tid)
    | Save(t: Tid)
    | Commit(t: Tid)
    | RejectSave(t: Tid)
    | Cancel(o: OrderId)
    | Crash(t: Tid)

  predicate At(s: State, t: Tid, pc: Pc) { t in s.procs && s.procs[t].pc == pc }

  /** A write to an order row waits while another transaction holds it. */
  predicate RowFree(s: State, t: Tid)
    requires t in s.procs
  {
    s.procs[t].order !in s.rows || s.rows[s.procs[t].order] == t
  }

  predicate Enabled(s: State, a: Action)
  {
    match a
    case Rest(o) => o !in s.orders
    case Place(t, o) => t !in s.procs && o !in s.orders
    case Begin(t, o) => t !in s.procs && o in s.orders
    case Lock(t) => At(s, t, Locking)
    case Look(t, _) => At(s, t, Looking)
    case Refuse(t) => At(s, t, Filling)
    case Post(t) => At(s, t, Filling) && s.procs[t].order !in s.claims
    case Save(t) => At(s, t, Saving) && RowFree(s, t)
    case Commit(t) => At(s, t, Committing)
    case RejectSave(t) => At(s, t, Rejecting) && s.procs[t].order in s.orders && RowFree(s, t)
    case Cancel(o) => o in s.orders && o !in s.rows
    case Crash(t) => t in s.procs && s.procs[t].pc != Done
  }

  function Goto(s: State, t: Tid, pc: Pc): State
    requires t in s.procs
  {
    s.(procs := s.procs[t := s.procs[t].(pc := pc)])
  }

  /** End of transaction: the row lock and the uncommitted key go. */
  function Released(s: State, t: Tid): State
  {
    s.(rows := Without(s.rows, t), claims := Without(s.claims, t))
  }

  function Without(table: map<OrderId, Tid>, t: Tid): map<OrderId, Tid>
  {
    map o | o in table && table[o] != t :: table[o]
  }

  function Next(s: State, a: Action): State
    requires Enabled(s, a)
  {
    match a
    case Rest(o) => s.(orders := s.orders[o := OrderRow(false, Open, None)])
    case Place(t, o) => s.(orders := s.orders[o := OrderRow(true, Open, None)],
      procs := s.procs[t := Proc(o, Placer, Filling)])
    case Begin(t, o) => s.(procs := s.procs[t := Proc(o, Sweeper, Locking)])
    case Lock(t) =>
      var o := s.procs[t].order;
      if o in s.rows || o !in s.orders || s.orders[o].status != Open then Goto(s, t, Done)
      else Goto(s.(rows := s.rows[o := t]), t, Looking)
    case Look(t, crosses) => if crosses then Goto(s, t, Filling) else Goto(Released(s, t), t, Done)
    case Refuse(t) => Goto(Released(s, t), t, Rejecting)
    case Post(t) =>
      var o := s.procs[t].order;
      if o in s.entries then Goto(Released(s, t), t, Done) else Goto(s.(claims := s.claims[o := t]), t, Saving)
    case Save(t) => Goto(s.(rows := s.rows[s.procs[t].order := t]), t, Committing)
    case Commit(t) => Committed(s, t)
    case RejectSave(t) =>
      var o := s.procs[t].order;
      Goto(s.(orders := s.orders[o := s.orders[o].(status := Rejected)]), t, Done)
    case Cancel(o) => if s.orders[o].status == Open
      then s.(orders := s.orders[o := s.orders[o].(status := Cancelled)]) else s
    case Crash(t) => Goto(Released(s, t), t, Done)
  }

  /** The entry and the order's FILLED status become visible together, whatever the status was. */
  function Committed(s: State, t: Tid): State
    requires t in s.procs
  {
    var o := s.procs[t].order;
    var row := OrderRow(if o in s.orders then s.orders[o].market else false, Filled, Some(|s.entries|));
    Goto(Released(s, t), t, Done).(orders := s.orders[o := row], entries := s.entries + [o])
  }

  predicate Legal(acts: seq<Action>)
    decreases |acts|, 0
  {
    acts == [] || (Legal(acts[..|acts| - 1]) && Enabled(After(acts[..|acts| - 1]), acts[|acts| - 1]))
  }

  function After(acts: seq<Action>): State
    requires Legal(acts)
    decreases |acts|, 1
  {
    if acts == [] then INITIAL else Next(After(acts[..|acts| - 1]), acts[|acts| - 1])
  }

  // ---------------------------------------------------------------------------------------------
  // The invariant
  // ---------------------------------------------------------------------------------------------

  predicate HoldsRow(p: Proc)
  {
    p.pc == Committing || (p.role == Sweeper && (p.pc == Looking || p.pc == Filling || p.pc == Saving))
  }

  predicate HoldsKey(p: Proc) { p.pc == Saving || p.pc == Committing }

  /** A lock table says exactly what its holders believe: rows held, or keys inserted and not yet committed. */
  ghost predicate TableOk(procs: map<Tid, Proc>, table: map<OrderId, Tid>, holds: Proc -> bool)
  {
    && (forall t :: t in procs && holds(procs[t]) ==> procs[t].order in table && table[procs[t].order] == t)
    && (forall o :: o in table ==> table[o] in procs && procs[table[o]].order == o && holds(procs[table[o]]))
  }

  ghost predicate LocksOk(s: State) { TableOk(s.procs, s.rows, HoldsRow) && ProcsOk(s) }

  /** Calls work on existing orders, and only sweep workers lock them first. */
  ghost predicate ProcsOk(s: State)
  {
    forall t :: t in s.procs ==>
      s.procs[t].order in s.orders
        && (s.procs[t].pc == Locking || s.procs[t].pc == Looking ==> s.procs[t].role == Sweeper)
  }

  ghost predicate KeysOk(s: State)
  {
    && TableOk(s.procs, s.claims, HoldsKey)
    && (forall o :: o in s.claims ==> o !in s.entries)
  }

  /** An order row and the entry keyed by it name each other. */
  ghost predicate Linked(orders: map<OrderId, OrderRow>, entries: seq<OrderId>, o: OrderId)
    requires o in orders
  {
    && (forall e :: orders[o].entry == Some(e) ==> e < |entries| && entries[e] == o)
    && (forall e :: 0 <= e < |entries| && entries[e] == o ==> orders[o].entry == Some(e))
  }

  ghost predicate OrderOk(orders: map<OrderId, OrderRow>, entries: seq<OrderId>, o: OrderId)
    requires o in orders
  {
    && Linked(orders, entries, o)
    && (orders[o].status == Filled ==> orders[o].entry.Some?)
    && (orders[o].status == Open || orders[o].status == Cancelled ==> orders[o].entry.None?)
  }

  ghost predicate BookOk(s: State)
  {
    && (forall o :: o in s.orders ==> OrderOk(s.orders, s.entries, o))
    && (forall o :: o in s.entries ==> o in s.orders)
  }

  /** A sweep worker past its lock still sees the order open; a market order's placer works on a market order. */
  predicate Sees(orders: map<OrderId, OrderRow>, p: Proc)
  {
    p.order in orders ==>
      && (p.role == Sweeper && HoldsRow(p) ==> orders[p.order].status == Open)
      && (p.role == Placer ==> orders[p.order].market)
  }

  ghost predicate ViewOk(s: State)
  {
    forall t :: t in s.procs ==> Sees(s.orders, s.procs[t])
  }

  ghost predicate Inv(s: State) { LocksOk(s) && KeysOk(s) && BookOk(s) && ViewOk(s) }

  /** The ways one process and a lock table change together. */
  lemma {:induction false} TableMoves(procs: map<Tid, Proc>, table: map<OrderId, Tid>, holds: Proc -> bool, t: Tid,
                                      p: Proc)
    requires TableOk(procs, table, holds)
    requires t in procs ==> p.order == procs[t].order
    ensures (if t in procs then holds(p) == holds(procs[t]) else !holds(p)) ==> TableOk(procs[t := p], table, holds)
    ensures holds(p) && p.order !in table && (t in procs ==> !holds(procs[t])) ==>
      TableOk(procs[t := p], table[p.order := t], holds)
    ensures holds(p) && p.order in table && table[p.order] == t ==> TableOk(procs[t := p], table[p.order := t], holds)
    ensures !holds(p) ==> TableOk(procs[t := p], Without(table, t), holds)
  {
  }

  lemma {:induction false} StepProcs(s: State, a: Action)
    requires ProcsOk(s) && Enabled(s, a)
    ensures ProcsOk(Next(s, a))
  {
  }

  lemma {:induction false} LockRow(s: State, t: Tid)
    requires LocksOk(s) && Enabled(s, Lock(t))
    ensures TableOk(Next(s, Lock(t)).procs, Next(s, Lock(t)).rows, HoldsRow)
  {
    assert s.procs[t].role == Sweeper;
    hide ProcsOk;
    TableMoves(s.procs, s.rows, HoldsRow, t, Next(s, Lock(t)).procs[t]);
  }

  lemma {:induction false} EarlyRows(s: State, a: Action)
    requires TableOk(s.procs, s.rows, HoldsRow) && Enabled(s, a) && (a.Look? || a.Refuse? || a.Post?)
    ensures TableOk(Next(s, a).procs, Next(s, a).rows, HoldsRow)
  {
    TableMoves(s.procs, s.rows, HoldsRow, a.t, Next(s, a).procs[a.t]);
  }

  lemma {:induction false} LateRows(s: State, a: Action)
    requires TableOk(s.procs, s.rows, HoldsRow) && Enabled(s, a) && (a.Save? || a.Commit? || a.RejectSave?)
    ensures TableOk(Next(s, a).procs, Next(s, a).rows, HoldsRow)
  {
  }

  lemma {:induction false} OtherRows(s: State, a: Action)
    requires TableOk(s.procs, s.rows, HoldsRow) && Enabled(s, a)
    requires a.Rest? || a.Cancel? || a.Crash? || a.Place? || a.Begin?
    ensures TableOk(Next(s, a).procs, Next(s, a).rows, HoldsRow)
  {
  }

  lemma {:induction false} StepLocks(s: State, a: Action)
    requires LocksOk(s) && Enabled(s, a)
    ensures LocksOk(Next(s, a))
  {
    StepProcs(s, a);
    hide TableOk, ProcsOk;
    if a.Lock? {
      LockRow(s, a.t);
    } else if a.Look? || a.Refuse? || a.Post? {
      EarlyRows(s, a);
    } else if a.Save? || a.Commit? || a.RejectSave? {
      LateRows(s, a);
    } else {
      OtherRows(s, a);
    }
  }

  lemma {:induction false} WriterKeys(s: State, a: Action)
    requires KeysOk(s) && Enabled(s, a) && (a.Post? || a.Commit?)
    ensures KeysOk(Next(s, a))
  {
    TableMoves(s.procs, s.claims, HoldsKey, a.t, Next(s, a).procs[a.t]);
  }

  lemma {:induction false} OtherKeys(s: State, a: Action)
    requires KeysOk(s) && Enabled(s, a) && !a.Post? && !a.Commit?
    ensures KeysOk(Next(s, a))
  {
    if !a.Rest? && !a.Cancel? {
      TableMoves(s.procs, s.claims, HoldsKey, a.t, Next(s, a).procs[a.t]);
    }
  }

  lemma {:induction false} StepKeys(s: State, a: Action)
    requires KeysOk(s) && Enabled(s, a)
    ensures KeysOk(Next(s, a))
  {
    if a.Post? || a.Commit? {
      WriterKeys(s, a);
    } else {
      OtherKeys(s, a);
    }
  }

  lemma {:induction false} StepBook(s: State, a: Action)
    requires LocksOk(s) && KeysOk(s) && BookOk(s) && Enabled(s, a)
    ensures BookOk(Next(s, a))
  {
    var g := Next(s, a);
    if a.Commit? {
      assert s.procs[a.t].order !in s.entries;
    }
    hide LocksOk, KeysOk;
    forall o | o in g.orders ensures OrderOk(g.orders, g.entries, o) {
      OneOrderOk(s, a, o);
    }
    assert forall o :: o in s.entries ==> o in s.orders;
  }

  lemma {:induction false} OneOrderOk(s: State, a: Action, o: OrderId)
    requires BookOk(s) && Enabled(s, a) && o in Next(s, a).orders
    requires a.Commit? ==> s.procs[a.t].order !in s.entries
    ensures OrderOk(Next(s, a).orders, Next(s, a).entries, o)
  {
  }

  lemma {:induction false} StepView(s: State, a: Action)
    requires LocksOk(s) && ViewOk(s) && Enabled(s, a)
    ensures ViewOk(Next(s, a))
  {
    var g := Next(s, a);
    forall u | u in g.procs ensures Sees(g.orders, g.procs[u]) {
      if u in s.procs {
        ProcStillSees(s, a, u);
      }
    }
  }

  lemma {:induction false} RowFacts(s: State, t: Tid)
    requires LocksOk(s) && t in s.procs
    ensures s.procs[t].order in s.orders
    ensures HoldsRow(s.procs[t]) ==> s.procs[t].order in s.rows && s.rows[s.procs[t].order] == t
  {
  }

  /** An order row only changes when nobody else holds it, so whoever holds it still sees it open. */
  lemma {:induction false} ProcStillSees(s: State, a: Action, u: Tid)
    requires LocksOk(s) && Enabled(s, a) && u in s.procs && Sees(s.orders, s.procs[u])
    ensures u in Next(s, a).procs && Sees(Next(s, a).orders, Next(s, a).procs[u])
  {
    hide LocksOk;
    RowFacts(s, u);
    if a.Commit? {
      RowFacts(s, a.t);
    }
  }

  lemma {:induction false} AlwaysInv(acts: seq<Action>)
    requires Legal(acts)
    ensures Inv(After(acts))
  {
    if acts == [] {
    } else {
      var n := |acts| - 1;
      AlwaysInv(acts[..n]);
      var s := After(acts[..n]);
      StepLocks(s, acts[n]);
      StepKeys(s, acts[n]);
      StepBook(s, acts[n]);
      StepView(s, acts[n]);
    }
  }

  /**
   * In every interleaving: an order has at most one entry, order row and entry name each other whatever the
   * status says, and a FILLED order has its entry; an open or cancelled one has none.
   */
  lemma {:induction false} OneFillEach(acts: seq<Action>)
    requires Legal(acts)
    ensures var s := After(acts);
      && (forall i, k :: 0 <= i < k < |s.entries| ==> s.entries[i] != s.entries[k])
      && (forall o, e: nat :: o in s.orders ==>
          (s.orders[o].entry == Some(e) <==> e < |s.entries| && s.entries[e] == o))
      && (forall o :: o in s.orders && s.orders[o].status == Filled ==> s.orders[o].entry.Some?)
      && (forall o :: o in s.orders && (s.orders[o].status == Open || s.orders[o].status == Cancelled) ==>
          s.orders[o].entry.None?)
  {
    AlwaysInv(acts);
    var s := After(acts);
    forall i, k | 0 <= i < k < |s.entries| ensures s.entries[i] != s.entries[k] {
      assert s.entries[i] in s.entries;
      assert OrderOk(s.orders, s.entries, s.entries[i]);
    }
    forall o | o in s.orders ensures OrderOk(s.orders, s.entries, o) {
    }
  }

  /** Some rejection in the run was saved over an order that had already been filled. */
  predicate Overwritten(acts: seq<Action>, o: OrderId)
    requires Legal(acts)
  {
    acts != [] &&
    var earlier, a := acts[..|acts| - 1], acts[|acts| - 1];
    Overwritten(earlier, o) || Overwrites(After(earlier), a, o)
  }

  predicate Overwrites(s: State, a: Action, o: OrderId)
  {
    a.RejectSave? && a.t in s.procs && s.procs[a.t].order == o && o in s.orders && s.orders[o].entry.Some?
  }

  predicate Misstated(s: State, o: OrderId) { o in s.orders && s.orders[o].entry.Some? && s.orders[o].status != Filled }

  lemma {:induction false} StepMisstates(s: State, a: Action, o: OrderId)
    requires Inv(s) && Enabled(s, a)
    ensures Misstated(Next(s, a), o) <==> Misstated(s, o) || Overwrites(s, a, o)
  {
  }

  /**
   * "An entry implies FILLED" fails exactly where a rejection is saved over a fill: after any run, an order
   * with an entry is not FILLED if and only if some rejection in the run was saved after its entry existed.
   */
  lemma {:induction false} WhenStatusLies(acts: seq<Action>, o: OrderId)
    requires Legal(acts)
    ensures Misstated(After(acts), o) <==> Overwritten(acts, o)
  {
    if acts == [] {
    } else {
      var n := |acts| - 1;
      WhenStatusLies(acts[..n], o);
      AlwaysInv(acts[..n]);
      StepMisstates(After(acts[..n]), acts[n], o);
    }
  }

  // ---------------------------------------------------------------------------------------------
  // Runs that show what does not hold
  // ---------------------------------------------------------------------------------------------

  lemma {:induction false} Extend(acts: seq<Action>, s: State, a: Action) returns (more: seq<Action>, g: State)
    requires Legal(acts) && After(acts) == s && Enabled(s, a)
    ensures more == acts + [a] && Legal(more) && g == Next(s, a) && After(more) == g
  {
    more, g := acts + [a], Next(s, a);
    assert more[..|acts|] == acts;
  }

  lemma {:induction false} Started() returns (s: State)
    ensures s == INITIAL && Legal([]) && After([]) == s
  {
    s := INITIAL;
  }

  lemma {:induction false} FirstWorker(acts: seq<Action>, s: State) returns (more: seq<Action>, g: State)
    requires Legal(acts) && After(acts) == s && s == INITIAL
    ensures Legal(more) && After(more) == g
    ensures g.rows == map[] && g.claims == map[] && g.orders == map[7 := OrderRow(false, Open, None)]
    ensures g.procs == map[1 := Proc(7, Sweeper, Rejecting)] && g.entries == []
  {
    hide After, Legal;
    more, g := Extend(acts, s, Rest(7));
    more, g := Extend(more, g, Begin(1, 7));
    more, g := Extend(more, g, Lock(1));
    assert g.rows == map[7 := 1] && g.claims == map[];
    more, g := Extend(more, g, Look(1, true));
    more, g := Extend(more, g, Refuse(1));
  }

  /**
   * One worker's fill is refused and rolls back; before its rejection is saved, a second worker finds the
   * order still open, can now afford it and fills it; then the first worker's rejection lands.
   */
  lemma {:induction false} RejectedAfterFill() returns (acts: seq<Action>)
    ensures Legal(acts) && Misstated(After(acts), 7)
    ensures After(acts).entries == [7] && After(acts).orders[7].status == Rejected
  {
    hide After;
    acts := [];
    var s := Started();
    acts, s := FirstWorker(acts, s);
    acts, s := SecondWorker(acts, s);
    acts, s := Extend(acts, s, RejectSave(1));
  }

  lemma {:induction false} SecondWorker(acts: seq<Action>, s: State) returns (more: seq<Action>, g: State)
    requires Legal(acts) && After(acts) == s
    requires s.rows == map[] && s.claims == map[] && s.orders == map[7 := OrderRow(false, Open, None)]
    requires 1 in s.procs && s.procs[1].order == 7 && s.procs[1].pc == Rejecting && 2 !in s.procs && s.entries == []
    ensures Legal(more) && After(more) == g
    ensures g.rows == map[] && g.orders == map[7 := OrderRow(false, Filled, Some(0))] && g.entries == [7]
    ensures 1 in g.procs && g.procs[1].order == 7 && g.procs[1].pc == Rejecting
  {
    hide After;
    more, g := Extend(acts, s, Begin(2, 7));
    more, g := Extend(more, g, Lock(2));
    more, g := Extend(more, g, Look(2, true));
    assert g.rows == map[7 := 2] && g.claims == map[];
    more, g := SecondFill(more, g);
  }

  lemma {:induction false} WithoutOnly(o: OrderId, t: Tid)
    ensures Without(map[o := t], t) == map[]
  {
  }

  lemma {:induction false} SecondFill(acts: seq<Action>, s: State) returns (more: seq<Action>, g: State)
    requires Legal(acts) && After(acts) == s
    requires s.rows == map[7 := 2] && s.claims == map[] && s.orders == map[7 := OrderRow(false, Open, None)]
    requires s.entries == []
    requires 2 in s.procs && s.procs[2] == Proc(7, Sweeper, Filling)
    ensures Legal(more) && After(more) == g
    ensures g.rows == map[] && g.orders == map[7 := OrderRow(false, Filled, Some(0))] && g.entries == [7]
    ensures g.procs == s.procs[2 := Proc(7, Sweeper, Done)]
  {
    hide After, Legal, Without;
    more, g := Extend(acts, s, Post(2));
    more, g := Extend(more, g, Save(2));
    assert g.rows == map[7 := 2];
    more, g := Extend(more, g, Commit(2));
    WithoutOnly(7, 2);
  }

  /** A market order can be cancelled while its own fill is under way, and the fill then overwrites that too. */
  lemma {:induction false} CancelOvertaken() returns (before: seq<Action>, acts: seq<Action>)
    ensures Legal(before) && Legal(acts) && before <= acts
    ensures 7 in After(before).orders && After(before).orders[7].status == Cancelled
    ensures 7 in After(acts).orders && After(acts).orders[7].status == Filled
  {
    hide After;
    acts := [];
    var s := Started();
    acts, s := Extend(acts, s, Place(1, 7));
    acts, s := Extend(acts, s, Cancel(7));
    before := acts;
    acts, s := Extend(acts, s, Post(1));
    acts, s := Extend(acts, s, Save(1));
    acts, s := Extend(acts, s, Commit(1));
  }

  /** The request that placed a market order is still on its way to filling it. */
  predicate Filler(s: State, t: Tid, o: OrderId)
  {
    t in s.procs && s.procs[t].order == o && s.procs[t].role == Placer
    && (s.procs[t].pc == Filling || s.procs[t].pc == Saving || s.procs[t].pc == Committing)
  }

  /** Called off, without an entry, and nobody is left who could fill it regardless. */
  ghost predicate OutOfReach(s: State, o: OrderId)
  {
    && o in s.orders && s.orders[o].entry.None?
    && (s.orders[o].status == Cancelled || s.orders[o].status == Rejected)
    && forall t :: !Filler(s, t, o)
  }

  lemma {:induction false} StaysOff(s: State, a: Action, o: OrderId)
    requires Inv(s) && Enabled(s, a) && OutOfReach(s, o)
    ensures OutOfReach(Next(s, a), o)
  {
    hide TableOk, KeysOk, BookOk;
    if a.Commit? {
      HoldsAtCommit(s, a.t);
      assert !Filler(s, a.t, o);
    }
    forall t ensures !Filler(Next(s, a), t, o) {
      assert !Filler(s, t, o);
    }
  }

  lemma {:induction false} HoldsAtCommit(s: State, t: Tid)
    requires Inv(s) && At(s, t, Committing)
    ensures s.procs[t].order in s.orders && HoldsRow(s.procs[t]) && Sees(s.orders, s.procs[t])
  {
  }

  lemma {:induction false} OffForGood(acts: seq<Action>, more: seq<Action>, o: OrderId)
    requires Legal(acts) && Legal(acts + more) && OutOfReach(After(acts), o)
    ensures OutOfReach(After(acts + more), o)
    decreases |more|
  {
    if more == [] {
      assert acts + more == acts;
    } else {
      var all, n := acts + more, |more| - 1;
      assert all[..|all| - 1] == acts + more[..n] && all[|all| - 1] == more[n];
      OffForGood(acts, more[..n], o);
      AlwaysInv(acts + more[..n]);
      hide OutOfReach, Inv;
      StaysOff(After(acts + more[..n]), more[n], o);
    }
  }

  ghost predicate FilledLater(acts: seq<Action>, more: seq<Action>, o: OrderId)
  {
    Legal(acts + more) && o in After(acts + more).orders && After(acts + more).orders[o].status == Filled
  }

  lemma {:induction false} FilledBy(acts: seq<Action>, run: seq<Action>, o: OrderId)
    requires acts <= run && Legal(run) && o in After(run).orders && After(run).orders[o].status == Filled
    ensures FilledLater(acts, run[|acts|..], o)
  {
    assert acts + run[|acts|..] == run;
  }

  lemma {:induction false} CommitNow(acts: seq<Action>, s: State, t: Tid, o: OrderId) returns (run: seq<Action>)
    requires Legal(acts) && After(acts) == s && Filler(s, t, o) && s.procs[t].pc == Committing
    ensures acts <= run && Legal(run) && o in After(run).orders && After(run).orders[o].status == Filled
  {
    hide After, Legal;
    var g;
    run, g := Extend(acts, s, Commit(t));
  }

  /** Whoever holds a cancelled order's row is a placer about to commit, and whoever holds its key a placer too. */
  lemma {:induction false} OnlyPlacers(s: State, o: OrderId)
    requires Inv(s) && o in s.orders && s.orders[o].status == Cancelled
    ensures o in s.rows ==> Filler(s, s.rows[o], o) && s.procs[s.rows[o]].pc == Committing
    ensures o in s.claims ==> Filler(s, s.claims[o], o) && s.procs[s.claims[o]].pc != Filling
    ensures o !in s.entries
  {
    if o in s.rows {
      assert Sees(s.orders, s.procs[s.rows[o]]);
    }
    if o in s.claims {
      assert Sees(s.orders, s.procs[s.claims[o]]);
    }
    assert OrderOk(s.orders, s.entries, o);
  }

  lemma {:induction false} SaveNow(acts: seq<Action>, s: State, t: Tid, o: OrderId) returns (run: seq<Action>)
    requires Legal(acts) && After(acts) == s && Filler(s, t, o) && s.procs[t].pc == Saving
    requires o in s.orders && s.orders[o].status == Cancelled
    ensures acts <= run && Legal(run) && o in After(run).orders && After(run).orders[o].status == Filled
  {
    hide After, Legal, Inv;
    AlwaysInv(acts);
    OnlyPlacers(s, o);
    if o in s.rows {
      run := CommitNow(acts, s, s.rows[o], o);
    } else {
      var saved, g := Extend(acts, s, Save(t));
      run := CommitNow(saved, g, t, o);
    }
  }

  lemma {:induction false} PostNow(acts: seq<Action>, s: State, t: Tid, o: OrderId) returns (run: seq<Action>)
    requires Legal(acts) && After(acts) == s && Filler(s, t, o)
    requires o in s.orders && s.orders[o].status == Cancelled
    ensures acts <= run && Legal(run) && o in After(run).orders && After(run).orders[o].status == Filled
  {
    hide After, Legal, Inv;
    AlwaysInv(acts);
    OnlyPlacers(s, o);
    if s.procs[t].pc == Committing {
      run := CommitNow(acts, s, t, o);
    } else if s.procs[t].pc == Saving {
      run := SaveNow(acts, s, t, o);
    } else if o in s.claims {
      var u := s.claims[o];
      if s.procs[u].pc == Saving {
        run := SaveNow(acts, s, u, o);
      } else {
        run := CommitNow(acts, s, u, o);
      }
    } else {
      var posted, g := Extend(acts, s, Post(t));
      run := SaveNow(posted, g, t, o);
    }
  }

  /**
   * Exactly when a cancellation can still be overtaken: a cancelled order has a future in which it is FILLED
   * if and only if the request that placed it as a market order is still filling, saving or committing.
   */
  lemma {:induction false} OvertakenExactly(acts: seq<Action>, o: OrderId)
    requires Legal(acts) && o in After(acts).orders && After(acts).orders[o].status == Cancelled
    ensures (exists more :: FilledLater(acts, more, o)) <==> (exists t :: Filler(After(acts), t, o))
  {
    AlwaysInv(acts);
    var s := After(acts);
    if t :| Filler(s, t, o) {
      var run := PostNow(acts, s, t, o);
      FilledBy(acts, run, o);
    } else {
      assert OrderOk(s.orders, s.entries, o);
      forall more ensures !FilledLater(acts, more, o) {
        if Legal(acts + more) {
          OffForGood(acts, more, o);
        }
      }
    }
  }

  /** A resting order, once cancelled, is never filled, whatever workers were already looking at it. */
  lemma {:induction false} CancelHolds(acts: seq<Action>, more: seq<Action>, o: OrderId)
    requires Legal(acts) && Legal(acts + more)
    requires o in After(acts).orders && !After(acts).orders[o].market && After(acts).orders[o].status == Cancelled
    ensures o in After(acts + more).orders && After(acts + more).orders[o].entry.None?
    ensures After(acts + more).orders[o].status == Cancelled || After(acts + more).orders[o].status == Rejected
  {
    AlwaysInv(acts);
    var s := After(acts);
    assert OrderOk(s.orders, s.entries, o);
    forall t ensures !Filler(s, t, o) {
      assert t in s.procs ==> Sees(s.orders, s.procs[t]);
    }
    OffForGood(acts, more, o);
  }
}
