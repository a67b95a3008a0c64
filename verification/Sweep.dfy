/** What one pass of the matching sweep comes to (backend/trading/tasks.py). */
module Sweep {
  import opened Wrappers
  import opened Journal
  import opened Trading
  import opened Serial
  import opened Orders
  import opened OrderBook
  import opened Outcomes

  datatype Match = MatchFilled | MatchRejected | MatchSkipped

  datatype Counts = Counts(filled: nat, rejected: nat, skipped: nat)
  {
    function Bump(m: Match): Counts
    {
      match m
      case MatchFilled => this.(filled := filled + 1)
      case MatchRejected => this.(rejected := rejected + 1)
      case MatchSkipped => this.(skipped := skipped + 1)
    }
  }

  /** Prices by instrument, and the time each order's turn comes. */
  datatype Market = Market(price: InstrumentId -> int, clock: OrderId -> Instant)

  datatype Pass = Pass(counts: Counts, journal: seq<Entry>, orders: map<OrderId, Order>)

  /** An open order the market has crossed. */
  predicate Ready(o: Order, m: Market) { o.status == Open && Crosses(o.ticket, m.price(o.ticket.instrument)) }

  function Attempt(j: seq<Entry>, o: Order, m: Market): (Outcome, seq<Entry>)
  {
    Execute(j, Fill(o.ticket, m.price(o.ticket.instrument), m.clock(o.ticket.order)))
  }

  function Turn(p: Pass, id: OrderId, m: Market): Pass
    requires id in p.orders
  {
    var o := p.orders[id];
    if !Ready(o, m) then p.(counts := p.counts.Bump(MatchSkipped))
    else
      match Attempt(p.journal, o, m)
      case (Created(e), j) =>
        Pass(p.counts.Bump(MatchFilled), j, p.orders[id := Marked(o, m.price(o.ticket.instrument), e)])
      case (Refused(why), j) => Pass(p.counts.Bump(MatchRejected), j, p.orders[id := Dismissed(o, why)])
      case _ => p
  }

  function Swept(j: seq<Entry>, orders: map<OrderId, Order>, ids: seq<OrderId>, m: Market): (p: Pass)
    requires forall id :: id in ids ==> id in orders
    ensures p.orders.Keys == orders.Keys
  {
    if ids == [] then Pass(Counts(0, 0, 0), j, orders)
    else
      assert ids[|ids| - 1] in ids;
      Turn(Swept(j, orders, ids[..|ids| - 1], m), ids[|ids| - 1], m)
  }

  /** Filled at the going price, or rejected for a business reason. */
  ghost predicate ResolvedAs(was: Order, now: Order, m: Market)
  {
    || (now.status == Filled && now.entry.Some? && now == Marked(was, m.price(was.ticket.instrument), now.entry.value))
    || (now.status == Rejected && now.reason.Some? && now == Dismissed(was, now.reason.value))
  }

  function CountOf(ids: seq<OrderId>, orders: map<OrderId, Order>, status: OrderStatus): nat
  {
    if ids == [] then 0
    else
      var last := ids[|ids| - 1];
      CountOf(ids[..|ids| - 1], orders, status) + if last in orders && orders[last].status == status then 1 else 0
  }

  lemma {:induction false} CountStill(ids: seq<OrderId>, orders: map<OrderId, Order>, id: OrderId, now: Order,
                                      status: OrderStatus)
    requires id !in ids
    ensures CountOf(ids, orders[id := now], status) == CountOf(ids, orders, status)
  {
    if ids == [] {
    } else {
      CountStill(ids[..|ids| - 1], orders, id, now, status);
    }
  }

  /** What the sweep has done to the orders after the first candidates' turns. */
  ghost predicate SoFar(orders: map<OrderId, Order>, ids: seq<OrderId>, m: Market, p: Pass)
  {
    && p.orders.Keys == orders.Keys
    && (forall id :: id in orders && !(id in ids && Ready(orders[id], m)) ==> p.orders[id] == orders[id])
    && (forall id :: id in ids && id in orders && Ready(orders[id], m) ==> ResolvedAs(orders[id], p.orders[id], m))
  }

  ghost predicate Counted(ids: seq<OrderId>, p: Pass)
  {
    && p.counts == Counts(CountOf(ids, p.orders, Filled), CountOf(ids, p.orders, Rejected),
        CountOf(ids, p.orders, Open))
    && p.counts.filled + p.counts.rejected + p.counts.skipped == |ids|
  }

  ghost predicate Candidates(orders: map<OrderId, Order>, ids: seq<OrderId>)
  {
    && (forall i, k :: 0 <= i < k < |ids| ==> ids[i] != ids[k])
    && (forall id :: id in ids ==> id in orders && orders[id].status == Open)
  }

  ghost predicate Lands(p: Pass, id: OrderId, m: Market)
    requires id in p.orders
  {
    Ready(p.orders[id], m) ==> var o := Attempt(p.journal, p.orders[id], m).0; o.Created? || o.Refused?
  }

  /** On books in order, an open order's fill never collides with an earlier one, and its turn keeps the books. */
  lemma {:induction false} TurnLands(accounts: Accounts, contras: map<InstrumentId, AccountId>, p: Pass, id: OrderId,
                                     m: Market)
    requires InOrder(accounts, contras, p.journal, p.orders) && id in p.orders
    ensures Lands(p, id, m)
    ensures InOrder(accounts, contras, Turn(p, id, m).journal, Turn(p, id, m).orders)
  {
    var o := p.orders[id];
    assert OrderFits(accounts, contras, p.journal, id, o);
    if Ready(o, m) {
      var price, at := m.price(o.ticket.instrument), m.clock(o.ticket.order);
      FillTotal(p.journal, o.ticket, price, at);
      match Attempt(p.journal, o, m).0 {
        case Created(_) => FillKeepsOrder(accounts, contras, p.journal, p.orders, id, price, at);
        case Refused(why) =>
          ExecuteKey(p.journal, Fill(o.ticket, price, at), OrderKey(id));
          OneOrderMoves(accounts, contras, p.journal, p.orders, id, Dismissed(o, why));
      }
    }
  }

  lemma {:induction false} TurnEffect(p: Pass, id: OrderId, m: Market)
    requires id in p.orders && Lands(p, id, m)
    ensures var o, q := p.orders[id], Turn(p, id, m);
      && q.orders == p.orders[id := q.orders[id]]
      && (if Ready(o, m) then ResolvedAs(o, q.orders[id], m) else q.orders[id] == o)
      && q.counts == p.counts.Bump(if !Ready(o, m) then MatchSkipped
                                   else if q.orders[id].status == Filled then MatchFilled else MatchRejected)
  {
  }

  lemma {:induction false} TurnCases(p: Pass, id: OrderId, m: Market)
    requires id in p.orders && Lands(p, id, m)
    ensures var o, (out, j) := p.orders[id], Attempt(p.journal, p.orders[id], m);
      Turn(p, id, m) ==
        if !Ready(o, m) then p.(counts := p.counts.Bump(MatchSkipped))
        else if out.Created? then Pass(p.counts.Bump(MatchFilled), j,
          p.orders[id := Marked(o, m.price(o.ticket.instrument), out.entry)])
        else Pass(p.counts.Bump(MatchRejected), j, p.orders[id := Dismissed(o, out.reason)])
  {
  }

  lemma {:induction false} OneMore(orders: map<OrderId, Order>, ids: seq<OrderId>, id: OrderId, m: Market, p: Pass)
    requires SoFar(orders, ids, m, p) && Counted(ids, p)
    requires id in orders && orders[id].status == Open && id !in ids && Lands(p, id, m)
    ensures SoFar(orders, ids + [id], m, Turn(p, id, m)) && Counted(ids + [id], Turn(p, id, m))
  {
    TurnEffect(p, id, m);
    var q, more := Turn(p, id, m), ids + [id];
    assert more[..|ids|] == ids;
    CountStill(ids, p.orders, id, q.orders[id], Filled);
    CountStill(ids, p.orders, id, q.orders[id], Rejected);
    CountStill(ids, p.orders, id, q.orders[id], Open);
    assert forall x :: x in more <==> x in ids || x == id;
  }

  /** The books stay in order turn after turn. */
  lemma {:induction false} SweptInOrder(accounts: Accounts, contras: map<InstrumentId, AccountId>, j: seq<Entry>,
                                        orders: map<OrderId, Order>, ids: seq<OrderId>, m: Market)
    requires InOrder(accounts, contras, j, orders) && forall id :: id in ids ==> id in orders
    ensures var p := Swept(j, orders, ids, m); InOrder(accounts, contras, p.journal, p.orders)
  {
    if ids == [] {
    } else {
      assert ids[|ids| - 1] in ids;
      SweptInOrder(accounts, contras, j, orders, ids[..|ids| - 1], m);
      TurnLands(accounts, contras, Swept(j, orders, ids[..|ids| - 1], m), ids[|ids| - 1], m);
    }
  }

  lemma {:induction false} CandidatesPrefix(orders: map<OrderId, Order>, ids: seq<OrderId>)
    requires Candidates(orders, ids) && ids != []
    ensures var n := |ids| - 1;
      && Candidates(orders, ids[..n])
      && ids[n] in orders && orders[ids[n]].status == Open && ids[n] !in ids[..n]
      && ids[..n] + [ids[n]] == ids
  {
  }

  lemma {:induction false} NextLands(accounts: Accounts, contras: map<InstrumentId, AccountId>, j: seq<Entry>,
                                     orders: map<OrderId, Order>, ids: seq<OrderId>, id: OrderId, m: Market)
    requires InOrder(accounts, contras, j, orders) && id in orders && forall x :: x in ids ==> x in orders
    ensures Lands(Swept(j, orders, ids, m), id, m)
  {
    SweptInOrder(accounts, contras, j, orders, ids, m);
    TurnLands(accounts, contras, Swept(j, orders, ids, m), id, m);
  }

  /**
   * A sweep run alone at fixed prices: every open order the market has crossed is filled at the going price
   * or rejected for a business reason, every other order is untouched, and the counts are those of the
   * candidates' final states and add up.
   */
  lemma {:induction false} SweepAlone(accounts: Accounts, contras: map<InstrumentId, AccountId>, j: seq<Entry>,
                                      orders: map<OrderId, Order>, ids: seq<OrderId>, m: Market)
    requires InOrder(accounts, contras, j, orders) && Candidates(orders, ids)
    ensures SoFar(orders, ids, m, Swept(j, orders, ids, m)) && Counted(ids, Swept(j, orders, ids, m))
  {
    if ids == [] {
    } else {
      var rest, id := ids[..|ids| - 1], ids[|ids| - 1];
      CandidatesPrefix(orders, ids);
      SweepAlone(accounts, contras, j, orders, rest, m);
      NextLands(accounts, contras, j, orders, rest, id, m);
      OneMore(orders, rest, id, m, Swept(j, orders, rest, m));
    }
  }

  /** Every limit order the sweep fills got its limit or better, cash moved included. */
  lemma {:induction false} SweepHonoursLimits(accounts: Accounts, contras: map<InstrumentId, AccountId>, j: seq<Entry>,
                                              orders: map<OrderId, Order>, ids: seq<OrderId>, m: Market, id: OrderId)
    requires InOrder(accounts, contras, j, orders) && Candidates(orders, ids) && id in ids
    requires orders[id].ticket.limit.Some?
    ensures var p := Swept(j, orders, ids, m);
      p.orders[id].status == Filled ==>
        var t, found := orders[id].ticket, FindKey(p.journal, OrderKey(id));
        && found.Some?
        && var cash := CashMoved(p.journal[found.value], t.cash);
          (t.side == Buy ==> -cash <= Notional(t.limit.value, t.quantity))
          && (t.side == Sell ==> cash >= Notional(t.limit.value, t.quantity))
  {
    SweepAlone(accounts, contras, j, orders, ids, m);
    SweptInOrder(accounts, contras, j, orders, ids, m);
    var p := Swept(j, orders, ids, m);
    if p.orders[id].status == Filled {
      LimitKept(accounts, contras, p.journal, p.orders, id);
    }
  }

  /** An open order whose instrument trades at a price as good as its limit. */
  ghost predicate Due(o: Order, m: Market) { o.status == Open && AsGoodAsLimit(o.ticket, m.price(o.ticket.instrument)) }

  lemma {:induction false} DueIsReady(o: Order, m: Market)
    ensures Ready(o, m) <==> Due(o, m)
  {
    hide AsGoodAsLimit, Crosses;
    CrossesExactly(o.ticket, m.price(o.ticket.instrument));
  }

  /** A turn that comes to something: the order's trade at the going price, at its own time, and its row saying so. */
  ghost predicate Resolves(j: seq<Entry>, was: Order, m: Market, j': seq<Entry>, now: Order)
  {
    var t, price, at := was.ticket, m.price(was.ticket.instrument), m.clock(was.ticket.order);
    var n := Notional(price, t.quantity);
    && now.ticket == t && now.token == was.token && now.digest == was.digest && !Used(j, OrderKey(t.order))
    && match now.status
       case Filled =>
         && now.filledQuantity == t.quantity && now.filledPrice == Some(price) && now.entry == Some(|j|)
         && Traded(j, t, price, at, n, Created(|j|), j')
       case Rejected =>
         now.reason.Some? && now.entry == was.entry && Traded(j, t, price, at, n, Refused(now.reason.value), j')
       case _ => false
  }

  /** One candidate's turn: skipped and untouched unless due, otherwise filled or rejected, and nothing else changes. */
  ghost predicate TurnAs(j: seq<Entry>, orders: map<OrderId, Order>, id: OrderId, m: Market, r: Match,
                         j': seq<Entry>, orders': map<OrderId, Order>)
    requires id in orders
  {
    if !Due(orders[id], m) then r == MatchSkipped && j' == j && orders' == orders
    else
      && id in orders' && orders' == orders[id := orders'[id]]
      && Resolves(j, orders[id], m, j', orders'[id])
      && r == if orders'[id].status == Filled then MatchFilled else MatchRejected
  }

  lemma {:induction false} TurnOutcome(accounts: Accounts, contras: map<InstrumentId, AccountId>, p: Pass, id: OrderId,
                                       m: Market) returns (r: Match)
    requires InOrder(accounts, contras, p.journal, p.orders) && id in p.orders
    ensures var q := Turn(p, id, m);
      TurnAs(p.journal, p.orders, id, m, r, q.journal, q.orders) && q.counts == p.counts.Bump(r)
  {
    hide InOrder, Execute, Good, TicketFits, Traded, Due, Ready;
    var o := p.orders[id];
    DueIsReady(o, m);
    r := MatchSkipped;
    if Ready(o, m) {
      var price, at := m.price(o.ticket.instrument), m.clock(o.ticket.order);
      ReadyIsOpen(o, m);
      Fitting(accounts, contras, p.journal, p.orders, id);
      OpenIsFree(accounts, contras, p.journal, p.orders, id, price, at);
      OpenIsUnused(accounts, contras, p.journal, p.orders, id);
      FillOutcome(accounts, p.journal, o.ticket, price, at);
      ExecuteKey(p.journal, Fill(o.ticket, price, at), OrderKey(id));
      r := if Attempt(p.journal, o, m).0.Created? then MatchFilled else MatchRejected;
    }
  }

  lemma {:induction false} ReadyIsOpen(o: Order, m: Market)
    requires Ready(o, m)
    ensures o.status == Open
  {
  }

  /**
   * Which orders a sweep takes. An open order with a limit is resolved if and only if, for every quantity, the
   * notional at the going price is no worse than at its limit; an open order without a limit always is.
   */
  lemma {:induction false} SweepTakes(accounts: Accounts, contras: map<InstrumentId, AccountId>, j: seq<Entry>,
                                      orders: map<OrderId, Order>, ids: seq<OrderId>, m: Market, id: OrderId)
    requires InOrder(accounts, contras, j, orders) && Candidates(orders, ids) && id in ids
    ensures var t, price, now := orders[id].ticket, m.price(orders[id].ticket.instrument),
      Swept(j, orders, ids, m).orders[id];
      now.status != Open <==>
        (t.limit.Some? ==> forall q :: q > 0 ==>
           if t.side == Buy then Notional(price, q) <= Notional(t.limit.value, q)
           else Notional(price, q) >= Notional(t.limit.value, q))
  {
    SweepAlone(accounts, contras, j, orders, ids, m);
    DueIsReady(orders[id], m);
  }
}
