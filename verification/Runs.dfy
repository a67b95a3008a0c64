/**
 * Whole runs of the services: deposits, transfers, placements, fills, cancellations and rejections in any
 * order, with the history of ledger calls kept beside the order table.
 */
module Runs {
  import opened Wrappers
  import opened Sums
  import opened Journal
  import opened Posting
  import opened Trading
  import opened Serial
  import opened Orders
  import opened OrderBook
  import opened Outcomes
  import opened Placement
  import opened Fingerprints

  datatype Desk = Desk(history: seq<Item>, orders: map<OrderId, Order>)

  const CLOSED := Desk([], map[])

  datatype Op =
    | Deposit(equity: AccountId, checking: AccountId, amount: int, at: Instant)
    | Send(request: Request)
    | PlaceNew(pk: OrderId, ask: Ask, price: int, at: Instant)
    | FillNow(id: OrderId, price: int, at: Instant)
    | CancelNow(id: OrderId)
    | RejectNow(id: OrderId, why: Reason)

  ghost predicate Enabled(accounts: Accounts, contras: map<InstrumentId, AccountId>, d: Desk, op: Op)
  {
    match op
    case Deposit(q, c, n, at) => ItemFits(accounts, Opening(q, c, n, at))
    case Send(r) => r.Transfer? && RequestFits(accounts, r)
    case PlaceNew(pk, ask, _, _) => pk !in d.orders && AskFits(accounts, contras, ask)
    case FillNow(id, _, _) => id in d.orders
    case CancelNow(id) => id in d.orders
    case RejectNow(id, _) => id in d.orders
  }

  /** The history with one more ledger call, run alone at its end. */
  function Recorded(h: seq<Item>, r: Request): seq<Item>
  {
    h + [Call(|h|, r, Execute(JournalOf(h), r).0)]
  }

  /** The order table after a fill attempt on one order. */
  function Filled(orders: map<OrderId, Order>, id: OrderId, price: int, o: Outcome): map<OrderId, Order>
    requires id in orders
  {
    if o.Created? then orders[id := Marked(orders[id], price, o.entry)] else orders
  }

  /** Whether placing goes on to a fill at once: a new market order. */
  ghost predicate FillsAtOnce(accounts: Accounts, orders: map<OrderId, Order>, ask: Ask)
    requires ask.cash in accounts
  {
    ask.active && Acceptable(accounts, ask) && TokenHolder(orders, ask.token).None? && ask.kind == Market
  }

  ghost function Step(accounts: Accounts, contras: map<InstrumentId, AccountId>, d: Desk, op: Op): Desk
    requires Enabled(accounts, contras, d, op)
  {
    var j := JournalOf(d.history);
    match op
    case Deposit(q, c, n, at) => d.(history := d.history + [Opening(q, c, n, at)])
    case Send(r) => d.(history := Recorded(d.history, r))
    case PlaceNew(pk, ask, price, at) =>
      Desk(if FillsAtOnce(accounts, d.orders, ask) then Recorded(d.history, Fill(TicketOf(ask, pk), price, at))
        else d.history,
           Place(accounts, j, d.orders, pk, ask, price, at).orders)
    case FillNow(id, price, at) =>
      var r := Fill(d.orders[id].ticket, price, at);
      Desk(Recorded(d.history, r), Filled(d.orders, id, price, Execute(j, r).0))
    case CancelNow(id) => if d.orders[id].status == Open
      then d.(orders := d.orders[id := d.orders[id].(status := Cancelled)]) else d
    case RejectNow(id, why) => d.(orders := d.orders[id := Dismissed(d.orders[id], why)])
  }

  ghost predicate CanDo(accounts: Accounts, contras: map<InstrumentId, AccountId>, d: Desk, ops: seq<Op>)
    decreases |ops|
  {
    ops == [] || (Enabled(accounts, contras, d, ops[0])
      && CanDo(accounts, contras, Step(accounts, contras, d, ops[0]), ops[1..]))
  }

  ghost function After(accounts: Accounts, contras: map<InstrumentId, AccountId>, d: Desk, ops: seq<Op>): Desk
    requires CanDo(accounts, contras, d, ops)
    decreases |ops|
  {
    if ops == [] then d else After(accounts, contras, Step(accounts, contras, d, ops[0]), ops[1..])
  }

  // ---------------------------------------------------------------------------------------------
  // What every run keeps
  // ---------------------------------------------------------------------------------------------

  /** An order's entry bears that order's key. */
  ghost predicate Linked(orders: map<OrderId, Order>, j: seq<Entry>)
  {
    forall o, e: nat :: Produced(orders, o, e) ==> e < |j| && j[e].key == Some(OrderKey(o))
  }

  /** Every fill a call posted is its order's entry. */
  ghost predicate CallsMatch(orders: map<OrderId, Order>, h: seq<Item>)
  {
    forall i :: 0 <= i < |h| ==> CallMatches(orders, h[i])
  }

  ghost predicate CallMatches(orders: map<OrderId, Order>, item: Item)
  {
    item.Call? && item.request.Fill? && item.outcome.Created? ==>
      && Produced(orders, item.request.ticket.order, item.outcome.entry)
      && orders[item.request.ticket.order].ticket == item.request.ticket
  }

  ghost predicate DeskOk(accounts: Accounts, contras: map<InstrumentId, AccountId>, d: Desk)
  {
    && Agrees(d.history) && HistoryFits(accounts, d.history)
    && InOrder(accounts, contras, JournalOf(d.history), d.orders)
    && Linked(d.orders, JournalOf(d.history)) && CallsMatch(d.orders, d.history)
    && KeyedDigests(d.orders)
  }

  /** Only keyed orders carry a digest. */
  ghost predicate KeyedDigests(orders: map<OrderId, Order>)
  {
    forall o :: o in orders && orders[o].token.None? ==> orders[o].digest.None?
  }

  /** Order rows are never deleted, and keep their ticket, token and digest. */
  ghost predicate Persist(orders: map<OrderId, Order>, later: map<OrderId, Order>)
  {
    forall o :: o in orders ==>
      o in later && later[o].ticket == orders[o].ticket && later[o].token == orders[o].token
        && later[o].digest == orders[o].digest
  }

  lemma {:induction false} RecordedIs(accounts: Accounts, h: seq<Item>, r: Request)
    requires Agrees(h) && HistoryFits(accounts, h) && RequestFits(accounts, r)
    ensures var later := Recorded(h, r);
      && Agrees(later) && HistoryFits(accounts, later) && JournalOf(later) == Execute(JournalOf(h), r).1
      && |later| == |h| + 1 && later[..|h|] == h && later[|h|] == Call(|h|, r, Execute(JournalOf(h), r).0)
  {
    hide Execute, RequestFits;
    assert Recorded(h, r)[..|h|] == h;
  }

  /** A ledger call that is not a fill, or posts nothing, changes no order and keeps all links. */
  lemma {:induction false} QuietCall(orders: map<OrderId, Order>, h: seq<Item>, r: Request)
    requires Linked(orders, JournalOf(h)) && CallsMatch(orders, h)
    requires r.Transfer? || !Execute(JournalOf(h), r).0.Created?
    ensures Linked(orders, Execute(JournalOf(h), r).1) && CallsMatch(orders, Recorded(h, r))
  {
    hide Execute, CallMatches;
    ExecuteKey(JournalOf(h), r, OrderKey(0));
    var j, j' := JournalOf(h), Execute(JournalOf(h), r).1;
    assert |j| <= |j'| && j'[..|j|] == j;
    assert forall e :: 0 <= e < |j| ==> j'[e] == j[e];
    QuietItem(orders, Call(|h|, r, Execute(j, r).0));
  }

  lemma {:induction false} QuietItem(orders: map<OrderId, Order>, item: Item)
    requires item.Call? ==> item.request.Transfer? || !item.outcome.Created?
    ensures CallMatches(orders, item)
  {
  }

  /** A fill that posts links its order and no other. */
  lemma {:induction false} FillLinks(orders: map<OrderId, Order>, h: seq<Item>, id: OrderId, price: int, at: Instant)
    requires id in orders && orders[id].ticket.order == id
    requires Linked(orders, JournalOf(h)) && CallsMatch(orders, h)
    requires Execute(JournalOf(h), Fill(orders[id].ticket, price, at)).0.Created?
    ensures var j, r := JournalOf(h), Fill(orders[id].ticket, price, at);
      var later := Filled(orders, id, price, Execute(j, r).0);
      Linked(later, Execute(j, r).1) && CallsMatch(later, Recorded(h, r))
  {
    hide Execute, JournalOf;
    var j, r := JournalOf(h), Fill(orders[id].ticket, price, at);
    var (o, j') := Execute(j, r);
    var later := Filled(orders, id, price, o);
    ExecuteKey(j, r, OrderKey(id));
    assert FindKey(j, OrderKey(id)).None? && FindKey(j', OrderKey(id)) == Some(|j|);
    assert forall e :: 0 <= e < |j| ==> j'[e] == j[e];
    forall x, e: nat | Produced(later, x, e) ensures e < |j'| && j'[e].key == Some(OrderKey(x)) {
      if x != id {
        assert Produced(orders, x, e);
      }
    }
    forall i | 0 <= i < |h| ensures CallMatches(later, h[i]) {
      assert CallMatches(orders, h[i]);
    }
    assert CallMatches(later, Call(|h|, r, o));
  }

  lemma {:induction false} FillKeepsDesk(accounts: Accounts, contras: map<InstrumentId, AccountId>, d: Desk,
                                         id: OrderId, price: int, at: Instant)
    requires DeskOk(accounts, contras, d) && id in d.orders
    ensures var r := Fill(d.orders[id].ticket, price, at);
      var later := Filled(d.orders, id, price, Execute(JournalOf(d.history), r).0);
      DeskOk(accounts, contras, Desk(Recorded(d.history, r), later)) && Persist(d.orders, later)
  {
    hide Execute, InOrder, TicketFits, JournalOf, Linked, CallsMatch, Good, HistoryFits, Agrees;
    var r := Fill(d.orders[id].ticket, price, at);
    Fitting(accounts, contras, JournalOf(d.history), d.orders, id);
    RecordedIs(accounts, d.history, r);
    FillKeepsOrder(accounts, contras, JournalOf(d.history), d.orders, id, price, at);
    if Execute(JournalOf(d.history), r).0.Created? {
      FillLinks(d.orders, d.history, id, price, at);
    } else {
      QuietCall(d.orders, d.history, r);
      ExecuteKey(JournalOf(d.history), r, OrderKey(id));
    }
  }

  lemma {:induction false} DepositKeepsDesk(accounts: Accounts, contras: map<InstrumentId, AccountId>, d: Desk,
                                            q: AccountId, c: AccountId, n: int, at: Instant)
    requires DeskOk(accounts, contras, d) && ItemFits(accounts, Opening(q, c, n, at))
    ensures DeskOk(accounts, contras, d.(history := d.history + [Opening(q, c, n, at)]))
  {
    hide InOrder, CallMatches;
    var h, j := d.history + [Opening(q, c, n, at)], JournalOf(d.history);
    assert h[..|d.history|] == d.history;
    OpeningKeepsOrder(accounts, contras, j, d.orders, q, c, n, at);
    QuietItem(d.orders, Opening(q, c, n, at));
    assert forall e :: 0 <= e < |j| ==> JournalOf(h)[e] == j[e];
  }

  lemma {:induction false} SendKeepsDesk(accounts: Accounts, contras: map<InstrumentId, AccountId>, d: Desk, r: Request)
    requires DeskOk(accounts, contras, d) && r.Transfer? && RequestFits(accounts, r)
    ensures DeskOk(accounts, contras, d.(history := Recorded(d.history, r)))
  {
    hide InOrder, Execute, RequestFits, Linked, CallsMatch, HistoryFits, Agrees, JournalOf;
    RecordedIs(accounts, d.history, r);
    TransferKeepsOrder(accounts, contras, JournalOf(d.history), d.orders, r);
    QuietCall(d.orders, d.history, r);
  }

  /** One order row moves on, keeping its entry. */
  lemma {:induction false} MoveKeepsDesk(accounts: Accounts, contras: map<InstrumentId, AccountId>, d: Desk,
                                         id: OrderId, now: Order)
    requires DeskOk(accounts, contras, d) && id in d.orders
    requires var was := d.orders[id];
      now.ticket == was.ticket && now.token == was.token && now.digest == was.digest && now.entry == was.entry
    requires now.status == Cancelled || now.status == Rejected
    ensures DeskOk(accounts, contras, d.(orders := d.orders[id := now])) && Persist(d.orders, d.orders[id := now])
  {
    hide InOrder;
    OneOrderMoves(accounts, contras, JournalOf(d.history), d.orders, id, now);
    SameLinks(d.orders, d.orders[id := now], d.history);
  }

  /** Links depend only on which entry and which ticket each order has. */
  lemma {:induction false} SameLinks(orders: map<OrderId, Order>, later: map<OrderId, Order>, h: seq<Item>)
    requires Linked(orders, JournalOf(h)) && CallsMatch(orders, h)
    requires forall o :: o in orders ==>
      o in later && later[o].entry == orders[o].entry && later[o].ticket == orders[o].ticket
    requires forall o :: o in later && o !in orders ==> later[o].entry.None?
    ensures Linked(later, JournalOf(h)) && CallsMatch(later, h)
  {
    hide JournalOf;
    forall o, e: nat | Produced(later, o, e) ensures e < |JournalOf(h)| && JournalOf(h)[e].key == Some(OrderKey(o)) {
      assert Produced(orders, o, e);
    }
    forall i | 0 <= i < |h| ensures CallMatches(later, h[i]) {
      assert CallMatches(orders, h[i]);
    }
  }

  lemma {:induction false} OpenKeepsDesk(accounts: Accounts, contras: map<InstrumentId, AccountId>, d: Desk,
                                         pk: OrderId, ask: Ask)
    requires DeskOk(accounts, contras, d) && pk !in d.orders && AskFits(accounts, contras, ask)
    requires Acceptable(accounts, ask) && TokenHolder(d.orders, ask.token).None?
    ensures DeskOk(accounts, contras, d.(orders := d.orders[pk := NewOrder(ask, pk)]))
    ensures Persist(d.orders, d.orders[pk := NewOrder(ask, pk)])
  {
    hide InOrder, AskFits, Acceptable, TokenHolder;
    AskCash(accounts, contras, ask);
    OneOrderOpens(accounts, contras, JournalOf(d.history), d.orders, pk, ask);
    SameLinks(d.orders, d.orders[pk := NewOrder(ask, pk)], d.history);
  }

  lemma {:induction false} AskCash(accounts: Accounts, contras: map<InstrumentId, AccountId>, ask: Ask)
    requires AskFits(accounts, contras, ask)
    ensures ask.cash in accounts
  {
  }

  /** A new market order: the row, its fill, and the rejection if the fill is refused. */
  lemma {:induction false} MarketKeepsDesk(accounts: Accounts, contras: map<InstrumentId, AccountId>, d: Desk,
                                           pk: OrderId, ask: Ask, price: int, at: Instant)
    requires DeskOk(accounts, contras, d) && pk !in d.orders && AskFits(accounts, contras, ask)
    requires FillsAtOnce(accounts, d.orders, ask)
    ensures var later := Step(accounts, contras, d, PlaceNew(pk, ask, price, at));
      DeskOk(accounts, contras, later) && Persist(d.orders, later.orders)
  {
    hide DeskOk, Execute, AskFits, Acceptable, TokenHolder, Marked, Recorded;
    AskCash(accounts, contras, ask);
    var o, j := NewOrder(ask, pk), JournalOf(d.history);
    var r := Fill(o.ticket, price, at);
    var entered := d.orders[pk := o];
    OpenKeepsDesk(accounts, contras, d, pk, ask);
    var filled := Filled(entered, pk, price, Execute(j, r).0);
    FillKeepsDesk(accounts, contras, Desk(d.history, entered), pk, price, at);
    NewIsFree(accounts, contras, Desk(d.history, entered), pk, price, at);
    Overwritten(j, d.orders, o, price, at);
    var later := Step(accounts, contras, d, PlaceNew(pk, ask, price, at));
    assert later.orders == FirstFill(j, d.orders, o, price, at).orders;
    if Execute(j, r).0.Refused? {
      MoveKeepsDesk(accounts, contras, Desk(Recorded(d.history, r), filled), pk, Dismissed(o, Execute(j, r).0.reason));
      assert later.orders == filled[pk := Dismissed(o, Execute(j, r).0.reason)];
    } else {
      assert later.orders == filled;
    }
  }

  lemma {:induction false} NewIsFree(accounts: Accounts, contras: map<InstrumentId, AccountId>, d: Desk, pk: OrderId,
                                     price: int, at: Instant)
    requires DeskOk(accounts, contras, d) && pk in d.orders && d.orders[pk].status == Open
    ensures d.orders[pk].ticket.order == pk
    ensures var o := Execute(JournalOf(d.history), Fill(d.orders[pk].ticket, price, at)).0; o.Created? || o.Refused?
  {
    OpenIsFree(accounts, contras, JournalOf(d.history), d.orders, pk, price, at);
  }

  lemma {:induction false} StepKeepsDesk(accounts: Accounts, contras: map<InstrumentId, AccountId>, d: Desk, op: Op)
    requires DeskOk(accounts, contras, d) && Enabled(accounts, contras, d, op)
    ensures var later := Step(accounts, contras, d, op);
      DeskOk(accounts, contras, later) && Persist(d.orders, later.orders)
  {
    hide DeskOk, Execute, AskFits, Acceptable, TokenHolder, RequestFits, ItemFits, Recorded;
    match op {
      case Deposit(q, c, n, at) => DepositKeepsDesk(accounts, contras, d, q, c, n, at);
      case Send(r) => SendKeepsDesk(accounts, contras, d, r);
      case PlaceNew(pk, ask, price, at) =>
        AskCash(accounts, contras, ask);
        if FillsAtOnce(accounts, d.orders, ask) {
          MarketKeepsDesk(accounts, contras, d, pk, ask, price, at);
        } else if ask.active && Acceptable(accounts, ask) && TokenHolder(d.orders, ask.token).None? {
          OpenKeepsDesk(accounts, contras, d, pk, ask);
        }
      case FillNow(id, price, at) => FillKeepsDesk(accounts, contras, d, id, price, at);
      case CancelNow(id) =>
        if d.orders[id].status == Open {
          MoveKeepsDesk(accounts, contras, d, id, d.orders[id].(status := Cancelled));
        }
      case RejectNow(id, why) => MoveKeepsDesk(accounts, contras, d, id, Dismissed(d.orders[id], why));
    }
  }

  /** Every run keeps books, orders and history in agreement, and order rows with their identity. */
  lemma {:induction false} RunKeepsDesk(accounts: Accounts, contras: map<InstrumentId, AccountId>, d: Desk,
                                        ops: seq<Op>)
    requires DeskOk(accounts, contras, d) && CanDo(accounts, contras, d, ops)
    ensures var later := After(accounts, contras, d, ops);
      DeskOk(accounts, contras, later) && Persist(d.orders, later.orders)
    decreases |ops|
  {
    hide DeskOk, Step, Enabled;
    if ops == [] {
    } else {
      StepKeepsDesk(accounts, contras, d, ops[0]);
      RunKeepsDesk(accounts, contras, Step(accounts, contras, d, ops[0]), ops[1..]);
    }
  }

  lemma {:induction false} ClosedOk(accounts: Accounts, contras: map<InstrumentId, AccountId>)
    requires ContrasFit(accounts, contras)
    ensures DeskOk(accounts, contras, CLOSED)
  {
  }

  // ---------------------------------------------------------------------------------------------
  // What each step of a run comes to
  // ---------------------------------------------------------------------------------------------

  /** Each step is the service it stands for, in terms of balances, entries and order rows. */
  ghost predicate Serves(accounts: Accounts, d: Desk, op: Op, later: Desk)
  {
    var j, j' := JournalOf(d.history), JournalOf(later.history);
    match op
    case Deposit(q, c, n, at) =>
      && later.orders == d.orders && Appended(j, j', None, None, at)
      && Shifted(j, j', a => (if a == c then n else 0) - (if a == q then n else 0), a => 0)
    case Send(r) =>
      && later.orders == d.orders && r.Transfer?
      && exists o :: Transferred(j, r.source, r.destination, r.amount, r.token, r.at, o, j')
    case PlaceNew(pk, ask, price, at) =>
      && ask.cash in accounts
      && exists result ::
        PlacedAs(accounts, j, d.orders, pk, ask, price, at, Placed(result, j', later.orders))
    case FillNow(id, price, at) =>
      && id in d.orders
      && var was, t := d.orders[id], d.orders[id].ticket;
      exists o ::
        && Traded(j, t, price, at, Notional(price, t.quantity), o, j')
        && later.orders == if o.Created?
                           then d.orders[id := was.(status := OrderStatus.Filled, filledQuantity := t.quantity,
                                                    filledPrice := Some(price), entry := Some(|j|))]
                           else d.orders
    case CancelNow(id) =>
      && id in d.orders && later.history == d.history
      && later.orders == if d.orders[id].status == Open then d.orders[id := d.orders[id].(status := Cancelled)]
                         else d.orders
    case RejectNow(id, why) =>
      && id in d.orders && later.history == d.history
      && later.orders == d.orders[id := d.orders[id].(status := Rejected, reason := Some(why))]
  }

  lemma {:induction false} DepositServes(accounts: Accounts, d: Desk, q: AccountId, c: AccountId, n: int, at: Instant)
    ensures Serves(accounts, d, Deposit(q, c, n, at), d.(history := d.history + [Opening(q, c, n, at)]))
  {
    var j, later := JournalOf(d.history), d.history + [Opening(q, c, n, at)];
    assert later[..|d.history|] == d.history;
    var lines := TransferPosting(q, c, n);
    forall a
      ensures Sum(lines, AmountOn(a)) == (if a == c then n else 0) - (if a == q then n else 0)
      ensures Sum(lines, SharesOn(a)) == 0
    {
      SumTransfer(q, c, n, AmountOn(a));
      SumTransfer(q, c, n, SharesOn(a));
    }
    ShiftedBy(j, OpeningEntry(q, c, n, at), a => (if a == c then n else 0) - (if a == q then n else 0), a => 0);
  }

  lemma {:induction false} SendServes(accounts: Accounts, d: Desk, r: Request)
    requires Agrees(d.history) && HistoryFits(accounts, d.history) && RequestFits(accounts, r) && r.Transfer?
    requires KeysUnique(JournalOf(d.history))
    ensures Serves(accounts, d, Send(r), d.(history := Recorded(d.history, r)))
  {
    hide Execute, Transferred, RequestFits;
    RecordedIs(accounts, d.history, r);
    TransferOutcome(JournalOf(d.history), r.source, r.destination, r.amount, r.token, r.at);
  }

  lemma {:induction false} FillServes(accounts: Accounts, contras: map<InstrumentId, AccountId>, d: Desk,
                                      id: OrderId, price: int, at: Instant)
    requires DeskOk(accounts, contras, d) && id in d.orders
    ensures Serves(accounts, d, FillNow(id, price, at), Step(accounts, contras, d, FillNow(id, price, at)))
  {
    hide Execute, Traded, InOrder, RequestFits, TicketFits;
    var r := Fill(d.orders[id].ticket, price, at);
    var j := JournalOf(d.history);
    Fitting(accounts, contras, j, d.orders, id);
    TicketIsRequest(accounts, d.orders[id].ticket, price, at);
    RecordedIs(accounts, d.history, r);
    FillOutcome(accounts, j, r.ticket, price, at);
    ExecuteKey(j, r, OrderKey(id));
  }

  lemma {:induction false} TicketIsRequest(accounts: Accounts, t: Ticket, price: int, at: Instant)
    requires TicketFits(accounts, t)
    ensures RequestFits(accounts, Fill(t, price, at))
  {
  }

  lemma {:induction false} PlaceServes(accounts: Accounts, contras: map<InstrumentId, AccountId>, d: Desk,
                                       pk: OrderId, ask: Ask, price: int, at: Instant)
    requires DeskOk(accounts, contras, d) && pk !in d.orders && AskFits(accounts, contras, ask)
    ensures Serves(accounts, d, PlaceNew(pk, ask, price, at),
                   Step(accounts, contras, d, PlaceNew(pk, ask, price, at)))
  {
    hide Execute, InOrder, RequestFits, TicketFits, AskFits, Acceptable, TokenHolder, PlacedAs;
    AskCash(accounts, contras, ask);
    var j, p := JournalOf(d.history), Place(accounts, JournalOf(d.history), d.orders, pk, ask, price, at);
    PlaceOutcome(accounts, contras, j, d.orders, pk, ask, price, at);
    if FillsAtOnce(accounts, d.orders, ask) {
      var o := NewOrder(ask, pk);
      OneOrderOpens(accounts, contras, j, d.orders, pk, ask);
      Fitting(accounts, contras, j, d.orders[pk := o], pk);
      TicketIsRequest(accounts, o.ticket, price, at);
      RecordedIs(accounts, d.history, Fill(o.ticket, price, at));
      OpenIsFree(accounts, contras, j, d.orders[pk := o], pk, price, at);
      ExecuteKey(j, Fill(o.ticket, price, at), OrderKey(pk));
    }
    assert Step(accounts, contras, d, PlaceNew(pk, ask, price, at)).orders == p.orders;
    assert JournalOf(Step(accounts, contras, d, PlaceNew(pk, ask, price, at)).history) == p.journal;
    assert PlacedAs(accounts, j, d.orders, pk, ask, price, at, Placed(p.result, p.journal, p.orders));
  }

  lemma {:induction false} StepServes(accounts: Accounts, contras: map<InstrumentId, AccountId>, d: Desk, op: Op)
    requires DeskOk(accounts, contras, d) && Enabled(accounts, contras, d, op)
    ensures Serves(accounts, d, op, Step(accounts, contras, d, op))
  {
    match op {
      case Deposit(q, c, n, at) => DepositServes(accounts, d, q, c, n, at);
      case Send(r) => SendServes(accounts, d, r);
      case PlaceNew(pk, ask, price, at) => PlaceServes(accounts, contras, d, pk, ask, price, at);
      case FillNow(id, price, at) => FillServes(accounts, contras, d, id, price, at);
      case CancelNow(_) =>
      case RejectNow(_, _) =>
    }
  }

  // ---------------------------------------------------------------------------------------------
  // Digests and tokens over whole runs
  // ---------------------------------------------------------------------------------------------

  lemma {:induction false} DeskMatches(accounts: Accounts, contras: map<InstrumentId, AccountId>, d: Desk)
    requires DeskOk(accounts, contras, d)
    ensures Agrees(d.history) && OrdersMatch(d.orders, d.history)
  {
    hide InOrder;
    forall a, b, e: nat | Produced(d.orders, a, e) && Produced(d.orders, b, e) ensures a == b {
      assert JournalOf(d.history)[e].key == Some(OrderKey(a));
    }
    forall i | 0 <= i < |d.history| && d.history[i].Call? && d.history[i].request.Fill? && d.history[i].outcome.Created?
      ensures Produced(d.orders, d.history[i].request.ticket.order, d.history[i].outcome.entry)
      ensures d.orders[d.history[i].request.ticket.order].ticket == d.history[i].request.ticket
    {
      assert CallMatches(d.orders, d.history[i]);
    }
  }

  /**
   * After any run from an empty desk, erase the digests of any entries and any orders and the two backfills put
   * back exactly what was there, transfers and fills alike.
   */
  lemma {:induction false} RunsRestore(accounts: Accounts, contras: map<InstrumentId, AccountId>, ops: seq<Op>,
                                       erased: nat -> bool, erasedOrders: OrderId -> bool)
    requires ContrasFit(accounts, contras) && CanDo(accounts, contras, CLOSED, ops)
    ensures var d := After(accounts, contras, CLOSED, ops);
      var j := JournalOf(d.history);
      && OneProducer(d.orders) && (forall e :: 0 <= e < |j| ==> Restored(d.orders, e, Erased(j, erased)[e]) == j[e])
      && (forall o :: o in d.orders ==> RestoredOrder(ErasedOrders(d.orders, erasedOrders)[o]) == d.orders[o])
  {
    hide DeskOk, Step, CanDo;
    ClosedOk(accounts, contras);
    RunKeepsDesk(accounts, contras, CLOSED, ops);
    var d := After(accounts, contras, CLOSED, ops);
    DeskMatches(accounts, contras, d);
    BackfillRestores(d.orders, d.history, erased);
    DeskTokens(accounts, contras, d);
    OrdersRestored(d.orders, erasedOrders);
  }

  /** What a request under a used token is told. */
  function Told(accounts: Accounts, pk: OrderId, ask: Ask, again: Ask): Result<OrderId, PlaceError>
    requires again.cash in accounts
  {
    if !again.active then Failure(InstrumentInactive)
    else if !Acceptable(accounts, again) then Failure(BadOrder)
    else if SameAsk(ask, again) then Success(pk)
    else Failure(KeyTaken)
  }

  /**
   * Exactly-once placement, over runs. Once a keyed request has created its order, then after any run of
   * deposits, transfers, placements, fills, cancellations and rejections, the same request under the same token
   * is given that order, any other acceptable request a conflict, and an unacceptable one its own error; and in
   * no case does anything change.
   */
  lemma {:induction false} PlacedOnce(accounts: Accounts, contras: map<InstrumentId, AccountId>, d: Desk,
                                      pk: OrderId, ask: Ask, price: int, at: Instant, ops: seq<Op>,
                                      pk': OrderId, again: Ask, price': int, at': Instant)
    requires DeskOk(accounts, contras, d) && Enabled(accounts, contras, d, PlaceNew(pk, ask, price, at))
    requires var placed := Step(accounts, contras, d, PlaceNew(pk, ask, price, at));
      pk in placed.orders && CanDo(accounts, contras, placed, ops)
    requires ask.token.Some? && again.token == ask.token && again.cash in accounts
    ensures var later := After(accounts, contras, Step(accounts, contras, d, PlaceNew(pk, ask, price, at)), ops);
      var j := JournalOf(later.history);
      Place(accounts, j, later.orders, pk', again, price', at')
        == Placed(Told(accounts, pk, ask, again), j, later.orders)
  {
    hide DeskOk, AskFits, Acceptable, TokenHolder, SameAsk, CanDo, After;
    var placed := Step(accounts, contras, d, PlaceNew(pk, ask, price, at));
    AskCash(accounts, contras, ask);
    StepKeepsDesk(accounts, contras, d, PlaceNew(pk, ask, price, at));
    RunKeepsDesk(accounts, contras, placed, ops);
    var later := After(accounts, contras, placed, ops);
    DeskTokens(accounts, contras, later);
    if again.active && Acceptable(accounts, again) {
      TokenSettled(accounts, JournalOf(d.history), d.orders, pk, ask, price, at, JournalOf(later.history),
        later.orders, pk', again, price', at');
    }
  }

  lemma {:induction false} DeskTokens(accounts: Accounts, contras: map<InstrumentId, AccountId>, d: Desk)
    requires DeskOk(accounts, contras, d)
    ensures TokensOk(d.orders) && KeyedDigests(d.orders)
  {
    InOrderTokens(accounts, contras, JournalOf(d.history), d.orders);
  }
}
