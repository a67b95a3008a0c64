/** Orders (backend/trading/models.py), and what keeps them and the journal in agreement. */
module Orders {
  import opened Wrappers
  import opened Money
  import opened Journal
  import opened Trading

  datatype OrderStatus = Open | Filled | Cancelled | Rejected

  /** A limit order is one with a limit price; a market order has none. */
  datatype Order = Order(
    ticket: Ticket, status: OrderStatus, filledQuantity: int, filledPrice: Option<int>, entry: Option<nat>,
    token: Option<string>, digest: Option<Fingerprint>, reason: Option<Reason>)

  /** Whether a price is good enough: at or below the limit for a buy, at or above it for a sell. */
  predicate Crosses(t: Ticket, price: int)
  {
    t.limit.None? || if t.side == Buy then price <= t.limit.value else price >= t.limit.value
  }

  /**
   * A price as good as the limit: whatever quantity, its notional is no worse than the limit's; any price without
   * one.
   */
  ghost predicate AsGoodAsLimit(t: Ticket, price: int)
  {
    t.limit.Some? ==> forall q :: q > 0 ==>
      if t.side == Buy then Notional(price, q) <= Notional(t.limit.value, q)
      else Notional(price, q) >= Notional(t.limit.value, q)
  }

  /** Crossing is exactly that: no order is taken at a worse price, and none is passed over at one as good. */
  lemma {:induction false} CrossesExactly(t: Ticket, price: int)
    ensures Crosses(t, price) <==> AsGoodAsLimit(t, price)
  {
    hide Notional;
    if t.limit.Some? {
      var limit := t.limit.value;
      WholeShare(price);
      WholeShare(limit);
      if Crosses(t, price) {
        forall q | q > 0
          ensures if t.side == Buy then Notional(price, q) <= Notional(limit, q)
            else Notional(price, q) >= Notional(limit, q)
        {
          NotionalMonotone(price, limit, q);
          NotionalMonotone(limit, price, q);
        }
      } else {
        assert SHARE_UNIT > 0;
      }
    }
  }

  lemma {:induction false} WholeShare(price: int)
    ensures Notional(price, SHARE_UNIT) == price
  {
    RoundExact(price, SHARE_UNIT);
  }

  lemma {:induction false} NotionalMonotone(a: int, b: int, q: int)
    requires q > 0
    ensures a <= b ==> Notional(a, q) <= Notional(b, q)
  {
    if a <= b {
      MulMonotone(a, b, q);
      RoundMonotone(a * q, b * q, SHARE_UNIT);
    }
  }

  /** A fill at a crossing price is never worse than the limit promised, after rounding included. */
  lemma {:induction false} LimitHonoured(t: Ticket, price: int)
    requires t.quantity > 0 && t.limit.Some? && Crosses(t, price)
    ensures t.side == Buy ==> Notional(price, t.quantity) <= Notional(t.limit.value, t.quantity)
    ensures t.side == Sell ==> Notional(price, t.quantity) >= Notional(t.limit.value, t.quantity)
  {
    if t.side == Buy {
      MulMonotone(price, t.limit.value, t.quantity);
      RoundMonotone(price * t.quantity, t.limit.value * t.quantity, SHARE_UNIT);
    } else {
      MulMonotone(t.limit.value, price, t.quantity);
      RoundMonotone(t.limit.value * t.quantity, price * t.quantity, SHARE_UNIT);
    }
  }

  function Marked(o: Order, price: int, entry: nat): Order
  {
    o.(status := Filled, filledQuantity := o.ticket.quantity, filledPrice := Some(price), entry := Some(entry))
  }

  // ---------------------------------------------------------------------------------------------
  // Placement
  // ---------------------------------------------------------------------------------------------

  datatype Kind = Market | Limit

  /** What a client asks for, with the rows the request resolves to. */
  datatype Ask = Ask(
    user: UserId, instrument: InstrumentId, active: bool,
    cash: AccountId, position: AccountId, pnl: AccountId, contra: AccountId,
    side: Side, kind: Kind, quantity: Decimal, limit: Option<Decimal>, token: Option<string>)

  datatype PlaceError = InstrumentInactive | BadOrder | KeyTaken | FillRefused(reason: Reason)

  /** The rows are what the endpoint hands over: real accounts, and among money accounts only spendable ones. */
  ghost predicate AskFits(accounts: Accounts, contras: map<InstrumentId, AccountId>, ask: Ask)
  {
    && ask.cash in accounts && (accounts[ask.cash].IsSpendable() || accounts[ask.cash].IsPosition())
    && ask.position in accounts && accounts[ask.position].IsHolding() && accounts[ask.position].owner == ask.user
    && accounts[ask.position].instrument == Some(ask.instrument)
    && ask.pnl in accounts && accounts[ask.pnl].IsRealizedPnl() && accounts[ask.pnl].instrument.None?
        && accounts[ask.pnl].owner == ask.user
    && ask.contra in accounts && accounts[ask.contra].IsContra()
        && accounts[ask.contra].instrument == Some(ask.instrument)
    && ask.instrument in contras && contras[ask.instrument] == ask.contra
    && forall a :: a in {ask.cash, ask.position, ask.pnl, ask.contra} ==> accounts[a].currency == "USD"
  }

  /** The ticket an acceptable request turns into, with its amounts quantized. */
  function TicketOf(ask: Ask, pk: OrderId): Ticket
  {
    Ticket(pk, ask.user, ask.instrument, ask.cash, ask.position, ask.pnl, ask.contra, ask.side,
      QuantizeShares(ask.quantity),
           if ask.kind == Limit && ask.limit.Some? then Some(QuantizeMoney(ask.limit.value)) else None)
  }

  predicate Acceptable(accounts: Accounts, ask: Ask)
    requires ask.cash in accounts
  {
    && accounts[ask.cash].owner == ask.user && !accounts[ask.cash].IsPosition()
    && QuantizeShares(ask.quantity) > 0
    && (ask.kind == Limit ==> ask.limit.Some? && QuantizeMoney(ask.limit.value) > 0)
  }

  function OrderDigest(t: Ticket): Fingerprint
  {
    OrderPrint(t.user, t.instrument, t.side, t.quantity, t.limit, t.cash)
  }

  function NewOrder(ask: Ask, pk: OrderId): Order
  {
    var t := TicketOf(ask, pk);
    Order(t, Open, 0, None, None, ask.token, if ask.token.None? then None else Some(OrderDigest(t)), None)
  }

  function Dismissed(o: Order, why: Reason): Order { o.(status := Rejected, reason := Some(why)) }
}

/** Books in order: a clean journal, and orders that agree with the entries keyed by them. */
module OrderBook {
  import opened Wrappers
  import opened Sums
  import opened Money
  import opened Journal
  import opened Posting
  import opened Trading
  import opened Serial
  import opened Orders
  import opened Triggers
  import opened Outcomes

  ghost predicate InOrder(accounts: Accounts, contras: map<InstrumentId, AccountId>, j: seq<Entry>,
                          orders: map<OrderId, Order>)
  {
    && Good(accounts, j)
    && ContrasFit(accounts, contras)
    && (forall o :: o in orders ==> OrderFits(accounts, contras, j, o, orders[o]))
    && (forall o :: FindKey(j, OrderKey(o)).Some? ==> o in orders)
    && TokensOk(orders)
  }

  lemma {:induction false} InOrderTokens(accounts: Accounts, contras: map<InstrumentId, AccountId>, j: seq<Entry>,
                                         orders: map<OrderId, Order>)
    requires InOrder(accounts, contras, j, orders)
    ensures TokensOk(orders)
  {
  }

  ghost predicate HasToken(orders: map<OrderId, Order>, id: OrderId, token: string)
  {
    id in orders && orders[id].token == Some(token)
  }

  /** Order tokens are unique across the table, and a keyed order carries the digest of its own request. */
  ghost predicate TokensOk(orders: map<OrderId, Order>)
  {
    && (forall a, b, token :: HasToken(orders, a, token) && HasToken(orders, b, token) ==> a == b)
    && (forall a, token :: HasToken(orders, a, token) ==> orders[a].digest == Some(OrderDigest(orders[a].ticket)))
  }

  ghost predicate OrderFits(accounts: Accounts, contras: map<InstrumentId, AccountId>, j: seq<Entry>, id: OrderId,
                            o: Order)
  {
    var found := FindKey(j, OrderKey(id));
    && o.ticket.order == id && TicketFits(accounts, o.ticket)
    && o.ticket.instrument in contras && contras[o.ticket.instrument] == o.ticket.contra
    && (o.status == Open ==> found.None?)
    && (o.status == Filled ==> found.Some? && o.entry == found && FillRecorded(j, found.value, o))
  }

  function CashMoved(e: Entry, cash: AccountId): int { Sum(e.lines, AmountOn(cash)) }

  /** A filled order's own record: the whole quantity, and a price that accounts for the cash its entry moved. */
  ghost predicate FillRecorded(j: seq<Entry>, e: nat, o: Order)
    requires e < |j|
  {
    && o.filledQuantity == o.ticket.quantity && o.filledPrice.Some?
    && var n := Notional(o.filledPrice.value, o.ticket.quantity);
      CashMoved(j[e], o.ticket.cash) == if o.ticket.side == Buy then -n else n
  }

  /** A filled limit order paid no more, or received no less, than its limit promised. */
  lemma {:induction false} LimitKept(accounts: Accounts, contras: map<InstrumentId, AccountId>, j: seq<Entry>,
                                     orders: map<OrderId, Order>, id: OrderId)
    requires InOrder(accounts, contras, j, orders) && id in orders && orders[id].status == Filled
    requires orders[id].ticket.limit.Some? && Crosses(orders[id].ticket, orders[id].filledPrice.value)
    ensures var t := orders[id].ticket;
      && FindKey(j, OrderKey(id)).Some?
      && var cash := CashMoved(j[FindKey(j, OrderKey(id)).value], t.cash);
        (t.side == Buy ==> -cash <= Notional(t.limit.value, t.quantity))
        && (t.side == Sell ==> cash >= Notional(t.limit.value, t.quantity))
  {
    assert OrderFits(accounts, contras, j, id, orders[id]);
    LimitHonoured(orders[id].ticket, orders[id].filledPrice.value);
  }

  /** Opening more accounts disturbs nothing already on the books. */
  lemma {:induction false} AccountsOpen(accounts: Accounts, more: Accounts, contras: map<InstrumentId, AccountId>,
                                        j: seq<Entry>,
                                        orders: map<OrderId, Order>)
    requires InOrder(accounts, contras, j, orders)
    requires forall a :: a in accounts ==> a in more && more[a] == accounts[a]
    ensures InOrder(more, contras, j, orders)
  {
    GoodWithMore(accounts, more, j);
    hide Good;
    forall o | o in orders ensures OrderFits(more, contras, j, o, orders[o]) {
      assert OrderFits(accounts, contras, j, o, orders[o]);
    }
  }

  lemma {:induction false} GoodWithMore(accounts: Accounts, more: Accounts, j: seq<Entry>)
    requires Good(accounts, j)
    requires forall a :: a in accounts ==> a in more && more[a] == accounts[a]
    ensures Good(more, j)
  {
    forall i | 0 <= i < |j| ensures Postable(more, j[i].lines) {
      assert Postable(accounts, j[i].lines);
      PostableWithMore(accounts, more, j[i].lines);
    }
    forall a | a !in accounts ensures Balance(Rows(j), a) == 0 && Held(Rows(j), a) == 0 {
      NeverPosted(accounts, j, a);
    }
  }

  lemma {:induction false} PostableWithMore(accounts: Accounts, more: Accounts, lines: seq<Line>)
    requires Postable(accounts, lines)
    requires forall a :: a in accounts ==> a in more && more[a] == accounts[a]
    ensures Postable(more, lines)
  {
    forall g ensures Sum(lines, SharesIn(more, g)) == 0 {
      SumSame(lines, SharesIn(accounts, g), SharesIn(more, g));
    }
  }

  lemma {:induction false} NeverPosted(accounts: Accounts, j: seq<Entry>, a: AccountId)
    requires forall i :: 0 <= i < |j| ==> Postable(accounts, j[i].lines)
    requires a !in accounts
    ensures Balance(Rows(j), a) == 0 && Held(Rows(j), a) == 0
  {
    RowEntries(j);
    SumZero(Rows(j), OnRows(AmountOn(a)));
    SumZero(Rows(j), OnRows(SharesOn(a)));
  }

  /** An opening deposit on spendable and equity accounts leaves the books in order. */
  lemma {:induction false} OpeningKeepsOrder(accounts: Accounts, contras: map<InstrumentId, AccountId>, j: seq<Entry>,
                                             orders: map<OrderId, Order>, q: AccountId, c: AccountId, n: int,
                                               at: Instant)
    requires InOrder(accounts, contras, j, orders) && ItemFits(accounts, Opening(q, c, n, at))
    ensures InOrder(accounts, contras, j + [OpeningEntry(q, c, n, at)], orders)
  {
    var j' := j + [OpeningEntry(q, c, n, at)];
    OpeningKeepsGood(accounts, j, q, c, n, at);
    hide Good;
    assert forall e :: 0 <= e < |j| ==> j'[e] == j[e];
    forall o ensures FindKey(j', OrderKey(o)) == FindKey(j, OrderKey(o)) {
      FindStable(j, OpeningEntry(q, c, n, at), OrderKey(o));
    }
    forall o | o in orders ensures OrderFits(accounts, contras, j', o, orders[o]) {
      assert OrderFits(accounts, contras, j, o, orders[o]);
    }
  }

  lemma {:induction false} TransferQuantized(s: AccountId, d: AccountId, n: int)
    ensures QuantizedAll([LineSpec(s, OfMoney(-n), None), LineSpec(d, OfMoney(n), None)]) == TransferPosting(s, d, n)
  {
  }

  /** A client's transfer never disturbs what orders say about their own entries. */
  lemma {:induction false} TransferKeepsOrder(accounts: Accounts, contras: map<InstrumentId, AccountId>, j: seq<Entry>,
                                              orders: map<OrderId, Order>, r: Request)
    requires r.Transfer? && InOrder(accounts, contras, j, orders) && RequestFits(accounts, r)
    ensures InOrder(accounts, contras, Execute(j, r).1, orders)
  {
    hide Good, Execute;
    var j' := Execute(j, r).1;
    ExecuteKeepsGood(accounts, j, r);
    forall o ensures FindKey(j', OrderKey(o)) == FindKey(j, OrderKey(o)) && |j| <= |j'| && j'[..|j|] == j {
      ExecuteKey(j, r, OrderKey(o));
    }
    ExecuteKey(j, r, OrderKey(0));
    forall o | o in orders ensures OrderFits(accounts, contras, j', o, orders[o]) {
      assert OrderFits(accounts, contras, j, o, orders[o]);
    }
  }

  /** Changing one order's status keeps the tokens and digests as they were. */
  lemma {:induction false} TokensStill(orders: map<OrderId, Order>, id: OrderId, now: Order)
    requires TokensOk(orders) && id in orders
    requires now.ticket == orders[id].ticket && now.token == orders[id].token && now.digest == orders[id].digest
    ensures TokensOk(orders[id := now])
  {
    var later := orders[id := now];
    forall a, token | HasToken(later, a, token) ensures HasToken(orders, a, token) {
    }
  }

  /** One order may move on while the journal stays as it is, if it does not claim what the journal does not say. */
  lemma {:induction false} OneOrderMoves(accounts: Accounts, contras: map<InstrumentId, AccountId>, j: seq<Entry>,
                                         orders: map<OrderId, Order>, id: OrderId, now: Order)
    requires InOrder(accounts, contras, j, orders) && id in orders
    requires now.ticket == orders[id].ticket && now.token == orders[id].token && now.digest == orders[id].digest
    requires now.status == Cancelled || now.status == Rejected
    ensures InOrder(accounts, contras, j, orders[id := now])
  {
    assert OrderFits(accounts, contras, j, id, orders[id]);
    TokensStill(orders, id, now);
  }

  lemma {:induction false} TicketFacts(accounts: Accounts, t: Ticket)
    requires TicketFits(accounts, t)
    ensures t.quantity > 0 && t.cash in accounts && t.position in accounts
  {
  }

  lemma {:induction false} MarkedFacts(o: Order, price: int, entry: nat)
    ensures var now := Marked(o, price, entry);
      now.status == Filled && now.entry == Some(entry) && now.ticket == o.ticket && now.token == o.token
        && now.digest == o.digest
  {
  }

  /** What books in order say of one order's accounts. */
  lemma {:induction false} Fitting(accounts: Accounts, contras: map<InstrumentId, AccountId>, j: seq<Entry>,
                                   orders: map<OrderId, Order>, id: OrderId)
    requires InOrder(accounts, contras, j, orders) && id in orders
    ensures var t := orders[id].ticket;
      && t.order == id && TicketFits(accounts, t) && ContrasFit(accounts, contras) && Good(accounts, j)
      && t.instrument in contras && contras[t.instrument] == t.contra
  {
    assert OrderFits(accounts, contras, j, id, orders[id]);
  }

  /** A fill that goes through is posted under its order's key and marked on that order alone. */
  lemma {:induction false} FillKeepsOrder(accounts: Accounts, contras: map<InstrumentId, AccountId>, j: seq<Entry>,
                                          orders: map<OrderId, Order>, id: OrderId, price: int, at: Instant)
    requires InOrder(accounts, contras, j, orders) && id in orders
    ensures var (o, j') := Execute(j, Fill(orders[id].ticket, price, at));
      InOrder(accounts, contras, j', if o.Created? then orders[id := Marked(orders[id], price, o.entry)] else orders)
  {
    hide Good, Execute, Marked;
    var r := Fill(orders[id].ticket, price, at);
    var outcome := Execute(j, r).0;
    Fitting(accounts, contras, j, orders, id);
    ExecuteKey(j, r, OrderKey(id));
    if outcome.Created? {
      ExecuteKeepsGood(accounts, j, r);
      MarkedFacts(orders[id], price, |j|);
      TokensStill(orders, id, Marked(orders[id], price, |j|));
      FillIsRecorded(accounts, j, orders[id], price, at);
      OthersKeepRecord(accounts, contras, j, orders, id, r, Marked(orders[id], price, |j|));
    }
  }

  lemma {:induction false} FillIsRecorded(accounts: Accounts, j: seq<Entry>, o: Order, price: int, at: Instant)
    requires TicketFits(accounts, o.ticket) && Execute(j, Fill(o.ticket, price, at)).0.Created?
    ensures var j' := Execute(j, Fill(o.ticket, price, at)).1;
      |j'| == |j| + 1 && FillRecorded(j', |j|, Marked(o, price, |j|))
  {
    var r := Fill(o.ticket, price, at);
    ExecuteFillCases(j, o.ticket, price, at);
    var held := if NeedsShares(r) then Held(Rows(j), Reads(r)) else 0;
    VerdictEffect(accounts, o.ticket, price, held, Balance(Rows(j), Reads(r)), o.ticket.cash);
  }

  lemma {:induction false} OthersKeepRecord(accounts: Accounts, contras: map<InstrumentId, AccountId>, j: seq<Entry>,
                                            orders: map<OrderId, Order>, id: OrderId, r: Request, now: Order)
    requires r.Fill? && id in orders && r.ticket == orders[id].ticket && r.ticket.order == id
    requires Execute(j, r).0.Created?
    requires forall o :: o in orders ==> OrderFits(accounts, contras, j, o, orders[o])
    requires forall o :: FindKey(j, OrderKey(o)).Some? ==> o in orders
    requires now.status == Filled && now.ticket == r.ticket && now.entry == Some(|j|)
    requires |Execute(j, r).1| == |j| + 1 && FillRecorded(Execute(j, r).1, |j|, now)
    ensures var later, j' := orders[id := now], Execute(j, r).1;
      && (forall o :: o in later ==> OrderFits(accounts, contras, j', o, later[o]))
      && (forall o :: FindKey(j', OrderKey(o)).Some? ==> o in later)
  {
    var j', later := Execute(j, r).1, orders[id := now];
    assert OrderFits(accounts, contras, j, id, orders[id]);
    forall o ensures FindKey(j', OrderKey(o)) == if o == id then Some(|j|) else FindKey(j, OrderKey(o)) {
      ExecuteKey(j, r, OrderKey(o));
    }
    ExecuteKey(j, r, OrderKey(id));
    assert forall e :: 0 <= e < |j| ==> j'[e] == j[e];
    forall o | o in later ensures OrderFits(accounts, contras, j', o, later[o]) {
      if o != id {
        assert OrderFits(accounts, contras, j, o, orders[o]);
      }
    }
  }

  /** A fill whose key is unused posts or is refused: nothing else can happen to it. */
  lemma {:induction false} FillTotal(j: seq<Entry>, t: Ticket, price: int, at: Instant)
    requires t.quantity > 0 && FindKey(j, OrderKey(t.order)).None?
    ensures var o := Execute(j, Fill(t, price, at)).0; o.Created? || o.Refused?
  {
  }

  /** On a clean journal each entry passes both commit-time triggers. */
  lemma {:induction false} GoodPasses(accounts: Accounts, j: seq<Entry>, e: nat)
    requires e < |j| && Postable(accounts, j[e].lines)
    ensures Passes(Rows(j), accounts, e)
  {
    EntrySum(j, e, Amounts);
    forall g ensures EntryShares(Rows(j), accounts, e, g) == 0 {
      EntrySum(j, e, SharesIn(accounts, g));
    }
  }

  /**
   * Fills are total. With its order's key unused (as an open order's always is), on books in order and at any
   * price, a fill is refused for one of the three business reasons with the ledger unchanged, or it posts: its
   * entry passes the posting service's validation and both triggers, and nothing else in the journal has moved.
   */
  lemma {:induction false} FillsAreTotal(accounts: Accounts, contras: map<InstrumentId, AccountId>, j: seq<Entry>,
                                         orders: map<OrderId, Order>, id: OrderId, price: int, at: Instant)
    requires InOrder(accounts, contras, j, orders) && id in orders && FindKey(j, OrderKey(id)).None?
    ensures var (o, j') := Execute(j, Fill(orders[id].ticket, price, at));
      || (o.Refused? && j' == j)
      || (o == Created(|j|) && |j'| == |j| + 1 && j <= j'
          && j'[|j|].key == Some(OrderKey(id)) && Postable(accounts, j'[|j|].lines) && Passes(Rows(j'), accounts, |j|))
  {
    var r := Fill(orders[id].ticket, price, at);
    var (o, j') := Execute(j, r);
    Fitting(accounts, contras, j, orders, id);
    FillTotal(j, orders[id].ticket, price, at);
    ExecuteKey(j, r, OrderKey(id));
    if o.Created? {
      DecisionLands(accounts, j, r);
      GoodPasses(accounts, j', |j|);
    }
  }

  /** An open order's fill posts or is refused; its key is never taken. */
  lemma {:induction false} OpenIsFree(accounts: Accounts, contras: map<InstrumentId, AccountId>, j: seq<Entry>,
                                      orders: map<OrderId, Order>, id: OrderId, price: int, at: Instant)
    requires InOrder(accounts, contras, j, orders) && id in orders && orders[id].status == Open
    ensures orders[id].ticket.order == id
    ensures var o := Execute(j, Fill(orders[id].ticket, price, at)).0; o.Created? || o.Refused?
  {
  }

  lemma {:induction false} OpenIsUnused(accounts: Accounts, contras: map<InstrumentId, AccountId>, j: seq<Entry>,
                                        orders: map<OrderId, Order>, pk: OrderId)
    requires InOrder(accounts, contras, j, orders) && pk in orders && orders[pk].status == Open
    ensures !Used(j, OrderKey(pk))
  {
    assert OrderFits(accounts, contras, j, pk, orders[pk]);
  }

  lemma {:induction false} ExecuteFillCases(j: seq<Entry>, t: Ticket, price: int, at: Instant)
    requires t.quantity > 0
    ensures var r := Fill(t, price, at);
      Execute(j, r) == match DecideOn(j, r)
        case Failure(reason) => (Refused(reason), j)
        case Success(lines) =>
          if FindKey(j, OrderKey(t.order)).Some? then (Duplicate, j) else (Created(|j|), j + [EntryFor(r, lines)])
  {
  }

  /** Contra legs land on known accounts. */
  lemma {:induction false} ConservedAccounts(accounts: Accounts, contras: map<InstrumentId, AccountId>,
                                             specs: seq<LineSpec>)
    requires ContrasFit(accounts, contras)
    requires forall i :: i in Instruments(accounts, specs) ==> i in contras
    requires forall s :: s in specs ==> s.account in accounts
    ensures forall s :: s in Conserved(accounts, contras, specs) ==> s.account in accounts
  {
    LegAccounts(accounts, Instruments(accounts, specs), Net(accounts, specs), contras);
  }

  lemma {:induction false} LegAccounts(accounts: Accounts, order: seq<InstrumentId>, net: InstrumentId -> int,
                                       contras: map<InstrumentId, AccountId>)
    requires ContrasFit(accounts, contras)
    requires forall i :: i in order ==> i in contras
    ensures forall s :: s in ContraLegs(order, net, contras) ==> s.account in accounts
  {
    if order == [] {
    } else {
      LegAccounts(accounts, order[..|order| - 1], net, contras);
    }
  }
}
