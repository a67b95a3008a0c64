/** Placing an order (`place_order` in backend/trading/services.py), and the replay of its retry token. */
module Placement {
  import opened Wrappers
  import opened Money
  import opened Journal
  import opened Serial
  import opened Orders
  import opened OrderBook
  import opened Outcomes
  import opened Trading

  datatype Placed = Placed(result: Result<OrderId, PlaceError>, journal: seq<Entry>, orders: map<OrderId, Order>)

  /** The order holding a retry token, whoever placed it. */
  ghost function TokenHolder(orders: map<OrderId, Order>, token: Option<string>): (h: Option<OrderId>)
    ensures h.Some? ==> token.Some? && HasToken(orders, h.value, token.value)
    ensures h.None? && token.Some? ==> forall id :: !HasToken(orders, id, token.value)
  {
    if token.Some? && exists id :: HasToken(orders, id, token.value) then
      var id :| HasToken(orders, id, token.value);
      Some(id)
    else None
  }

  /** What placing an order comes to: an early error, a replay, a conflict, or a new row and perhaps its fill. */
  ghost function Place(accounts: Accounts, j: seq<Entry>, orders: map<OrderId, Order>, pk: OrderId, ask: Ask,
                       price: int, at: Instant): Placed
    requires ask.cash in accounts
  {
    if !ask.active then Placed(Failure(InstrumentInactive), j, orders)
    else if !Acceptable(accounts, ask) then Placed(Failure(BadOrder), j, orders)
    else
      var holder := TokenHolder(orders, ask.token);
      if holder.Some? then
        Placed(if orders[holder.value].digest == Some(OrderDigest(TicketOf(ask, pk))) then Success(holder.value)
          else Failure(KeyTaken),
               j, orders)
      else if ask.kind == Limit then Placed(Success(pk), j, orders[pk := NewOrder(ask, pk)])
      else FirstFill(j, orders, NewOrder(ask, pk), price, at)
  }

  /** A market order fills at once or is rejected on the spot; either way its row stays. */
  function FirstFill(j: seq<Entry>, orders: map<OrderId, Order>, o: Order, price: int, at: Instant): Placed
  {
    var pk := o.ticket.order;
    match Execute(j, Fill(o.ticket, price, at))
    case (Created(e), later) => Placed(Success(pk), later, orders[pk := Marked(o, price, e)])
    case (Refused(why), _) => Placed(Failure(FillRefused(why)), j, orders[pk := Dismissed(o, why)])
    case _ => Placed(Failure(KeyTaken), j, orders)
  }

  /** A fresh row, open and with an unused token, joins the book. */
  lemma {:induction false} OneOrderOpens(accounts: Accounts, contras: map<InstrumentId, AccountId>, j: seq<Entry>,
                                         orders: map<OrderId, Order>, pk: OrderId, ask: Ask)
    requires InOrder(accounts, contras, j, orders) && pk !in orders
    requires AskFits(accounts, contras, ask) && Acceptable(accounts, ask) && TokenHolder(orders, ask.token).None?
    ensures InOrder(accounts, contras, j, orders[pk := NewOrder(ask, pk)])
  {
    var o, later := NewOrder(ask, pk), orders[pk := NewOrder(ask, pk)];
    assert OrderFits(accounts, contras, j, pk, o);
    forall a, token | HasToken(later, a, token)
      ensures if a == pk then ask.token == Some(token) else HasToken(orders, a, token)
    {
    }
    assert TokensOk(later);
  }

  lemma {:induction false} PlaceKeepsOrder(accounts: Accounts, contras: map<InstrumentId, AccountId>, j: seq<Entry>,
                                           orders: map<OrderId, Order>, pk: OrderId, ask: Ask, price: int, at: Instant)
    requires InOrder(accounts, contras, j, orders) && pk !in orders && AskFits(accounts, contras, ask)
    ensures var p := Place(accounts, j, orders, pk, ask, price, at);
      InOrder(accounts, contras, p.journal, p.orders)
  {
    hide InOrder, Execute, Acceptable, TokenHolder;
    if ask.active && Acceptable(accounts, ask) && TokenHolder(orders, ask.token).None? {
      var o := NewOrder(ask, pk);
      OneOrderOpens(accounts, contras, j, orders, pk, ask);
      if ask.kind == Market {
        FirstFillKeeps(accounts, contras, j, orders[pk := o], pk, price, at);
        Overwritten(j, orders, o, price, at);
      }
    }
  }

  lemma {:induction false} Overwritten(j: seq<Entry>, orders: map<OrderId, Order>, o: Order, price: int, at: Instant)
    requires var out := Execute(j, Fill(o.ticket, price, at)).0; out.Created? || out.Refused?
    ensures FirstFill(j, orders, o, price, at) == FirstFill(j, orders[o.ticket.order := o], o, price, at)
  {
  }

  lemma {:induction false} FirstFillKeeps(accounts: Accounts, contras: map<InstrumentId, AccountId>, j: seq<Entry>,
                                          orders: map<OrderId, Order>, pk: OrderId, price: int, at: Instant)
    requires InOrder(accounts, contras, j, orders) && pk in orders && orders[pk].status == Open
    ensures var out := Execute(j, Fill(orders[pk].ticket, price, at)).0; out.Created? || out.Refused?
    ensures orders[pk].ticket.order == pk
    ensures var p := FirstFill(j, orders, orders[pk], price, at);
      InOrder(accounts, contras, p.journal, p.orders)
  {
    var o := orders[pk];
    OpenIsFree(accounts, contras, j, orders, pk, price, at);
    FillKeepsOrder(accounts, contras, j, orders, pk, price, at);
    hide InOrder;
    var out := Execute(j, Fill(o.ticket, price, at)).0;
    if out.Refused? {
      OneOrderMoves(accounts, contras, j, orders, pk, Dismissed(o, out.reason));
    }
  }

  predicate SameAsk(a: Ask, b: Ask)
  {
    && a.user == b.user && a.instrument == b.instrument && a.side == b.side && a.cash == b.cash
    && QuantizeShares(a.quantity) == QuantizeShares(b.quantity)
    && TicketOf(a, 0).limit == TicketOf(b, 0).limit
  }

  /** While a keyed order's row keeps its token and digest, requests under that token are answered from it. */
  lemma {:induction false} TokenSettled(accounts: Accounts, j: seq<Entry>, orders: map<OrderId, Order>, pk: OrderId,
                                        ask: Ask,
                                      price: int, at: Instant, j': seq<Entry>, later: map<OrderId, Order>,
                                      pk': OrderId, again: Ask, price': int, at': Instant)
    requires ask.cash in accounts && again.cash in accounts && pk !in orders
    requires ask.token.Some? && again.token == ask.token && again.active && Acceptable(accounts, again)
    requires pk in Place(accounts, j, orders, pk, ask, price, at).orders
    requires TokensOk(later) && pk in later
    requires var o := Place(accounts, j, orders, pk, ask, price, at).orders[pk];
      later[pk].token == o.token && later[pk].digest == o.digest
    ensures Place(accounts, j', later, pk', again, price', at')
         == Placed(if SameAsk(ask, again) then Success(pk) else Failure(KeyTaken), j', later)
  {
    hide Execute;
    assert later[pk].token == ask.token;
    assert later[pk].digest == Some(OrderDigest(TicketOf(ask, pk)));
    assert HasToken(later, pk, ask.token.value);
    var h := TokenHolder(later, ask.token);
    assert h.Some? && HasToken(later, h.value, ask.token.value);
    assert h.value == pk;
  }

  // ---------------------------------------------------------------------------------------------
  // What placing comes to, in terms of the request
  // ---------------------------------------------------------------------------------------------

  /** A ticket for the very same request: who, what, which way, from where, how much and at what limit. */
  ghost predicate AsksFor(t: Ticket, ask: Ask)
  {
    && t.user == ask.user && t.instrument == ask.instrument && t.side == ask.side && t.cash == ask.cash
    && t.quantity == QuantizeShares(ask.quantity)
    && match ask.kind
       case Market => t.limit.None?
       case Limit => ask.limit.Some? && t.limit == Some(QuantizeMoney(ask.limit.value))
  }

  /** The row a request leaves: its own ticket on its own accounts, under its own token. */
  ghost predicate Records(o: Order, ask: Ask, pk: OrderId)
  {
    && AsksFor(o.ticket, ask) && o.ticket.order == pk && o.token == ask.token
    && o.ticket.position == ask.position && o.ticket.pnl == ask.pnl && o.ticket.contra == ask.contra
  }

  /** A market order's row says how its fill came out, and the fill is the trade the request asked for. */
  ghost predicate FilledAtOnce(j: seq<Entry>, o: Order, price: int, at: Instant, result: Result<OrderId, PlaceError>,
                               j': seq<Entry>)
  {
    var t, n := o.ticket, Notional(price, o.ticket.quantity);
    && !Used(j, OrderKey(t.order))
    && match o.status
       case Filled =>
         && result == Success(t.order)
         && o.filledQuantity == t.quantity && o.filledPrice == Some(price) && o.entry == Some(|j|)
         && Traded(j, t, price, at, n, Created(|j|), j')
       case Rejected =>
         && o.reason.Some? && result == Failure(FillRefused(o.reason.value)) && o.entry.None?
         && Traded(j, t, price, at, n, Refused(o.reason.value), j')
       case _ => false
  }

  /** A request nobody has made under its token: one new row, resting if it has a limit, filled or rejected if not. */
  ghost predicate Entered(j: seq<Entry>, orders: map<OrderId, Order>, pk: OrderId, ask: Ask, price: int, at: Instant,
                          p: Placed)
  {
    && pk in p.orders && p.orders == orders[pk := p.orders[pk]] && Records(p.orders[pk], ask, pk)
    && match ask.kind
       case Limit =>
         && p.result == Success(pk) && p.journal == j
         && p.orders[pk].status == Open && p.orders[pk].entry.None? && p.orders[pk].filledPrice.None?
       case Market => FilledAtOnce(j, p.orders[pk], price, at, p.result, p.journal)
  }

  /** Everything placing an order can come to. */
  ghost predicate PlacedAs(accounts: Accounts, j: seq<Entry>, orders: map<OrderId, Order>, pk: OrderId, ask: Ask,
                           price: int, at: Instant, p: Placed)
    requires ask.cash in accounts
  {
    && (!ask.active ==> p == Placed(Failure(InstrumentInactive), j, orders))
    && (ask.active && !Acceptable(accounts, ask) ==> p == Placed(Failure(BadOrder), j, orders))
    && (ask.active && Acceptable(accounts, ask) ==>
          && (forall h :: h in orders && ask.token.Some? && orders[h].token == ask.token ==>
                p == Placed(if AsksFor(orders[h].ticket, ask) then Success(h) else Failure(KeyTaken), j, orders))
          && ((forall h :: h in orders && ask.token.Some? ==> orders[h].token != ask.token) ==>
                Entered(j, orders, pk, ask, price, at, p)))
  }

  lemma {:induction false} NewOrderRecords(accounts: Accounts, ask: Ask, pk: OrderId)
    requires ask.cash in accounts && Acceptable(accounts, ask)
    ensures Records(NewOrder(ask, pk), ask, pk)
  {
  }

  /** Equal digests are equal requests. */
  lemma {:induction false} HolderAnswers(accounts: Accounts, orders: map<OrderId, Order>, ask: Ask, pk: OrderId,
                                         h: OrderId)
    requires TokensOk(orders) && ask.cash in accounts && Acceptable(accounts, ask)
    requires h in orders && ask.token.Some? && orders[h].token == ask.token
    ensures TokenHolder(orders, ask.token) == Some(h)
    ensures orders[h].digest == Some(OrderDigest(TicketOf(ask, pk))) <==> AsksFor(orders[h].ticket, ask)
  {
    assert HasToken(orders, h, ask.token.value);
  }

  lemma {:induction false} FirstFillTrades(accounts: Accounts, contras: map<InstrumentId, AccountId>, j: seq<Entry>,
                                           orders: map<OrderId, Order>, pk: OrderId, price: int, at: Instant)
    requires InOrder(accounts, contras, j, orders) && pk in orders && orders[pk].status == Open
    requires orders[pk].entry.None?
    ensures var p := FirstFill(j, orders, orders[pk], price, at);
      && pk in p.orders && p.orders[pk].ticket == orders[pk].ticket && p.orders[pk].token == orders[pk].token
      && FilledAtOnce(j, p.orders[pk], price, at, p.result, p.journal)
  {
    hide InOrder, Execute, Good, TicketFits, Traded;
    var t := orders[pk].ticket;
    Fitting(accounts, contras, j, orders, pk);
    OpenIsFree(accounts, contras, j, orders, pk, price, at);
    OpenIsUnused(accounts, contras, j, orders, pk);
    FillOutcome(accounts, j, t, price, at);
    ExecuteKey(j, Fill(t, price, at), OrderKey(pk));
  }

  /** Placing an order does what the request says, and nothing else. */
  lemma {:induction false} PlaceOutcome(accounts: Accounts, contras: map<InstrumentId, AccountId>, j: seq<Entry>,
                                        orders: map<OrderId, Order>, pk: OrderId, ask: Ask, price: int, at: Instant)
    requires InOrder(accounts, contras, j, orders) && pk !in orders && AskFits(accounts, contras, ask)
    ensures PlacedAs(accounts, j, orders, pk, ask, price, at, Place(accounts, j, orders, pk, ask, price, at))
  {
    hide InOrder, Execute, Acceptable, FilledAtOnce, AsksFor;
    InOrderTokens(accounts, contras, j, orders);
    if ask.active && Acceptable(accounts, ask) {
      forall h | h in orders && ask.token.Some? && orders[h].token == ask.token
        ensures TokenHolder(orders, ask.token) == Some(h)
        ensures orders[h].digest == Some(OrderDigest(TicketOf(ask, pk))) <==> AsksFor(orders[h].ticket, ask)
      {
        HolderAnswers(accounts, orders, ask, pk, h);
      }
      if TokenHolder(orders, ask.token).None? {
        var o := NewOrder(ask, pk);
        NewOrderRecords(accounts, ask, pk);
        OneOrderOpens(accounts, contras, j, orders, pk, ask);
        if ask.kind == Market {
          FirstFillTrades(accounts, contras, j, orders[pk := o], pk, price, at);
          OpenIsFree(accounts, contras, j, orders[pk := o], pk, price, at);
          Overwritten(j, orders, o, price, at);
        }
      }
    }
  }
}
