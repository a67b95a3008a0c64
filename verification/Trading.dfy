/** Fill arithmetic: what a buy or a sell posts, and what that keeps true of a holding (backend/trading/services.py). */
module Trading {
  import opened Wrappers
  import opened Sums
  import opened Money
  import opened Journal
  import opened Posting

  /** The three business rejections of a fill. */
  datatype Reason = InsufficientFunds | InsufficientShares | InvalidOrder

  /** One side of one order, with the accounts its fill touches. */
  datatype Ticket = Ticket(
    order: OrderId, user: UserId, instrument: InstrumentId,
    cash: AccountId, position: AccountId, pnl: AccountId, contra: AccountId,
    side: Side, quantity: int, limit: Option<int>)

  ghost predicate TicketFits(accounts: Accounts, t: Ticket)
  {
    && t.quantity > 0
    && t.cash in accounts && accounts[t.cash].IsSpendable() && accounts[t.cash].owner == t.user
    && t.position in accounts && accounts[t.position].IsHolding() && accounts[t.position].owner == t.user
    && accounts[t.position].instrument == Some(t.instrument)
    && t.pnl in accounts && accounts[t.pnl].IsRealizedPnl() && accounts[t.pnl].instrument.None?
        && accounts[t.pnl].owner == t.user
    && t.contra in accounts && accounts[t.contra].IsContra() && accounts[t.contra].instrument == Some(t.instrument)
    && forall a :: a in {t.cash, t.position, t.pnl, t.contra} ==> accounts[a].currency == "USD"
  }

  /** `quantize_money(price * quantity)`. */
  function Notional(price: int, quantity: int): int { RoundHalfEven(price * quantity, SHARE_UNIT) }

  /** Cost removed by a sell: the whole basis on a full exit, else the pro-rata share rounded once. */
  function CostOf(basis: int, quantity: int, held: int): int
    requires held > 0
  {
    if quantity == held then basis else RoundHalfEven(basis * quantity, held)
  }

  function BuyPosting(t: Ticket, notional: int): seq<Line>
  {
    [Line(t.cash, -notional, None), Line(t.position, notional, Some(t.quantity)), Line(t.contra, 0, Some(-t.quantity))]
  }

  function SellPosting(t: Ticket, notional: int, cost: int): seq<Line>
  {
    var exit := [Line(t.cash, notional, None), Line(t.position, -cost, Some(-t.quantity))];
    var gain := if notional == cost then [] else [Line(t.pnl, -(notional - cost), None)];
    exit + gain + [Line(t.contra, 0, Some(t.quantity))]
  }

  /**
   * The verdict on a fill, from what was read under the locks: shares held, and the balance of the cash
   * account for a buy or of the position (its cost basis) for a sell.
   */
  function Verdict(t: Ticket, price: int, held: int, balance: int): Result<seq<Line>, Reason>
    requires t.quantity > 0
  {
    var notional := Notional(price, t.quantity);
    if notional <= 0 then Failure(InvalidOrder)
    else if t.side == Buy then
      if balance < notional then Failure(InsufficientFunds) else Success(BuyPosting(t, notional))
    else if held < t.quantity then Failure(InsufficientShares)
    else
      var cost := CostOf(balance, t.quantity, held);
      if cost <= 0 then Failure(InvalidOrder) else Success(SellPosting(t, notional, cost))
  }

  // ---------------------------------------------------------------------------------------------
  // What a posting does to each account
  // ---------------------------------------------------------------------------------------------

  lemma {:induction false} SumBuy(t: Ticket, notional: int, w: Line -> int)
    ensures Sum(BuyPosting(t, notional), w)
         == w(Line(t.cash, -notional, None)) + w(Line(t.position, notional, Some(t.quantity)))
          + w(Line(t.contra, 0, Some(-t.quantity)))
  {
    SumThree(Line(t.cash, -notional, None), Line(t.position, notional, Some(t.quantity)),
      Line(t.contra, 0, Some(-t.quantity)), w);
  }

  lemma {:induction false} SumSell(t: Ticket, notional: int, cost: int, w: Line -> int)
    requires notional == cost ==> w(Line(t.pnl, -(notional - cost), None)) == 0
    ensures Sum(SellPosting(t, notional, cost), w)
         == w(Line(t.cash, notional, None)) + w(Line(t.position, -cost, Some(-t.quantity)))
          + w(Line(t.pnl, -(notional - cost), None)) + w(Line(t.contra, 0, Some(t.quantity)))
  {
    var a, b, c, d := Line(t.cash, notional, None), Line(t.position, -cost, Some(-t.quantity)),
                      Line(t.pnl, -(notional - cost), None), Line(t.contra, 0, Some(t.quantity));
    if notional == cost {
      assert SellPosting(t, notional, cost) == [a, b, d];
      SumThree(a, b, d, w);
    } else {
      assert SellPosting(t, notional, cost) == [a, b, c, d];
      SumFour(a, b, c, d, w);
    }
  }

  /** A successful verdict, account by account: a buy trades cash for basis at par, a sell books the difference. */
  lemma {:induction false} VerdictEffect(accounts: Accounts, t: Ticket, price: int, held: int, balance: int,
                                         a: AccountId)
    requires TicketFits(accounts, t) && Verdict(t, price, held, balance).Success?
    requires t.side == Sell ==> held > 0
    ensures var lines := Verdict(t, price, held, balance).value;
      var n := Notional(price, t.quantity);
      var cost := if t.side == Buy then 0 else CostOf(balance, t.quantity, held);
      && n > 0
      && Sum(lines, AmountOn(a)) ==
           (if a == t.cash then (if t.side == Buy then -n else n)
            else if a == t.position then (if t.side == Buy then n else -cost)
            else if a == t.pnl && t.side == Sell then cost - n else 0)
      && Sum(lines, SharesOn(a)) ==
           (if a == t.position then (if t.side == Buy then t.quantity else -t.quantity)
            else if a == t.contra then (if t.side == Buy then -t.quantity else t.quantity) else 0)
  {
    var n := Notional(price, t.quantity);
    if t.side == Buy {
      SumBuy(t, n, AmountOn(a));
      SumBuy(t, n, SharesOn(a));
    } else {
      var cost := CostOf(balance, t.quantity, held);
      SumSell(t, n, cost, AmountOn(a));
      SumSell(t, n, cost, SharesOn(a));
    }
  }

  /**
   * Fills are total. Whatever the prices, holdings and balances, a verdict that is not one of the three
   * rejections is an entry the posting service accepts and both commit-time triggers pass: break-even
   * sells included.
   */
  lemma {:induction false} VerdictPostable(accounts: Accounts, t: Ticket, price: int, held: int, balance: int)
    requires TicketFits(accounts, t) && Verdict(t, price, held, balance).Success?
    ensures Postable(accounts, Verdict(t, price, held, balance).value)
  {
    var n := Notional(price, t.quantity);
    if t.side == Buy {
      SumBuy(t, n, Amounts);
      forall g ensures Sum(BuyPosting(t, n), SharesIn(accounts, g)) == 0 {
        SumBuy(t, n, SharesIn(accounts, g));
      }
    } else {
      var cost := CostOf(balance, t.quantity, held);
      SumSell(t, n, cost, Amounts);
      forall g ensures Sum(SellPosting(t, n, cost), SharesIn(accounts, g)) == 0 {
        SumSell(t, n, cost, SharesIn(accounts, g));
      }
    }
  }

  // ---------------------------------------------------------------------------------------------
  // The builders and their contra legs
  // ---------------------------------------------------------------------------------------------

  function BuySpecs(t: Ticket, notional: int): seq<LineSpec>
  {
    [LineSpec(t.cash, OfMoney(-notional), None), LineSpec(t.position, OfMoney(notional), Some(OfShares(t.quantity)))]
  }

  function SellSpecs(t: Ticket, notional: int, cost: int): seq<LineSpec>
  {
    var exit := [LineSpec(t.cash, OfMoney(notional), None),
      LineSpec(t.position, OfMoney(-cost), Some(OfShares(-t.quantity)))];
    if notional == cost then exit else exit + [LineSpec(t.pnl, OfMoney(-(notional - cost)), None)]
  }

  lemma {:induction false} SpecQuantized(a: AccountId, units: int, shares: Option<int>)
    ensures Quantized(LineSpec(a, OfMoney(units), if shares.None? then None else Some(OfShares(shares.value))))
      == Line(a, units, shares)
  {
  }

  lemma {:induction false} QuantizedOne(s: LineSpec)
    ensures QuantizedAll([s]) == [Quantized(s)]
  {
  }

  lemma {:induction false} QuantizedTwo(s: LineSpec, t: LineSpec)
    ensures QuantizedAll([s, t]) == [Quantized(s), Quantized(t)]
  {
  }

  /** Builder plus `conserve_shares`, quantized, is exactly the three-line table a buy posts. */
  lemma {:induction false} BuyConserved(accounts: Accounts, contras: map<InstrumentId, AccountId>, t: Ticket,
                                        notional: int)
    requires TicketFits(accounts, t) && t.instrument in contras && contras[t.instrument] == t.contra
    ensures Instruments(accounts, BuySpecs(t, notional)) == [t.instrument]
    ensures QuantizedAll(Conserved(accounts, contras, BuySpecs(t, notional))) == BuyPosting(t, notional)
  {
    var specs := BuySpecs(t, notional);
    QuantizedTwo(specs[0], specs[1]);
    SpecQuantized(t.cash, -notional, None);
    SpecQuantized(t.position, notional, Some(t.quantity));
    OneInstrument(accounts, specs, 1, t.instrument);
    var first, second := Line(t.cash, -notional, None), Line(t.position, notional, Some(t.quantity));
    assert QuantizedAll(specs) == [first, second];
    SumTwo(first, second, HoldingShares(accounts, t.instrument));
    OneLeg(accounts, contras, specs, t.instrument, t.quantity);
  }

  /**
   * A sell's lines for the reader of the ledger: cash in, exactly the shares sold out of the position together
   * with a positive cost no larger than its basis, the rest to realized profit unless there is none, and money
   * that sums to zero.
   */
  ghost predicate SellsAs(t: Ticket, notional: int, held: int, basis: int, lines: seq<Line>)
    requires held > 0
  {
    && 2 <= |lines| <= 3 && Sum(lines, Amounts) == 0
    && lines[0] == Line(t.cash, notional, None)
    && lines[1].account == t.position && lines[1].quantity == Some(-t.quantity)
    && 0 < -lines[1].amount <= basis
    && (if t.quantity == held then -lines[1].amount == basis
        else IsHalfEven(basis * t.quantity, held, -lines[1].amount))
    && (|lines| == 3 <==> notional != -lines[1].amount)
    && (|lines| == 3 ==> lines[2].account == t.pnl && lines[2].quantity.None?)
  }

  /** Too small to post: the cost of the shares sold rounds to nothing. Checkable without rounding. */
  predicate CostVanishes(quantity: int, held: int, basis: int)
  {
    if quantity == held then basis <= 0 else 2 * (basis * quantity) <= held
  }

  lemma {:induction false} VanishesExactly(quantity: int, held: int, basis: int)
    requires 0 < quantity <= held
    ensures CostOf(basis, quantity, held) <= 0 <==> CostVanishes(quantity, held, basis)
    ensures CostOf(basis, quantity, held) > 0 ==> CostOf(basis, quantity, held) <= basis
  {
    var n, r := basis * quantity, RoundHalfEven(basis * quantity, held);
    RoundNearest(n, held);
    if r > 0 {
      MulMonotone(1, r, held);
    } else {
      MulMonotone(r, 0, held);
      if 2 * n == held {
        HalfEvenUnique(n, held, r, 0);
      }
    }
    if basis >= 0 {
      ProRataWithin(basis, quantity, held);
    } else {
      MulMonotone(basis, 0, quantity);
    }
  }

  lemma {:induction false} SellShape(t: Ticket, notional: int, held: int, basis: int)
    requires 0 < t.quantity <= held && !CostVanishes(t.quantity, held, basis)
    ensures SellsAs(t, notional, held, basis, QuantizedAll(SellSpecs(t, notional, CostOf(basis, t.quantity, held))))
  {
    var cost := CostOf(basis, t.quantity, held);
    VanishesExactly(t.quantity, held, basis);
    RoundNearest(basis * t.quantity, held);
    hide CostOf, IsHalfEven;
    SellLinesAre(t, notional, cost);
  }

  lemma {:induction false} SellLinesAre(t: Ticket, notional: int, cost: int)
    ensures var lines := QuantizedAll(SellSpecs(t, notional, cost));
      && |lines| == (if notional == cost then 2 else 3) && Sum(lines, Amounts) == 0
      && lines[0] == Line(t.cash, notional, None) && lines[1] == Line(t.position, -cost, Some(-t.quantity))
      && (|lines| == 3 ==> lines[2] == Line(t.pnl, -(notional - cost), None))
  {
    SpecQuantized(t.cash, notional, None);
    SpecQuantized(t.position, -cost, Some(-t.quantity));
    SpecQuantized(t.pnl, -(notional - cost), None);
    var lines := QuantizedAll(SellSpecs(t, notional, cost));
    if notional == cost {
      assert lines == [lines[0], lines[1]];
      SumTwo(lines[0], lines[1], Amounts);
    } else {
      assert lines == [lines[0], lines[1], lines[2]];
      SumThree(lines[0], lines[1], lines[2], Amounts);
    }
  }

  lemma {:induction false} SellQuantized(t: Ticket, notional: int, cost: int)
    ensures QuantizedAll(SellSpecs(t, notional, cost)) + [Line(t.contra, 0, Some(t.quantity))]
      == SellPosting(t, notional, cost)
  {
  }

  lemma {:induction false} SellMoves(accounts: Accounts, t: Ticket, notional: int, cost: int)
    requires TicketFits(accounts, t)
    ensures NetMoved(accounts, SellSpecs(t, notional, cost), t.instrument) == -t.quantity
  {
    SellQuantized(t, notional, cost);
    var w := HoldingShares(accounts, t.instrument);
    SumSell(t, notional, cost, w);
    SumAppend(QuantizedAll(SellSpecs(t, notional, cost)), [Line(t.contra, 0, Some(t.quantity))], w);
    SumOne(Line(t.contra, 0, Some(t.quantity)), w);
  }

  lemma {:induction false} SellConserved(accounts: Accounts, contras: map<InstrumentId, AccountId>, t: Ticket,
                                         notional: int, cost: int)
    requires TicketFits(accounts, t) && t.instrument in contras && contras[t.instrument] == t.contra
    ensures Instruments(accounts, SellSpecs(t, notional, cost)) == [t.instrument]
    ensures QuantizedAll(Conserved(accounts, contras, SellSpecs(t, notional, cost))) == SellPosting(t, notional, cost)
  {
    OneInstrument(accounts, SellSpecs(t, notional, cost), 1, t.instrument);
    SellQuantized(t, notional, cost);
    SellMoves(accounts, t, notional, cost);
    OneLeg(accounts, contras, SellSpecs(t, notional, cost), t.instrument, -t.quantity);
  }

  lemma {:induction false} OneInstrument(accounts: Accounts, specs: seq<LineSpec>, at: nat, i: InstrumentId)
    requires at < |specs| && MovesHolding(accounts, specs[at]) && accounts[specs[at].account].instrument == Some(i)
    requires forall k :: 0 <= k < |specs| && k != at ==> !MovesHolding(accounts, specs[k])
    ensures Instruments(accounts, specs) == [i]
  {
    var n := |specs| - 1;
    if at < n {
      OneInstrument(accounts, specs[..n], at, i);
    } else {
      NoInstrument(accounts, specs[..n]);
    }
  }

  lemma {:induction false} NoInstrument(accounts: Accounts, specs: seq<LineSpec>)
    requires forall s :: s in specs ==> !MovesHolding(accounts, s)
    ensures Instruments(accounts, specs) == []
  {
    if specs == [] {
    } else {
      NoInstrument(accounts, specs[..|specs| - 1]);
    }
  }

  lemma {:induction false} OneLeg(accounts: Accounts, contras: map<InstrumentId, AccountId>, specs: seq<LineSpec>,
                                  i: InstrumentId, units: int)
    requires Instruments(accounts, specs) == [i] && i in contras
    requires NetMoved(accounts, specs, i) == units && units != 0
    ensures QuantizedAll(Conserved(accounts, contras, specs)) == QuantizedAll(specs)
      + [Line(contras[i], 0, Some(-units))]
  {
    hide QuantizedAll, Quantized, ContraLegs, Instruments;
    var leg := LineSpec(contras[i], OfMoney(0), Some(OfShares(-units)));
    SingleLeg(i, Net(accounts, specs), contras);
    assert Conserved(accounts, contras, specs) == specs + [leg];
    QuantizedAppend(specs, [leg]);
    QuantizedOne(leg);
    LegQuantized(contras[i], -units);
  }

  lemma {:induction false} SingleLeg(i: InstrumentId, net: InstrumentId -> int, contras: map<InstrumentId, AccountId>)
    requires i in contras && net(i) != 0
    ensures ContraLegs([i], net, contras) == [LineSpec(contras[i], OfMoney(0), Some(OfShares(-net(i))))]
  {
  }
}

/** Runs of trades on one holding: no dust, exact closing profit, and how far rounding can drift. */
module Holdings {
  import opened Wrappers
  import opened Sums
  import opened Money
  import opened Journal
  import opened Trading

  /** A holding with its history: what was paid in, the cost taken out, and the proceeds and gain booked. */
  datatype Book = Book(shares: int, basis: int, paid: int, removed: int, proceeds: int, realized: int)

  const EMPTY := Book(0, 0, 0, 0, 0, 0)

  /** One order against the holding: side, price, quantity, and the cash there was to pay for it. */
  datatype Trade = Trade(side: Side, price: int, quantity: int, funds: int)

  function TicketFor(t: Ticket, trade: Trade): Ticket { t.(side := trade.side, quantity := trade.quantity) }

  /** The fill of one trade on one holding, read off the lines it posts; `None` when it is rejected. */
  function Filled(b: Book, t: Ticket, trade: Trade): Option<Book>
    requires trade.quantity > 0
  {
    var verdict := Verdict(TicketFor(t, trade), trade.price, b.shares, if trade.side == Buy then trade.funds
      else b.basis);
    if verdict.Failure? then None
    else
      var lines := verdict.value;
      var moved := Sum(lines, AmountOn(t.position));
      var cash := Sum(lines, AmountOn(t.cash));
      Some(Book(
        b.shares + Sum(lines, SharesOn(t.position)),
        b.basis + moved,
        b.paid + if trade.side == Buy then moved else 0,
        b.removed + if trade.side == Buy then 0 else -moved,
        b.proceeds + if trade.side == Buy then 0 else cash,
        b.realized - Sum(lines, AmountOn(t.pnl))))
  }

  /** A run of trades from a given book; `None` unless every fill went through. */
  function Run(b: Book, t: Ticket, trades: seq<Trade>): Option<Book>
    requires forall x :: x in trades ==> x.quantity > 0
  {
    if trades == [] then Some(b)
    else
      var n := |trades| - 1;
      var earlier := Run(b, t, trades[..n]);
      if earlier.None? then None else Filled(earlier.value, t, trades[n])
  }

  ghost predicate Tidy(b: Book)
  {
    && b.shares >= 0 && b.basis >= 0
    && (b.shares == 0 ==> b.basis == 0)
    && b.basis == b.paid - b.removed
    && b.realized == b.proceeds - b.removed
  }

  /** The next book in closed form, and that it stays tidy. */
  lemma {:induction false} FillKeepsTidy(accounts: Accounts, b: Book, t: Ticket, trade: Trade)
    requires TicketFits(accounts, t) && Tidy(b) && trade.quantity > 0 && Filled(b, t, trade).Some?
    ensures Tidy(Filled(b, t, trade).value)
    ensures trade.side == Sell ==>
      && b.shares >= trade.quantity
      && Filled(b, t, trade).value.shares == b.shares - trade.quantity
      && Filled(b, t, trade).value.basis == b.basis - CostOf(b.basis, trade.quantity, b.shares)
    ensures trade.side == Buy ==>
      && Filled(b, t, trade).value.shares == b.shares + trade.quantity
      && Filled(b, t, trade).value.basis == b.basis + Notional(trade.price, trade.quantity)
  {
    var u := TicketFor(t, trade);
    var balance := if trade.side == Buy then trade.funds else b.basis;
    VerdictEffect(accounts, u, trade.price, b.shares, balance, t.position);
    VerdictEffect(accounts, u, trade.price, b.shares, balance, t.cash);
    VerdictEffect(accounts, u, trade.price, b.shares, balance, t.pnl);
    if trade.side == Sell {
      ProRataWithin(b.basis, trade.quantity, b.shares);
    }
  }

  /**
   * No dust. Over any run of buys, partial sells and full exits, zero shares means exactly zero basis, and
   * when the position closes the costs removed sum to exactly what was paid, so the realized profit is
   * proceeds minus purchases with no rounding left over.
   */
  lemma {:induction false} NoDust(accounts: Accounts, t: Ticket, trades: seq<Trade>)
    requires TicketFits(accounts, t)
    requires forall x :: x in trades ==> x.quantity > 0
    requires Run(EMPTY, t, trades).Some?
    ensures var b := Run(EMPTY, t, trades).value;
      && Tidy(b)
      && (b.shares == 0 ==> b.basis == 0 && b.removed == b.paid && b.realized == b.proceeds - b.paid)
  {
    if trades == [] {
    } else {
      var n := |trades| - 1;
      NoDust(accounts, t, trades[..n]);
      FillKeepsTidy(accounts, Run(EMPTY, t, trades[..n]).value, t, trades[n]);
    }
  }

  /**
   * Exactly when a sell goes through: enough shares, proceeds that do not round to zero, and a cost that does not
   * vanish.
   */
  lemma {:induction false} SellGoesThrough(b: Book, t: Ticket, trade: Trade)
    requires Tidy(b) && trade.side == Sell && trade.quantity > 0
    ensures Filled(b, t, trade).Some? <==>
      trade.quantity <= b.shares && Notional(trade.price, trade.quantity) > 0
        && !CostVanishes(trade.quantity, b.shares, b.basis)
  {
    if trade.quantity <= b.shares {
      VanishesExactly(trade.quantity, b.shares, b.basis);
    }
  }

  /**
   * Exactly when a holding can be closed out in one sell: the proceeds must not round to zero and there must
   * be basis left to remove. A holding whose basis has been rounded away is stuck at every price.
   */
  lemma {:induction false} CanClose(b: Book, t: Ticket, trade: Trade)
    requires Tidy(b) && trade.side == Sell && trade.quantity == b.shares > 0
    ensures Filled(b, t, trade).Some? <==> Notional(trade.price, b.shares) > 0 && b.basis > 0
  {
  }

  lemma {:induction false} StuckWithoutBasis(b: Book, t: Ticket, trade: Trade)
    requires Tidy(b) && b.basis == 0 && trade.side == Sell && trade.quantity > 0
    ensures Filled(b, t, trade).None?
  {
    if trade.quantity < b.shares {
      assert b.basis * trade.quantity == 0 * b.shares;
      RoundExact(0, b.shares);
    }
  }

  /**
   * A partial sell that takes the whole basis: what it should leave behind is less than half a quantum, or is
   * exactly half and the basis is even. Checkable before the sell.
   */
  predicate Strands(basis: int, quantity: int, held: int)
  {
    quantity < held && (2 * (basis * (held - quantity)) < held
      || (2 * (basis * (held - quantity)) == held && basis % 2 == 0))
  }

  lemma {:induction false} SellStrands(accounts: Accounts, b: Book, t: Ticket, trade: Trade)
    requires TicketFits(accounts, t) && Tidy(b) && trade.side == Sell && trade.quantity > 0 && Filled(b, t, trade).Some?
    ensures var now := Filled(b, t, trade).value;
      now.shares > 0 && now.basis == 0 <==> Strands(b.basis, trade.quantity, b.shares)
  {
    FillKeepsTidy(accounts, b, t, trade);
    if trade.quantity < b.shares {
      TakesAll(b.basis, trade.quantity, b.shares);
    }
  }

  lemma {:induction false} TakesAll(basis: int, quantity: int, held: int)
    requires 0 < quantity < held && basis >= 0
    ensures CostOf(basis, quantity, held) == basis <==> Strands(basis, quantity, held)
  {
    var left := held - quantity;
    assert basis * quantity - basis * held == -(basis * left) by {
      assert basis * quantity + basis * left == basis * held;
    }
    RoundNearest(basis * quantity, held);
    assert basis * left >= 0;
    if Strands(basis, quantity, held) {
      HalfEvenUnique(basis * quantity, held, RoundHalfEven(basis * quantity, held), basis);
    }
  }

  /**
   * Exactly when shares are left without basis, over any run: the last trade was a sell that strands. A buy
   * always adds basis, and no sell goes through once the basis is gone.
   */
  lemma {:induction false} StrandedExactly(accounts: Accounts, t: Ticket, trades: seq<Trade>)
    requires TicketFits(accounts, t) && trades != []
    requires forall x :: x in trades ==> x.quantity > 0
    requires Run(EMPTY, t, trades).Some?
    ensures var b, before, last := Run(EMPTY, t, trades).value, Run(EMPTY, t, trades[..|trades| - 1]),
      trades[|trades| - 1];
      before.Some? &&
      (b.shares > 0 && b.basis == 0 <==>
        last.side == Sell && Strands(before.value.basis, last.quantity, before.value.shares))
  {
    var n := |trades| - 1;
    var before := Run(EMPTY, t, trades[..n]).value;
    NoDust(accounts, t, trades[..n]);
    FillKeepsTidy(accounts, before, t, trades[n]);
    if trades[n].side == Sell {
      SellStrands(accounts, before, t, trades[n]);
    } else {
      assert Notional(trades[n].price, trades[n].quantity) > 0;
    }
  }

  /** "Every holding can be sold" is false: one ten-thousandth buys a share, three quarters of it take all the basis. */
  lemma {:induction false} SharesLeftBehind(accounts: Accounts, t: Ticket)
    requires TicketFits(accounts, t)
    ensures var run := Run(EMPTY, t, [Trade(Buy, 1, SHARE_UNIT, 1), Trade(Sell, 1, 75000000, 0)]);
      run.Some? && run.value.shares == 25000000 && run.value.basis == 0
  {
    var buy, sell := Trade(Buy, 1, SHARE_UNIT, 1), Trade(Sell, 1, 75000000, 0);
    var trades := [buy, sell];
    assert [buy][..0] == [];
    assert Run(EMPTY, t, [buy]) == Filled(EMPTY, t, buy);
    assert trades[..1] == [buy];
    assert Notional(1, SHARE_UNIT) == 1;
    FillKeepsTidy(accounts, EMPTY, t, buy);
    var b := Filled(EMPTY, t, buy).value;
    assert Notional(1, 75000000) == 1;
    assert CostOf(1, 75000000, SHARE_UNIT) == 1;
    FillKeepsTidy(accounts, b, t, sell);
  }

  // ---------------------------------------------------------------------------------------------
  // Drift
  // ---------------------------------------------------------------------------------------------

  lemma {:induction false} DriftArithmetic(was: int, now: int, slack: int, r: int, s: int, s0: int, bound: int)
    requires 0 <= r <= s && s > 0 && s0 > 0
    requires -bound <= was <= bound && -s <= slack <= s
    requires now * s == was * r + slack * s0
    ensures -(bound + s0) <= now <= bound + s0
  {
    MulMonotone(was, bound, r);
    MulMonotone(-bound, was, r);
    MulMonotone(r, s, bound);
    MulMonotone(slack, s, s0);
    MulMonotone(-s, slack, s0);
    assert (bound + s0) * s == s * bound + s * s0;
    assert (-(bound + s0)) * s == -(s * bound) - s * s0;
    assert (-bound) * r == -(r * bound) && bound * r == r * bound && (-s) * s0 == -(s * s0);
    CancelFactor(now, bound + s0, s);
    CancelFactor(-(bound + s0), now, s);
  }

  lemma {:induction false} CostSlack(b: int, s: int, q: int)
    requires 0 < q <= s
    ensures var left := b - CostOf(b, q, s);
      -s <= 2 * (left * s - b * (s - q)) <= s
  {
  }

  lemma {:induction false} DriftIdentity(b: int, left: int, b0: int, s0: int, s: int, r: int)
    ensures (2 * (left * s0 - b0 * r)) * s == (2 * (b * s0 - b0 * s)) * r + (2 * (left * s - b * r)) * s0
  {
  }

  /** One sell moves the basis off the exact pro-rata line by at most half a quantum, and shrinks earlier error. */
  lemma {:induction false} DriftStep(b: int, s: int, q: int, b0: int, s0: int, bound: int)
    requires 0 < q <= s && s0 > 0
    requires -bound <= 2 * (b * s0 - b0 * s) <= bound
    ensures var left := b - CostOf(b, q, s);
      -(bound + s0) <= 2 * (left * s0 - b0 * (s - q)) <= bound + s0
  {
    var left := b - CostOf(b, q, s);
    CostSlack(b, s, q);
    DriftIdentity(b, left, b0, s0, s, s - q);
    DriftArithmetic(2 * (b * s0 - b0 * s), 2 * (left * s0 - b0 * (s - q)), 2 * (left * s - b * (s - q)), s - q, s, s0,
      bound);
  }

  lemma {:induction false} CancelFactor(x: int, y: int, s: int)
    requires s > 0 && x * s <= y * s
    ensures x <= y
  {
  }

  /**
   * Rounding drift: after k sells with no buys between, the remaining basis is within k/2 quanta of the
   * original basis times remaining shares over original shares (stated without division).
   */
  lemma {:induction false} DriftBound(accounts: Accounts, b0: Book, t: Ticket, sells: seq<Trade>)
    requires TicketFits(accounts, t) && Tidy(b0) && b0.shares > 0
    requires forall x :: x in sells ==> x.quantity > 0 && x.side == Sell
    requires Run(b0, t, sells).Some?
    ensures var b := Run(b0, t, sells).value;
      && Tidy(b)
      && -(|sells| * b0.shares) <= 2 * (b.basis * b0.shares - b0.basis * b.shares) <= |sells| * b0.shares
  {
    if sells == [] {
    } else {
      var n := |sells| - 1;
      DriftBound(accounts, b0, t, sells[..n]);
      var b := Run(b0, t, sells[..n]).value;
      FillKeepsTidy(accounts, b, t, sells[n]);
      DriftStep(b.basis, b.shares, sells[n].quantity, b0.basis, b0.shares, n * b0.shares);
      assert n * b0.shares + b0.shares == |sells| * b0.shares;
    }
  }
}
