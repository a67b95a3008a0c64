/** Portfolio and holdings valuation: every figure derived from the journal (backend/trading/portfolio.py). */
module Portfolio {
  import opened Wrappers
  import opened Sums
  import opened Money
  import opened Journal
  import opened Trading
  import opened Serial

  datatype Holding = Holding(
    instrument: InstrumentId, account: AccountId, quantity: int, costBasis: int,
    averageCost: int, lastPrice: int, marketValue: int, unrealized: int)

  datatype Valuation = Valuation(
    cash: int, holdingsValue: int, costBasis: int, unrealized: int, realized: int, total: int, positions: seq<Holding>)

  function BalanceAsOf(rows: seq<Row>, a: AccountId, asOf: Option<Instant>): int
  {
    if asOf.None? then Balance(rows, a) else BalanceBefore(rows, a, asOf.value)
  }

  function HeldAsOf(rows: seq<Row>, a: AccountId, asOf: Option<Instant>): int
  {
    if asOf.None? then Held(rows, a) else HeldBefore(rows, a, asOf.value)
  }

  function RoundQuotient(n: int, d: int): int
    requires d != 0
  {
    if d > 0 then RoundHalfEven(n, d) else RoundHalfEven(-n, -d)
  }

  predicate HeldBy(accounts: Accounts, a: AccountId, user: UserId)
  {
    a in accounts && accounts[a].owner == user && accounts[a].IsHolding()
  }

  function Valued(accounts: Accounts, a: AccountId, quantity: int, basis: int, price: InstrumentId -> int): Holding
    requires a in accounts && accounts[a].instrument.Some? && quantity != 0
  {
    var i := accounts[a].instrument.value;
    var value := Notional(price(i), quantity);
    Holding(i, a, quantity, basis, RoundQuotient(basis * SHARE_UNIT, quantity), price(i), value, value - basis)
  }

  /** The holdings of one user over the account table, in table order, fully sold ones omitted. */
  function HoldingsOf(accounts: Accounts, rows: seq<Row>, table: seq<AccountId>, user: UserId,
                      asOf: Option<Instant>, price: InstrumentId -> int): seq<Holding>
  {
    if table == [] then []
    else
      var n := |table| - 1;
      var earlier := HoldingsOf(accounts, rows, table[..n], user, asOf, price);
      var quantity := HeldAsOf(rows, table[n], asOf);
      if HeldBy(accounts, table[n], user) && quantity != 0
      then earlier + [Valued(accounts, table[n], quantity, BalanceAsOf(rows, table[n], asOf), price)]
      else earlier
  }

  ghost predicate OnceEach(table: seq<AccountId>)
  {
    forall i, k :: 0 <= i < k < |table| ==> table[i] != table[k]
  }

  /**
   * What one entry of the list says: whose it is, shares and cost as of the instant, and a value to the nearest
   * quantum.
   */
  ghost predicate Describes(accounts: Accounts, rows: seq<Row>, user: UserId, asOf: Option<Instant>,
                            price: InstrumentId -> int, h: Holding)
  {
    && HeldBy(accounts, h.account, user) && accounts[h.account].instrument == Some(h.instrument)
    && h.quantity != 0
    && h.quantity == (match asOf case None => Held(rows, h.account) case Some(t) => HeldBefore(rows, h.account, t))
    && h.costBasis == (match asOf case None => Balance(rows, h.account) case Some(t) => BalanceBefore(rows, h.account,
        t))
    && h.lastPrice == price(h.instrument)
    && IsHalfEven(h.lastPrice * h.quantity, SHARE_UNIT, h.marketValue)
    && h.unrealized == h.marketValue - h.costBasis
    && (h.quantity > 0 ==> IsHalfEven(h.costBasis * SHARE_UNIT, h.quantity, h.averageCost))
  }

  /** The accounts listed are exactly the user's non-empty positions of the table, in its order. */
  ghost predicate Lists(accounts: Accounts, rows: seq<Row>, table: seq<AccountId>, user: UserId,
                        asOf: Option<Instant>, holdings: seq<Holding>)
  {
    && (forall k :: 0 <= k < |holdings| ==> holdings[k].account in table)
    && (forall a :: a in table && HeldBy(accounts, a, user) && HeldAsOf(rows, a, asOf) != 0 ==>
          exists k :: 0 <= k < |holdings| && holdings[k].account == a)
    && (OnceEach(table) ==> forall i, k :: 0 <= i < k < |holdings| ==>
        ComesBefore(table, holdings[i].account, holdings[k].account))
  }

  ghost predicate ComesBefore(table: seq<AccountId>, a: AccountId, b: AccountId)
  {
    exists i, k :: 0 <= i < k < |table| && table[i] == a && table[k] == b
  }

  lemma {:induction false} ValuedDescribes(accounts: Accounts, rows: seq<Row>, a: AccountId, user: UserId,
                                           asOf: Option<Instant>, price: InstrumentId -> int)
    requires HeldBy(accounts, a, user) && HeldAsOf(rows, a, asOf) != 0
    ensures Describes(accounts, rows, user, asOf, price,
                      Valued(accounts, a, HeldAsOf(rows, a, asOf), BalanceAsOf(rows, a, asOf), price))
  {
    var q, basis := HeldAsOf(rows, a, asOf), BalanceAsOf(rows, a, asOf);
    RoundNearest(price(accounts[a].instrument.value) * q, SHARE_UNIT);
    if q > 0 {
      RoundNearest(basis * SHARE_UNIT, q);
    }
  }

  lemma {:induction false} OneMoreListed(accounts: Accounts, rows: seq<Row>, table: seq<AccountId>, user: UserId,
                                         asOf: Option<Instant>,
                                         holdings: seq<Holding>, a: AccountId, h: Holding)
    requires Lists(accounts, rows, table, user, asOf, holdings) && h.account == a
    ensures Lists(accounts, rows, table + [a], user, asOf, holdings + [h])
  {
    var more, table' := holdings + [h], table + [a];
    forall x | x in table' && HeldBy(accounts, x, user) && HeldAsOf(rows, x, asOf) != 0
      ensures exists k :: 0 <= k < |more| && more[k].account == x
    {
      if x == a {
        assert more[|holdings|].account == x;
      } else {
        var k :| 0 <= k < |holdings| && holdings[k].account == x;
        assert more[k].account == x;
      }
    }
    if OnceEach(table') {
      forall i, k | 0 <= i < k < |more| ensures ComesBefore(table', more[i].account, more[k].account) {
        LaterInTable(table, holdings, h, i, k);
      }
    }
  }

  lemma {:induction false} LaterInTable(table: seq<AccountId>, holdings: seq<Holding>, h: Holding, i: nat, k: nat)
    requires i < k <= |holdings| && OnceEach(table + [h.account])
    requires forall x :: 0 <= x < |holdings| ==> holdings[x].account in table
    requires OnceEach(table) ==> forall x, y :: 0 <= x < y < |holdings| ==>
      ComesBefore(table, holdings[x].account, holdings[y].account)
    ensures ComesBefore(table + [h.account], (holdings + [h])[i].account, (holdings + [h])[k].account)
  {
    var table' := table + [h.account];
    assert OnceEach(table) by {
      forall x, y | 0 <= x < y < |table| ensures table[x] != table[y] {
        assert table'[x] == table[x] && table'[y] == table[y];
      }
    }
    if k < |holdings| {
      var x, y :| 0 <= x < y < |table| && table[x] == holdings[i].account && table[y] == holdings[k].account;
      assert table'[x] == table[x] && table'[y] == table[y];
    } else {
      var x :| 0 <= x < |table| && table[x] == holdings[i].account;
      assert table'[x] == table[x] && table'[|table|] == h.account;
    }
  }

  lemma {:induction false} OneMoreSkipped(accounts: Accounts, rows: seq<Row>, table: seq<AccountId>, user: UserId,
                                          asOf: Option<Instant>,
                                          holdings: seq<Holding>, a: AccountId)
    requires Lists(accounts, rows, table, user, asOf, holdings)
    requires !(HeldBy(accounts, a, user) && HeldAsOf(rows, a, asOf) != 0)
    ensures Lists(accounts, rows, table + [a], user, asOf, holdings)
  {
    var table' := table + [a];
    if OnceEach(table') {
      assert OnceEach(table) by {
        forall x, y | 0 <= x < y < |table| ensures table[x] != table[y] {
          assert table'[x] == table[x] && table'[y] == table[y];
        }
      }
      forall i, k | 0 <= i < k < |holdings| ensures ComesBefore(table', holdings[i].account, holdings[k].account) {
        var x, y :| 0 <= x < y < |table| && table[x] == holdings[i].account && table[y] == holdings[k].account;
        assert table'[x] == table[x] && table'[y] == table[y];
      }
    }
  }

  /** `holdings_for`: one pass over the account table. */
  method HoldingsFor(accounts: Accounts, rows: seq<Row>, table: seq<AccountId>, user: UserId,
                     asOf: Option<Instant>, price: InstrumentId -> int) returns (holdings: seq<Holding>)
    ensures Lists(accounts, rows, table, user, asOf, holdings)
    ensures forall k :: 0 <= k < |holdings| ==> Describes(accounts, rows, user, asOf, price, holdings[k])
    ensures holdings == HoldingsOf(accounts, rows, table, user, asOf, price)
  {
    hide Lists, Describes, HeldAsOf, BalanceAsOf;
    NoneListed(accounts, rows, user, asOf);
    holdings := [];
    for k := 0 to |table|
      invariant Lists(accounts, rows, table[..k], user, asOf, holdings)
      invariant forall i :: 0 <= i < |holdings| ==> Describes(accounts, rows, user, asOf, price, holdings[i])
      invariant holdings == HoldingsOf(accounts, rows, table[..k], user, asOf, price)
    {
      assert table[..k + 1][..k] == table[..k];
      assert table[..k] + [table[k]] == table[..k + 1];
      var a := table[k];
      if HeldBy(accounts, a, user) {
        var quantity := HeldAsOf(rows, a, asOf);
        if quantity == 0 {
          OneMoreSkipped(accounts, rows, table[..k], user, asOf, holdings, a);
          continue;
        }
        var h := Valued(accounts, a, quantity, BalanceAsOf(rows, a, asOf), price);
        ValuedDescribes(accounts, rows, a, user, asOf, price);
        OneMoreListed(accounts, rows, table[..k], user, asOf, holdings, a, h);
        holdings := holdings + [h];
      } else {
        OneMoreSkipped(accounts, rows, table[..k], user, asOf, holdings, a);
      }
    }
    assert table[..|table|] == table;
  }

  lemma {:induction false} NoneListed(accounts: Accounts, rows: seq<Row>, user: UserId, asOf: Option<Instant>)
    ensures Lists(accounts, rows, [], user, asOf, [])
  {
  }

  function CashIn(accounts: Accounts, rows: seq<Row>, user: UserId): AccountId -> int
  {
    (a: AccountId) => if a in accounts && accounts[a].owner == user
      && accounts[a].IsSpendable() then Balance(rows, a) else 0
  }

  /** `cash_balance_for`: the sum of the user's spendable balances. */
  function CashFor(accounts: Accounts, rows: seq<Row>, table: seq<AccountId>, user: UserId): int
  {
    Sum(table, CashIn(accounts, rows, user))
  }

  function PnlOf(accounts: Accounts, user: UserId): Line -> int
  {
    (l: Line) => if l.account in accounts && accounts[l.account].owner == user && accounts[l.account].IsRealizedPnl()
                 then l.amount else 0
  }

  function InWindow(since: Option<Instant>, until: Option<Instant>, w: Line -> int): Row -> int
  {
    (r: Row) => if (since.None? || since.value <= r.at) && (until.None? || r.at < until.value) then w(r.line) else 0
  }

  /** `realized_pnl_for`: the income account's lines in a window, in the sign a reader expects. */
  function RealizedFor(accounts: Accounts, rows: seq<Row>, user: UserId, since: Option<Instant>,
                       until: Option<Instant>): int
  {
    -Sum(rows, InWindow(since, until, PnlOf(accounts, user)))
  }

  /** Windows that meet add up, so the realized results of a run of statements sum to the lifetime figure. */
  lemma {:induction false} RealizedTiles(accounts: Accounts, rows: seq<Row>, user: UserId, since: Option<Instant>,
                                         mid: Instant, until: Option<Instant>)
    requires (since.Some? ==> since.value <= mid) && (until.Some? ==> mid <= until.value)
    ensures RealizedFor(accounts, rows, user, since, Some(mid)) + RealizedFor(accounts, rows, user, Some(mid), until)
         == RealizedFor(accounts, rows, user, since, until)
  {
    var w := PnlOf(accounts, user);
    SumPlus(rows, InWindow(since, Some(mid), w), InWindow(Some(mid), until, w), InWindow(since, until, w));
  }

  /**
   * A line counts exactly when it is on a realized-profit account of the user's and stamped at or after the
   * start and before the end of the window; it counts with its sign turned.
   */
  lemma {:induction false} RealizedCounts(accounts: Accounts, rows: seq<Row>, r: Row, user: UserId,
                                          since: Option<Instant>, until: Option<Instant>)
    ensures RealizedFor(accounts, [], user, since, until) == 0
    ensures RealizedFor(accounts, rows + [r], user, since, until) == RealizedFor(accounts, rows, user, since, until) -
      if r.line.account in accounts && accounts[r.line.account].owner == user
         && accounts[r.line.account].kind == Income && accounts[r.line.account].name == "Realized P&L"
         && (since.Some? ==> since.value <= r.at) && (until.Some? ==> r.at < until.value)
      then r.line.amount else 0
  {
    SumAppend(rows, [r], InWindow(since, until, PnlOf(accounts, user)));
    SumOne(r, InWindow(since, until, PnlOf(accounts, user)));
  }

  lemma {:induction false} LifetimeRealized(accounts: Accounts, rows: seq<Row>, user: UserId)
    ensures RealizedFor(accounts, rows, user, None, None) == -Sum(rows, OnRows(PnlOf(accounts, user)))
  {
    SumSame(rows, InWindow(None, None, PnlOf(accounts, user)), OnRows(PnlOf(accounts, user)));
  }

  const MarketValue: Holding -> int := (h: Holding) => h.marketValue
  const CostBasis: Holding -> int := (h: Holding) => h.costBasis

  function PortfolioFor(accounts: Accounts, rows: seq<Row>, table: seq<AccountId>, user: UserId,
                        price: InstrumentId -> int): Valuation
  {
    var positions := HoldingsOf(accounts, rows, table, user, None, price);
    var cash := CashFor(accounts, rows, table, user);
    var value := Sum(positions, MarketValue);
    var basis := Sum(positions, CostBasis);
    Valuation(cash, value, basis, value - basis, RealizedFor(accounts, rows, user, None, None), cash + value, positions)
  }

  /** `portfolio_for`: the list, then the sums over it. */
  method PortfolioPage(accounts: Accounts, rows: seq<Row>, table: seq<AccountId>, user: UserId,
                       price: InstrumentId -> int)
    returns (p: Valuation)
    ensures p == PortfolioFor(accounts, rows, table, user, price)
    ensures Lists(accounts, rows, table, user, None, p.positions)
    ensures forall k :: 0 <= k < |p.positions| ==> Describes(accounts, rows, user, None, price, p.positions[k])
    ensures p.holdingsValue == Sum(p.positions, (h: Holding) => h.marketValue)
    ensures p.costBasis == Sum(p.positions, (h: Holding) => h.costBasis)
    ensures p.unrealized == Sum(p.positions, (h: Holding) => h.unrealized)
    ensures p.total == p.cash + p.holdingsValue
    ensures IsTable(accounts, table) ==> p.cash == Sum(rows, (r: Row) =>
      if r.line.account in accounts && accounts[r.line.account].owner == user
         && accounts[r.line.account].kind == Asset && accounts[r.line.account].instrument.None?
      then r.line.amount else 0)
    ensures p.realized == RealizedFor(accounts, rows, user, None, None)
  {
    var positions := HoldingsFor(accounts, rows, table, user, None, price);
    var cash := CashFor(accounts, rows, table, user);
    var value, basis := Sum(positions, MarketValue), Sum(positions, CostBasis);
    SumSame(positions, MarketValue, (h: Holding) => h.marketValue);
    SumSame(positions, CostBasis, (h: Holding) => h.costBasis);
    UnrealizedSum(positions);
    if IsTable(accounts, table) {
      CashByLine(accounts, rows, table, user);
    }
    return Valuation(cash, value, basis, value - basis, RealizedFor(accounts, rows, user, None, None), cash + value,
      positions);
  }

  lemma {:induction false} UnrealizedSum(positions: seq<Holding>)
    requires forall h :: h in positions ==> h.unrealized == h.marketValue - h.costBasis
    ensures Sum(positions, MarketValue) - Sum(positions, CostBasis) == Sum(positions, (h: Holding) => h.unrealized)
  {
    SumPlus(positions, (h: Holding) => h.unrealized, CostBasis, MarketValue);
  }

  /** Account by account or line by line, cash is what the user's spendable accounts hold. */
  lemma {:induction false} CashByLine(accounts: Accounts, rows: seq<Row>, table: seq<AccountId>, user: UserId)
    requires IsTable(accounts, table)
    ensures CashFor(accounts, rows, table, user) == Sum(rows, (r: Row) =>
      if r.line.account in accounts && accounts[r.line.account].owner == user
         && accounts[r.line.account].kind == Asset && accounts[r.line.account].instrument.None?
      then r.line.amount else 0)
  {
    ByAccountOrLine(table, rows,
                    (a: AccountId) => a in accounts && accounts[a].owner == user
                      && accounts[a].kind == Asset && accounts[a].instrument.None?,
                    CashIn(accounts, rows, user),
                    (r: Row) =>
                      if r.line.account in accounts && accounts[r.line.account].owner == user
                         && accounts[r.line.account].kind == Asset && accounts[r.line.account].instrument.None?
                      then r.line.amount else 0);
  }

  // ---------------------------------------------------------------------------------------------
  // What came in from outside, read off the history of calls
  // ---------------------------------------------------------------------------------------------

  function OwnedBy(accounts: Accounts, a: AccountId, user: UserId): int
  {
    if a in accounts && accounts[a].owner == user then 1 else 0
  }

  function DepositIn(accounts: Accounts, user: UserId): Item -> int
  {
    (item: Item) => match item
      case Opening(_, c, n, _) => if OwnedBy(accounts, c, user) == 1 then n else 0
      case Call(_, _, _) => 0
  }

  function ReceivedIn(accounts: Accounts, user: UserId): Item -> int
  {
    (item: Item) => match item
      case Opening(_, _, _, _) => 0
      case Call(_, r, o) =>
        if r.Transfer? && o.Created?
        then (if OwnedBy(accounts, r.destination, user) == 1 then r.amount else 0)
           - (if OwnedBy(accounts, r.source, user) == 1 then r.amount else 0)
        else 0
  }

  function Deposits(accounts: Accounts, h: seq<Item>, user: UserId): int { Sum(h, DepositIn(accounts, user)) }

  /** Money received from others less money sent to them; moves between a user's own accounts cancel. */
  function NetReceived(accounts: Accounts, h: seq<Item>, user: UserId): int { Sum(h, ReceivedIn(accounts, user)) }

  function AssetsOf(accounts: Accounts, user: UserId): Line -> int
  {
    (l: Line) => if l.account in accounts && accounts[l.account].owner == user && accounts[l.account].kind == Asset
                 then l.amount else 0
  }

  /** Cash plus cost of everything a user owns, plus the realized-profit account: unchanged by any fill. */
  function Worth(accounts: Accounts, rows: seq<Row>, user: UserId): int
  {
    Sum(rows, OnRows(AssetsOf(accounts, user))) + Sum(rows, OnRows(PnlOf(accounts, user)))
  }

  lemma {:induction false} PostingWorth(accounts: Accounts, j: seq<Entry>, e: Entry, user: UserId)
    ensures Worth(accounts, Rows(j + [e]), user) == Worth(accounts, Rows(j), user)
          + Sum(e.lines, AssetsOf(accounts, user)) + Sum(e.lines, PnlOf(accounts, user))
  {
    SumPosted(j, e, AssetsOf(accounts, user));
    SumPosted(j, e, PnlOf(accounts, user));
  }

  lemma {:induction false} TransferWorth(accounts: Accounts, s: AccountId, d: AccountId, n: int, user: UserId)
    requires s in accounts && d in accounts && accounts[s].kind != Income && accounts[d].kind == Asset
    ensures var lines := TransferPosting(s, d, n);
      Sum(lines, AssetsOf(accounts, user)) + Sum(lines, PnlOf(accounts, user))
      == (if accounts[d].owner == user then n else 0)
       - (if accounts[s].owner == user && accounts[s].kind == Asset then n else 0)
  {
    SumTransfer(s, d, n, AssetsOf(accounts, user));
    SumTransfer(s, d, n, PnlOf(accounts, user));
  }

  lemma {:induction false} FillWorth(accounts: Accounts, t: Ticket, price: int, held: int, balance: int, user: UserId)
    requires TicketFits(accounts, t) && Verdict(t, price, held, balance).Success?
    ensures var lines := Verdict(t, price, held, balance).value;
      Sum(lines, AssetsOf(accounts, user)) + Sum(lines, PnlOf(accounts, user)) == 0
  {
    var n := Notional(price, t.quantity);
    if t.side == Buy {
      SumBuy(t, n, AssetsOf(accounts, user));
      SumBuy(t, n, PnlOf(accounts, user));
    } else {
      var cost := CostOf(balance, t.quantity, held);
      SumSell(t, n, cost, AssetsOf(accounts, user));
      SumSell(t, n, cost, PnlOf(accounts, user));
    }
  }

  lemma {:induction false} WorthExplained(accounts: Accounts, h: seq<Item>, user: UserId)
    requires HistoryFits(accounts, h) && Agrees(h)
    ensures Worth(accounts, Rows(JournalOf(h)), user) == Deposits(accounts, h, user) + NetReceived(accounts, h, user)
  {
    hide Execute;
    if h == [] {
    } else {
      var g, item := h[..|h| - 1], h[|h| - 1];
      WorthExplained(accounts, g, user);
      var j := JournalOf(g);
      assert ItemFits(accounts, item);
      match item {
        case Opening(q, c, n, at) =>
          PostingWorth(accounts, j, OpeningEntry(q, c, n, at), user);
          TransferWorth(accounts, q, c, n, user);
        case Call(_, r, o) =>
          CallWorth(accounts, j, r, user);
      }
    }
  }

  lemma {:induction false} CallWorth(accounts: Accounts, j: seq<Entry>, r: Request, user: UserId)
    requires RequestFits(accounts, r)
    ensures Worth(accounts, Rows(Execute(j, r).1), user)
         == Worth(accounts, Rows(j), user) + ReceivedIn(accounts, user)(Call(0, r, Execute(j, r).0))
  {
    if Execute(j, r).0.Created? {
      var lines := DecideOn(j, r).value;
      PostingWorth(accounts, j, EntryFor(r, lines), user);
      match r {
        case Transfer(s, d, n, _, _) => TransferWorth(accounts, s, d, n, user);
        case Fill(t, price, _) =>
          FillWorth(accounts, t, price, if NeedsShares(r) then Held(Rows(j), Reads(r))
            else 0, Balance(Rows(j), Reads(r)), user);
      }
    }
  }

  // ---------------------------------------------------------------------------------------------
  // By account or by line: the same sums
  // ---------------------------------------------------------------------------------------------

  /** The account table: every account once. */
  ghost predicate IsTable(accounts: Accounts, table: seq<AccountId>)
  {
    (forall a :: a in table <==> a in accounts) && OnceEach(table)
  }

  lemma {:induction false} SumPick(table: seq<AccountId>, x: AccountId, c: int, w: AccountId -> int)
    requires OnceEach(table)
    requires forall a :: a in table ==> w(a) == if a == x then c else 0
    ensures Sum(table, w) == if x in table then c else 0
  {
    if table == [] {
    } else {
      SumPick(table[..|table| - 1], x, c, w);
    }
  }

  function Cell(pick: AccountId -> bool): (AccountId, Row) -> int
  {
    (a: AccountId, r: Row) => if pick(a) && r.line.account == a then r.line.amount else 0
  }

  lemma {:induction false} AccountCells(rows: seq<Row>, pick: AccountId -> bool, a: AccountId)
    ensures Sum(rows, Across<AccountId, Row>(Cell(pick), a)) == if pick(a) then Balance(rows, a) else 0
  {
    var cells := Across<AccountId, Row>(Cell(pick), a);
    if pick(a) {
      forall r | r in rows ensures cells(r) == OnRows(AmountOn(a))(r) {
      }
      SumSame(rows, cells, OnRows(AmountOn(a)));
    } else {
      forall r | r in rows ensures cells(r) == 0 {
      }
      SumZero(rows, cells);
    }
  }

  lemma {:induction false} LineCells(table: seq<AccountId>, pick: AccountId -> bool, r: Row)
    requires OnceEach(table)
    ensures Sum(table, Down<AccountId, Row>(Cell(pick), r)) == if r.line.account in table
      && pick(r.line.account) then r.line.amount else 0
  {
    var x := r.line.account;
    var c := if pick(x) then r.line.amount else 0;
    forall a | a in table ensures Down<AccountId, Row>(Cell(pick), r)(a) == if a == x then c else 0 {
    }
    SumPick(table, x, c, Down<AccountId, Row>(Cell(pick), r));
  }

  lemma {:induction false} ByAccountOrLine(table: seq<AccountId>, rows: seq<Row>, pick: AccountId -> bool,
                                           byAccount: AccountId -> int, byLine: Row -> int)
    requires OnceEach(table)
    requires forall a :: a in table ==> byAccount(a) == if pick(a) then Balance(rows, a) else 0
    requires forall r :: r in rows ==>
      byLine(r) == if r.line.account in table && pick(r.line.account) then r.line.amount else 0
    ensures Sum(table, byAccount) == Sum(rows, byLine)
  {
    forall a | a in table ensures byAccount(a) == Sum(rows, Across<AccountId, Row>(Cell(pick), a)) {
      AccountCells(rows, pick, a);
    }
    forall r | r in rows ensures byLine(r) == Sum(table, Down<AccountId, Row>(Cell(pick), r)) {
      LineCells(table, pick, r);
    }
    SumSwap(table, rows, Cell(pick), byAccount, byLine);
  }

  function BasisIn(accounts: Accounts, rows: seq<Row>, user: UserId): AccountId -> int
  {
    (a: AccountId) => if HeldBy(accounts, a, user) then Balance(rows, a) else 0
  }

  /** Omitting fully sold positions loses no cost, because a position without shares carries none. */
  lemma {:induction false} OmittedCarryNothing(accounts: Accounts, rows: seq<Row>, table: seq<AccountId>,
                                               user: UserId, price: InstrumentId -> int)
    requires NoDustOn(rows, accounts)
    ensures Sum(HoldingsOf(accounts, rows, table, user, None, price), CostBasis)
      == Sum(table, BasisIn(accounts, rows, user))
  {
    if table == [] {
    } else {
      var n := |table| - 1;
      OmittedCarryNothing(accounts, rows, table[..n], user, price);
      var earlier := HoldingsOf(accounts, rows, table[..n], user, None, price);
      var quantity := Held(rows, table[n]);
      if HeldBy(accounts, table[n], user) && quantity != 0 {
        var last := Valued(accounts, table[n], quantity, Balance(rows, table[n]), price);
        SumAppend(earlier, [last], CostBasis);
        SumOne(last, CostBasis);
      }
    }
  }

  lemma {:induction false} CashAndBasis(accounts: Accounts, rows: seq<Row>, table: seq<AccountId>, user: UserId)
    requires IsTable(accounts, table)
    ensures CashFor(accounts, rows, table, user) + Sum(table, BasisIn(accounts, rows, user))
         == Sum(rows, OnRows(AssetsOf(accounts, user)))
  {
    var both := (a: AccountId) => CashIn(accounts, rows, user)(a) + BasisIn(accounts, rows, user)(a);
    SumPlus(table, CashIn(accounts, rows, user), BasisIn(accounts, rows, user), both);
    ByAccountOrLine(table, rows, (a: AccountId) => a in accounts && accounts[a].owner == user
      && accounts[a].kind == Asset,
                    both, OnRows(AssetsOf(accounts, user)));
  }

  /**
   * What the portfolio page adds up to. After any serial run, a user's total value is opening deposits plus
   * net money received from others plus realized profit plus unrealized profit.
   */
  lemma {:induction false} TotalValueExplained(accounts: Accounts, table: seq<AccountId>, h: seq<Item>, user: UserId,
                                               price: InstrumentId -> int)
    requires HistoryFits(accounts, h) && Agrees(h) && IsTable(accounts, table)
    ensures var p := PortfolioFor(accounts, Rows(JournalOf(h)), table, user, price);
      p.total == Deposits(accounts, h, user) + NetReceived(accounts, h, user) + p.realized + p.unrealized
  {
    var rows := Rows(JournalOf(h));
    SerialGood(accounts, h);
    WorthExplained(accounts, h, user);
    OmittedCarryNothing(accounts, rows, table, user, price);
    CashAndBasis(accounts, rows, table, user);
    LifetimeRealized(accounts, rows, user);
  }
}

/** The same identity after every concurrent schedule. */
module LivePortfolio {
  import opened Journal
  import opened Protocol
  import opened Interleavings
  import opened Portfolio

  lemma {:induction false} TotalValueAlways(acts: seq<Action>, table: seq<AccountId>, user: UserId,
                                            price: InstrumentId -> int)
    requires Legal(acts) && IsTable(After(acts).accounts, table)
    ensures var s := After(acts);
      var p := PortfolioFor(s.accounts, Rows(s.journal), table, user, price);
      p.total == Deposits(s.accounts, s.history, user) + NetReceived(s.accounts, s.history, user) + p.realized
        + p.unrealized
  {
    AlwaysInv(acts);
    TotalValueExplained(After(acts).accounts, table, After(acts).history, user, price);
  }
}
