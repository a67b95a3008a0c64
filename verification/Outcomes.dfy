/**
 * What a transfer or a fill comes to for its accounts, said of balances, holdings and entries alone
 * (backend/ledger/services.py, backend/trading/services.py).
 */
module Outcomes {
  import opened Wrappers
  import opened Sums
  import opened Money
  import opened Journal
  import opened Trading
  import opened Serial

  ghost predicate Used(j: seq<Entry>, k: Key) { exists i :: 0 <= i < |j| && j[i].key == Some(k) }

  /** One entry more, under this key and digest and stamped with this instant. */
  ghost predicate Appended(j: seq<Entry>, j': seq<Entry>, key: Option<Key>, digest: Option<Fingerprint>, at: Instant)
  {
    && |j'| == |j| + 1 && j'[..|j|] == j
    && j'[|j|].key == key && j'[|j|].fingerprint == digest && j'[|j|].at == at
  }

  /** Every account's balance and shares move by exactly this much. */
  ghost predicate Shifted(j: seq<Entry>, j': seq<Entry>, money: AccountId -> int, shares: AccountId -> int)
  {
    && (forall a :: Balance(Rows(j'), a) == Balance(Rows(j), a) + money(a))
    && (forall a :: Held(Rows(j'), a) == Held(Rows(j), a) + shares(a))
  }

  /**
   * A transfer of n. It is invalid exactly for no amount or a single account. Otherwise, without a key or under
   * an unused one, it goes through exactly when the source covers it, to the last unit; and then n leaves the
   * source, arrives at the destination, and nothing else moves. Under a used key it is a replay of the entry that
   * bears it if that came from the same request, and a conflict if not.
   */
  ghost predicate Transferred(j: seq<Entry>, source: AccountId, destination: AccountId, n: int, token: Option<string>,
                              at: Instant, o: Outcome, j': seq<Entry>)
  {
    && (o == Invalid <==> n <= 0 || source == destination)
    && (n > 0 && source != destination && (token.None? || !Used(j, ClientKey(token.value))) ==>
          o == if Balance(Rows(j), source) >= n then Created(|j|) else Refused(InsufficientFunds))
    && (n > 0 && source != destination && token.Some? ==>
          forall i: nat :: i < |j| && j[i].key == Some(ClientKey(token.value)) ==>
            o == if j[i].fingerprint == Some(TransferPrint(source, destination, n)) then Replayed(i) else Conflict)
    && (o.Created? ==>
          && n > 0 && source != destination && Balance(Rows(j), source) >= n
          && Appended(j, j', if token.None? then None else Some(ClientKey(token.value)),
                      if token.None? then None else Some(TransferPrint(source, destination, n)), at)
          && Shifted(j, j', a => if a == source then -n else if a == destination then n else 0, a => 0))
    && (!o.Created? ==> j' == j)
  }

  lemma {:induction false} TransferOutcome(j: seq<Entry>, source: AccountId, destination: AccountId, n: int,
                                           token: Option<string>, at: Instant)
    requires KeysUnique(j)
    ensures var (o, j') := Execute(j, Request.Transfer(source, destination, n, token, at));
      Transferred(j, source, destination, n, token, at, o, j')
  {
    var r := Request.Transfer(source, destination, n, token, at);
    var (o, j') := Execute(j, r);
    if token.Some? && FindKey(j, ClientKey(token.value)).Some? {
      assert Used(j, ClientKey(token.value));
    }
    if o.Created? {
      var lines := TransferPosting(source, destination, n);
      forall a
        ensures Sum(lines, AmountOn(a)) == if a == source then -n else if a == destination then n else 0
        ensures Sum(lines, SharesOn(a)) == 0
      {
        SumTransfer(source, destination, n, AmountOn(a));
        SumTransfer(source, destination, n, SharesOn(a));
      }
      ShiftedBy(j, EntryFor(r, lines), a => if a == source then -n else if a == destination then n else 0, a => 0);
    }
  }

  lemma {:induction false} ShiftedBy(j: seq<Entry>, e: Entry, money: AccountId -> int, shares: AccountId -> int)
    requires forall a :: Sum(e.lines, AmountOn(a)) == money(a) && Sum(e.lines, SharesOn(a)) == shares(a)
    ensures Shifted(j, j + [e], money, shares)
  {
    forall a
      ensures Balance(Rows(j + [e]), a) == Balance(Rows(j), a) + money(a)
      ensures Held(Rows(j + [e]), a) == Held(Rows(j), a) + shares(a)
    {
      BalancePosted(j, e, a);
    }
  }

  /** The notional: price times quantity, to the nearest unit of money, ties to even. */
  ghost predicate IsNotional(price: int, quantity: int, n: int) { IsHalfEven(price * quantity, 100000000, n) }

  /** Cash out, the same into the position as cost, the shares in from the market. */
  ghost predicate Bought(t: Ticket, n: int, j: seq<Entry>, j': seq<Entry>)
  {
    Shifted(j, j',
            a => if a == t.cash then -n else if a == t.position then n else 0,
            a => if a == t.position then t.quantity else if a == t.contra then -t.quantity else 0)
  }

  /** Cash in, the cost out of the position, the difference to realized profit, the shares back to the market. */
  ghost predicate Sold(t: Ticket, n: int, j: seq<Entry>, j': seq<Entry>)
  {
    var held, basis := Held(Rows(j), t.position), Balance(Rows(j), t.position);
    var cost := basis - Balance(Rows(j'), t.position);
    && 0 < t.quantity <= held && 0 < cost <= basis
    && (if t.quantity == held then cost == basis else IsHalfEven(basis * t.quantity, held, cost))
    && Shifted(j, j',
               a => if a == t.cash then n else if a == t.position then -cost else if a == t.pnl then cost - n else 0,
               a => if a == t.position then -t.quantity else if a == t.contra then t.quantity else 0)
  }

  /** What a fill with its key unused is decided to be, from the notional and the accounts alone. */
  ghost predicate Decided(t: Ticket, n: int, j: seq<Entry>, o: Outcome)
  {
    var held, basis := Held(Rows(j), t.position), Balance(Rows(j), t.position);
    o == if n <= 0 then Refused(InvalidOrder)
         else if t.side == Buy then
           if Balance(Rows(j), t.cash) >= n then Created(|j|) else Refused(InsufficientFunds)
         else if held < t.quantity then Refused(InsufficientShares)
         else if (t.quantity == held && basis <= 0) || (t.quantity != held && 2 * (basis * t.quantity) <= held)
         then Refused(InvalidOrder)
         else Created(|j|)
  }

  /**
   * A fill at a price. With its key unused it goes through exactly when the notional is positive and a buy's cash
   * covers it, or a sell has the shares and a cost that does not vanish; every refusal has its one reason. What
   * goes through is a purchase, or a sale, of exactly the ordered quantity at exactly that notional.
   */
  ghost predicate Traded(j: seq<Entry>, t: Ticket, price: int, at: Instant, n: int, o: Outcome, j': seq<Entry>)
  {
    && IsNotional(price, t.quantity, n)
    && (!Used(j, OrderKey(t.order)) ==> Decided(t, n, j, o))
    && (o.Created? ==>
          && n > 0 && Appended(j, j', Some(OrderKey(t.order)),
                               Some(OrderPrint(t.user, t.instrument, t.side, t.quantity, t.limit, t.cash)), at)
          && (t.side == Buy ==> Balance(Rows(j), t.cash) >= n && Bought(t, n, j, j'))
          && (t.side == Sell ==> Sold(t, n, j, j')))
    && (!o.Created? ==> j' == j)
  }

  lemma {:induction false} NotionalIs(price: int, quantity: int)
    ensures IsNotional(price, quantity, Notional(price, quantity))
  {
    RoundNearest(price * quantity, SHARE_UNIT);
  }

  lemma {:induction false} FillDecided(j: seq<Entry>, t: Ticket, price: int, at: Instant)
    requires t.quantity > 0 && !Used(j, OrderKey(t.order))
    ensures Decided(t, Notional(price, t.quantity), j, Execute(j, Fill(t, price, at)).0)
  {
    hide Notional, CostOf;
    var held, basis := Held(Rows(j), t.position), Balance(Rows(j), t.position);
    if t.side == Sell && t.quantity <= held {
      VanishesExactly(t.quantity, held, basis);
    }
  }

  lemma {:induction false} FillMoves(accounts: Accounts, j: seq<Entry>, t: Ticket, price: int, at: Instant)
    requires TicketFits(accounts, t) && Execute(j, Fill(t, price, at)).0.Created?
    ensures var n, j' := Notional(price, t.quantity), Execute(j, Fill(t, price, at)).1;
      && n > 0 && Appended(j, j', Some(OrderKey(t.order)),
                               Some(OrderPrint(t.user, t.instrument, t.side, t.quantity, t.limit, t.cash)), at)
      && (t.side == Buy ==> Balance(Rows(j), t.cash) >= n && Bought(t, n, j, j'))
      && (t.side == Sell ==> Sold(t, n, j, j'))
  {
    var r, n := Fill(t, price, at), Notional(price, t.quantity);
    CreatedLines(j, r);
    var held := if NeedsShares(r) then Held(Rows(j), Reads(r)) else 0;
    var balance := Balance(Rows(j), Reads(r));
    var lines := Verdict(t, price, held, balance).value;
    var cost := if t.side == Buy then 0 else CostOf(balance, t.quantity, held);
    forall a
      ensures Sum(lines, AmountOn(a)) == MoneyMoved(t, n, cost)(a)
      ensures Sum(lines, SharesOn(a)) == SharesMoved(t)(a)
    {
      VerdictEffect(accounts, t, price, held, balance, a);
    }
    ShiftedBy(j, EntryFor(r, lines), MoneyMoved(t, n, cost), SharesMoved(t));
    if t.side == Sell {
      SoldAt(accounts, j, Execute(j, r).1, t, n, held, balance);
    }
  }

  function MoneyMoved(t: Ticket, n: int, cost: int): AccountId -> int
  {
    a => if a == t.cash then (if t.side == Buy then -n else n)
         else if a == t.position then (if t.side == Buy then n else -cost)
         else if a == t.pnl && t.side == Sell then cost - n else 0
  }

  function SharesMoved(t: Ticket): AccountId -> int
  {
    a => if a == t.position then (if t.side == Buy then t.quantity else -t.quantity)
         else if a == t.contra then (if t.side == Buy then -t.quantity else t.quantity) else 0
  }

  lemma {:induction false} SoldAt(accounts: Accounts, j: seq<Entry>, j': seq<Entry>, t: Ticket, n: int, held: int,
                                  basis: int)
    requires TicketFits(accounts, t) && t.side == Sell
    requires held == Held(Rows(j), t.position) && basis == Balance(Rows(j), t.position)
    requires t.quantity <= held && CostOf(basis, t.quantity, held) > 0
    requires Shifted(j, j', MoneyMoved(t, n, CostOf(basis, t.quantity, held)), SharesMoved(t))
    ensures Sold(t, n, j, j')
  {
    VanishesExactly(t.quantity, held, basis);
    RoundNearest(basis * t.quantity, held);
  }

  lemma {:induction false} FillOutcome(accounts: Accounts, j: seq<Entry>, t: Ticket, price: int, at: Instant)
    requires TicketFits(accounts, t)
    ensures var (o, j') := Execute(j, Fill(t, price, at));
      Traded(j, t, price, at, Notional(price, t.quantity), o, j')
  {
    hide Decided, Bought, Sold, Notional, IsNotional, Appended;
    NotionalIs(price, t.quantity);
    if !Used(j, OrderKey(t.order)) {
      FillDecided(j, t, price, at);
    }
    if Execute(j, Fill(t, price, at)).0.Created? {
      FillMoves(accounts, j, t, price, at);
    }
    ExecuteKey(j, Fill(t, price, at), OrderKey(t.order));
  }
}
