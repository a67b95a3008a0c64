/** The services that post, transfer, fill, cancel, reject and sweep, as they run alone. */
module Banking {
  import opened Wrappers
  import opened Sums
  import opened Ascending
  import opened Money
  import opened Journal
  import opened Posting
  import opened Trading
  import opened Serial
  import opened Orders
  import opened OrderBook
  import opened Outcomes
  import opened Sweep
  import opened Placement

  datatype AuditEvent =
    | AccountsOpened(checking: AccountId, savings: AccountId, deposit: int)
    | TransferPostedEvent(entry: nat)
    | TransferReplayedEvent(entry: nat)
    | OrderPlaced(order: OrderId)
    | OrderRested(order: OrderId)
    | OrderFilledEvent(order: OrderId, entry: nat)
    | OrderCancelled(order: OrderId)
    | OrderRejected(order: OrderId, why: Reason)

  datatype FillError = NotFilled(reason: Reason) | AlreadyPosted

  class Bank {
    var accounts: Accounts
    var contras: map<InstrumentId, AccountId>
    var journal: seq<Entry>
    var orders: map<OrderId, Order>
    var audit: seq<AuditEvent>

    /** Clean books, orders on real accounts, and orders that agree with the entries keyed by them. */
    ghost predicate Valid()
      reads this
    {
      InOrder(accounts, contras, journal, orders)
    }

    function GetBalance(a: AccountId): int
      reads this
    {
      Balance(Rows(journal), a)
    }

    function GetQuantity(a: AccountId): int
      reads this
    {
      Held(Rows(journal), a)
    }

    constructor ()
      ensures Valid() && journal == [] && accounts == map[] && orders == map[]
    {
      accounts, contras, journal, orders, audit := map[], map[], [], map[], [];
    }

    /**
     * `open_starter_accounts` with its opening deposit, inside registration's transaction: both accounts, and
     * for a positive deposit the equity account and the entry behind it; if that entry is refused, nothing.
     */
    method OpenStarterAccounts(user: UserId, deposit: Decimal, checking: AccountId, savings: AccountId,
                               equity: AccountId, at: Instant)
      returns (r: Result<(AccountId, AccountId), PostingError>)
      requires Valid()
      requires {checking, savings, equity} !! accounts.Keys && checking != savings && checking != equity
      requires savings != equity
      modifies this`accounts, this`journal, this`audit
      ensures Valid()
      ensures r.Success? <==> deposit.digits <= 0 || QuantizeMoney(deposit) > 0
      ensures r.Success? ==>
        && r.value == (checking, savings)
        && accounts == Opened(old(accounts), user, checking, savings, equity, deposit.digits > 0)
        && journal == old(journal)
            + (if deposit.digits > 0 then [OpeningEntry(equity, checking, QuantizeMoney(deposit), at)] else [])
        && audit == old(audit) + [AccountsOpened(checking, savings, deposit.digits)]
      ensures r.Failure? ==> accounts == old(accounts) && journal == old(journal) && audit == old(audit)
      ensures r.Success? ==>
        && accounts.Keys == old(accounts.Keys) + {checking, savings} + (if deposit.digits > 0 then {equity} else {})
        && (forall a :: a in old(accounts) ==> accounts[a] == old(accounts)[a])
        && (forall a :: a in {checking, savings} ==>
              accounts[a].owner == user && accounts[a].IsSpendable() && accounts[a].currency == "USD")
        && accounts[checking].name == "Checking" && accounts[savings].name == "Savings"
        && (deposit.digits > 0 ==>
              && accounts[equity] == Account(user, "Opening balances", Equity, "USD", None)
              && Appended(old(journal), journal, None, None, at)
              && Shifted(old(journal), journal, DepositMoves(equity, checking, QuantizeMoney(deposit)), a => 0))
        && (deposit.digits <= 0 ==> journal == old(journal))
    {
      hide InOrder;
      DepositShifts(journal, equity, checking, QuantizeMoney(deposit), at);
      var more := Opened(accounts, user, checking, savings, equity, deposit.digits > 0);
      AccountsOpen(accounts, more, contras, journal, orders);
      if deposit.digits <= 0 {
        accounts := more;
        audit := audit + [AccountsOpened(checking, savings, deposit.digits)];
        return Success((checking, savings));
      }
      DepositLines(more, equity, checking, deposit);
      var shut := accounts;
      accounts := more;
      var posted := PostEntry([LineSpec(equity, Negated(deposit), None), LineSpec(checking, deposit, None)], None,
        None, at);
      if posted.Failure? {
        accounts := shut;
        return Failure(posted.error);
      }
      OpeningKeepsOrder(accounts, contras, old(journal), orders, equity, checking, QuantizeMoney(deposit), at);
      audit := audit + [AccountsOpened(checking, savings, deposit.digits)];
      return Success((checking, savings));
    }

    /** `lock_accounts`: one row at a time, always the smallest id left. */
    method LockAccounts(ids: set<AccountId>) returns (taken: seq<AccountId>)
      ensures taken == Sorted(ids)
    {
      taken := [];
      var left := ids;
      while left != {}
        invariant left <= ids
        invariant StrictlyUp(taken)
        invariant forall x :: x in ids <==> x in taken || x in left
        invariant forall x, y :: x in taken && y in left ==> x < y
        decreases left
      {
        assert forall i :: 0 <= i < |taken| ==> taken[i] in taken;
        MinExists(left);
        var next :| next in left && forall x :: x in left ==> next <= x;
        taken := taken + [next];
        left := left - {next};
      }
      SortedUnique(taken, Sorted(ids));
    }

    /** `post_entry`: validate everything, then write the entry and its lines, or change nothing. */
    method PostEntry(specs: seq<LineSpec>, key: Option<Key>, digest: Option<Fingerprint>, at: Instant)
      returns (r: Result<nat, PostingError>)
      requires forall s :: s in specs ==> s.account in accounts
      modifies this`journal
      ensures r.Success? ==>
        && Postable(accounts, QuantizedAll(specs))
        && (key.Some? ==> digest.Some? && FindKey(old(journal), key.value).None?)
        && r.value == |old(journal)|
        && journal == old(journal) + [Entry(key, digest, at, QuantizedAll(specs))]
      ensures r.Failure? ==> journal == old(journal)
      ensures r == Failure(MissingFingerprint) <==> key.Some? && digest.None?
      ensures r.Failure? && r.error == DuplicateKey ==>
        Postable(accounts, QuantizedAll(specs)) && key.Some? && FindKey(journal, key.value).Some?
      ensures r.Failure? && r.error != MissingFingerprint && r.error != DuplicateKey ==>
        Explains(accounts, QuantizedAll(specs), r.error) && !Postable(accounts, QuantizedAll(specs))
    {
      if key.Some? && digest.None? {
        return Failure(MissingFingerprint);
      }
      var checked := CheckLines(accounts, specs);
      if checked.Failure? {
        return Failure(checked.error);
      }
      if key.Some? && FindKey(journal, key.value).Some? {
        return Failure(DuplicateKey);
      }
      journal := journal + [Entry(key, digest, at, checked.value)];
      return Success(|journal| - 1);
    }

    /** `transfer`, from the quantized amount to the audit row: exactly the serial call. */
    method Transfer(source: AccountId, destination: AccountId, amount: Decimal, token: Option<string>, at: Instant)
      returns (o: Outcome)
      requires Valid()
      requires RequestFits(accounts, Request.Transfer(source, destination, QuantizeMoney(amount), token, at))
      modifies this`journal, this`audit
      ensures Valid()
      ensures (o, journal) == Execute(old(journal),
        Request.Transfer(source, destination, QuantizeMoney(amount), token, at))
      ensures Transferred(old(journal), source, destination, QuantizeMoney(amount), token, at, o, journal)
      ensures audit == old(audit) + match o
        case Created(e) => [TransferPostedEvent(e)]
        case Replayed(e) => [TransferReplayedEvent(e)]
        case _ => []
    {
      var units := QuantizeMoney(amount);
      TransferOutcome(journal, source, destination, units, token, at);
      if units <= 0 || source == destination {
        return Invalid;
      }
      var key, digest := KeyOf(Request.Transfer(source, destination, units, token, at)),
        TransferPrint(source, destination, units);
      if key.Some? {
        var replayed := ReplayedEntry(key.value, digest);
        if replayed.Some? {
          NoteReplay(replayed.value);
          return replayed.value;
        }
      }
      var taken := LockAccounts({source, destination});
      o := TransferLocked(source, destination, units, token, at);
    }

    /** The half of `transfer` that runs under the locks: the key again, then the balance, then the posting. */
    method TransferLocked(source: AccountId, destination: AccountId, units: int, token: Option<string>, at: Instant)
      returns (o: Outcome)
      requires Valid() && units > 0 && source != destination
      requires RequestFits(accounts, Request.Transfer(source, destination, units, token, at))
      modifies this`journal, this`audit
      ensures Valid()
      ensures (o, journal) == Execute(old(journal), Request.Transfer(source, destination, units, token, at))
      ensures audit == old(audit) + match o
        case Created(e) => [TransferPostedEvent(e)]
        case Replayed(e) => [TransferReplayedEvent(e)]
        case _ => []
    {
      var request := Request.Transfer(source, destination, units, token, at);
      if token.Some? {
        var replayed := ReplayedEntry(ClientKey(token.value), PrintOf(request));
        if replayed.Some? {
          NoteReplay(replayed.value);
          return replayed.value;
        }
      }
      if GetBalance(source) < units {
        return Refused(InsufficientFunds);
      }
      TransferKeepsOrder(accounts, contras, journal, orders, request);
      var entry := PostTransfer(source, destination, units, token, at);
      audit := audit + [TransferPostedEvent(entry)];
      return Created(entry);
    }

    /** The posting inside `transfer`. */
    method PostTransfer(source: AccountId, destination: AccountId, units: int, token: Option<string>, at: Instant)
      returns (entry: nat)
      requires RequestFits(accounts, Request.Transfer(source, destination, units, token, at)) && units > 0
      requires token.Some? ==> FindKey(journal, ClientKey(token.value)).None?
      modifies this`journal
      ensures entry == |old(journal)|
      ensures journal == old(journal) +
        [EntryFor(Request.Transfer(source, destination, units, token, at), TransferPosting(source, destination, units))]
    {
      var request := Request.Transfer(source, destination, units, token, at);
      var specs := [LineSpec(source, OfMoney(-units), None), LineSpec(destination, OfMoney(units), None)];
      TransferQuantized(source, destination, units);
      TransferPostable(accounts, source, destination, units);
      var posted := PostEntry(specs, KeyOf(request), if token.None? then None else Some(PrintOf(request)), at);
      return posted.value;
    }

    /**
     * `_replayed_entry`: nothing exactly when no entry bears the key; otherwise there is one such entry only, and
     * it is replayed if it came from this very request and a conflict if not.
     */
    method ReplayedEntry(key: Key, digest: Fingerprint) returns (o: Option<Outcome>)
      requires KeysUnique(journal)
      ensures o.None? <==> forall i :: 0 <= i < |journal| ==> journal[i].key != Some(key)
      ensures forall i: nat :: i < |journal| && journal[i].key == Some(key) ==>
        && o == Some(if journal[i].fingerprint == Some(digest) then Replayed(i) else Conflict)
        && forall k :: 0 <= k < |journal| && journal[k].key == Some(key) ==> k == i
    {
      var found := FindKey(journal, key);
      if found.None? {
        return None;
      }
      if journal[found.value].fingerprint != Some(digest) {
        return Some(Conflict);
      }
      return Some(Replayed(found.value));
    }

    method NoteReplay(o: Outcome)
      modifies this`audit
      ensures audit == old(audit) + if o.Replayed? then [TransferReplayedEvent(o.entry)] else []
    {
      if o.Replayed? {
        audit := audit + [TransferReplayedEvent(o.entry)];
      }
    }

    /** `execute_fill`: decide under the locks, post through the ledger, mark the order, or change nothing. */
    method ExecuteFill(id: OrderId, price: Decimal, at: Instant) returns (r: Result<nat, FillError>)
      requires Valid() && id in orders
      modifies this`journal, this`orders, this`audit
      ensures Valid()
      ensures var t := old(orders[id].ticket);
        var (o, j) := Execute(old(journal), Fill(t, QuantizeMoney(price), at));
        && journal == j
        && match r
           case Success(e) => o == Created(e)
             && orders == old(orders)[id := Marked(old(orders[id]), QuantizeMoney(price), e)]
             && audit == old(audit) + [OrderFilledEvent(id, e)]
           case Failure(NotFilled(reason)) => o == Refused(reason) && orders == old(orders) && audit == old(audit)
           case Failure(AlreadyPosted) => o == Duplicate && orders == old(orders) && audit == old(audit)
      ensures r.Success? ==>
        var was := old(orders[id]);
        && orders == old(orders)[id := was.(status := OrderStatus.Filled, filledQuantity := was.ticket.quantity,
                                            filledPrice := Some(QuantizeMoney(price)), entry := Some(|old(journal)|))]
        && r.value == |old(journal)|
      ensures var t, p := old(orders[id]).ticket, QuantizeMoney(price);
        match r
        case Success(e) => Traded(old(journal), t, p, at, Notional(p, t.quantity), Created(e), journal)
        case Failure(NotFilled(why)) =>
          Traded(old(journal), t, p, at, Notional(p, t.quantity), Refused(why), journal) && journal == old(journal)
        case Failure(AlreadyPosted) => Used(old(journal), OrderKey(id)) && journal == old(journal)
    {
      hide InOrder, Execute, Good, TicketFits, ContrasFit, Traded;
      var t := orders[id].ticket;
      var p := QuantizeMoney(price);
      Fitting(accounts, contras, journal, orders, id);
      FillOutcome(accounts, journal, t, p, at);
      DuplicateIsUsed(journal, t, p, at);
      ExecuteKey(journal, Fill(t, p, at), OrderKey(id));
      TicketFacts(accounts, t);
      var taken := LockAccounts({t.cash, t.position});
      FillKeepsOrder(accounts, contras, journal, orders, id, p, at);
      var o := TryFill(t, p, at);
      match o {
        case Created(e) =>
          orders := orders[id := Marked(orders[id], p, e)];
          audit := audit + [OrderFilledEvent(id, e)];
          return Success(e);
        case Refused(reason) =>
          return Failure(NotFilled(reason));
        case Duplicate =>
          return Failure(AlreadyPosted);
      }
    }

    /** Decide, build and post: the part of a fill that concerns the ledger. */
    method TryFill(t: Ticket, price: int, at: Instant) returns (o: Outcome)
      requires Good(accounts, journal) && TicketFits(accounts, t) && ContrasFit(accounts, contras)
      requires t.instrument in contras && contras[t.instrument] == t.contra
      modifies this`journal
      ensures (o, journal) == Execute(old(journal), Fill(t, price, at))
      ensures o.Created? || o.Refused? || o.Duplicate?
    {
      ExecuteFillCases(journal, t, price, at);
      var built := FillLines(t, price, at);
      if built.Failure? {
        return Refused(built.error);
      }
      DecisionLands(accounts, journal, Fill(t, price, at));
      var posted := PostFill(t, price, at, built.value);
      return if posted.None? then Duplicate else Created(posted.value);
    }

    /** The ledger half of a fill: post under the order's key, or find that key already used. */
    method PostFill(t: Ticket, price: int, at: Instant, specs: seq<LineSpec>) returns (entry: Option<nat>)
      requires Postable(accounts, QuantizedAll(specs))
      requires forall s :: s in specs ==> s.account in accounts
      modifies this`journal
      ensures entry == if FindKey(old(journal), OrderKey(t.order)).Some? then None else Some(|old(journal)|)
      ensures journal == if entry.None? then old(journal)
        else old(journal) + [EntryFor(Fill(t, price, at), QuantizedAll(specs))]
    {
      var posted := PostEntry(specs, Some(OrderKey(t.order)), Some(PrintOf(Fill(t, price, at))), at);
      return if posted.Success? then Some(posted.value) else None;
    }

    /** What a fill posts: the notional, the builder for its side, and the contra leg. */
    method FillLines(t: Ticket, price: int, at: Instant) returns (r: Result<seq<LineSpec>, Reason>)
      requires TicketFits(accounts, t) && ContrasFit(accounts, contras)
      requires t.instrument in contras && contras[t.instrument] == t.contra
      ensures r.Failure? ==> DecideOn(journal, Fill(t, price, at)) == Failure(r.error)
      ensures r.Success? ==> DecideOn(journal, Fill(t, price, at)) == Success(QuantizedAll(r.value))
      ensures r.Success? ==> forall s :: s in r.value ==> s.account in accounts
    {
      hide SellsAs, CostVanishes, CostOf, ContrasFit, Postable, Conserved;
      var notional := Notional(price, t.quantity);
      if notional <= 0 {
        return Failure(InvalidOrder);
      }
      var specs: seq<LineSpec>;
      if t.side == Buy {
        if GetBalance(t.cash) < notional {
          return Failure(InsufficientFunds);
        }
        specs := BuySpecs(t, notional);
        BuyConserved(accounts, contras, t, notional);
      } else {
        if GetQuantity(t.position) >= t.quantity {
          VanishesExactly(t.quantity, GetQuantity(t.position), GetBalance(t.position));
        }
        var sell := SellLines(t, notional);
        if sell.Failure? {
          return Failure(sell.error);
        }
        specs := sell.value;
        SellConserved(accounts, contras, t, notional,
          CostOf(GetBalance(t.position), t.quantity, GetQuantity(t.position)));
      }
      var conserved := ConserveShares(accounts, contras, specs);
      ConservedAccounts(accounts, contras, specs);
      return Success(conserved);
    }

    /** `_sell_lines`: refused for too few shares or a vanishing cost, otherwise the lines a sell is read by. */
    method SellLines(t: Ticket, notional: int) returns (r: Result<seq<LineSpec>, Reason>)
      requires t.quantity > 0 && notional > 0
      ensures var held, basis := GetQuantity(t.position), GetBalance(t.position);
        && (r == Failure(InsufficientShares) <==> held < t.quantity)
        && (r == Failure(InvalidOrder) <==> held >= t.quantity && CostVanishes(t.quantity, held, basis))
        && (r.Failure? ==> r.error == InsufficientShares || r.error == InvalidOrder)
        && (r.Success? ==>
              && r.value == SellSpecs(t, notional, CostOf(basis, t.quantity, held))
              && SellsAs(t, notional, held, basis, QuantizedAll(r.value)))
    {
      var held := GetQuantity(t.position);
      if held < t.quantity {
        return Failure(InsufficientShares);
      }
      var basis := GetBalance(t.position);
      var cost := CostOf(basis, t.quantity, held);
      VanishesExactly(t.quantity, held, basis);
      if cost <= 0 {
        return Failure(InvalidOrder);
      }
      SellShape(t, notional, held, basis);
      var lines := [LineSpec(t.cash, OfMoney(notional), None),
        LineSpec(t.position, OfMoney(-cost), Some(OfShares(-t.quantity)))];
      var gain := notional - cost;
      if gain != 0 {
        lines := lines + [LineSpec(t.pnl, OfMoney(-gain), None)];
      }
      return Success(lines);
    }

    /** Argument checks of `place_order`, in its order: nothing has been read or written yet. */
    method CheckAsk(ask: Ask) returns (bad: Option<PlaceError>)
      requires ask.cash in accounts
      ensures bad == if !ask.active then Some(InstrumentInactive) else if !Acceptable(accounts, ask)
        then Some(BadOrder) else None
      ensures bad.None? <==>
        && ask.active && accounts[ask.cash].owner == ask.user && accounts[ask.cash].instrument.None?
        && QuantizeShares(ask.quantity) > 0
        && (ask.kind == Limit ==> ask.limit.Some? && QuantizeMoney(ask.limit.value) > 0)
    {
      if !ask.active {
        return Some(InstrumentInactive);
      }
      if accounts[ask.cash].owner != ask.user || accounts[ask.cash].IsPosition() {
        return Some(BadOrder);
      }
      if QuantizeShares(ask.quantity) <= 0 {
        return Some(BadOrder);
      }
      if ask.kind == Limit {
        if ask.limit.None? {
          return Some(BadOrder);
        }
        if QuantizeMoney(ask.limit.value) <= 0 {
          return Some(BadOrder);
        }
      }
      return None;
    }

    /** The order under a token, whoever placed it: the user-scoped lookup and the unique index together. */
    method FindOrder(token: string) returns (found: Option<OrderId>)
      requires TokensOk(orders)
      ensures found == TokenHolder(orders, Some(token))
    {
      var left := orders.Keys;
      while left != {}
        invariant left <= orders.Keys
        invariant forall id :: id in orders && id !in left ==> !HasToken(orders, id, token)
        decreases left
      {
        var id :| id in left;
        if orders[id].token == Some(token) {
          assert HasToken(orders, id, token);
          return Some(id);
        }
        left := left - {id};
      }
      return None;
    }

    /** `place_order`: validate, replay or conflict, record, and fill at once if it is a market order. */
    method PlaceOrder(pk: OrderId, ask: Ask, price: Decimal, at: Instant) returns (r: Result<OrderId, PlaceError>)
      requires Valid() && pk !in orders && AskFits(accounts, contras, ask)
      modifies this`journal, this`orders, this`audit
      ensures Valid()
      ensures Placed(r, journal, orders)
        == Place(accounts, old(journal), old(orders), pk, ask, QuantizeMoney(price), at)
      ensures PlacedAs(accounts, old(journal), old(orders), pk, ask, QuantizeMoney(price), at,
        Placed(r, journal, orders))
      ensures audit == old(audit) +
        if pk !in orders then []
        else [OrderPlaced(pk)] + match orders[pk].status
          case Open => [OrderRested(pk)]
          case Filled => if orders[pk].entry.Some? then [OrderFilledEvent(pk, orders[pk].entry.value)] else []
          case _ => if orders[pk].reason.Some? then [OrderRejected(pk, orders[pk].reason.value)] else []
    {
      hide InOrder, Execute, PlacedAs;
      PlaceOutcome(accounts, contras, journal, orders, pk, ask, QuantizeMoney(price), at);
      var bad := CheckAsk(ask);
      if bad.Some? {
        return Failure(bad.value);
      }
      if ask.token.Some? {
        InOrderTokens(accounts, contras, journal, orders);
        var found := FindOrder(ask.token.value);
        if found.Some? {
          if orders[found.value].digest != Some(OrderDigest(TicketOf(ask, pk))) {
            return Failure(KeyTaken);
          }
          return Success(found.value);
        }
      }
      OneOrderOpens(accounts, contras, journal, orders, pk, ask);
      orders := orders[pk := NewOrder(ask, pk)];
      audit := audit + [OrderPlaced(pk)];
      if ask.kind == Limit {
        audit := audit + [OrderRested(pk)];
        return Success(pk);
      }
      r := FillAtOnce(pk, price, at);
    }

    /** The market branch of `place_order`: fill now, or record the rejection and report it. */
    method FillAtOnce(pk: OrderId, price: Decimal, at: Instant) returns (r: Result<OrderId, PlaceError>)
      requires Valid() && pk in orders && orders[pk].status == Open
      modifies this`journal, this`orders, this`audit
      ensures Valid()
      ensures Placed(r, journal, orders)
        == FirstFill(old(journal), old(orders), old(orders[pk]), QuantizeMoney(price), at)
      ensures pk in orders && orders[pk].status in {Filled, Rejected}
      ensures audit == old(audit) +
        if orders[pk].status == Filled then if orders[pk].entry.Some?
          then [OrderFilledEvent(pk, orders[pk].entry.value)] else []
        else if orders[pk].reason.Some? then [OrderRejected(pk, orders[pk].reason.value)] else []
    {
      hide InOrder, Execute;
      OpenIsFree(accounts, contras, journal, orders, pk, QuantizeMoney(price), at);
      ExecuteKey(journal, Fill(orders[pk].ticket, QuantizeMoney(price), at), OrderKey(pk));
      var filled := ExecuteFill(pk, price, at);
      if filled.Success? {
        return Success(pk);
      }
      RejectOrder(pk, filled.error.reason);
      return Failure(FillRefused(filled.error.reason));
    }

    /** `cancel_order`: a conditional update that only an open order satisfies. */
    method CancelOrder(id: OrderId) returns (cancelled: bool)
      requires Valid() && id in orders
      modifies this`orders, this`audit
      ensures Valid()
      ensures cancelled <==> old(orders[id].status) == Open
      ensures orders == if cancelled then old(orders)[id := old(orders[id]).(status := Cancelled)] else old(orders)
      ensures audit == old(audit) + if cancelled then [OrderCancelled(id)] else []
    {
      if orders[id].status != Open {
        return false;
      }
      OneOrderMoves(accounts, contras, journal, orders, id, orders[id].(status := Cancelled));
      orders := orders[id := orders[id].(status := Cancelled)];
      audit := audit + [OrderCancelled(id)];
      return true;
    }

    /** `reject_order`: an unconditional save, whatever the order's status has become. */
    method RejectOrder(id: OrderId, why: Reason)
      requires Valid() && id in orders
      modifies this`orders, this`audit
      ensures Valid()
      ensures orders == old(orders)[id := Dismissed(old(orders[id]), why)]
      ensures orders == old(orders)[id := old(orders[id]).(status := Rejected, reason := Some(why))]
      ensures audit == old(audit) + [OrderRejected(id, why)]
    {
      OneOrderMoves(accounts, contras, journal, orders, id, Dismissed(orders[id], why));
      orders := orders[id := Dismissed(orders[id], why)];
      audit := audit + [OrderRejected(id, why)];
    }

    /** `_match_one`: fill, reject or skip one candidate of the sweep. */
    method MatchOne(id: OrderId, m: Market, ghost counts: Counts) returns (r: Match)
      requires Valid() && id in orders
      modifies this`journal, this`orders, this`audit
      ensures Valid() && accounts == old(accounts) && contras == old(contras)
      ensures Pass(counts.Bump(r), journal, orders) == Turn(Pass(counts, old(journal), old(orders)), id, m)
      ensures TurnAs(old(journal), old(orders), id, m, r, journal, orders)
    {
      hide InOrder, Execute, TurnAs;
      ghost var before := Pass(counts, journal, orders);
      ghost var turn := TurnOutcome(accounts, contras, before, id, m);
      TurnLands(accounts, contras, before, id, m);
      TurnCases(before, id, m);
      if orders[id].status != Open {
        return MatchSkipped;
      }
      if !Crosses(orders[id].ticket, m.price(orders[id].ticket.instrument)) {
        return MatchSkipped;
      }
      r := FillOrReject(id, m);
    }

    /** The fill attempt of `_match_one`, and the rejection written once it has rolled back. */
    method FillOrReject(id: OrderId, m: Market) returns (r: Match)
      requires Valid() && id in orders && Ready(orders[id], m)
      modifies this`journal, this`orders, this`audit
      ensures Valid()
      ensures r != MatchSkipped
      ensures var (o, j) := Attempt(old(journal), old(orders[id]), m);
        && journal == j && (o.Created? || o.Refused?)
        && r == (if o.Created? then MatchFilled else MatchRejected)
        && orders == old(orders)[id := if o.Created?
            then Marked(old(orders[id]), m.price(old(orders[id]).ticket.instrument), o.entry)
                                       else Dismissed(old(orders[id]), o.reason)]
    {
      hide InOrder, Execute;
      var t := orders[id].ticket;
      OpenIsFree(accounts, contras, journal, orders, id, m.price(t.instrument), m.clock(id));
      QuantizeExact(m.price(t.instrument), MONEY_PLACES);
      var filled := ExecuteFill(id, OfMoney(m.price(t.instrument)), m.clock(id));
      if filled.Success? {
        return MatchFilled;
      }
      RejectOrder(id, filled.error.reason);
      return MatchRejected;
    }

    /** The scan: ids of the open orders, each once. */
    method OpenOrders() returns (ids: seq<OrderId>)
      ensures Candidates(orders, ids)
      ensures forall id :: id in orders && orders[id].status == Open ==> id in ids
    {
      ids := [];
      var left := set id | id in orders && orders[id].status == Open;
      while left != {}
        invariant Candidates(orders, ids)
        invariant forall id :: id in left ==> id in orders && orders[id].status == Open && id !in ids
        invariant forall id :: id in orders && orders[id].status == Open ==> id in ids || id in left
        decreases left
      {
        var id :| id in left;
        ids := ids + [id];
        left := left - {id};
      }
    }

    /** `match_resting_orders`: one pass over the orders open at the scan, each in its own turn. */
    method MatchRestingOrders(m: Market) returns (counts: Counts, ghost candidates: seq<OrderId>)
      requires Valid()
      modifies this`journal, this`orders, this`audit
      ensures Valid()
      ensures Candidates(old(orders), candidates)
      ensures forall id :: id in old(orders) && old(orders)[id].status == Open ==> id in candidates
      ensures Pass(counts, journal, orders) == Swept(old(journal), old(orders), candidates, m)
    {
      hide InOrder, Turn;
      var ids := OpenOrders();
      candidates := ids;
      counts := Counts(0, 0, 0);
      for k := 0 to |ids|
        invariant Valid()
        invariant Pass(counts, journal, orders) == Swept(old(journal), old(orders), ids[..k], m)
      {
        assert ids[..k + 1][..k] == ids[..k];
        assert ids[k] in ids;
        var r := MatchOne(ids[k], m, counts);
        counts := counts.Bump(r);
      }
      assert ids[..|ids|] == ids;
    }
  }

  /** The accounts a new customer starts with. */
  function Opened(accounts: Accounts, user: UserId, checking: AccountId, savings: AccountId, equity: AccountId,
                  funded: bool): Accounts
  {
    var both := accounts[checking := Account(user, "Checking", Asset, "USD", None)][savings :=
      Account(user, "Savings", Asset, "USD", None)];
    if funded then both[equity := Account(user, "Opening balances", Equity, "USD", None)] else both
  }

  /**
   * The deposit's two lines cancel whatever it rounds to, and are an acceptable entry exactly when that is not zero.
   */
  lemma {:induction false} DepositLines(accounts: Accounts, equity: AccountId, checking: AccountId, deposit: Decimal)
    requires equity in accounts && checking in accounts && deposit.digits > 0
    requires accounts[equity].instrument.None? && accounts[checking].instrument.None?
    requires accounts[equity].currency == "USD" && accounts[checking].currency == "USD"
    ensures var specs := [LineSpec(equity, Negated(deposit), None), LineSpec(checking, deposit, None)];
      && QuantizedAll(specs) == TransferPosting(equity, checking, QuantizeMoney(deposit))
      && (Postable(accounts, QuantizedAll(specs)) <==> QuantizeMoney(deposit) > 0)
      && QuantizeMoney(deposit) >= 0
  {
    var a, b := LineSpec(equity, Negated(deposit), None), LineSpec(checking, deposit, None);
    QuantizedTwo(a, b);
    QuantizeNegated(deposit, MONEY_PLACES);
    var n := QuantizeMoney(deposit);
    if n > 0 {
      TransferPostable(accounts, equity, checking, n);
    } else {
      assert TransferPosting(equity, checking, n)[1] in TransferPosting(equity, checking, n);
    }
  }

  /** A deposit moves money out of the equity account and into the checking account. */
  ghost function DepositMoves(equity: AccountId, checking: AccountId, n: int): AccountId -> int
  {
    a => if a == checking then n else if a == equity then -n else 0
  }

  lemma {:induction false} DepositShifts(j: seq<Entry>, equity: AccountId, checking: AccountId, n: int, at: Instant)
    requires equity != checking
    ensures var later := j + [OpeningEntry(equity, checking, n, at)];
      Appended(j, later, None, None, at) && Shifted(j, later, DepositMoves(equity, checking, n), a => 0)
  {
    var lines := TransferPosting(equity, checking, n);
    forall a
      ensures Sum(lines, AmountOn(a)) == DepositMoves(equity, checking, n)(a) && Sum(lines, SharesOn(a)) == 0
    {
      SumTransfer(equity, checking, n, AmountOn(a));
      SumTransfer(equity, checking, n, SharesOn(a));
    }
    ShiftedBy(j, OpeningEntry(equity, checking, n, at), DepositMoves(equity, checking, n), a => 0);
  }

  lemma {:induction false} DuplicateIsUsed(j: seq<Entry>, t: Ticket, price: int, at: Instant)
    ensures Execute(j, Fill(t, price, at)).0.Duplicate? ==> Used(j, OrderKey(t.order))
  {
    if FindKey(j, OrderKey(t.order)).Some? {
      assert j[FindKey(j, OrderKey(t.order)).value].key == Some(OrderKey(t.order));
    }
  }
}
