/**
 * The ledger one call at a time: what a transfer or a fill decides and posts when nothing else runs, and
 * what every serial run of such calls keeps true. The concurrent protocol is proved equal to this.
 */
module Serial {
  import opened Wrappers
  import opened Sums
  import opened Money
  import opened Journal
  import opened Reconciliation
  import opened Posting
  import opened Trading

  datatype Request =
    | Transfer(source: AccountId, destination: AccountId, amount: int, token: Option<string>, at: Instant)
    | Fill(ticket: Ticket, price: int, at: Instant)

  datatype Outcome =
    | Created(entry: nat)
    | Replayed(entry: nat)
    | Conflict
    | Refused(reason: Reason)
    | Invalid
    | Duplicate
    | Aborted

  function KeyOf(r: Request): Option<Key>
  {
    match r
    case Transfer(_, _, _, token, _) => if token.None? then None else Some(ClientKey(token.value))
    case Fill(t, _, _) => Some(OrderKey(t.order))
  }

  function PrintOf(r: Request): Fingerprint
  {
    match r
    case Transfer(s, d, n, _, _) => TransferPrint(s, d, n)
    case Fill(t, _, _) => OrderPrint(t.user, t.instrument, t.side, t.quantity, t.limit, t.cash)
  }

  /** The argument checks made before anything is read: a positive amount between two different accounts. */
  predicate Sound(r: Request)
  {
    match r
    case Transfer(s, d, n, _, _) => n > 0 && s != d
    case Fill(t, _, _) => t.quantity > 0
  }

  /** The rows locked, and the one whose balance the decision reads. */
  function Touched(r: Request): set<AccountId>
  {
    match r
    case Transfer(s, d, _, _, _) => {s, d}
    case Fill(t, _, _) => {t.cash, t.position}
  }

  function Reads(r: Request): AccountId
  {
    match r
    case Transfer(s, _, _, _, _) => s
    case Fill(t, _, _) => if t.side == Buy then t.cash else t.position
  }

  predicate NeedsShares(r: Request) { r.Fill? && r.ticket.side == Sell }

  function TransferPosting(source: AccountId, destination: AccountId, amount: int): seq<Line>
  {
    [Line(source, -amount, None), Line(destination, amount, None)]
  }

  /** The decision taken under the locks, from the shares and the balance read there. */
  function Decide(r: Request, held: int, balance: int): Result<seq<Line>, Reason>
    requires Sound(r)
  {
    match r
    case Transfer(s, d, n, _, _) =>
      if balance < n then Failure(InsufficientFunds) else Success(TransferPosting(s, d, n))
    case Fill(t, price, _) => Verdict(t, price, held, balance)
  }

  function DecideOn(j: seq<Entry>, r: Request): Result<seq<Line>, Reason>
    requires Sound(r)
  {
    Decide(r, if NeedsShares(r) then Held(Rows(j), Reads(r)) else 0, Balance(Rows(j), Reads(r)))
  }

  function EntryFor(r: Request, lines: seq<Line>): Entry
  {
    Entry(KeyOf(r), if KeyOf(r).None? then None else Some(PrintOf(r)), r.at, lines)
  }

  /** `_replayed_entry`: resolve a key and decide whether it may be replayed, as one operation. */
  function Resolve(j: seq<Entry>, r: Request): Option<Outcome>
  {
    if !r.Transfer? || KeyOf(r).None? then None
    else
      match FindKey(j, KeyOf(r).value)
      case None => None
      case Some(i) => Some(if j[i].fingerprint == Some(PrintOf(r)) then Replayed(i) else Conflict)
  }

  /** One call, run alone from start to finish. */
  function Execute(j: seq<Entry>, r: Request): (Outcome, seq<Entry>)
  {
    if !Sound(r) then (Invalid, j)
    else if Resolve(j, r).Some? then (Resolve(j, r).value, j)
    else
      match DecideOn(j, r)
      case Failure(reason) => (Refused(reason), j)
      case Success(lines) =>
        if KeyOf(r).Some? && FindKey(j, KeyOf(r).value).Some? then (Duplicate, j)
        else (Created(|j|), j + [EntryFor(r, lines)])
  }

  // ---------------------------------------------------------------------------------------------
  // Serial histories
  // ---------------------------------------------------------------------------------------------

  /** An opening deposit at registration, or a finished call with the outcome its caller was given. */
  datatype Item =
    | Opening(equity: AccountId, checking: AccountId, deposit: int, at: Instant)
    | Call(id: nat, request: Request, outcome: Outcome)

  function OpeningEntry(equity: AccountId, checking: AccountId, deposit: int, at: Instant): Entry
  {
    Entry(None, None, at, TransferPosting(equity, checking, deposit))
  }

  /** The journal a serial history leaves behind. */
  function JournalOf(h: seq<Item>): seq<Entry>
  {
    if h == [] then []
    else
      var j := JournalOf(h[..|h| - 1]);
      match h[|h| - 1]
      case Opening(q, c, n, at) => j + [OpeningEntry(q, c, n, at)]
      case Call(_, r, _) => Execute(j, r).1
  }

  /** Every recorded outcome is the one the call gets when run alone at its place in the history. */
  ghost predicate Agrees(h: seq<Item>)
  {
    h == [] ||
    var earlier, item := h[..|h| - 1], h[|h| - 1];
    Agrees(earlier) && (item.Call? ==> item.outcome == Execute(JournalOf(earlier), item.request).0)
  }

  ghost predicate RequestFits(accounts: Accounts, r: Request)
  {
    match r
    case Transfer(s, d, _, _, _) =>
      && s in accounts && accounts[s].IsSpendable() && accounts[s].currency == "USD"
      && d in accounts && accounts[d].IsSpendable() && accounts[d].currency == "USD"
    case Fill(t, _, _) => TicketFits(accounts, t)
  }

  ghost predicate ItemFits(accounts: Accounts, item: Item)
  {
    match item
    case Opening(q, c, n, _) =>
      && q in accounts && accounts[q].kind == Equity && accounts[q].instrument.None? && accounts[q].currency == "USD"
      && c in accounts && accounts[c].IsSpendable() && accounts[c].currency == "USD"
      && accounts[q].owner == accounts[c].owner && n > 0
    case Call(_, r, _) => RequestFits(accounts, r)
  }

  ghost predicate HistoryFits(accounts: Accounts, h: seq<Item>)
  {
    forall i :: 0 <= i < |h| ==> ItemFits(accounts, h[i])
  }

  /** No dust, on the journal: a holding with no shares carries no cost. */
  ghost predicate NoDustOn(rows: seq<Row>, accounts: Accounts)
  {
    forall a :: a in accounts && accounts[a].IsHolding() && Held(rows, a) == 0 ==> Balance(rows, a) == 0
  }

  ghost predicate Good(accounts: Accounts, j: seq<Entry>)
  {
    && (forall i :: 0 <= i < |j| ==> Postable(accounts, j[i].lines))
    && NoNegatives(Rows(j), accounts)
    && NoDustOn(Rows(j), accounts)
    && KeysUnique(j)
    && (forall i :: 0 <= i < |j| && j[i].key.Some? ==> j[i].fingerprint.Some?)
  }

  /** A successful decision's effect on any asset account keeps it, and what it holds, non-negative and dust-free. */
  ghost predicate LandsWell(accounts: Accounts, j: seq<Entry>, lines: seq<Line>)
  {
    forall a :: a in accounts && accounts[a].kind == Asset ==>
      var b, h := Balance(Rows(j), a) + Sum(lines, AmountOn(a)), Held(Rows(j), a) + Sum(lines, SharesOn(a));
      b >= 0 && (accounts[a].IsHolding() ==> h >= 0 && (h == 0 ==> b == 0))
  }

  lemma {:induction false} SumTransfer(s: AccountId, d: AccountId, n: int, w: Line -> int)
    ensures Sum(TransferPosting(s, d, n), w) == w(Line(s, -n, None)) + w(Line(d, n, None))
  {
    SumTwo(Line(s, -n, None), Line(d, n, None), w);
  }

  lemma {:induction false} TransferPostable(accounts: Accounts, s: AccountId, d: AccountId, n: int)
    requires s in accounts && d in accounts && n > 0
    requires accounts[s].instrument.None? && accounts[d].instrument.None?
    requires accounts[s].currency == "USD" && accounts[d].currency == "USD"
    ensures Postable(accounts, TransferPosting(s, d, n))
  {
    SumTransfer(s, d, n, Amounts);
    forall g ensures Sum(TransferPosting(s, d, n), SharesIn(accounts, g)) == 0 {
      SumTransfer(s, d, n, SharesIn(accounts, g));
    }
  }

  lemma {:induction false} TransferLands(accounts: Accounts, j: seq<Entry>, s: AccountId, d: AccountId, n: int)
    requires Good(accounts, j) && s in accounts && d in accounts && n > 0 && s != d
    requires accounts[s].instrument.None? && accounts[d].instrument.None?
    requires accounts[s].kind == Asset ==> Balance(Rows(j), s) >= n
    ensures LandsWell(accounts, j, TransferPosting(s, d, n))
  {
    forall a
      ensures Sum(TransferPosting(s, d, n), AmountOn(a)) == (if a == s then -n else if a == d then n else 0)
      ensures Sum(TransferPosting(s, d, n), SharesOn(a)) == 0
    {
      SumTransfer(s, d, n, AmountOn(a));
      SumTransfer(s, d, n, SharesOn(a));
    }
  }

  lemma {:induction false} FillLands(accounts: Accounts, j: seq<Entry>, t: Ticket, price: int, held: int, balance: int)
    requires Good(accounts, j) && TicketFits(accounts, t)
    requires t.side == Buy ==> balance == Balance(Rows(j), t.cash)
    requires t.side == Sell ==> balance == Balance(Rows(j), t.position) && held == Held(Rows(j), t.position)
    requires Verdict(t, price, held, balance).Success?
    ensures LandsWell(accounts, j, Verdict(t, price, held, balance).value)
  {
    var lines := Verdict(t, price, held, balance).value;
    if t.side == Sell {
      ProRataWithin(balance, t.quantity, held);
    }
    forall a | a in accounts && accounts[a].kind == Asset
      ensures var b, h := Balance(Rows(j), a) + Sum(lines, AmountOn(a)), Held(Rows(j), a) + Sum(lines, SharesOn(a));
        b >= 0 && (accounts[a].IsHolding() ==> h >= 0 && (h == 0 ==> b == 0))
    {
      VerdictEffect(accounts, t, price, held, balance, a);
    }
  }

  lemma {:induction false} DecisionLands(accounts: Accounts, j: seq<Entry>, r: Request)
    requires Good(accounts, j) && RequestFits(accounts, r) && Sound(r)
    requires DecideOn(j, r).Success?
    ensures Postable(accounts, DecideOn(j, r).value)
    ensures LandsWell(accounts, j, DecideOn(j, r).value)
  {
    match r {
      case Transfer(s, d, n, _, _) =>
        TransferPostable(accounts, s, d, n);
        TransferLands(accounts, j, s, d, n);
      case Fill(t, price, _) =>
        var held := if NeedsShares(r) then Held(Rows(j), Reads(r)) else 0;
        VerdictPostable(accounts, t, price, held, Balance(Rows(j), Reads(r)));
        FillLands(accounts, j, t, price, held, Balance(Rows(j), Reads(r)));
    }
  }

  lemma {:induction false} PostingKeepsGood(accounts: Accounts, j: seq<Entry>, e: Entry)
    requires Good(accounts, j) && Postable(accounts, e.lines) && LandsWell(accounts, j, e.lines)
    requires e.key.Some? ==> e.fingerprint.Some? && FindKey(j, e.key.value).None?
    ensures Good(accounts, j + [e])
  {
    forall a
      ensures Balance(Rows(j + [e]), a) == Balance(Rows(j), a) + Sum(e.lines, AmountOn(a))
      ensures Held(Rows(j + [e]), a) == Held(Rows(j), a) + Sum(e.lines, SharesOn(a))
    {
      BalancePosted(j, e, a);
    }
  }

  lemma {:induction false} ExecuteKeepsGood(accounts: Accounts, j: seq<Entry>, r: Request)
    requires Good(accounts, j) && RequestFits(accounts, r)
    ensures Good(accounts, Execute(j, r).1)
  {
    if Execute(j, r).0.Created? {
      DecisionLands(accounts, j, r);
      PostingKeepsGood(accounts, j, EntryFor(r, DecideOn(j, r).value));
    }
  }

  lemma {:induction false} OpeningKeepsGood(accounts: Accounts, j: seq<Entry>, q: AccountId, c: AccountId, n: int,
                                            at: Instant)
    requires Good(accounts, j) && ItemFits(accounts, Opening(q, c, n, at))
    ensures Good(accounts, j + [OpeningEntry(q, c, n, at)])
  {
    TransferPostable(accounts, q, c, n);
    TransferLands(accounts, j, q, c, n);
    PostingKeepsGood(accounts, j, OpeningEntry(q, c, n, at));
  }

  /**
   * In every serial run of onboarding, transfers and fills: entries balance and conserve shares, no asset
   * account and no holding is negative, closed holdings carry no cost, and keys identify one entry each.
   */
  lemma {:induction false} SerialGood(accounts: Accounts, h: seq<Item>)
    requires HistoryFits(accounts, h)
    ensures Good(accounts, JournalOf(h))
    ensures CheckInvariants(Rows(JournalOf(h)), accounts) == {}
  {
    if h == [] {
    } else {
      var n := |h| - 1;
      SerialGood(accounts, h[..n]);
      match h[n] {
        case Opening(q, c, d, at) => OpeningKeepsGood(accounts, JournalOf(h[..n]), q, c, d, at);
        case Call(_, r, _) => ExecuteKeepsGood(accounts, JournalOf(h[..n]), r);
      }
    }
    CleanReport(JournalOf(h), accounts);
  }

  // ---------------------------------------------------------------------------------------------
  // Exactly once
  // ---------------------------------------------------------------------------------------------

  /** The call in the history, if any, that was told it created the entry under this key. */
  function Creator(h: seq<Item>, k: Key): (c: Option<nat>)
    ensures c.Some? ==>
      && c.value < |h| && h[c.value].Call? && h[c.value].outcome.Created?
      && KeyOf(h[c.value].request) == Some(k)
    ensures c.Some? ==> forall i :: 0 <= i < c.value && h[i].Call? && h[i].outcome.Created? ==>
      KeyOf(h[i].request) != Some(k)
    ensures c.None? ==> forall i :: 0 <= i < |h| && h[i].Call? && h[i].outcome.Created? ==>
      KeyOf(h[i].request) != Some(k)
  {
    if h == [] then None
    else
      var n := |h| - 1;
      var earlier := Creator(h[..n], k);
      if earlier.Some? then earlier
      else if h[n].Call? && h[n].outcome.Created? && KeyOf(h[n].request) == Some(k) then Some(n) else None
  }

  /** A call either posts one entry under its own unused key, or leaves the journal alone. */
  lemma {:induction false} ExecuteKey(j: seq<Entry>, r: Request, k: Key)
    ensures var (o, j') := Execute(j, r);
      && (!o.Created? ==> j' == j)
      && (o.Created? ==>
          && o.entry == |j| && |j'| == |j| + 1 && j'[..|j|] == j
          && (KeyOf(r).Some? ==> j'[|j|].fingerprint == Some(PrintOf(r)))
          && (KeyOf(r) == Some(k) ==> FindKey(j, k).None?)
          && FindKey(j', k) == if FindKey(j, k).Some? then FindKey(j, k) else if KeyOf(r) == Some(k) then Some(|j|)
              else None)
  {
  }

  ghost predicate OriginKnown(h: seq<Item>, k: Key)
  {
    var c := Creator(h, k);
    var found := FindKey(JournalOf(h), k);
    && (found.Some? <==> c.Some?)
    && (c.Some? ==> found == Some(h[c.value].outcome.entry)
                    && JournalOf(h)[found.value].fingerprint == Some(PrintOf(h[c.value].request)))
  }

  /** A key is in the journal exactly when one call was told it created it; the entry carries that call's request. */
  lemma {:induction false} KeyOrigin(h: seq<Item>, k: Key)
    requires Agrees(h)
    ensures OriginKnown(h, k)
  {
    if h == [] {
    } else {
      var n := |h| - 1;
      var g, item := h[..n], h[n];
      KeyOrigin(g, k);
      var j := JournalOf(g);
      var earlier := Creator(g, k);
      assert earlier.Some? ==> h[earlier.value] == g[earlier.value];
      match item {
        case Opening(q, c, d, at) =>
          FindStable(j, OpeningEntry(q, c, d, at), k);
          assert Creator(h, k) == earlier;
        case Call(_, r, o) =>
          ExecuteKey(j, r, k);
          if earlier.Some? {
            assert Creator(h, k) == earlier;
          }
      }
    }
  }

  lemma {:induction false} AgreesPrefix(h: seq<Item>, i: nat)
    requires Agrees(h) && i <= |h|
    ensures Agrees(h[..i])
    ensures i < |h| && h[i].Call? ==> h[i].outcome == Execute(JournalOf(h[..i]), h[i].request).0
  {
    if i < |h| {
      var g := h[..|h| - 1];
      if i < |g| {
        AgreesPrefix(g, i);
        assert g[..i] == h[..i];
      } else {
        assert g == h[..i];
      }
    } else {
      assert h[..i] == h;
    }
  }

  predicate SameRequest(r: Request, s: Request)
    requires r.Transfer? && s.Transfer?
  {
    r.source == s.source && r.destination == s.destination && r.amount == s.amount
  }

  /**
   * Exactly once. Among all calls under one client key, at most one is told it created the entry; every
   * later sound call gets that entry back if it asks for the same source, destination and amount, and a
   * conflict otherwise; and nobody is told of a replay or a conflict before the entry exists.
   */
  lemma {:induction false} ExactlyOnce(h: seq<Item>, i: nat)
    requires Agrees(h) && i < |h| && h[i].Call? && h[i].request.Transfer? && h[i].request.token.Some?
    ensures var k := KeyOf(h[i].request).value;
      var c := Creator(h, k);
      && (h[i].outcome.Created? ==> c == Some(i))
      && (c.Some? ==> h[c.value].request.Transfer?)
      && (Sound(h[i].request) && c.Some? && c.value < i ==>
            h[i].outcome == if SameRequest(h[i].request, h[c.value].request)
                            then Replayed(h[c.value].outcome.entry) else Conflict)
      && (h[i].outcome.Replayed? || h[i].outcome.Conflict? ==> c.Some? && c.value < i)
  {
    var r := h[i].request;
    var k := KeyOf(r).value;
    AgreesPrefix(h, i);
    KeyOrigin(h[..i], k);
    CreatorPrefix(h, i, k);
    ExecuteResolves(JournalOf(h[..i]), r);
    var c := Creator(h, k);
    if c.Some? && c.value < i {
      assert h[..i][c.value] == h[c.value];
    }
    if h[i].outcome.Created? {
      assert Creator(h[..i], k).None?;
    }
  }

  lemma {:induction false} CreatedLines(j: seq<Entry>, r: Request)
    requires Execute(j, r).0.Created?
    ensures Sound(r) && DecideOn(j, r).Success?
    ensures Execute(j, r) == (Created(|j|), j + [EntryFor(r, DecideOn(j, r).value)])
    ensures r.Transfer? ==> DecideOn(j, r).value == TransferPosting(r.source, r.destination, r.amount)
  {
  }

  lemma {:induction false} ExecuteResolves(j: seq<Entry>, r: Request)
    requires r.Transfer? && r.token.Some?
    ensures var o, found := Execute(j, r).0, FindKey(j, KeyOf(r).value);
      && (Sound(r) && found.Some? ==>
            o == if j[found.value].fingerprint == Some(PrintOf(r)) then Replayed(found.value) else Conflict)
      && (found.None? ==> !o.Replayed? && !o.Conflict?)
      && (o.Created? ==> found.None?)
      && (!Sound(r) ==> o == Invalid)
  {
  }

  lemma {:induction false} CreatorPrefix(h: seq<Item>, i: nat, k: Key)
    requires i <= |h|
    ensures Creator(h[..i], k) == if Creator(h, k).Some? && Creator(h, k).value < i then Creator(h, k) else None
  {
  }
}
