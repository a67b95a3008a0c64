/**
 * The double-entry spine: accounts, entries, and the journal-line table they flatten to
 * (backend/ledger/models.py, backend/accounts/models.py).
 *
 * Money is an integer count of ten-thousandths, shares an integer count of hundred-millionths.
 */
module Journal {
  import opened Wrappers
  import opened Sums

  type AccountId = nat
  type InstrumentId = nat
  type UserId = nat
  type OrderId = nat
  type Instant = int

  datatype AccountType = Asset | Liability | Equity | Income | Expense

  datatype Account = Account(
    owner: UserId,
    name: string,
    kind: AccountType,
    currency: string,
    instrument: Option<InstrumentId>)
  {
    /** Carries an instrument: a holding, or the shares-outstanding contra behind it. */
    predicate IsPosition() { instrument.Some? }

    /** A holding somebody owns. */
    predicate IsHolding() { instrument.Some? && kind == Asset }

    predicate IsContra() { instrument.Some? && kind == Equity }

    /** Money its owner can actually move. */
    predicate IsSpendable() { instrument.None? && kind == Asset }

    predicate IsRealizedPnl() { kind == Income && name == REALIZED_PNL }
  }

  const REALIZED_PNL := "Realized P&L"

  type Accounts = map<AccountId, Account>

  /** Client retry tokens and the `order:{pk}` keys of fills, kept apart by construction. */
  datatype Key = ClientKey(token: string) | OrderKey(order: OrderId)

  datatype Side = Buy | Sell

  /** What a keyed write was asked to do: the canonical payload, its digest taken as injective. */
  datatype Fingerprint =
    | TransferPrint(source: AccountId, destination: AccountId, amount: int)
    | OrderPrint(user: UserId, instrument: InstrumentId, side: Side, quantity: int, limit: Option<int>, cash: AccountId)

  /** One stored leg. The quantity is present exactly on legs that touch an instrument-bearing account. */
  datatype Line = Line(account: AccountId, amount: int, quantity: Option<int>)

  datatype Entry = Entry(key: Option<Key>, fingerprint: Option<Fingerprint>, at: Instant, lines: seq<Line>)

  /** A row of the journal-line table; its entry is named by position in the journal. */
  datatype Row = Row(entry: nat, at: Instant, line: Line)

  function RowsOf(i: nat, e: Entry): seq<Row>
  {
    seq(|e.lines|, k requires 0 <= k < |e.lines| => Row(i, e.at, e.lines[k]))
  }

  /** The whole journal as the line table. */
  function Rows(j: seq<Entry>): seq<Row>
  {
    if j == [] then [] else Rows(j[..|j| - 1]) + RowsOf(|j| - 1, j[|j| - 1])
  }

  // ---------------------------------------------------------------------------------------------
  // Weights: what each derived figure adds up
  // ---------------------------------------------------------------------------------------------

  function Shares(l: Line): int { if l.quantity.Some? then l.quantity.value else 0 }

  const Amounts: Line -> int := (l: Line) => l.amount

  function AmountOn(a: AccountId): Line -> int { (l: Line) => if l.account == a then l.amount else 0 }

  function SharesOn(a: AccountId): Line -> int { (l: Line) => if l.account == a then Shares(l) else 0 }

  /** Shares moved in one instrument group; `None` collects quantities stranded on cash lines. */
  function SharesIn(accounts: Accounts, group: Option<InstrumentId>): Line -> int
  {
    (l: Line) => if l.account in accounts && accounts[l.account].instrument == group then Shares(l) else 0
  }

  function OnRows(w: Line -> int): Row -> int { (r: Row) => w(r.line) }

  function InEntry(i: nat, w: Line -> int): Row -> int { (r: Row) => if r.entry == i then w(r.line) else 0 }

  function Before(t: Instant, w: Line -> int): Row -> int { (r: Row) => if r.at < t then w(r.line) else 0 }

  /** `get_balance` and `get_quantity`. */
  function Balance(rows: seq<Row>, a: AccountId): int { Sum(rows, OnRows(AmountOn(a))) }

  function Held(rows: seq<Row>, a: AccountId): int { Sum(rows, OnRows(SharesOn(a))) }

  /** `with_balance(as_of=t)` and `with_quantity(as_of=t)`. */
  function BalanceBefore(rows: seq<Row>, a: AccountId, t: Instant): int { Sum(rows, Before(t, AmountOn(a))) }

  function HeldBefore(rows: seq<Row>, a: AccountId, t: Instant): int { Sum(rows, Before(t, SharesOn(a))) }

  function EntryNet(rows: seq<Row>, i: nat): int { Sum(rows, InEntry(i, Amounts)) }

  function EntryShares(rows: seq<Row>, accounts: Accounts, i: nat, group: Option<InstrumentId>): int
  {
    Sum(rows, InEntry(i, SharesIn(accounts, group)))
  }

  // ---------------------------------------------------------------------------------------------
  // Sums over the journal, entry by entry
  // ---------------------------------------------------------------------------------------------

  lemma {:induction false} RowsAppend(j: seq<Entry>, e: Entry)
    ensures Rows(j + [e]) == Rows(j) + RowsOf(|j|, e)
  {
  }

  lemma {:induction false} SumOfEntry(i: nat, e: Entry, w: Line -> int, v: Row -> int)
    requires forall l :: v(Row(i, e.at, l)) == w(l)
    ensures Sum(RowsOf(i, e), v) == Sum(e.lines, w)
    decreases |e.lines|
  {
    if e.lines == [] {
    } else {
      var n := |e.lines| - 1;
      var shorter := e.(lines := e.lines[..n]);
      assert RowsOf(i, e)[..n] == RowsOf(i, shorter);
      SumOfEntry(i, shorter, w, v);
    }
  }

  /** Posting an entry moves each per-line total by what the entry's own lines carry. */
  lemma {:induction false} SumPosted(j: seq<Entry>, e: Entry, w: Line -> int)
    ensures Sum(Rows(j + [e]), OnRows(w)) == Sum(Rows(j), OnRows(w)) + Sum(e.lines, w)
  {
    RowsAppend(j, e);
    SumAppend(Rows(j), RowsOf(|j|, e), OnRows(w));
    SumOfEntry(|j|, e, w, OnRows(w));
  }

  lemma {:induction false} BalancePosted(j: seq<Entry>, e: Entry, a: AccountId)
    ensures Balance(Rows(j + [e]), a) == Balance(Rows(j), a) + Sum(e.lines, AmountOn(a))
    ensures Held(Rows(j + [e]), a) == Held(Rows(j), a) + Sum(e.lines, SharesOn(a))
  {
    SumPosted(j, e, AmountOn(a));
    SumPosted(j, e, SharesOn(a));
  }

  lemma {:induction false} RowEntries(j: seq<Entry>)
    ensures forall r :: r in Rows(j) ==> r.entry < |j| && r.line in j[r.entry].lines && r.at == j[r.entry].at
  {
    if j == [] {
    } else {
      RowEntries(j[..|j| - 1]);
    }
  }

  /** One entry's share of a total is read off that entry alone. */
  lemma {:induction false} EntrySum(j: seq<Entry>, i: nat, w: Line -> int)
    ensures Sum(Rows(j), InEntry(i, w)) == if i < |j| then Sum(j[i].lines, w) else 0
  {
    if j == [] {
    } else {
      var n := |j| - 1;
      EntrySum(j[..n], i, w);
      SumAppend(Rows(j[..n]), RowsOf(n, j[n]), InEntry(i, w));
      if i == n {
        SumOfEntry(n, j[n], w, InEntry(i, w));
      } else {
        SumZero(RowsOf(n, j[n]), InEntry(i, w));
      }
    }
  }

  lemma {:induction false} UntouchedSum(lines: seq<Line>, a: AccountId)
    requires forall l :: l in lines ==> l.account != a
    ensures Sum(lines, AmountOn(a)) == 0 && Sum(lines, SharesOn(a)) == 0
  {
    SumZero(lines, AmountOn(a));
    SumZero(lines, SharesOn(a));
  }

  // ---------------------------------------------------------------------------------------------
  // Keys
  // ---------------------------------------------------------------------------------------------

  /** The entry a key already posted, if any (`filter(idempotency_key=...).first()`). */
  function FindKey(j: seq<Entry>, k: Key): (found: Option<nat>)
    ensures found.Some? ==> found.value < |j| && j[found.value].key == Some(k)
    ensures found.None? <==> forall i :: 0 <= i < |j| ==> j[i].key != Some(k)
  {
    if j == [] then None
    else
      var earlier := FindKey(j[..|j| - 1], k);
      if earlier.Some? then earlier
      else if j[|j| - 1].key == Some(k) then Some(|j| - 1) else None
  }

  /** The unique index on `idempotency_key`; absent keys never collide. */
  ghost predicate KeysUnique(j: seq<Entry>)
  {
    forall i, k :: 0 <= i < k < |j| && j[i].key.Some? ==> j[i].key != j[k].key
  }

  lemma {:induction false} FindStable(j: seq<Entry>, e: Entry, k: Key)
    ensures FindKey(j, k).Some? ==> FindKey(j + [e], k) == FindKey(j, k)
    ensures FindKey(j, k).None? ==> FindKey(j + [e], k) == if e.key == Some(k) then Some(|j|) else None
  {
  }
}

/** The reconciliation scans (backend/ledger/reconciliation.py) and the share-conservation scan they share. */
module Reconciliation {
  import opened Wrappers
  import opened Sums
  import opened Journal

  datatype Violation =
    | UnbalancedEntry(entry: nat)
    | UnconservedShares(entry: nat, group: Option<InstrumentId>)
    | NegativeAssetBalance(account: AccountId)
    | NegativeHolding(account: AccountId)

  function UnbalancedEntries(rows: seq<Row>): set<Violation>
  {
    set r | r in rows && EntryNet(rows, r.entry) != 0 :: UnbalancedEntry(r.entry)
  }

  /** `find_unconserved_entries`: every (entry, instrument) group whose shares do not net to zero. */
  function UnconservedEntries(rows: seq<Row>, accounts: Accounts): set<Violation>
  {
    set r | r in rows && r.line.account in accounts
            && EntryShares(rows, accounts, r.entry, accounts[r.line.account].instrument) != 0
         :: UnconservedShares(r.entry, accounts[r.line.account].instrument)
  }

  function NegativeAssets(rows: seq<Row>, accounts: Accounts): set<Violation>
  {
    set r | r in rows && r.line.account in accounts && accounts[r.line.account].kind == Asset
            && Balance(rows, r.line.account) < 0
         :: NegativeAssetBalance(r.line.account)
  }

  function NegativeHoldings(rows: seq<Row>, accounts: Accounts): set<Violation>
  {
    set r | r in rows && r.line.account in accounts && accounts[r.line.account].IsHolding()
            && Held(rows, r.line.account) < 0
         :: NegativeHolding(r.line.account)
  }

  function CheckInvariants(rows: seq<Row>, accounts: Accounts): set<Violation>
  {
    UnbalancedEntries(rows) + UnconservedEntries(rows, accounts)
    + NegativeAssets(rows, accounts) + NegativeHoldings(rows, accounts)
  }

  /** What each entry has to satisfy on its own: the two deferred triggers' conditions. */
  ghost predicate EntrySound(accounts: Accounts, lines: seq<Line>)
  {
    && Sum(lines, Amounts) == 0
    && forall g :: Sum(lines, SharesIn(accounts, g)) == 0
  }

  ghost predicate NoNegatives(rows: seq<Row>, accounts: Accounts)
  {
    forall a :: a in accounts && accounts[a].kind == Asset ==>
      && Balance(rows, a) >= 0
      && (accounts[a].IsHolding() ==> Held(rows, a) >= 0)
  }

  /** Sound entries and non-negative asset accounts are enough for a silent report. */
  lemma {:induction false} CleanReport(j: seq<Entry>, accounts: Accounts)
    requires forall i :: 0 <= i < |j| ==> EntrySound(accounts, j[i].lines)
    requires NoNegatives(Rows(j), accounts)
    ensures CheckInvariants(Rows(j), accounts) == {}
  {
    RowEntries(j);
    forall r | r in Rows(j)
      ensures EntryNet(Rows(j), r.entry) == 0
      ensures forall g :: EntryShares(Rows(j), accounts, r.entry, g) == 0
    {
      EntrySum(j, r.entry, Amounts);
      forall g ensures EntryShares(Rows(j), accounts, r.entry, g) == 0 {
        EntrySum(j, r.entry, SharesIn(accounts, g));
      }
    }
  }
}
