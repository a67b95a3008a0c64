/**
 * The two deferred triggers against the whole-table scans
 * (backend/ledger/migrations/0002_entry_balanced_trigger.py, 0009_entry_conserves_shares_trigger.py).
 *
 * Anything may write the line table here: raw inserts, deletes and updates, not only the posting service.
 */
module Triggers {
  import opened Wrappers
  import opened Sums
  import opened Journal
  import opened Reconciliation

  datatype Change = Insert(row: Row) | Delete(at: nat) | Update(at: nat, row: Row)

  predicate Applies(table: seq<Row>, c: Change) { c.Insert? || c.at < |table| }

  function Apply(table: seq<Row>, c: Change): seq<Row>
    requires Applies(table, c)
  {
    match c
    case Insert(row) => table + [row]
    case Delete(at) => table[..at] + table[at + 1..]
    case Update(at, row) => table[at := row]
  }

  /** A transaction is a sequence of changes, each to the table its predecessors left. */
  predicate Runs(table: seq<Row>, tx: seq<Change>)
    decreases |tx|
  {
    tx == [] || (Applies(table, tx[0]) && Runs(Apply(table, tx[0]), tx[1..]))
  }

  function After(table: seq<Row>, tx: seq<Change>): seq<Row>
    requires Runs(table, tx)
    decreases |tx|
  {
    if tx == [] then table else After(Apply(table, tx[0]), tx[1..])
  }

  /** `COALESCE(NEW.entry_id, OLD.entry_id)`: the one entry a row change queues for checking. */
  function Target(table: seq<Row>, c: Change): nat
    requires Applies(table, c)
  {
    match c
    case Insert(row) => row.entry
    case Delete(at) => table[at].entry
    case Update(_, row) => row.entry
  }

  /** Entries queued by a transaction, all checked against the table it leaves at COMMIT. */
  function Targets(table: seq<Row>, tx: seq<Change>): set<nat>
    requires Runs(table, tx)
    decreases |tx|
  {
    if tx == [] then {} else {Target(table, tx[0])} + Targets(Apply(table, tx[0]), tx[1..])
  }

  /** Entries that an update took a row away from. */
  function Robbed(table: seq<Row>, tx: seq<Change>): set<nat>
    requires Runs(table, tx)
    decreases |tx|
  {
    if tx == [] then {}
    else (if tx[0].Update? then {table[tx[0].at].entry} else {}) + Robbed(Apply(table, tx[0]), tx[1..])
  }

  /** No update changes the entry of the row it touches. */
  predicate KeepsEntries(table: seq<Row>, tx: seq<Change>)
    requires Runs(table, tx)
    decreases |tx|
  {
    tx == [] ||
    ((tx[0].Update? ==> tx[0].row.entry == table[tx[0].at].entry) && KeepsEntries(Apply(table, tx[0]), tx[1..]))
  }

  /** `assert_entry_balanced` and `assert_entry_conserves_shares` both let this entry pass. */
  ghost predicate Passes(table: seq<Row>, accounts: Accounts, entry: nat)
  {
    && EntryNet(table, entry) == 0
    && forall g :: EntryShares(table, accounts, entry, g) == 0
  }

  ghost predicate Commits(table: seq<Row>, tx: seq<Change>, accounts: Accounts)
    requires Runs(table, tx)
  {
    forall e :: e in Targets(table, tx) ==> Passes(After(table, tx), accounts, e)
  }

  /** Both whole-table scans report nothing. */
  ghost predicate Clean(table: seq<Row>, accounts: Accounts)
  {
    UnbalancedEntries(table) == {} && UnconservedEntries(table, accounts) == {}
  }

  /** The scans and the triggers ask the same question, of every entry and of one. */
  lemma {:induction false} CleanMeans(table: seq<Row>, accounts: Accounts)
    ensures Clean(table, accounts) <==> forall e :: Passes(table, accounts, e)
  {
    if Clean(table, accounts) {
      forall e ensures Passes(table, accounts, e) {
        NothingUnbalanced(table, e);
        forall g ensures EntryShares(table, accounts, e, g) == 0 {
          NothingUnconserved(table, accounts, e, g);
        }
      }
    }
    if forall e :: Passes(table, accounts, e) {
      assert forall r :: r in table ==> Passes(table, accounts, r.entry);
    }
  }

  lemma {:induction false} NothingUnbalanced(table: seq<Row>, e: nat)
    requires UnbalancedEntries(table) == {}
    ensures EntryNet(table, e) == 0
  {
    if r :| r in table && r.entry == e {
      assert UnbalancedEntry(r.entry) !in UnbalancedEntries(table);
    } else {
      SumZero(table, InEntry(e, Amounts));
    }
  }

  lemma {:induction false} NothingUnconserved(table: seq<Row>, accounts: Accounts, e: nat, g: Option<InstrumentId>)
    requires UnconservedEntries(table, accounts) == {}
    ensures EntryShares(table, accounts, e, g) == 0
  {
    if r :| r in table && r.entry == e && r.line.account in accounts && accounts[r.line.account].instrument == g {
      assert UnconservedShares(r.entry, g) !in UnconservedEntries(table, accounts);
    } else {
      SumZero(table, InEntry(e, SharesIn(accounts, g)));
    }
  }

  lemma {:induction false} SumWithout<T>(s: seq<T>, at: nat, w: T -> int)
    requires at < |s|
    ensures Sum(s[..at] + s[at + 1..], w) == Sum(s, w) - w(s[at])
  {
    assert s == s[..at] + [s[at]] + s[at + 1..];
    SumAppend(s[..at] + [s[at]], s[at + 1..], w);
    SumAppend(s[..at], [s[at]], w);
    SumAppend(s[..at], s[at + 1..], w);
    SumOne(s[at], w);
  }

  lemma {:induction false} SumUpdated<T>(s: seq<T>, at: nat, x: T, w: T -> int)
    requires at < |s|
    ensures Sum(s[at := x], w) == Sum(s, w) - w(s[at]) + w(x)
  {
    SumWithout(s, at, w);
    SumWithout(s[at := x], at, w);
    assert s[at := x][..at] + s[at := x][at + 1..] == s[..at] + s[at + 1..];
  }

  /** What a transaction's updates take from an entry, read off the rows as they are when taken. */
  function Taken(table: seq<Row>, tx: seq<Change>, e: nat, w: Line -> int): int
    requires Runs(table, tx)
    decreases |tx|
  {
    if tx == [] then 0
    else
      var here := if tx[0].Update? && table[tx[0].at].entry == e then w(table[tx[0].at].line) else 0;
      here + Taken(Apply(table, tx[0]), tx[1..], e, w)
  }

  /** What is taken from an entry nets to nothing, in money and in each instrument. */
  ghost predicate TakenEvenly(table: seq<Row>, tx: seq<Change>, accounts: Accounts, e: nat)
    requires Runs(table, tx)
  {
    && Taken(table, tx, e, Amounts) == 0
    && forall g :: Taken(table, tx, e, SharesIn(accounts, g)) == 0
  }

  lemma {:induction false} UnqueuedChange(table: seq<Row>, c: Change, e: nat, w: Line -> int)
    requires Applies(table, c) && e != Target(table, c)
    ensures Sum(Apply(table, c), InEntry(e, w))
         == Sum(table, InEntry(e, w)) - if c.Update? && table[c.at].entry == e then w(table[c.at].line) else 0
  {
    match c {
      case Insert(row) => SumAppend(table, [row], InEntry(e, w)); SumOne(row, InEntry(e, w));
      case Delete(at) => SumWithout(table, at, InEntry(e, w));
      case Update(at, row) => SumUpdated(table, at, row, InEntry(e, w));
    }
  }

  /** An entry that is not queued can only have lost rows to updates. */
  lemma {:induction false} OnlyTaken(table: seq<Row>, tx: seq<Change>, e: nat, w: Line -> int)
    requires Runs(table, tx) && e !in Targets(table, tx)
    ensures Sum(After(table, tx), InEntry(e, w)) == Sum(table, InEntry(e, w)) - Taken(table, tx, e, w)
    decreases |tx|
  {
    if tx == [] {
    } else {
      UnqueuedChange(table, tx[0], e, w);
      OnlyTaken(Apply(table, tx[0]), tx[1..], e, w);
    }
  }

  lemma {:induction false} UnqueuedPasses(table: seq<Row>, tx: seq<Change>, accounts: Accounts, e: nat)
    requires Runs(table, tx) && e !in Targets(table, tx) && Passes(table, accounts, e)
    ensures Passes(After(table, tx), accounts, e) <==> TakenEvenly(table, tx, accounts, e)
  {
    OnlyTaken(table, tx, e, Amounts);
    forall g
      ensures EntryShares(After(table, tx), accounts, e, g) == -Taken(table, tx, e, SharesIn(accounts, g))
    {
      OnlyTaken(table, tx, e, SharesIn(accounts, g));
      assert EntryShares(table, accounts, e, g) == 0;
    }
  }

  lemma {:induction false} NothingTaken(table: seq<Row>, tx: seq<Change>, accounts: Accounts, e: nat)
    requires Runs(table, tx) && e !in Robbed(table, tx)
    ensures forall w :: Taken(table, tx, e, w) == 0
    decreases |tx|
  {
    if tx == [] {
    } else {
      NothingTaken(Apply(table, tx[0]), tx[1..], accounts, e);
    }
  }

  /**
   * Exactly what COMMIT has to check. From a clean table, and for any transaction whatsoever, the full scans
   * stay silent if and only if the queued entries pass and, from every entry that is robbed of rows without
   * being queued, what is taken nets to nothing: a condition on the changes alone, known before COMMIT.
   */
  lemma {:induction false} ExactCheck(table: seq<Row>, tx: seq<Change>, accounts: Accounts)
    requires Runs(table, tx) && Clean(table, accounts)
    ensures Clean(After(table, tx), accounts) <==>
      && Commits(table, tx, accounts)
      && forall e :: e in Robbed(table, tx) - Targets(table, tx) ==> TakenEvenly(table, tx, accounts, e)
  {
    CleanMeans(table, accounts);
    CleanMeans(After(table, tx), accounts);
    forall e: nat | e !in Targets(table, tx)
      ensures Passes(After(table, tx), accounts, e) <==> e !in Robbed(table, tx) || TakenEvenly(table, tx, accounts, e)
    {
      assert Passes(table, accounts, e);
      UnqueuedPasses(table, tx, accounts, e);
      if e !in Robbed(table, tx) {
        NothingTaken(table, tx, accounts, e);
        EvenIfNothing(table, tx, accounts, e);
      }
    }
  }

  lemma {:induction false} EvenIfNothing(table: seq<Row>, tx: seq<Change>, accounts: Accounts, e: nat)
    requires Runs(table, tx) && forall w :: Taken(table, tx, e, w) == 0
    ensures TakenEvenly(table, tx, accounts, e)
  {
  }

  lemma {:induction false} RobbedAreTargets(table: seq<Row>, tx: seq<Change>)
    requires Runs(table, tx) && KeepsEntries(table, tx)
    ensures Robbed(table, tx) <= Targets(table, tx)
    decreases |tx|
  {
    if tx == [] {
    } else {
      RobbedAreTargets(Apply(table, tx[0]), tx[1..]);
    }
  }

  /**
   * The incremental check refines the full scan. As long as updates leave a row's entry alone, the triggers
   * let a transaction commit if and only if both whole-table scans of what it leaves report nothing.
   */
  lemma {:induction false} TriggersRefineScan(table: seq<Row>, tx: seq<Change>, accounts: Accounts)
    requires Runs(table, tx) && Clean(table, accounts) && KeepsEntries(table, tx)
    ensures Commits(table, tx, accounts) <==> Clean(After(table, tx), accounts)
  {
    ExactCheck(table, tx, accounts);
    RobbedAreTargets(table, tx);
  }

  /**
   * Why the condition is needed: move one leg of a balanced entry into a new entry together with a balancing
   * second leg. Only the new entry is queued, it passes, and the old one is left unbalanced.
   */
  lemma {:induction false} MovedRowEscapes(accounts: Accounts, a: AccountId, b: AccountId, at: Instant)
    requires a in accounts && b in accounts
    ensures var table := [Row(0, at, Line(a, 5, None)), Row(0, at, Line(b, -5, None))];
      var tx := [Update(0, Row(1, at, Line(a, 5, None))), Insert(Row(1, at, Line(b, -5, None)))];
      && Runs(table, tx) && Clean(table, accounts)
      && Commits(table, tx, accounts) && !Clean(After(table, tx), accounts)
  {
    var x, y, z := Row(0, at, Line(a, 5, None)), Row(0, at, Line(b, -5, None)), Row(1, at, Line(a, 5, None));
    var v := Row(1, at, Line(b, -5, None));
    var table := [x, y];
    var update, insert := Update(0, z), Insert(v);
    var tx := [update, insert];
    assert tx[1..] == [insert];
    assert Apply(table, update) == [z, y];
    assert [insert][1..] == [];
    assert Apply([z, y], insert) == [z, y, v];
    assert After([z, y, v], []) == [z, y, v];
    assert After([z, y], [insert]) == [z, y, v];
    assert After(table, tx) == [z, y, v];
    assert Targets([z, y, v], []) == {};
    assert Targets([z, y], [insert]) == {1};
    assert Targets(table, tx) == {1};
    forall e ensures Passes(table, accounts, e) {
      SumTwo(x, y, InEntry(e, Amounts));
      forall g ensures EntryShares(table, accounts, e, g) == 0 {
        SumTwo(x, y, InEntry(e, SharesIn(accounts, g)));
      }
    }
    CleanMeans(table, accounts);
    SumThree(z, y, v, InEntry(1, Amounts));
    SumThree(z, y, v, InEntry(0, Amounts));
    forall g ensures EntryShares([z, y, v], accounts, 1, g) == 0 {
      SumThree(z, y, v, InEntry(1, SharesIn(accounts, g)));
    }
    CleanMeans([z, y, v], accounts);
    assert !Passes([z, y, v], accounts, 0);
  }

  // ---------------------------------------------------------------------------------------------
  // What the report means
  // ---------------------------------------------------------------------------------------------

  lemma {:induction false} PassesMeansSound(j: seq<Entry>, accounts: Accounts, i: nat)
    requires i < |j| && Passes(Rows(j), accounts, i)
    ensures EntrySound(accounts, j[i].lines)
  {
    EntrySum(j, i, Amounts);
    forall g ensures Sum(j[i].lines, SharesIn(accounts, g)) == 0 {
      EntrySum(j, i, SharesIn(accounts, g));
      assert EntryShares(Rows(j), accounts, i, g) == 0;
    }
  }

  lemma {:induction false} NoOverdraft(rows: seq<Row>, accounts: Accounts, a: AccountId)
    requires NegativeAssets(rows, accounts) == {} && a in accounts && accounts[a].kind == Asset
    ensures Balance(rows, a) >= 0
  {
    if r :| r in rows && r.line.account == a {
      assert NegativeAssetBalance(r.line.account) !in NegativeAssets(rows, accounts);
    } else {
      SumZero(rows, OnRows(AmountOn(a)));
    }
  }

  lemma {:induction false} NoShort(rows: seq<Row>, accounts: Accounts, a: AccountId)
    requires NegativeHoldings(rows, accounts) == {} && a in accounts && accounts[a].IsHolding()
    ensures Held(rows, a) >= 0
  {
    if r :| r in rows && r.line.account == a {
      assert NegativeHolding(r.line.account) !in NegativeHoldings(rows, accounts);
    } else {
      SumZero(rows, OnRows(SharesOn(a)));
    }
  }

  /**
   * What a silent report means, no more and no less: every entry balances and conserves shares, no asset
   * account is overdrawn and no holding is short, accounts without a single line included.
   */
  lemma {:induction false} SilentMeansClean(j: seq<Entry>, accounts: Accounts)
    ensures CheckInvariants(Rows(j), accounts) == {} <==>
      && (forall i :: 0 <= i < |j| ==> EntrySound(accounts, j[i].lines))
      && NoNegatives(Rows(j), accounts)
  {
    if CheckInvariants(Rows(j), accounts) == {} {
      EmptyParts(Rows(j), accounts);
      CleanMeans(Rows(j), accounts);
      forall i | 0 <= i < |j| ensures EntrySound(accounts, j[i].lines) {
        PassesMeansSound(j, accounts, i);
      }
      forall a | a in accounts && accounts[a].kind == Asset
        ensures Balance(Rows(j), a) >= 0 && (accounts[a].IsHolding() ==> Held(Rows(j), a) >= 0)
      {
        NoOverdraft(Rows(j), accounts, a);
        if accounts[a].IsHolding() {
          NoShort(Rows(j), accounts, a);
        }
      }
    }
    if (forall i :: 0 <= i < |j| ==> EntrySound(accounts, j[i].lines)) && NoNegatives(Rows(j), accounts) {
      CleanReport(j, accounts);
    }
  }

  lemma {:induction false} EmptyParts(rows: seq<Row>, accounts: Accounts)
    requires CheckInvariants(rows, accounts) == {}
    ensures UnbalancedEntries(rows) == {} && UnconservedEntries(rows, accounts) == {}
    ensures NegativeAssets(rows, accounts) == {} && NegativeHoldings(rows, accounts) == {}
  {
    assert UnbalancedEntries(rows) <= CheckInvariants(rows, accounts);
    assert UnconservedEntries(rows, accounts) <= CheckInvariants(rows, accounts);
    assert NegativeAssets(rows, accounts) <= CheckInvariants(rows, accounts);
    assert NegativeHoldings(rows, accounts) <= CheckInvariants(rows, accounts);
  }
}
