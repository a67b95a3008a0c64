/** The share-contra backfill: repairing history without rewriting it (backend/ledger/share_conservation.py). */
module Backfill {
  import opened Wrappers
  import opened Sums
  import opened Ascending
  import opened Journal
  import opened Reconciliation
  import opened Posting
  import opened Triggers

  /** The table constraints on instrument-bearing accounts. */
  ghost predicate AccountsOk(accounts: Accounts)
  {
    forall a :: a in accounts && accounts[a].instrument.Some? ==>
      accounts[a].kind == Asset || accounts[a].kind == Equity
  }

  predicate IsContraOf(accounts: Accounts, a: AccountId, i: InstrumentId)
  {
    a in accounts && accounts[a].IsContra() && accounts[a].instrument == Some(i)
  }

  function ContraSet(accounts: Accounts, i: InstrumentId): set<AccountId>
  {
    set a | a in accounts && IsContraOf(accounts, a, i)
  }

  /** The contra accounts of an instrument, as the join would list them. */
  ghost function ContrasOf(accounts: Accounts, i: InstrumentId): (q: seq<AccountId>)
    ensures StrictlyUp(q)
    ensures forall a :: a in q <==> IsContraOf(accounts, a, i)
  {
    Sorted(ContraSet(accounts, i))
  }

  type Group = (nat, InstrumentId)

  predicate MovesHoldingRow(accounts: Accounts, r: Row)
  {
    r.line.quantity.Some? && r.line.account in accounts && accounts[r.line.account].IsHolding()
  }

  predicate InGroup(accounts: Accounts, r: Row, g: Group)
  {
    MovesHoldingRow(accounts, r) && r.entry == g.0 && accounts[r.line.account].instrument.value == g.1
  }

  /** The `GROUP BY entry, instrument` over holding rows: each group once. */
  function Groups(accounts: Accounts, rows: seq<Row>): seq<Group>
  {
    if rows == [] then []
    else
      var earlier, r := Groups(accounts, rows[..|rows| - 1]), rows[|rows| - 1];
      if !MovesHoldingRow(accounts, r) then earlier
      else
        var g := (r.entry, accounts[r.line.account].instrument.value);
        if g in earlier then earlier else earlier + [g]
  }

  function GroupNet(accounts: Accounts, rows: seq<Row>, g: Group): int
  {
    Sum(rows, InEntry(g.0, HoldingShares(accounts, g.1)))
  }

  /** `MIN(created_at)` over a group. */
  function PostedAt(accounts: Accounts, rows: seq<Row>, g: Group): Option<Instant>
  {
    if rows == [] then None
    else
      var earlier, r := PostedAt(accounts, rows[..|rows| - 1], g), rows[|rows| - 1];
      if !InGroup(accounts, r, g) then earlier
      else if earlier.Some? && earlier.value <= r.at then earlier else Some(r.at)
  }

  predicate IsContraRow(accounts: Accounts, r: Row, g: Group)
  {
    r.entry == g.0 && IsContraOf(accounts, r.line.account, g.1)
  }

  predicate HasContra(accounts: Accounts, rows: seq<Row>, g: Group)
  {
    exists r :: r in rows && IsContraRow(accounts, r, g)
  }

  /** The rows the INSERT selects for one group: one per contra account joined. */
  function Legs(g: Group, at: Instant, net: int, contras: seq<AccountId>): seq<Row>
  {
    if contras == [] then []
    else Legs(g, at, net, contras[..|contras| - 1]) + [Row(g.0, at, Line(contras[|contras| - 1], 0, Some(-net)))]
  }

  ghost function LegsFor(accounts: Accounts, rows: seq<Row>, g: Group): seq<Row>
  {
    var net, at := GroupNet(accounts, rows, g), PostedAt(accounts, rows, g);
    if net == 0 || at.None? || HasContra(accounts, rows, g) then []
      else Legs(g, at.value, net, ContrasOf(accounts, g.1))
  }

  ghost function Inserted(accounts: Accounts, rows: seq<Row>, groups: seq<Group>): seq<Row>
  {
    if groups == [] then []
    else Inserted(accounts, rows, groups[..|groups| - 1]) + LegsFor(accounts, rows, groups[|groups| - 1])
  }

  /** `backfill_contra_lines`: the table afterwards; the row count it returns is what was added. */
  ghost function Backfilled(accounts: Accounts, rows: seq<Row>): seq<Row>
  {
    rows + Inserted(accounts, rows, Groups(accounts, rows))
  }

  // ---------------------------------------------------------------------------------------------
  // The shape of what is inserted
  // ---------------------------------------------------------------------------------------------

  ghost predicate IsLeg(accounts: Accounts, rows: seq<Row>, r: Row, g: Group)
  {
    && IsContraRow(accounts, r, g) && !HasContra(accounts, rows, g)
    && r.line.amount == 0
    && PostedAt(accounts, rows, g) == Some(r.at)
  }

  lemma {:induction false} LegsShape(accounts: Accounts, g: Group, at: Instant, net: int, contras: seq<AccountId>)
    requires forall a :: a in contras ==> IsContraOf(accounts, a, g.1)
    ensures forall r :: r in Legs(g, at, net, contras) ==>
      IsContraRow(accounts, r, g) && r.line.amount == 0 && r.at == at
  {
    if contras == [] {
    } else {
      LegsShape(accounts, g, at, net, contras[..|contras| - 1]);
    }
  }

  lemma {:induction false} LegsForShape(accounts: Accounts, rows: seq<Row>, g: Group)
    ensures forall r :: r in LegsFor(accounts, rows, g) ==> IsLeg(accounts, rows, r, g)
  {
    var at := PostedAt(accounts, rows, g);
    if at.Some? {
      LegsShape(accounts, g, at.value, GroupNet(accounts, rows, g), ContrasOf(accounts, g.1));
    }
  }

  lemma {:induction false} InsertedShape(accounts: Accounts, rows: seq<Row>, groups: seq<Group>)
    ensures forall r :: r in Inserted(accounts, rows, groups) ==> exists g :: g in groups && IsLeg(accounts, rows, r, g)
  {
    if groups == [] {
    } else {
      InsertedShape(accounts, rows, groups[..|groups| - 1]);
      LegsForShape(accounts, rows, groups[|groups| - 1]);
    }
  }

  lemma {:induction false} InsertedContains(accounts: Accounts, rows: seq<Row>, groups: seq<Group>, g: Group)
    requires g in groups
    ensures forall r :: r in LegsFor(accounts, rows, g) ==> r in Inserted(accounts, rows, groups)
  {
    if g in groups[..|groups| - 1] {
      InsertedContains(accounts, rows, groups[..|groups| - 1], g);
    }
  }

  lemma {:induction false} GroupsComplete(accounts: Accounts, rows: seq<Row>, g: Group)
    ensures g in Groups(accounts, rows) <==> PostedAt(accounts, rows, g).Some?
    ensures g in Groups(accounts, rows) <==> exists r :: r in rows && InGroup(accounts, r, g)
  {
    if rows == [] {
    } else {
      var n := |rows| - 1;
      GroupsComplete(accounts, rows[..n], g);
      assert forall r :: r in rows <==> r in rows[..n] || r == rows[n];
      if InGroup(accounts, rows[n], g) {
        assert rows[n] in rows;
      }
    }
  }

  lemma {:induction false} GroupsDistinct(accounts: Accounts, rows: seq<Row>)
    ensures forall i, k :: 0 <= i < k < |Groups(accounts, rows)| ==>
      Groups(accounts, rows)[i] != Groups(accounts, rows)[k]
  {
    if rows == [] {
    } else {
      GroupsDistinct(accounts, rows[..|rows| - 1]);
    }
  }

  lemma {:induction false} NetOutside(accounts: Accounts, rows: seq<Row>, g: Group)
    requires g !in Groups(accounts, rows)
    ensures GroupNet(accounts, rows, g) == 0
  {
    GroupsComplete(accounts, rows, g);
    forall r | r in rows ensures InEntry(g.0, HoldingShares(accounts, g.1))(r) == 0 {
      assert !InGroup(accounts, r, g);
    }
    SumZero(rows, InEntry(g.0, HoldingShares(accounts, g.1)));
  }

  lemma {:induction false} PostedAtExists(accounts: Accounts, rows: seq<Row>, g: Group)
    requires PostedAt(accounts, rows, g).Some?
    ensures exists r :: r in rows && InGroup(accounts, r, g) && r.at == PostedAt(accounts, rows, g).value
    ensures forall r :: r in rows && InGroup(accounts, r, g) ==> PostedAt(accounts, rows, g).value <= r.at
  {
    var n := |rows| - 1;
    if PostedAt(accounts, rows[..n], g).Some? {
      PostedAtExists(accounts, rows[..n], g);
    } else {
      GroupsComplete(accounts, rows[..n], g);
    }
    assert forall r :: r in rows <==> r in rows[..n] || r == rows[n];
  }

  // ---------------------------------------------------------------------------------------------
  // History is not rewritten
  // ---------------------------------------------------------------------------------------------

  /** Rows that carry nothing under a weight leave its total alone. */
  lemma {:induction false} SilentInsert(accounts: Accounts, rows: seq<Row>, w: Row -> int)
    requires forall r, g :: IsLeg(accounts, rows, r, g) ==> w(r) == 0
    ensures Sum(Backfilled(accounts, rows), w) == Sum(rows, w)
  {
    var added := Inserted(accounts, rows, Groups(accounts, rows));
    InsertedShape(accounts, rows, Groups(accounts, rows));
    SumZero(added, w);
    SumAppend(rows, added, w);
  }

  /**
   * No past answer changes: every account's balance, now and as of every instant, and every holding's share
   * count likewise; every existing row is kept, and every new one is dated like a row its entry already had.
   */
  lemma {:induction false} HistoryUnchanged(accounts: Accounts, rows: seq<Row>, a: AccountId, t: Instant)
    ensures var later := Backfilled(accounts, rows);
      && rows <= later
      && Balance(later, a) == Balance(rows, a) && BalanceBefore(later, a, t) == BalanceBefore(rows, a, t)
      && (a in accounts && accounts[a].IsHolding() ==>
            Held(later, a) == Held(rows, a) && HeldBefore(later, a, t) == HeldBefore(rows, a, t))
    ensures forall r :: r in Backfilled(accounts, rows) ==> exists o :: o in rows && o.entry == r.entry && o.at == r.at
  {
    SilentInsert(accounts, rows, OnRows(AmountOn(a)));
    SilentInsert(accounts, rows, Before(t, AmountOn(a)));
    if a in accounts && accounts[a].IsHolding() {
      SilentInsert(accounts, rows, OnRows(SharesOn(a)));
      SilentInsert(accounts, rows, Before(t, SharesOn(a)));
    }
    InsertedShape(accounts, rows, Groups(accounts, rows));
    forall r | r in Backfilled(accounts, rows) && r !in rows
      ensures exists o :: o in rows && o.entry == r.entry && o.at == r.at
    {
      var g :| IsLeg(accounts, rows, r, g);
      PostedAtExists(accounts, rows, g);
    }
  }

  // ---------------------------------------------------------------------------------------------
  // What is repaired
  // ---------------------------------------------------------------------------------------------

  lemma {:induction false} LegsTotal(accounts: Accounts, g: Group, at: Instant, net: int, contras: seq<AccountId>,
                                     of: Group)
    requires forall a :: a in contras ==> IsContraOf(accounts, a, g.1)
    ensures Sum(Legs(g, at, net, contras), InEntry(of.0, SharesIn(accounts, Some(of.1)))) == if g == of
      then |contras| * -net else 0
  {
    if contras == [] {
    } else {
      var n := |contras| - 1;
      assert contras[n] in contras;
      LegsTotal(accounts, g, at, net, contras[..n], of);
      var legs := Legs(g, at, net, contras);
      assert legs[..|legs| - 1] == Legs(g, at, net, contras[..n]);
      assert (n + 1) * -net == n * -net - net;
    }
  }

  ghost function Owed(accounts: Accounts, rows: seq<Row>, g: Group): int
  {
    if HasContra(accounts, rows, g) then 0 else |ContrasOf(accounts, g.1)| * -GroupNet(accounts, rows, g)
  }

  lemma {:induction false} LegsForTotal(accounts: Accounts, rows: seq<Row>, g: Group, of: Group)
    requires PostedAt(accounts, rows, g).Some?
    ensures Sum(LegsFor(accounts, rows, g), InEntry(of.0, SharesIn(accounts, Some(of.1)))) == if g == of
      then Owed(accounts, rows, of) else 0
  {
    LegsTotal(accounts, g, PostedAt(accounts, rows, g).value, GroupNet(accounts, rows, g), ContrasOf(accounts, g.1),
      of);
  }

  lemma {:induction false} InsertedTotal(accounts: Accounts, rows: seq<Row>, groups: seq<Group>, of: Group)
    requires forall g :: g in groups ==> PostedAt(accounts, rows, g).Some?
    requires forall i, k :: 0 <= i < k < |groups| ==> groups[i] != groups[k]
    ensures Sum(Inserted(accounts, rows, groups), InEntry(of.0, SharesIn(accounts, Some(of.1))))
         == if of in groups then Owed(accounts, rows, of) else 0
  {
    hide LegsFor, Owed, PostedAt;
    if groups == [] {
    } else {
      var n := |groups| - 1;
      assert groups[n] in groups;
      InsertedTotal(accounts, rows, groups[..n], of);
      LegsForTotal(accounts, rows, groups[n], of);
      SumAppend(Inserted(accounts, rows, groups[..n]), LegsFor(accounts, rows, groups[n]),
        InEntry(of.0, SharesIn(accounts, Some(of.1))));
      assert of in groups <==> of in groups[..n] || of == groups[n];
      assert groups[n] !in groups[..n];
    }
  }

  /** A group without a contra line moves exactly what its holdings move. */
  lemma {:induction false} ContraFree(accounts: Accounts, rows: seq<Row>, g: Group)
    requires AccountsOk(accounts) && !HasContra(accounts, rows, g)
    ensures EntryShares(rows, accounts, g.0, Some(g.1)) == GroupNet(accounts, rows, g)
  {
    forall r | r in rows
      ensures InEntry(g.0, SharesIn(accounts, Some(g.1)))(r) == InEntry(g.0, HoldingShares(accounts, g.1))(r)
    {
      assert !IsContraRow(accounts, r, g);
    }
    SumSame(rows, InEntry(g.0, SharesIn(accounts, Some(g.1))), InEntry(g.0, HoldingShares(accounts, g.1)));
  }

  /** The whole effect on one group, for every table: a group that had a contra line is left exactly as it was. */
  lemma {:induction false} GroupEffect(accounts: Accounts, rows: seq<Row>, g: Group)
    requires AccountsOk(accounts)
    ensures EntryShares(Backfilled(accounts, rows), accounts, g.0, Some(g.1))
         == if HasContra(accounts, rows, g) then EntryShares(rows, accounts, g.0, Some(g.1))
            else (1 - |ContrasOf(accounts, g.1)|) * GroupNet(accounts, rows, g)
  {
    hide HasContra, Groups, PostedAt, Inserted, GroupNet;
    var groups := Groups(accounts, rows);
    GroupsDistinct(accounts, rows);
    forall x | x in groups ensures PostedAt(accounts, rows, x).Some? {
      GroupsComplete(accounts, rows, x);
    }
    InsertedTotal(accounts, rows, groups, g);
    SumAppend(rows, Inserted(accounts, rows, groups), InEntry(g.0, SharesIn(accounts, Some(g.1))));
    if g !in groups {
      NetOutside(accounts, rows, g);
    }
    if !HasContra(accounts, rows, g) {
      ContraFree(accounts, rows, g);
      Repaid(|ContrasOf(accounts, g.1)|, GroupNet(accounts, rows, g));
    }
  }

  lemma {:induction false} Repaid(n: nat, net: int)
    ensures net + n * -net == (1 - n) * net
    ensures net == 0 ==> n * -net == 0
  {
  }

  /** A group the backfill leaves conserved: judged before it runs. */
  ghost predicate Mendable(accounts: Accounts, rows: seq<Row>, g: Group)
  {
    if HasContra(accounts, rows, g) then EntryShares(rows, accounts, g.0, Some(g.1)) == 0
    else GroupNet(accounts, rows, g) == 0 || |ContrasOf(accounts, g.1)| == 1
  }

  lemma {:induction false} NullGroup(accounts: Accounts, rows: seq<Row>, e: nat)
    ensures EntryShares(Backfilled(accounts, rows), accounts, e, None) == EntryShares(rows, accounts, e, None)
    ensures EntryNet(Backfilled(accounts, rows), e) == EntryNet(rows, e)
  {
    SilentInsert(accounts, rows, InEntry(e, SharesIn(accounts, None)));
    SilentInsert(accounts, rows, InEntry(e, Amounts));
  }

  /**
   * Exactly when the repair is complete. Afterwards no entry is unconserved if and only if every group is
   * either contra-free with one contra account to receive its net (or nothing to receive), or was already
   * conserved, and no cash line carries stray shares.
   */
  lemma {:induction false} RepairsExactly(accounts: Accounts, rows: seq<Row>)
    requires AccountsOk(accounts)
    ensures UnconservedEntries(Backfilled(accounts, rows), accounts) == {} <==>
      && (forall e, i :: Mendable(accounts, rows, (e, i)))
      && (forall e :: EntryShares(rows, accounts, e, None) == 0)
  {
    var later := Backfilled(accounts, rows);
    forall e, i ensures Mendable(accounts, rows, (e, i)) <==> EntryShares(later, accounts, e, Some(i)) == 0 {
      MendableMeans(accounts, rows, (e, i));
    }
    forall e ensures EntryShares(rows, accounts, e, None) == EntryShares(later, accounts, e, None) {
      NullGroup(accounts, rows, e);
    }
    if UnconservedEntries(later, accounts) == {} {
      forall e, g ensures EntryShares(later, accounts, e, g) == 0 {
        NothingUnconserved(later, accounts, e, g);
      }
    } else {
      var r :| r in later && r.line.account in accounts
        && EntryShares(later, accounts, r.entry, accounts[r.line.account].instrument) != 0;
      match accounts[r.line.account].instrument {
        case None => assert EntryShares(rows, accounts, r.entry, None) != 0;
        case Some(i) => assert !Mendable(accounts, rows, (r.entry, i));
      }
    }
  }

  lemma {:induction false} MendableMeans(accounts: Accounts, rows: seq<Row>, g: Group)
    requires AccountsOk(accounts)
    ensures Mendable(accounts, rows, g) <==> EntryShares(Backfilled(accounts, rows), accounts, g.0, Some(g.1)) == 0
  {
    GroupEffect(accounts, rows, g);
    var n, net := |ContrasOf(accounts, g.1)|, GroupNet(accounts, rows, g);
    if n != 1 && net != 0 {
      NoZeroProduct(1 - n, net);
    }
  }

  lemma {:induction false} NoZeroProduct(x: int, y: int)
    requires x != 0 && y != 0
    ensures x * y != 0
  {
  }

  // ---------------------------------------------------------------------------------------------
  // Running it again
  // ---------------------------------------------------------------------------------------------

  lemma {:induction false} SecondNet(accounts: Accounts, rows: seq<Row>, g: Group)
    ensures GroupNet(accounts, Backfilled(accounts, rows), g) == GroupNet(accounts, rows, g)
  {
    SilentInsert(accounts, rows, InEntry(g.0, HoldingShares(accounts, g.1)));
  }

  lemma {:induction false} SecondLegs(accounts: Accounts, rows: seq<Row>, g: Group)
    ensures LegsFor(accounts, Backfilled(accounts, rows), g) == []
  {
    var later := Backfilled(accounts, rows);
    SecondNet(accounts, rows, g);
    if GroupNet(accounts, rows, g) != 0 && !HasContra(accounts, later, g) {
      assert forall r :: r in rows ==> r in later;
      if g !in Groups(accounts, rows) {
        NetOutside(accounts, rows, g);
      }
      GroupsComplete(accounts, rows, g);
      InsertedContains(accounts, rows, Groups(accounts, rows), g);
      LegsForShape(accounts, rows, g);
      var legs := LegsFor(accounts, rows, g);
      assert forall r :: r in legs ==> r in later && IsContraRow(accounts, r, g);
      if legs != [] {
        HasMember(legs);
      }
      LegsEmpty(g, PostedAt(accounts, rows, g).value, GroupNet(accounts, rows, g), ContrasOf(accounts, g.1));
    }
  }

  lemma {:induction false} HasMember(s: seq<Row>)
    requires s != []
    ensures exists r :: r in s
  {
    assert s[0] in s;
  }

  lemma {:induction false} LegsEmpty(g: Group, at: Instant, net: int, contras: seq<AccountId>)
    ensures Legs(g, at, net, contras) == [] <==> contras == []
  {
  }

  /** Running it again inserts nothing, whatever the table was. */
  lemma {:induction false} SecondRun(accounts: Accounts, rows: seq<Row>)
    ensures Backfilled(accounts, Backfilled(accounts, rows)) == Backfilled(accounts, rows)
  {
    NothingMore(accounts, rows, Groups(accounts, Backfilled(accounts, rows)));
  }

  lemma {:induction false} NothingMore(accounts: Accounts, rows: seq<Row>, groups: seq<Group>)
    ensures Inserted(accounts, Backfilled(accounts, rows), groups) == []
  {
    if groups == [] {
    } else {
      NothingMore(accounts, rows, groups[..|groups| - 1]);
      SecondLegs(accounts, rows, groups[|groups| - 1]);
    }
  }

  // ---------------------------------------------------------------------------------------------
  // One contra per traded instrument
  // ---------------------------------------------------------------------------------------------

  function Traded(accounts: Accounts, rows: seq<Row>): set<InstrumentId>
  {
    set r | r in rows && MovesHoldingRow(accounts, r) :: accounts[r.line.account].instrument.value
  }

  predicate SystemContra(accounts: Accounts, system: UserId, a: AccountId, i: InstrumentId)
  {
    IsContraOf(accounts, a, i) && accounts[a].owner == system
  }

  predicate HasSystemContra(accounts: Accounts, system: UserId, i: InstrumentId)
  {
    exists a :: a in accounts && SystemContra(accounts, system, a, i)
  }

  /** The unique constraint on (owner, instrument). */
  ghost predicate OnePerOwner(accounts: Accounts)
  {
    forall a, b :: (a in accounts && b in accounts && accounts[a].instrument.Some?
                    && accounts[a].instrument == accounts[b].instrument && accounts[a].owner == accounts[b].owner) ==>
                        a == b
  }

  /**
   * The instrument-bearing accounts so far: constraints hold, and contras are the system user's, which holds nothing.
   */
  ghost predicate ContrasOk(accounts: Accounts, system: UserId)
  {
    && AccountsOk(accounts) && OnePerOwner(accounts)
    && forall a :: a in accounts && accounts[a].instrument.Some? ==>
        (accounts[a].kind == Equity <==> accounts[a].owner == system)
  }

  ghost predicate Grown(accounts: Accounts, out: Accounts, system: UserId, wanted: set<InstrumentId>)
  {
    && (forall a :: a in accounts ==> a in out && out[a] == accounts[a])
    && (forall a :: a in out && a !in accounts ==> exists i ::
          i in wanted && out[a] == ContraAccount(system, i) && !HasSystemContra(accounts, system, i))
  }

  function ContraAccount(system: UserId, i: InstrumentId): Account
  {
    Account(system, "shares outstanding", Equity, "USD", Some(i))
  }

  /** Traded instruments without a contra. */
  function Missing(accounts: Accounts, rows: seq<Row>, system: UserId): set<InstrumentId>
  {
    set i | i in Traded(accounts, rows) && !HasSystemContra(accounts, system, i)
  }

  method GetOrCreateContra(accounts: Accounts, system: UserId, i: InstrumentId, id: AccountId)
    returns (out: Accounts, created: bool)
    ensures created <==> !HasSystemContra(accounts, system, i)
    ensures out == if created then accounts[id := ContraAccount(system, i)] else accounts
  {
    created := !HasSystemContra(accounts, system, i);
    out := if created then accounts[id := ContraAccount(system, i)] else accounts;
  }

  /** `ensure_share_contras`: a contra for every traded instrument that lacks one; a second run creates none. */
  method EnsureShareContras(accounts: Accounts, rows: seq<Row>, system: UserId, next: AccountId)
    returns (out: Accounts, count: nat)
    requires ContrasOk(accounts, system)
    requires forall a :: a in accounts ==> a < next
    ensures ContrasOk(out, system) && Grown(accounts, out, system, Traded(accounts, rows))
    ensures forall i :: i in Traded(accounts, rows) ==> HasSystemContra(out, system, i)
    ensures forall a :: a in out && a !in accounts ==>
      && out[a].owner == system && out[a].kind == Equity && out[a].currency == "USD"
      && out[a].instrument.Some? && out[a].instrument.value in Traded(accounts, rows)
    ensures count == |Missing(accounts, rows, system)|
  {
    hide ContrasOk, HasSystemContra, Traded, Grown, Served, Missing;
    out, count := accounts, 0;
    var traded := Traded(accounts, rows);
    var left, id := traded, next;
    ghost var made: set<InstrumentId> := {};
    NothingGrown(accounts, system);
    assert traded - left == {};
    while left != {}
      invariant left <= traded
      invariant forall a :: a in out ==> a < id
      invariant Served(accounts, out, system, traded - left, made)
      invariant count == |made|
      decreases left
    {
      var i :| i in left;
      assert traded - (left - {i}) == (traded - left) + {i};
      NextServed(accounts, out, system, traded - left, made, i, id);
      var grown, created := GetOrCreateContra(out, system, i, id);
      if created {
        count, made := count + 1, made + {i};
      }
      out, id, left := grown, id + 1, left - {i};
    }
    assert traded - left == traded;
    AllServed(accounts, out, rows, system, made);
  }

  /** The loop of `ensure_share_contras` once some instruments have been served. */
  ghost predicate Served(accounts: Accounts, out: Accounts, system: UserId, served: set<InstrumentId>,
                         made: set<InstrumentId>)
  {
    && ContrasOk(out, system) && Grown(accounts, out, system, served)
    && (forall i :: i in served ==> HasSystemContra(out, system, i))
    && (forall i :: i in made <==> i in served && !HasSystemContra(accounts, system, i))
  }

  lemma {:induction false} AllServed(accounts: Accounts, out: Accounts, rows: seq<Row>, system: UserId,
                                     made: set<InstrumentId>)
    requires Served(accounts, out, system, Traded(accounts, rows), made)
    ensures ContrasOk(out, system) && Grown(accounts, out, system, Traded(accounts, rows))
    ensures forall i :: i in Traded(accounts, rows) ==> HasSystemContra(out, system, i)
    ensures forall a :: a in out && a !in accounts ==>
      && out[a].owner == system && out[a].kind == Equity && out[a].currency == "USD"
      && out[a].instrument.Some? && out[a].instrument.value in Traded(accounts, rows)
    ensures made == Missing(accounts, rows, system)
  {
  }

  lemma {:induction false} NextServed(accounts: Accounts, out: Accounts, system: UserId, served: set<InstrumentId>,
                                      made: set<InstrumentId>,
                                      i: InstrumentId, id: AccountId)
    requires Served(accounts, out, system, served, made) && i !in served && id !in out
    ensures i !in made
    ensures if HasSystemContra(out, system, i) then Served(accounts, out, system, served + {i}, made)
            else Served(accounts, out[id := ContraAccount(system, i)], system, served + {i}, made + {i})
  {
    if HasSystemContra(out, system, i) {
      WasThere(accounts, out, system, served, made, i);
    } else {
      OneMoreContra(accounts, out, system, served, made, i, id);
    }
  }

  lemma {:induction false} NothingGrown(accounts: Accounts, system: UserId)
    requires ContrasOk(accounts, system)
    ensures Served(accounts, accounts, system, {}, {})
  {
  }

  /** An instrument not yet served has a contra only if it always had. */
  lemma {:induction false} WasThere(accounts: Accounts, out: Accounts, system: UserId, served: set<InstrumentId>,
                                    made: set<InstrumentId>,
                                    i: InstrumentId)
    requires Served(accounts, out, system, served, made) && i !in served && HasSystemContra(out, system, i)
    ensures Served(accounts, out, system, served + {i}, made)
  {
  }

  lemma {:induction false} StillAbsent(accounts: Accounts, out: Accounts, system: UserId, i: InstrumentId)
    requires !HasSystemContra(out, system, i)
    requires forall a :: a in accounts ==> a in out && out[a] == accounts[a]
    ensures !HasSystemContra(accounts, system, i)
  {
  }

  lemma {:induction false} ContraAdded(before: Accounts, system: UserId, i: InstrumentId, id: AccountId)
    requires ContrasOk(before, system) && !HasSystemContra(before, system, i) && id !in before
    ensures ContrasOk(before[id := ContraAccount(system, i)], system)
  {
  }

  lemma {:induction false} ContrasKept(before: Accounts, system: UserId, i: InstrumentId, id: AccountId)
    requires id !in before
    ensures var out := before[id := ContraAccount(system, i)];
      forall x :: HasSystemContra(before, system, x) || x == i ==> HasSystemContra(out, system, x)
  {
    var out := before[id := ContraAccount(system, i)];
    forall x | HasSystemContra(before, system, x) ensures HasSystemContra(out, system, x) {
      var a :| a in before && SystemContra(before, system, a, x);
      assert SystemContra(out, system, a, x);
    }
    assert SystemContra(out, system, id, i);
  }

  lemma {:induction false} OneMoreContra(accounts: Accounts, before: Accounts, system: UserId,
                                         served: set<InstrumentId>,
                                         made: set<InstrumentId>, i: InstrumentId, id: AccountId)
    requires Served(accounts, before, system, served, made) && i !in served
    requires !HasSystemContra(before, system, i) && id !in before
    ensures i !in made && Served(accounts, before[id := ContraAccount(system, i)], system, served + {i}, made + {i})
  {
    ContraAdded(before, system, i, id);
    ContrasKept(before, system, i, id);
    StillAbsent(accounts, before, system, i);
    hide ContrasOk, HasSystemContra;
    var out := before[id := ContraAccount(system, i)];
    forall a | a in out && a !in accounts
      ensures exists x ::
        x in served + {i} && out[a] == ContraAccount(system, x) && !HasSystemContra(accounts, system, x)
    {
      if a == id {
        assert i in served + {i};
      } else {
        var x :| x in served && before[a] == ContraAccount(system, x) && !HasSystemContra(accounts, system, x);
        assert x in served + {i};
      }
    }
  }

  lemma {:induction false} ExactlyOneContra(accounts: Accounts, system: UserId, i: InstrumentId)
    requires ContrasOk(accounts, system) && HasSystemContra(accounts, system, i)
    ensures |ContrasOf(accounts, i)| == 1
  {
    var a :| a in accounts && SystemContra(accounts, system, a, i);
    var q := ContrasOf(accounts, i);
    assert a in q;
    forall k | 0 <= k < |q| ensures q[k] == a {
      assert q[k] in q;
    }
    if |q| > 1 {
      FirstTwoDiffer(q);
    }
  }

  lemma {:induction false} FirstTwoDiffer(q: seq<AccountId>)
    requires StrictlyUp(q) && |q| > 1
    ensures q[0] < q[1]
  {
  }

  /**
   * The migration as a whole. With a contra ensured for every traded instrument, a table whose groups were
   * contra-free or already conserved, and whose cash lines carry no shares, has no unconserved entry left.
   */
  lemma {:induction false} MigrationRepairs(before: Accounts, accounts: Accounts, rows: seq<Row>, system: UserId)
    requires ContrasOk(accounts, system) && Grown(before, accounts, system, Traded(before, rows))
    requires forall i :: i in Traded(before, rows) ==> HasSystemContra(accounts, system, i)
    requires forall r :: r in rows ==> r.line.account in before
    requires forall e, i :: HasContra(accounts, rows, (e, i)) ==> EntryShares(rows, accounts, e, Some(i)) == 0
    requires forall e :: EntryShares(rows, accounts, e, None) == 0
    ensures UnconservedEntries(Backfilled(accounts, rows), accounts) == {}
  {
    forall e, i ensures Mendable(accounts, rows, (e, i)) {
      var g := (e, i);
      if g in Groups(accounts, rows) {
        GroupsComplete(accounts, rows, g);
        var r :| r in rows && InGroup(accounts, r, g);
        assert MovesHoldingRow(before, r);
        assert i in Traded(before, rows);
        ExactlyOneContra(accounts, system, i);
      } else {
        NetOutside(accounts, rows, g);
      }
    }
    RepairsExactly(accounts, rows);
  }
}
