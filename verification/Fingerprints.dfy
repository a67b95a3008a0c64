/** Giving old keyed entries the digest they would have been written with (backend/ledger/fingerprints.py). */
module Fingerprints {
  import opened Wrappers
  import opened Journal
  import opened Serial
  import opened Orders
  import opened OrderBook

  /** The first line that takes money out, or puts money in. */
  function FirstLine(lines: seq<Line>, out: bool): (l: Option<Line>)
  {
    if lines == [] then None
    else if (if out then lines[0].amount < 0 else lines[0].amount > 0) then Some(lines[0])
    else FirstLine(lines[1..], out)
  }

  predicate Produced(orders: map<OrderId, Order>, o: OrderId, e: nat)
  {
    o in orders && orders[o].entry == Some(e)
  }

  /** Each entry was produced by one order at most, as the link between them guarantees. */
  ghost predicate OneProducer(orders: map<OrderId, Order>)
  {
    forall a, b, e :: Produced(orders, a, e) && Produced(orders, b, e) ==> a == b
  }

  ghost function Producer(orders: map<OrderId, Order>, e: nat): (o: Option<OrderId>)
    ensures o.Some? ==> Produced(orders, o.value, e)
    ensures o.None? ==> forall a :: !Produced(orders, a, e)
  {
    if a :| Produced(orders, a, e) then Some(a) else None
  }

  /** The digest readable off a keyed entry: from its lines for a transfer, from its order for a fill. */
  ghost function Recovered(orders: map<OrderId, Order>, e: nat, entry: Entry): Option<Fingerprint>
  {
    match entry.key
    case None => None
    case Some(OrderKey(_)) =>
      var o := Producer(orders, e);
      if o.None? then None else Some(OrderDigest(orders[o.value].ticket))
    case Some(ClientKey(_)) =>
      var source, destination := FirstLine(entry.lines, true), FirstLine(entry.lines, false);
      if source.None? || destination.None? then None
      else Some(TransferPrint(source.value.account, destination.value.account, -source.value.amount))
  }

  ghost function Restored(orders: map<OrderId, Order>, e: nat, entry: Entry): Entry
  {
    if entry.key.Some? && entry.fingerprint.None? then entry.(fingerprint := Recovered(orders, e, entry)) else entry
  }

  method FindProducer(orders: map<OrderId, Order>, e: nat) returns (o: Option<OrderId>)
    requires OneProducer(orders)
    ensures o == Producer(orders, e)
  {
    var left := orders.Keys;
    while left != {}
      invariant left <= orders.Keys
      invariant forall a :: a in orders && a !in left ==> !Produced(orders, a, e)
      decreases left
    {
      var a :| a in left;
      if orders[a].entry == Some(e) {
        assert Produced(orders, a, e);
        return Some(a);
      }
      left := left - {a};
    }
    return None;
  }

  /** `backfill_entry_fingerprints`: one pass over the keyed entries that have no digest. */
  method BackfillEntryFingerprints(orders: map<OrderId, Order>, j: seq<Entry>) returns (out: seq<Entry>, updated: nat)
    requires OneProducer(orders)
    ensures |out| == |j| && forall e :: 0 <= e < |j| ==> out[e] == Restored(orders, e, j[e])
    ensures forall e :: 0 <= e < |j| && (j[e].key.None? || j[e].fingerprint.Some?) ==> out[e] == j[e]
    ensures forall e :: 0 <= e < |j| ==> out[e] == j[e].(fingerprint := out[e].fingerprint)
    ensures updated == |set e | 0 <= e < |j| && out[e] != j[e]|
  {
    out, updated := [], 0;
    ghost var changed: set<int> := {};
    for e := 0 to |j|
      invariant |out| == e && forall i :: 0 <= i < e ==> out[i] == Restored(orders, i, j[i])
      invariant changed == set i | 0 <= i < e && out[i] != j[i]
      invariant updated == |changed|
    {
      var entry := j[e];
      if entry.key.Some? && entry.fingerprint.None? {
        var digest := None;
        if entry.key.value.OrderKey? {
          var o := FindProducer(orders, e);
          if o.Some? {
            digest := Some(OrderDigest(orders[o.value].ticket));
          }
        } else {
          var source, destination := FirstLine(entry.lines, true), FirstLine(entry.lines, false);
          if source.Some? && destination.Some? {
            digest := Some(TransferPrint(source.value.account, destination.value.account, -source.value.amount));
          }
        }
        entry := entry.(fingerprint := digest);
      }
      out := out + [entry];
      if entry != j[e] {
        changed := changed + {e};
        updated := updated + 1;
      }
    }
  }

  /** A keyed order without a digest gets the one its own fields give. */
  function RestoredOrder(o: Order): Order
  {
    if o.token.Some? && o.digest.None? then o.(digest := Some(OrderDigest(o.ticket))) else o
  }

  /** `backfill_order_fingerprints`. */
  method BackfillOrderFingerprints(orders: map<OrderId, Order>) returns (out: map<OrderId, Order>, updated: nat)
    ensures out.Keys == orders.Keys && forall o :: o in orders ==> out[o] == RestoredOrder(orders[o])
    ensures forall o :: o in orders && (orders[o].token.None? || orders[o].digest.Some?) ==> out[o] == orders[o]
    ensures forall o :: o in orders ==> out[o] == orders[o].(digest := out[o].digest)
    ensures updated == |set o | o in orders && out[o] != orders[o]|
  {
    out, updated := orders, 0;
    var left := orders.Keys;
    ghost var changed: set<OrderId> := {};
    while left != {}
      invariant left <= orders.Keys && out.Keys == orders.Keys
      invariant forall o :: o in orders ==> out[o] == if o in left then orders[o] else RestoredOrder(orders[o])
      invariant changed == set o | o in orders && out[o] != orders[o]
      invariant updated == |changed|
      decreases left
    {
      var o :| o in left;
      if orders[o].token.Some? && orders[o].digest.None? {
        out := out[o := orders[o].(digest := Some(OrderDigest(orders[o].ticket)))];
        updated, changed := updated + 1, changed + {o};
      }
      left := left - {o};
    }
  }

  // ---------------------------------------------------------------------------------------------
  // Round trip
  // ---------------------------------------------------------------------------------------------

  /** The journal with the digests of any chosen keyed entries taken away: what older code would have written. */
  function Erased(j: seq<Entry>, erased: nat -> bool): seq<Entry>
  {
    seq(|j|, e requires 0 <= e < |j| => if erased(e) then j[e].(fingerprint := None) else j[e])
  }

  /** The order table agrees with the fills of a history: each created entry, and only it, is its order's. */
  ghost predicate OrdersMatch(orders: map<OrderId, Order>, h: seq<Item>)
  {
    && OneProducer(orders)
    && forall i :: 0 <= i < |h| && h[i].Call? && h[i].request.Fill? && h[i].outcome.Created? ==>
         && Produced(orders, h[i].request.ticket.order, h[i].outcome.entry)
         && orders[h[i].request.ticket.order].ticket == h[i].request.ticket
  }

  /** Every keyed entry is the posting of the call that created it, with that call's digest. */
  ghost predicate Posted(entry: Entry, e: nat, item: Item)
  {
    && item.Call? && item.outcome == Created(e) && KeyOf(item.request) == entry.key
    && entry.fingerprint == Some(PrintOf(item.request))
    && (item.request.Transfer? ==>
          item.request.amount > 0
          && entry.lines == TransferPosting(item.request.source, item.request.destination, item.request.amount))
  }

  lemma {:induction false} KeyedEntry(h: seq<Item>, e: nat) returns (i: nat)
    requires Agrees(h) && e < |JournalOf(h)| && JournalOf(h)[e].key.Some?
    ensures i < |h| && Posted(JournalOf(h)[e], e, h[i])
  {
    var n := |h| - 1;
    var g, item := h[..n], h[n];
    var j := JournalOf(g);
    if e < |j| {
      assert JournalOf(h)[e] == j[e] by {
        if item.Call? {
          ExecuteKey(j, item.request, OrderKey(0));
          assert Execute(j, item.request).1[..|j|] == j;
        }
      }
      i := KeyedEntry(g, e);
    } else {
      i := n;
    }
  }

  lemma {:induction false} TransferReadable(s: AccountId, d: AccountId, n: int)
    requires n > 0
    ensures FirstLine(TransferPosting(s, d, n), true) == Some(Line(s, -n, None))
    ensures FirstLine(TransferPosting(s, d, n), false) == Some(Line(d, n, None))
  {
  }

  lemma {:induction false} DigestRecovered(orders: map<OrderId, Order>, h: seq<Item>, e: nat)
    requires Agrees(h) && OrdersMatch(orders, h) && e < |JournalOf(h)| && JournalOf(h)[e].key.Some?
    ensures JournalOf(h)[e].fingerprint.Some?
    ensures Recovered(orders, e, JournalOf(h)[e].(fingerprint := None)) == JournalOf(h)[e].fingerprint
  {
    var i := KeyedEntry(h, e);
    var r := h[i].request;
    match r {
      case Transfer(s, d, n, _, _) => TransferReadable(s, d, n);
      case Fill(t, _, _) => assert Produced(orders, t.order, e);
    }
  }

  lemma {:induction false} EntryRestored(orders: map<OrderId, Order>, h: seq<Item>, erased: nat -> bool, e: nat)
    requires Agrees(h) && OrdersMatch(orders, h) && e < |JournalOf(h)|
    requires JournalOf(h)[e].key.None? ==> JournalOf(h)[e].fingerprint.None?
    ensures Restored(orders, e, Erased(JournalOf(h), erased)[e]) == JournalOf(h)[e]
  {
    if JournalOf(h)[e].key.Some? {
      DigestRecovered(orders, h, e);
    }
  }

  lemma {:induction false} KeylessHasNoDigest(h: seq<Item>)
    ensures forall e :: 0 <= e < |JournalOf(h)| && JournalOf(h)[e].key.None? ==> JournalOf(h)[e].fingerprint.None?
  {
    if h == [] {
    } else {
      KeylessHasNoDigest(h[..|h| - 1]);
    }
  }

  /**
   * Erase the digests of any entries of any run and the backfill puts back exactly what was there: the amount
   * and both accounts are readable off a transfer's lines, and a fill's request is its order.
   */
  lemma {:induction false} BackfillRestores(orders: map<OrderId, Order>, h: seq<Item>, erased: nat -> bool)
    requires Agrees(h) && OrdersMatch(orders, h)
    ensures forall e :: 0 <= e < |JournalOf(h)| ==>
      Restored(orders, e, Erased(JournalOf(h), erased)[e]) == JournalOf(h)[e]
  {
    KeylessHasNoDigest(h);
    forall e | 0 <= e < |JournalOf(h)| ensures Restored(orders, e, Erased(JournalOf(h), erased)[e]) == JournalOf(h)[e] {
      EntryRestored(orders, h, erased, e);
    }
  }

  /** The order table with the digests of any chosen orders taken away. */
  function ErasedOrders(orders: map<OrderId, Order>, erased: OrderId -> bool): map<OrderId, Order>
  {
    map o | o in orders :: if erased(o) then orders[o].(digest := None) else orders[o]
  }

  /** And the same for orders, wherever only keyed orders carry digests and theirs are their own. */
  lemma {:induction false} OrdersRestored(orders: map<OrderId, Order>, erased: OrderId -> bool)
    requires TokensOk(orders) && forall o :: o in orders && orders[o].token.None? ==> orders[o].digest.None?
    ensures forall o :: o in orders ==> RestoredOrder(ErasedOrders(orders, erased)[o]) == orders[o]
  {
    forall o | o in orders ensures RestoredOrder(ErasedOrders(orders, erased)[o]) == orders[o] {
      if orders[o].token.Some? {
        assert HasToken(orders, o, orders[o].token.value);
      }
    }
  }
}
