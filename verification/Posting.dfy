/** Validation of an entry before it is written, and the contra legs of a fill (backend/ledger/services.py). */
module Posting {
  import opened Wrappers
  import opened Sums
  import opened Money
  import opened Journal
  import opened Reconciliation

  /** One requested leg, before quantization. */
  datatype LineSpec = LineSpec(account: AccountId, amount: Decimal, quantity: Option<Decimal>)

  datatype PostingError =
    | MissingFingerprint
    | TooFewLines
    | EmptyLine(account: AccountId)
    | NotUsd(account: AccountId)
    | MissingQuantity(account: AccountId)
    | StrayQuantity(account: AccountId)
    | ZeroQuantity(account: AccountId)
    | Unbalanced(total: int)
    | UnbalancedShares(group: Option<InstrumentId>, net: int)
    | DuplicateKey

  function Quantized(s: LineSpec): Line
  {
    Line(s.account, QuantizeMoney(s.amount),
         if s.quantity.None? then None else Some(QuantizeShares(s.quantity.value)))
  }

  function QuantizedAll(specs: seq<LineSpec>): (lines: seq<Line>)
    ensures |lines| == |specs|
    ensures forall i :: 0 <= i < |specs| ==> lines[i] == Quantized(specs[i])
  {
    if specs == [] then [] else QuantizedAll(specs[..|specs| - 1]) + [Quantized(specs[|specs| - 1])]
  }

  lemma {:induction false} QuantizedPrefix(specs: seq<LineSpec>, i: nat)
    requires i < |specs|
    ensures QuantizedAll(specs[..i + 1]) == QuantizedAll(specs[..i]) + [Quantized(specs[i])]
  {
  }

  /** The per-line rules: something moves, in dollars, with a quantity exactly where shares live. */
  predicate LineFits(accounts: Accounts, l: Line)
  {
    && (l.amount != 0 || l.quantity.Some?)
    && l.account in accounts
    && accounts[l.account].currency == "USD"
    && (l.quantity.Some? <==> accounts[l.account].IsPosition())
    && l.quantity != Some(0)
  }

  predicate LinesFit(accounts: Accounts, lines: seq<Line>)
  {
    |lines| >= 2 && forall l :: l in lines ==> LineFits(accounts, l)
  }

  ghost predicate Postable(accounts: Accounts, lines: seq<Line>)
  {
    LinesFit(accounts, lines) && EntrySound(accounts, lines)
  }

  predicate Moves(l: Line) { l.amount != 0 || l.quantity.Some? }

  predicate InDollars(accounts: Accounts, l: Line) { l.account in accounts && accounts[l.account].currency == "USD" }

  ghost predicate FirstStill(lines: seq<Line>, k: int, a: AccountId)
  {
    0 <= k < |lines| && lines[k].account == a && !Moves(lines[k]) && forall i :: 0 <= i < k ==> Moves(lines[i])
  }

  ghost predicate FirstForeign(accounts: Accounts, lines: seq<Line>, k: int, a: AccountId)
  {
    && 0 <= k < |lines| && lines[k].account == a && !InDollars(accounts, lines[k])
    && (forall l :: l in lines ==> Moves(l))
    && forall i :: 0 <= i < k ==> InDollars(accounts, lines[i])
  }

  /** The first line with the wrong kind of quantity, all lines moving something in dollars. */
  ghost predicate FirstMisfit(accounts: Accounts, lines: seq<Line>, k: int, a: AccountId)
  {
    && 0 <= k < |lines| && lines[k].account == a && a in accounts && !LineFits(accounts, lines[k])
    && (forall l :: l in lines ==> Moves(l) && InDollars(accounts, l))
    && forall i :: 0 <= i < k ==> LineFits(accounts, lines[i])
  }

  /** The rules in the order they are applied: which rule a reported error names, and that all earlier ones held. */
  ghost predicate Explains(accounts: Accounts, lines: seq<Line>, e: PostingError)
  {
    match e
    case TooFewLines => |lines| < 2
    case EmptyLine(a) => |lines| >= 2 && exists k :: FirstStill(lines, k, a)
    case NotUsd(a) => |lines| >= 2 && exists k :: FirstForeign(accounts, lines, k, a)
    case MissingQuantity(a) =>
      |lines| >= 2 && exists k ::
        FirstMisfit(accounts, lines, k, a) && accounts[a].IsPosition() && lines[k].quantity.None?
    case StrayQuantity(a) =>
      |lines| >= 2 && exists k ::
        FirstMisfit(accounts, lines, k, a) && !accounts[a].IsPosition() && lines[k].quantity.Some?
    case ZeroQuantity(a) =>
      |lines| >= 2 && exists k ::
        FirstMisfit(accounts, lines, k, a) && accounts[a].IsPosition() && lines[k].quantity == Some(0)
    case Unbalanced(total) => LinesFit(accounts, lines) && total == Sum(lines, Amounts) && total != 0
    case UnbalancedShares(g, net) =>
      LinesFit(accounts, lines) && Sum(lines, Amounts) == 0 && net == Sum(lines, SharesIn(accounts, g)) && net != 0
    case _ => false
  }

  lemma {:induction false} PostableMeans(accounts: Accounts, lines: seq<Line>)
    ensures Postable(accounts, lines) <==>
      && |lines| >= 2
      && (forall k :: 0 <= k < |lines| ==>
            && lines[k].account in accounts
            && (lines[k].amount != 0 || lines[k].quantity.Some?)
            && accounts[lines[k].account].currency == "USD"
            && (lines[k].quantity.Some? <==> accounts[lines[k].account].instrument.Some?)
            && lines[k].quantity != Some(0))
      && Sum(lines, (l: Line) => l.amount) == 0
      && forall g :: Sum(lines, SharesIn(accounts, g)) == 0
  {
    SumSame(lines, Amounts, (l: Line) => l.amount);
    assert forall k :: 0 <= k < |lines| ==> lines[k] in lines;
  }

  /** The validation half of `post_entry`: nothing is written, the first broken rule is reported. */
  method CheckLines(accounts: Accounts, specs: seq<LineSpec>) returns (r: Result<seq<Line>, PostingError>)
    requires forall s :: s in specs ==> s.account in accounts
    ensures r.Success? <==> Postable(accounts, QuantizedAll(specs))
    ensures r.Success? <==>
      var lines := QuantizedAll(specs);
      && |lines| >= 2
      && (forall k :: 0 <= k < |lines| ==>
            && (lines[k].amount != 0 || lines[k].quantity.Some?)
            && accounts[lines[k].account].currency == "USD"
            && (lines[k].quantity.Some? <==> accounts[lines[k].account].instrument.Some?)
            && lines[k].quantity != Some(0))
      && Sum(lines, (l: Line) => l.amount) == 0
      && forall g :: Sum(lines, SharesIn(accounts, g)) == 0
    ensures r.Success? ==> r.value == QuantizedAll(specs)
    ensures r.Failure? ==> Explains(accounts, QuantizedAll(specs), r.error)
  {
    var lines := QuantizedAll(specs);
    PostableMeans(accounts, lines);
    if |specs| < 2 {
      return Failure(TooFewLines);
    }
    assert forall k :: 0 <= k < |lines| ==> lines[k].account == specs[k].account && specs[k] in specs;
    var broken := CheckEach(accounts, lines);
    if broken.Some? {
      return Failure(broken.value);
    }
    var total := Sum(lines, Amounts);
    if total != 0 {
      return Failure(Unbalanced(total));
    }
    r := CheckShares(accounts, lines);
  }

  /** The three passes over single lines: something moves, in dollars, with a quantity exactly where shares live. */
  method CheckEach(accounts: Accounts, lines: seq<Line>) returns (broken: Option<PostingError>)
    requires |lines| >= 2 && forall k :: 0 <= k < |lines| ==> lines[k].account in accounts
    ensures broken.None? <==> LinesFit(accounts, lines)
    ensures broken.Some? ==> Explains(accounts, lines, broken.value)
  {
    for i := 0 to |lines|
      invariant forall k :: 0 <= k < i ==> Moves(lines[k])
    {
      if lines[i].amount == 0 && lines[i].quantity.None? {
        assert FirstStill(lines, i, lines[i].account);
        assert lines[i] in lines;
        return Some(EmptyLine(lines[i].account));
      }
    }
    for i := 0 to |lines|
      invariant forall k :: 0 <= k < i ==> InDollars(accounts, lines[k])
    {
      if accounts[lines[i].account].currency != "USD" {
        assert FirstForeign(accounts, lines, i, lines[i].account);
        assert lines[i] in lines;
        return Some(NotUsd(lines[i].account));
      }
    }
    for i := 0 to |lines|
      invariant forall k :: 0 <= k < i ==> LineFits(accounts, lines[k])
    {
      broken := CheckQuantity(accounts, lines, i);
      if broken.Some? {
        return;
      }
    }
    return None;
  }

  /** One line of the third pass. */
  method CheckQuantity(accounts: Accounts, lines: seq<Line>, i: nat) returns (broken: Option<PostingError>)
    requires |lines| >= 2 && i < |lines| && lines[i].account in accounts
    requires forall k :: 0 <= k < |lines| ==> Moves(lines[k]) && InDollars(accounts, lines[k])
    requires forall k :: 0 <= k < i ==> LineFits(accounts, lines[k])
    ensures broken.None? <==> LineFits(accounts, lines[i])
    ensures broken.Some? ==> Explains(accounts, lines, broken.value) && !LinesFit(accounts, lines)
  {
    var l := lines[i];
    assert l in lines;
    assert !LineFits(accounts, l) ==> FirstMisfit(accounts, lines, i, l.account);
    if accounts[l.account].IsPosition() && l.quantity.None? {
      return Some(MissingQuantity(l.account));
    }
    if !accounts[l.account].IsPosition() && l.quantity.Some? {
      return Some(StrayQuantity(l.account));
    }
    if l.quantity == Some(0) {
      return Some(ZeroQuantity(l.account));
    }
    return None;
  }

  /** The per-instrument netting of `post_entry`: a running total per group, then a look for one that is off. */
  method CheckShares(accounts: Accounts, lines: seq<Line>) returns (r: Result<seq<Line>, PostingError>)
    requires LinesFit(accounts, lines) && Sum(lines, Amounts) == 0
    ensures r.Success? <==> Postable(accounts, lines)
    ensures r.Success? ==> r.value == lines
    ensures r.Failure? ==> Explains(accounts, lines, r.error)
  {
    var moved: map<Option<InstrumentId>, int> := map[];
    var order: seq<Option<InstrumentId>> := [];
    for i := 0 to |lines|
      invariant forall g :: g in moved <==> g in order
      invariant forall g :: (if g in moved then moved[g] else 0) == Sum(lines[..i], SharesIn(accounts, g))
    {
      var l := lines[i];
      assert l in lines;
      assert lines[..i + 1][..i] == lines[..i];
      if l.quantity.Some? {
        var g := accounts[l.account].instrument;
        if g !in moved {
          order := order + [g];
        }
        moved := moved[g := (if g in moved then moved[g] else 0) + l.quantity.value];
      }
    }
    assert lines[..|lines|] == lines;
    for i := 0 to |order|
      invariant forall k :: 0 <= k < i ==> moved[order[k]] == 0
    {
      if moved[order[i]] != 0 {
        return Failure(UnbalancedShares(order[i], moved[order[i]]));
      }
    }
    forall g ensures Sum(lines, SharesIn(accounts, g)) == 0 {
      if g in moved {
        assert g in order;
      }
    }
    return Success(lines);
  }

  // ---------------------------------------------------------------------------------------------
  // Contra legs
  // ---------------------------------------------------------------------------------------------

  /** Shares moved by holdings of one instrument, and by everything else carrying it. */
  function HoldingShares(accounts: Accounts, i: InstrumentId): Line -> int
  {
    (l: Line) => if l.account in accounts && accounts[l.account].IsHolding()
      && accounts[l.account].instrument == Some(i)
                 then Shares(l) else 0
  }

  function ContraShares(accounts: Accounts, i: InstrumentId): Line -> int
  {
    (l: Line) => if l.account in accounts && !accounts[l.account].IsHolding()
      && accounts[l.account].instrument == Some(i)
                 then Shares(l) else 0
  }

  predicate MovesHolding(accounts: Accounts, s: LineSpec)
  {
    s.quantity.Some? && s.account in accounts && accounts[s.account].IsHolding()
  }

  /** The instruments whose holdings move, in order of first appearance. */
  function Instruments(accounts: Accounts, specs: seq<LineSpec>): seq<InstrumentId>
  {
    if specs == [] then []
    else Noted(accounts, Instruments(accounts, specs[..|specs| - 1]), specs[|specs| - 1])
  }

  function Noted(accounts: Accounts, order: seq<InstrumentId>, s: LineSpec): seq<InstrumentId>
  {
    if MovesHolding(accounts, s) && accounts[s.account].instrument.value !in order
    then order + [accounts[s.account].instrument.value] else order
  }

  ghost predicate Distinct(order: seq<InstrumentId>)
  {
    forall i, k :: 0 <= i < k < |order| ==> order[i] != order[k]
  }

  lemma {:induction false} InstrumentsDistinct(accounts: Accounts, specs: seq<LineSpec>)
    ensures Distinct(Instruments(accounts, specs))
  {
    if specs == [] {
    } else {
      InstrumentsDistinct(accounts, specs[..|specs| - 1]);
    }
  }

  lemma {:induction false} InstrumentsComplete(accounts: Accounts, specs: seq<LineSpec>)
    ensures forall s :: s in specs && MovesHolding(accounts, s) ==>
      accounts[s.account].instrument.value in Instruments(accounts, specs)
  {
    if specs == [] {
    } else {
      InstrumentsComplete(accounts, specs[..|specs| - 1]);
    }
  }

  function NetMoved(accounts: Accounts, specs: seq<LineSpec>, i: InstrumentId): int
  {
    Sum(QuantizedAll(specs), HoldingShares(accounts, i))
  }

  /** One zero-amount leg on the contra of each instrument whose holdings move by a non-zero net. */
  function ContraLegs(order: seq<InstrumentId>, net: InstrumentId -> int, contras: map<InstrumentId,
                      AccountId>): seq<LineSpec>
    requires forall i :: i in order ==> i in contras
  {
    if order == [] then []
    else
      var i := order[|order| - 1];
      var earlier := ContraLegs(order[..|order| - 1], net, contras);
      if net(i) != 0 then earlier + [LineSpec(contras[i], OfMoney(0), Some(OfShares(-net(i))))] else earlier
  }

  function Net(accounts: Accounts, specs: seq<LineSpec>): InstrumentId -> int
  {
    (i: InstrumentId) => NetMoved(accounts, specs, i)
  }

  function Conserved(accounts: Accounts, contras: map<InstrumentId, AccountId>, specs: seq<LineSpec>): seq<LineSpec>
    requires forall i :: i in Instruments(accounts, specs) ==> i in contras
  {
    specs + ContraLegs(Instruments(accounts, specs), Net(accounts, specs), contras)
  }

  lemma {:induction false} NetMovedStep(accounts: Accounts, specs: seq<LineSpec>, k: nat, i: InstrumentId)
    requires k < |specs|
    ensures NetMoved(accounts, specs[..k + 1], i)
         == NetMoved(accounts, specs[..k], i) + HoldingShares(accounts, i)(Quantized(specs[k]))
  {
    QuantizedPrefix(specs, k);
    var lines := QuantizedAll(specs[..k]);
    SumAppend(lines, [Quantized(specs[k])], HoldingShares(accounts, i));
    SumOne(Quantized(specs[k]), HoldingShares(accounts, i));
  }

  /** The `moved` dict of `conserve_shares`: net quantized shares per held instrument, in insertion order. */
  method AccumulateMoved(accounts: Accounts, specs: seq<LineSpec>)
    returns (order: seq<InstrumentId>, moved: map<InstrumentId, int>)
    ensures order == Instruments(accounts, specs)
    ensures Tallies(accounts, specs, order, moved)
  {
    order, moved := [], map[];
    for k := 0 to |specs|
      invariant order == Instruments(accounts, specs[..k])
      invariant Tallies(accounts, specs[..k], order, moved)
    {
      var s := specs[k];
      assert specs[..k + 1][..k] == specs[..k];
      ghost var before, seen := moved, order;
      if MovesHolding(accounts, s) {
        var i := accounts[s.account].instrument.value;
        if i !in moved {
          order := order + [i];
        }
        moved := moved[i := (if i in moved then moved[i] else 0) + QuantizeShares(s.quantity.value)];
      }
      TalliesStep(accounts, specs, k, seen, before, order, moved);
    }
    assert specs[..|specs|] == specs;
  }

  ghost predicate Tallies(accounts: Accounts, specs: seq<LineSpec>, order: seq<InstrumentId>, moved: map<InstrumentId,
                          int>)
  {
    && (forall i :: i in moved <==> i in order)
    && (forall i :: NetMoved(accounts, specs, i) == if i in moved then moved[i] else 0)
  }

  lemma {:induction false} TalliesStep(accounts: Accounts, specs: seq<LineSpec>, k: nat,
                                       seen: seq<InstrumentId>, before: map<InstrumentId, int>,
                                       order: seq<InstrumentId>, moved: map<InstrumentId, int>)
    requires k < |specs| && Tallies(accounts, specs[..k], seen, before)
    requires order == Noted(accounts, seen, specs[k])
    requires moved == if !MovesHolding(accounts, specs[k]) then before
                      else var i := accounts[specs[k].account].instrument.value;
                        before[i := (if i in before then before[i] else 0) + QuantizeShares(specs[k].quantity.value)]
    ensures Tallies(accounts, specs[..k + 1], order, moved)
  {
    forall i ensures NetMoved(accounts, specs[..k + 1], i) == if i in moved then moved[i] else 0 {
      NetMovedStep(accounts, specs, k, i);
      assert NetMoved(accounts, specs[..k], i) == if i in before then before[i] else 0;
    }
  }

  /** `conserve_shares`: net what the holdings move, then append the contra legs. */
  method ConserveShares(accounts: Accounts, contras: map<InstrumentId, AccountId>, specs: seq<LineSpec>)
    returns (out: seq<LineSpec>)
    requires forall i :: i in Instruments(accounts, specs) ==> i in contras
    ensures out == Conserved(accounts, contras, specs)
  {
    var order, moved := AccumulateMoved(accounts, specs);
    out := specs;
    for k := 0 to |order|
      invariant out == specs + ContraLegs(order[..k], Net(accounts, specs), contras)
    {
      assert order[..k + 1][..k] == order[..k];
      assert order[k] in order;
      if moved[order[k]] != 0 {
        out := out + [LineSpec(contras[order[k]], OfMoney(0), Some(OfShares(-moved[order[k]])))];
      }
    }
    assert order[..|order|] == order;
  }

  /** The account behind each contra really is that instrument's contra. */
  predicate ContrasFit(accounts: Accounts, contras: map<InstrumentId, AccountId>)
  {
    forall i :: i in contras ==>
      contras[i] in accounts && accounts[contras[i]].IsContra() && accounts[contras[i]].instrument == Some(i)
  }

  lemma {:induction false} QuantizedAppend(s: seq<LineSpec>, t: seq<LineSpec>)
    ensures QuantizedAll(s + t) == QuantizedAll(s) + QuantizedAll(t)
  {
  }

  ghost predicate LegsTotal(accounts: Accounts, legs: seq<Line>, i: InstrumentId, back: int)
  {
    && Sum(legs, Amounts) == 0
    && Sum(legs, HoldingShares(accounts, i)) == 0
    && Sum(legs, ContraShares(accounts, i)) == back
  }

  lemma {:induction false} NoLegs(accounts: Accounts, i: InstrumentId)
    ensures LegsTotal(accounts, QuantizedAll([]), i, 0)
  {
  }

  lemma {:induction false} LegsEffect(accounts: Accounts, order: seq<InstrumentId>, net: InstrumentId -> int,
                                      contras: map<InstrumentId, AccountId>, i: InstrumentId)
    requires ContrasFit(accounts, contras)
    requires forall x :: x in order ==> x in contras
    requires Distinct(order)
    ensures LegsTotal(accounts, QuantizedAll(ContraLegs(order, net, contras)), i, if i in order then -net(i) else 0)
  {
    hide LegsTotal, QuantizedAll;
    if order == [] {
      NoLegs(accounts, i);
    } else {
      var rest, of := order[..|order| - 1], order[|order| - 1];
      assert of in order;
      LegsEffect(accounts, rest, net, contras, i);
      var earlier := ContraLegs(rest, net, contras);
      assert i in order <==> i in rest || i == of;
      assert of !in rest;
      var back := if i in rest then -net(i) else 0;
      if net(of) == 0 {
        assert ContraLegs(order, net, contras) == earlier;
      } else {
        LegAppended(accounts, earlier, back, contras[of], of, -net(of), i);
        assert ContraLegs(order, net, contras) == earlier
          + [LineSpec(contras[of], OfMoney(0), Some(OfShares(-net(of))))];
      }
    }
  }

  lemma {:induction false} LegAppended(accounts: Accounts, earlier: seq<LineSpec>, back: int,
                                       contra: AccountId, of: InstrumentId, units: int, i: InstrumentId)
    requires contra in accounts && accounts[contra].IsContra() && accounts[contra].instrument == Some(of)
    requires LegsTotal(accounts, QuantizedAll(earlier), i, back)
    ensures LegsTotal(accounts, QuantizedAll(earlier + [LineSpec(contra, OfMoney(0), Some(OfShares(units)))]), i,
                      back + if i == of then units else 0)
  {
  }

  lemma {:induction false} LegQuantized(a: AccountId, units: int)
    ensures Quantized(LineSpec(a, OfMoney(0), Some(OfShares(units)))) == Line(a, 0, Some(units))
  {
  }

  lemma {:induction false} GroupSplit(accounts: Accounts, lines: seq<Line>, i: InstrumentId)
    ensures Sum(lines, SharesIn(accounts, Some(i)))
         == Sum(lines, HoldingShares(accounts, i)) + Sum(lines, ContraShares(accounts, i))
  {
    SumPlus(lines, HoldingShares(accounts, i), ContraShares(accounts, i), SharesIn(accounts, Some(i)));
  }

  lemma {:induction false} StillHoldings(accounts: Accounts, specs: seq<LineSpec>, i: InstrumentId)
    requires i !in Instruments(accounts, specs)
    ensures NetMoved(accounts, specs, i) == 0
  {
    var lines := QuantizedAll(specs);
    InstrumentsComplete(accounts, specs);
    forall l | l in lines ensures HoldingShares(accounts, i)(l) == 0 {
      var k :| 0 <= k < |lines| && lines[k] == l;
      assert specs[k] in specs;
    }
    SumZero(lines, HoldingShares(accounts, i));
  }

  /**
   * What wrapping leaves behind: money untouched, and in each instrument exactly the quantity the given
   * lines already put on non-holdings. So the result conserves an instrument if and only if that quantity
   * is zero, in particular whenever the lines came without contra legs.
   */
  lemma {:induction false} ConservedNet(accounts: Accounts, contras: map<InstrumentId, AccountId>,
                                        specs: seq<LineSpec>, i: InstrumentId)
    requires ContrasFit(accounts, contras)
    requires forall x :: x in Instruments(accounts, specs) ==> x in contras
    ensures var out := QuantizedAll(Conserved(accounts, contras, specs));
      && Sum(out, Amounts) == Sum(QuantizedAll(specs), Amounts)
      && Sum(out, SharesIn(accounts, Some(i))) == Sum(QuantizedAll(specs), ContraShares(accounts, i))
      && Sum(out, HoldingShares(accounts, i)) == NetMoved(accounts, specs, i)
      && Sum(out, ContraShares(accounts, i))
          == Sum(QuantizedAll(specs), ContraShares(accounts, i)) - NetMoved(accounts, specs, i)
  {
    var order, net := Instruments(accounts, specs), Net(accounts, specs);
    var legs := ContraLegs(order, net, contras);
    InstrumentsDistinct(accounts, specs);
    LegsEffect(accounts, order, net, contras, i);
    QuantizedAppend(specs, legs);
    var s, t := QuantizedAll(specs), QuantizedAll(legs);
    SumAppend(s, t, Amounts);
    SumAppend(s, t, HoldingShares(accounts, i));
    SumAppend(s, t, ContraShares(accounts, i));
    GroupSplit(accounts, s + t, i);
    if i !in order {
      StillHoldings(accounts, specs, i);
    }
  }

  /**
   * Wrapping twice is not wrapping once: the second pass ignores the first pass's legs and adds another
   * set, so an instrument that moved ends up off by exactly what moved.
   */
  lemma {:induction false} WrappedTwice(accounts: Accounts, contras: map<InstrumentId, AccountId>,
                                        specs: seq<LineSpec>, i: InstrumentId)
    requires ContrasFit(accounts, contras)
    requires forall x :: x in Instruments(accounts, specs) ==> x in contras
    requires Sum(QuantizedAll(specs), ContraShares(accounts, i)) == 0
    requires var once := Conserved(accounts, contras, specs);
      forall x :: x in Instruments(accounts, once) ==> x in contras
    ensures var once := Conserved(accounts, contras, specs);
      var twice := Conserved(accounts, contras, once);
      && Sum(QuantizedAll(once), SharesIn(accounts, Some(i))) == 0
      && Sum(QuantizedAll(twice), SharesIn(accounts, Some(i))) == -NetMoved(accounts, specs, i)
  {
    ConservedNet(accounts, contras, specs, i);
    ConservedNet(accounts, contras, Conserved(accounts, contras, specs), i);
  }
}
