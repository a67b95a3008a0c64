/** The calendar behind monthly statements (backend/statements/services.py). */
module Calendar {
  import opened Wrappers
  import opened Journal

  const MICROSECONDS_PER_DAY: int := 86400000000
  const MIN_YEAR: nat := 1
  const MAX_YEAR: nat := 9999

  datatype Date = Date(year: nat, month: nat, day: nat)

  predicate IsLeap(y: nat) { y % 4 == 0 && (y % 100 != 0 || y % 400 == 0) }

  /** `calendar.monthrange(...)[1]`. */
  function MonthLength(y: nat, m: nat): nat
    requires 1 <= m <= 12
  {
    if m == 2 then if IsLeap(y) then 29 else 28
    else if m == 4 || m == 6 || m == 9 || m == 11 then 30 else 31
  }

  predicate IsDate(d: Date)
  {
    MIN_YEAR <= d.year <= MAX_YEAR && 1 <= d.month <= 12 && 1 <= d.day <= MonthLength(d.year, d.month)
  }

  function DaysBeforeYear(y: nat): int
    requires y >= 1
  {
    365 * (y - 1) + (y - 1) / 4 - (y - 1) / 100 + (y - 1) / 400
  }

  function DaysBeforeMonth(y: nat, m: nat): int
    requires 1 <= m <= 12
  {
    if m == 1 then 0 else DaysBeforeMonth(y, m - 1) + MonthLength(y, m - 1)
  }

  /** The proleptic Gregorian day number, 0001-01-01 being day 1. */
  function Ordinal(d: Date): int
    requires d.year >= 1 && 1 <= d.month <= 12
  {
    DaysBeforeYear(d.year) + DaysBeforeMonth(d.year, d.month) + d.day
  }

  lemma {:induction false} YearLength(y: nat)
    requires y >= 1
    ensures DaysBeforeMonth(y, 12) + MonthLength(y, 12) == if IsLeap(y) then 366 else 365
    ensures DaysBeforeYear(y + 1) == DaysBeforeYear(y) + if IsLeap(y) then 366 else 365
  {
    var f: nat := if IsLeap(y) then 29 else 28;
    assert DaysBeforeMonth(y, 2) == 31;
    assert DaysBeforeMonth(y, 3) == 31 + f;
    assert DaysBeforeMonth(y, 4) == 62 + f;
    assert DaysBeforeMonth(y, 5) == 92 + f;
    assert DaysBeforeMonth(y, 6) == 123 + f;
    assert DaysBeforeMonth(y, 7) == 153 + f;
    assert DaysBeforeMonth(y, 8) == 184 + f;
    assert DaysBeforeMonth(y, 9) == 215 + f;
    assert DaysBeforeMonth(y, 10) == 245 + f;
    assert DaysBeforeMonth(y, 11) == 276 + f;
    assert DaysBeforeMonth(y, 12) == 306 + f;
    Quotients(y);
  }

  /** Whole centuries and the rest advance by one exactly on their multiples. */
  lemma {:induction false} Quotients(y: nat)
    requires y >= 1
    ensures y / 4 - (y - 1) / 4 == if y % 4 == 0 then 1 else 0
    ensures y / 100 - (y - 1) / 100 == if y % 100 == 0 then 1 else 0
    ensures y / 400 - (y - 1) / 400 == if y % 400 == 0 then 1 else 0
    ensures y % 400 == 0 ==> y % 100 == 0
    ensures y % 100 == 0 ==> y % 4 == 0
  {
  }

  // ---------------------------------------------------------------------------------------------
  // Months in a row
  // ---------------------------------------------------------------------------------------------

  /** The k-th month since 0001-01. */
  function FirstOf(k: nat): Date { Date(k / 12 + 1, k % 12 + 1, 1) }

  function MonthIndex(d: Date): nat
    requires d.year >= 1 && 1 <= d.month <= 12
  {
    12 * (d.year - 1) + (d.month - 1)
  }

  function MonthStart(k: nat): Instant { MICROSECONDS_PER_DAY * Ordinal(FirstOf(k)) }

  function LengthOf(k: nat): nat { MonthLength(k / 12 + 1, k % 12 + 1) }

  /** The first of the next month is one month's length later, Decembers and leap Februaries included. */
  lemma {:induction false} NextFirst(k: nat)
    ensures Ordinal(FirstOf(k + 1)) == Ordinal(FirstOf(k)) + LengthOf(k)
  {
    var y, m := k / 12 + 1, k % 12 + 1;
    if m == 12 {
      assert (k + 1) / 12 == k / 12 + 1 && (k + 1) % 12 == 0;
      YearLength(y);
    } else {
      assert (k + 1) / 12 == k / 12 && (k + 1) % 12 == k % 12 + 1;
    }
  }

  lemma {:induction false} MonthsAscend(i: nat, k: nat)
    requires i < k
    ensures MonthStart(i) < MonthStart(k)
    ensures Ordinal(FirstOf(i)) + LengthOf(i) <= Ordinal(FirstOf(k))
    decreases k
  {
    NextFirst(k - 1);
    if i < k - 1 {
      MonthsAscend(i, k - 1);
    }
  }

  lemma {:induction false} FindMonth(t: Instant, from: nat) returns (k: nat)
    requires MonthStart(from) <= t
    ensures from <= k && MonthStart(k) <= t < MonthStart(k + 1)
    decreases t - MonthStart(from)
  {
    hide *;
    if t < MonthStart(from + 1) {
      k := from;
    } else {
      MonthsAscend(from, from + 1);
      k := FindMonth(t, from + 1);
    }
  }

  /** Months tile the timeline: from 0001-01 on, every instant lies in exactly one. */
  lemma {:induction false} ExactlyOneMonth(t: Instant) returns (k: nat)
    requires MonthStart(0) <= t
    ensures MonthStart(k) <= t < MonthStart(k + 1)
    ensures forall i: nat :: MonthStart(i) <= t < MonthStart(i + 1) ==> i == k
  {
    k := FindMonth(t, 0);
    forall i: nat | MonthStart(i) <= t < MonthStart(i + 1) ensures i == k {
      OnlyMonth(t, i, k);
    }
  }

  lemma {:induction false} OnlyMonth(t: Instant, i: nat, k: nat)
    requires MonthStart(i) <= t < MonthStart(i + 1) && MonthStart(k) <= t < MonthStart(k + 1)
    ensures i == k
  {
    if i < k {
      NotAfter(i + 1, k);
    } else if k < i {
      NotAfter(k + 1, i);
    }
  }

  lemma {:induction false} NotAfter(i: nat, k: nat)
    requires i <= k
    ensures MonthStart(i) <= MonthStart(k)
  {
    if i < k {
      MonthsAscend(i, k);
    }
  }

  // ---------------------------------------------------------------------------------------------
  // Periods
  // ---------------------------------------------------------------------------------------------

  datatype Period = Period(start: Date, end: Date)

  /** `month_containing`. */
  function MonthContaining(d: Date): Period
    requires IsDate(d)
  {
    Period(Date(d.year, d.month, 1), Date(d.year, d.month, MonthLength(d.year, d.month)))
  }

  /** `start_at`, and `end_at` one day after the printed last day; beyond year 9999 there is no such date. */
  function StartAt(p: Period): Instant
    requires IsDate(p.start)
  {
    MICROSECONDS_PER_DAY * Ordinal(p.start)
  }

  function EndAt(p: Period): Option<Instant>
    requires IsDate(p.end)
  {
    if p.end == Date(MAX_YEAR, 12, 31) then None else Some(MICROSECONDS_PER_DAY * (Ordinal(p.end) + 1))
  }

  /** `- timedelta(days=1)`; the day before 0001-01-01 does not exist. */
  function DayBefore(d: Date): Option<Date>
    requires IsDate(d)
  {
    if d.day > 1 then Some(d.(day := d.day - 1))
    else if d.month > 1 then Some(Date(d.year, d.month - 1, MonthLength(d.year, d.month - 1)))
    else if d.year > MIN_YEAR then Some(Date(d.year - 1, 12, 31))
    else None
  }

  /** `previous_month`, for a given today. */
  function PreviousMonth(today: Date): Option<Period>
    requires IsDate(today)
  {
    match DayBefore(today.(day := 1))
    case None => None
    case Some(d) => Some(MonthContaining(d))
  }

  lemma {:induction false} IndexOf(d: Date)
    requires IsDate(d)
    ensures FirstOf(MonthIndex(d)) == d.(day := 1) && LengthOf(MonthIndex(d)) == MonthLength(d.year, d.month)
  {
  }

  /** Day numbers identify dates and order them as the calendar does. */
  lemma {:induction false} OrdinalOrder(c: Date, d: Date)
    requires IsDate(c) && IsDate(d)
    requires MonthIndex(c) < MonthIndex(d) || (MonthIndex(c) == MonthIndex(d) && c.day < d.day)
    ensures Ordinal(c) < Ordinal(d)
  {
    IndexOf(c);
    IndexOf(d);
    if MonthIndex(c) < MonthIndex(d) {
      MonthsAscend(MonthIndex(c), MonthIndex(d));
    }
  }

  lemma {:induction false} DayBeforeOrdinal(d: Date)
    requires IsDate(d) && DayBefore(d).Some?
    ensures IsDate(DayBefore(d).value) && Ordinal(DayBefore(d).value) == Ordinal(d) - 1
  {
    if d.day == 1 && d.month == 1 {
      YearLength(d.year - 1);
      hide DaysBeforeYear, IsLeap;
    } else {
      hide DaysBeforeYear, IsLeap;
    }
  }

  /** `DayBefore` is date arithmetic: the one date numbered one less, or nothing when there is none. */
  lemma {:induction false} DayBeforeIsOneDay(c: Date, d: Date)
    requires IsDate(c) && IsDate(d)
    ensures DayBefore(d).None? <==> d == Date(1, 1, 1)
    ensures DayBefore(d).Some? ==> IsDate(DayBefore(d).value)
    ensures Ordinal(c) == Ordinal(d) - 1 <==> DayBefore(d) == Some(c)
  {
    hide Ordinal, MonthLength, IsLeap;
    FirstIsOne();
    FirstDay(c);
    if DayBefore(d).Some? {
      DayBeforeOrdinal(d);
      if Ordinal(c) == Ordinal(d) - 1 {
        SameDate(c, DayBefore(d).value);
      }
    }
  }

  lemma {:induction false} FirstIsOne()
    ensures Ordinal(Date(1, 1, 1)) == 1
  {
  }

  lemma {:induction false} SameDate(c: Date, d: Date)
    requires IsDate(c) && IsDate(d) && Ordinal(c) == Ordinal(d)
    ensures c == d
  {
    if MonthIndex(c) < MonthIndex(d) || (MonthIndex(c) == MonthIndex(d) && c.day < d.day) {
      OrdinalOrder(c, d);
    } else if MonthIndex(d) < MonthIndex(c) || (MonthIndex(d) == MonthIndex(c) && d.day < c.day) {
      OrdinalOrder(d, c);
    }
  }

  lemma {:induction false} FirstDay(c: Date)
    requires IsDate(c)
    ensures Ordinal(c) >= 1
  {
    if c != Date(1, 1, 1) {
      OrdinalOrder(Date(1, 1, 1), c);
    }
  }

  /**
   * A period is its month: the day asked for lies inside, its bounds are the month's own, and the instant it
   * ends is the instant the next month starts. Only December 9999 has no end.
   */
  lemma {:induction false} PeriodIsMonth(d: Date)
    requires IsDate(d)
    ensures var p, k := MonthContaining(d), MonthIndex(d);
      && IsDate(p.start) && IsDate(p.end)
      && StartAt(p) == MonthStart(k)
      && (EndAt(p) == None <==> d.year == MAX_YEAR && d.month == 12)
      && (EndAt(p).Some? ==> EndAt(p).value == MonthStart(k + 1))
      && p.start == d.(day := 1) && p.end == d.(day := MonthLength(d.year, d.month))
      && Ordinal(p.start) <= Ordinal(d) <= Ordinal(p.end)
  {
    IndexOf(d);
    NextFirst(MonthIndex(d));
  }

  /** A month lasts its number of days, of twenty-four hours each, in microseconds. */
  lemma {:induction false} MonthLasts(d: Date)
    requires IsDate(d)
    ensures var k := MonthIndex(d);
      MonthStart(k + 1) - MonthStart(k) == MonthLength(d.year, d.month) * (24 * 60 * 60 * 1000000)
  {
    hide Ordinal, MonthLength;
    IndexOf(d);
    NextFirst(MonthIndex(d));
  }

  /** The previous month ends at the very instant this month starts; only January of year 1 has none. */
  lemma {:induction false} PreviousMonthMeets(today: Date)
    requires IsDate(today)
    ensures PreviousMonth(today).None? <==> today.year == 1 && today.month == 1
    ensures PreviousMonth(today).Some? ==>
      var p := PreviousMonth(today).value;
      && IsDate(p.start) && IsDate(p.end)
      && MonthIndex(p.start) + 1 == MonthIndex(today)
      && EndAt(p) == Some(StartAt(MonthContaining(today)))
  {
    hide Ordinal, IsLeap, MonthStart;
    var first := today.(day := 1);
    PeriodIsMonth(today);
    if DayBefore(first).Some? {
      DayBeforeOrdinal(first);
      PeriodIsMonth(DayBefore(first).value);
      assert MonthIndex(DayBefore(first).value) + 1 == MonthIndex(today);
    }
  }
}

/** Cash statements over the line table. A row's id is its position there. */
module Statements {
  import opened Sums
  import opened Journal
  import opened Calendar

  datatype StatementLine = StatementLine(at: Instant, amount: int, balance: int)

  datatype CashStatement = CashStatement(opening: int, closing: int, lines: seq<StatementLine>)

  predicate Selected(r: Row, a: AccountId, from: Instant, to: Instant)
  {
    r.line.account == a && from <= r.at < to
  }

  /** `ORDER BY created_at, id`. */
  predicate Precedes(rows: seq<Row>, i: nat, k: nat)
    requires i < |rows| && k < |rows|
  {
    rows[i].at < rows[k].at || (rows[i].at == rows[k].at && i < k)
  }

  /** Ids of existing rows. */
  ghost predicate Ids(rows: seq<Row>, ids: seq<nat>)
  {
    forall i :: 0 <= i < |ids| ==> ids[i] < |rows|
  }

  function Place(rows: seq<Row>, ids: seq<nat>, id: nat): (placed: seq<nat>)
    requires id < |rows| && Ids(rows, ids)
    ensures Ids(rows, placed)
  {
    if ids == [] || rows[ids[|ids| - 1]].at <= rows[id].at then ids + [id]
    else Place(rows, ids[..|ids| - 1], id) + [ids[|ids| - 1]]
  }

  /** `_period_lines`: ids of the account's rows in the period, in statement order. */
  function PeriodIds(rows: seq<Row>, a: AccountId, from: Instant, to: Instant): (ids: seq<nat>)
    ensures Ids(rows, ids)
    ensures forall x: nat :: x in ids <==> x < |rows| && Selected(rows[x], a, from, to)
  {
    if rows == [] then []
    else
      var n := |rows| - 1;
      var earlier := PeriodIds(rows[..n], a, from, to);
      if !Selected(rows[n], a, from, to) then earlier
      else
        PlaceContents(rows, earlier, n);
        Place(rows, earlier, n)
  }

  lemma {:induction false} PlaceContents(rows: seq<Row>, ids: seq<nat>, id: nat)
    requires id < |rows| && Ids(rows, ids)
    ensures forall x :: x in Place(rows, ids, id) <==> x in ids || x == id
  {
    if !(ids == [] || rows[ids[|ids| - 1]].at <= rows[id].at) {
      PlaceContents(rows, ids[..|ids| - 1], id);
    }
  }

  ghost predicate InOrder(rows: seq<Row>, ids: seq<nat>)
  {
    && Ids(rows, ids)
    && forall i, k :: 0 <= i < k < |ids| ==> Precedes(rows, ids[i], ids[k])
  }

  lemma {:induction false} PlaceInOrder(rows: seq<Row>, ids: seq<nat>, id: nat)
    requires InOrder(rows, ids) && id < |rows| && forall i :: 0 <= i < |ids| ==> ids[i] < id
    ensures InOrder(rows, Place(rows, ids, id))
  {
    if ids != [] && rows[ids[|ids| - 1]].at > rows[id].at {
      var rest, last := ids[..|ids| - 1], ids[|ids| - 1];
      PlaceInOrder(rows, rest, id);
      PlaceContents(rows, rest, id);
      var placed := Place(rows, rest, id);
      forall i | 0 <= i < |placed| ensures Precedes(rows, placed[i], last) {
        assert placed[i] in placed;
        if placed[i] != id {
          var k :| 0 <= k < |rest| && rest[k] == placed[i];
          assert Precedes(rows, ids[k], ids[|ids| - 1]);
        }
      }
    } else if ids != [] {
      forall i | 0 <= i < |ids| ensures Precedes(rows, ids[i], id) {
        assert i < |ids| - 1 ==> Precedes(rows, ids[i], ids[|ids| - 1]);
      }
    }
  }

  /** The statement's lines are exactly the selected ones, each once, oldest first with ties by id. */
  lemma {:induction false} PeriodInOrder(rows: seq<Row>, a: AccountId, from: Instant, to: Instant)
    ensures InOrder(rows, PeriodIds(rows, a, from, to))
  {
    if rows == [] {
    } else {
      var n := |rows| - 1;
      PeriodInOrder(rows[..n], a, from, to);
      var earlier := PeriodIds(rows[..n], a, from, to);
      assert InOrder(rows, earlier) by {
        forall i, k | 0 <= i < k < |earlier| ensures Precedes(rows, earlier[i], earlier[k]) {
          assert Precedes(rows[..n], earlier[i], earlier[k]);
        }
      }
      PlaceInOrder(rows, earlier, n);
    }
  }

  function AmountAt(rows: seq<Row>): nat -> int { (i: nat) => if i < |rows| then rows[i].line.amount else 0 }

  function InPeriod(a: AccountId, from: Instant, to: Instant): Row -> int
  {
    (r: Row) => if Selected(r, a, from, to) then r.line.amount else 0
  }

  lemma {:induction false} PlaceSum(rows: seq<Row>, ids: seq<nat>, id: nat, w: nat -> int)
    requires id < |rows| && Ids(rows, ids)
    ensures Sum(Place(rows, ids, id), w) == Sum(ids, w) + w(id)
  {
    if ids == [] || rows[ids[|ids| - 1]].at <= rows[id].at {
      SumAppend(ids, [id], w);
      SumOne(id, w);
    } else {
      var rest := ids[..|ids| - 1];
      PlaceSum(rows, rest, id, w);
      var placed := Place(rows, rest, id);
      assert (placed + [ids[|ids| - 1]])[..|placed|] == placed;
    }
  }

  lemma {:induction false} PeriodSum(rows: seq<Row>, a: AccountId, from: Instant, to: Instant)
    ensures Sum(PeriodIds(rows, a, from, to), AmountAt(rows)) == Sum(rows, InPeriod(a, from, to))
  {
    if rows == [] {
    } else {
      var n := |rows| - 1;
      PeriodSum(rows[..n], a, from, to);
      var earlier := PeriodIds(rows[..n], a, from, to);
      SumSame(earlier, AmountAt(rows[..n]), AmountAt(rows));
      if Selected(rows[n], a, from, to) {
        PlaceSum(rows, earlier, n, AmountAt(rows));
      }
    }
  }

  /** A period's movement is the difference of two as-of balances. */
  lemma {:induction false} Movement(rows: seq<Row>, a: AccountId, from: Instant, to: Instant)
    requires from <= to
    ensures BalanceBefore(rows, a, from) + Sum(rows, InPeriod(a, from, to)) == BalanceBefore(rows, a, to)
  {
    SumPlus(rows, Before(from, AmountOn(a)), InPeriod(a, from, to), Before(to, AmountOn(a)));
  }

  /** `build_cash_statement`: the running total over the period's lines. */
  method BuildCashStatement(rows: seq<Row>, a: AccountId, from: Instant, to: Instant) returns (s: CashStatement)
    requires from <= to
    ensures s.opening == BalanceBefore(rows, a, from)
    ensures s.closing == BalanceBefore(rows, a, to)
    ensures s == StatementOf(rows, a, from, to)
  {
    var opening := BalanceBefore(rows, a, from);
    var ids := PeriodIds(rows, a, from, to);
    var running, lines := opening, [];
    for i := 0 to |ids|
      invariant running == opening + Sum(ids[..i], AmountAt(rows))
      invariant lines == LinesFrom(rows, opening, ids[..i])
    {
      assert ids[i] in ids;
      assert ids[..i + 1][..i] == ids[..i];
      var line := rows[ids[i]];
      running := running + line.line.amount;
      lines := lines + [StatementLine(line.at, line.line.amount, running)];
    }
    assert ids[..|ids|] == ids;
    PeriodSum(rows, a, from, to);
    Movement(rows, a, from, to);
    return CashStatement(opening, running, lines);
  }

  function LinesFrom(rows: seq<Row>, opening: int, ids: seq<nat>): (lines: seq<StatementLine>)
    requires Ids(rows, ids)
    ensures |lines| == |ids|
  {
    if ids == [] then []
    else
      var n := |ids| - 1;
      assert ids[n] in ids;
      var r := rows[ids[n]];
      LinesFrom(rows, opening, ids[..n]) + [StatementLine(r.at, r.line.amount, opening + Sum(ids, AmountAt(rows)))]
  }

  function StatementOf(rows: seq<Row>, a: AccountId, from: Instant, to: Instant): CashStatement
  {
    var opening, ids := BalanceBefore(rows, a, from), PeriodIds(rows, a, from, to);
    CashStatement(opening, opening + Sum(ids, AmountAt(rows)), LinesFrom(rows, opening, ids))
  }

  lemma {:induction false} LineAt(rows: seq<Row>, opening: int, ids: seq<nat>, k: nat)
    requires k < |ids| && Ids(rows, ids)
    ensures ids[k] in ids
    ensures LinesFrom(rows, opening, ids)[k]
         == StatementLine(rows[ids[k]].at, rows[ids[k]].line.amount, opening + Sum(ids[..k + 1], AmountAt(rows)))
  {
    var n := |ids| - 1;
    if k < n {
      LineAt(rows, opening, ids[..n], k);
      assert ids[..n][..k + 1] == ids[..k + 1];
    } else {
      assert ids[..k + 1] == ids;
    }
  }

  // ---------------------------------------------------------------------------------------------
  // What a reader may rely on
  // ---------------------------------------------------------------------------------------------

  const InflowOf: StatementLine -> int := (l: StatementLine) => if l.amount > 0 then l.amount else 0

  const OutflowOf: StatementLine -> int := (l: StatementLine) => if l.amount < 0 then l.amount else 0

  const AmountOf: StatementLine -> int := (l: StatementLine) => l.amount

  lemma {:induction false} LinesTotal(rows: seq<Row>, opening: int, ids: seq<nat>)
    requires Ids(rows, ids)
    ensures Sum(LinesFrom(rows, opening, ids), AmountOf) == Sum(ids, AmountAt(rows))
  {
    if ids == [] {
    } else {
      var n := |ids| - 1;
      assert ids[n] in ids;
      LinesTotal(rows, opening, ids[..n]);
      var lines := LinesFrom(rows, opening, ids);
      assert lines[..n] == LinesFrom(rows, opening, ids[..n]);
    }
  }

  /** Opening plus money in plus money out (a negative figure) is the closing balance, and the last line says so too. */
  lemma {:induction false} StatementAddsUp(rows: seq<Row>, a: AccountId, from: Instant, to: Instant)
    ensures var s := StatementOf(rows, a, from, to);
      && s.opening + Sum(s.lines, InflowOf) + Sum(s.lines, OutflowOf) == s.closing
      && (s.lines != [] ==> s.lines[|s.lines| - 1].balance == s.closing)
      && (s.lines == [] ==> s.opening == s.closing)
    ensures forall l :: InflowOf(l) == (if l.amount > 0 then l.amount else 0)
    ensures forall l :: OutflowOf(l) == (if l.amount > 0 then 0 else l.amount)
  {
    var s, ids := StatementOf(rows, a, from, to), PeriodIds(rows, a, from, to);
    LinesTotal(rows, s.opening, ids);
    SumPlus(s.lines, InflowOf, OutflowOf, AmountOf);
    if ids == [] {
    } else {
      LineAt(rows, s.opening, ids, |ids| - 1);
      assert ids[..|ids|] == ids;
    }
  }

  /** Statements chain: each closing balance is the as-of balance there, and the next statement's opening. */
  lemma {:induction false} StatementsChain(rows: seq<Row>, a: AccountId, from: Instant, to: Instant, next: Instant)
    requires from <= to
    ensures StatementOf(rows, a, from, to).closing == BalanceBefore(rows, a, to)
    ensures StatementOf(rows, a, from, to).closing == StatementOf(rows, a, to, next).opening
  {
    PeriodSum(rows, a, from, to);
    Movement(rows, a, from, to);
  }

  function MonthStatement(rows: seq<Row>, a: AccountId, k: nat): CashStatement
  {
    StatementOf(rows, a, MonthStart(k), MonthStart(k + 1))
  }

  /**
   * Monthly statements tile the timeline: each month opens where the last one closed, and each of the
   * account's lines is on exactly one of them.
   */
  lemma {:induction false} MonthsTile(rows: seq<Row>, a: AccountId, k: nat, i: nat) returns (m: nat)
    requires i < |rows| && rows[i].line.account == a && MonthStart(0) <= rows[i].at
    ensures MonthStatement(rows, a, k).closing == MonthStatement(rows, a, k + 1).opening
      == BalanceBefore(rows, a, MonthStart(k + 1))
    ensures i in PeriodIds(rows, a, MonthStart(m), MonthStart(m + 1))
    ensures forall o: nat :: i in PeriodIds(rows, a, MonthStart(o), MonthStart(o + 1)) ==> o == m
  {
    MonthsAscend(k, k + 1);
    StatementsChain(rows, a, MonthStart(k), MonthStart(k + 1), MonthStart(k + 2));
    m := ExactlyOneMonth(rows[i].at);
  }

  lemma {:induction false} NarrowedBalance(rows: seq<Row>, later: seq<Row>, a: AccountId, t: Instant)
    requires forall r :: r in later ==> r.at >= t
    ensures BalanceBefore(rows + later, a, t) == BalanceBefore(rows, a, t)
  {
    SumAppend(rows, later, Before(t, AmountOn(a)));
    SumZero(later, Before(t, AmountOn(a)));
  }

  lemma {:induction false} NarrowedIds(rows: seq<Row>, later: seq<Row>, a: AccountId, from: Instant, to: Instant)
    requires forall r :: r in later ==> r.at >= to
    ensures PeriodIds(rows + later, a, from, to) == PeriodIds(rows, a, from, to)
    decreases |later|
  {
    if later == [] {
      assert rows + later == rows;
    } else {
      var all, n := rows + later, |later| - 1;
      assert later[n] in later;
      assert all[..|all| - 1] == rows + later[..n];
      NarrowedIds(rows, later[..n], a, from, to);
    }
  }

  lemma {:induction false} SameLines(rows: seq<Row>, more: seq<Row>, opening: int, ids: seq<nat>)
    requires rows <= more && Ids(rows, ids)
    ensures LinesFrom(more, opening, ids) == LinesFrom(rows, opening, ids)
    ensures Sum(ids, AmountAt(more)) == Sum(ids, AmountAt(rows))
  {
    SumSame(ids, AmountAt(more), AmountAt(rows));
    if ids == [] {
    } else {
      var n := |ids| - 1;
      assert ids[n] in ids;
      SameLines(rows, more, opening, ids[..n]);
    }
  }

  /** A closed statement is final: whatever is posted at or after its end never changes it. */
  lemma {:induction false} StatementIsFinal(rows: seq<Row>, later: seq<Row>, a: AccountId, from: Instant, to: Instant)
    requires from <= to && forall r :: r in later ==> r.at >= to
    ensures StatementOf(rows + later, a, from, to) == StatementOf(rows, a, from, to)
  {
    NarrowedBalance(rows, later, a, from);
    NarrowedIds(rows, later, a, from, to);
    SameLines(rows, rows + later, BalanceBefore(rows, a, from), PeriodIds(rows, a, from, to));
  }
}
