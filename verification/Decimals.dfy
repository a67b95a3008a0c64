/** Decimal strings, compared and displayed without ever becoming floats (frontend/src/money.ts). */
module Digits {
  import opened Money

  predicate IsDigit(c: char) { '0' <= c <= '9' }

  predicate AllDigits(s: string) { forall i :: 0 <= i < |s| ==> IsDigit(s[i]) }

  function DigitOf(c: char): int { c as int - '0' as int }

  /** The number a digit string denotes; the empty string denotes zero. */
  function Val(s: string): int
  {
    if s == [] then 0 else 10 * Val(s[..|s| - 1]) + DigitOf(s[|s| - 1])
  }

  function Zeros(n: nat): string { seq(n, _ => '0') }

  function PadEnd(s: string, width: nat): string { if |s| < width then s + Zeros(width - |s|) else s }

  function PadStart(s: string, width: nat): string { if |s| < width then Zeros(width - |s|) + s else s }

  /** `BigInt.toString()`. */
  function Str(n: nat): string
  {
    if n < 10 then [('0' as int + n) as char] else Str(n / 10) + [('0' as int + n % 10) as char]
  }

  lemma {:induction false} StrVal(n: nat)
    ensures AllDigits(Str(n)) && Val(Str(n)) == n && |Str(n)| >= 1
    ensures n < 10 ==> |Str(n)| == 1
    ensures 10 <= n < 100 ==> |Str(n)| == 2
  {
    if n < 10 {
      var s := Str(n);
      assert s[..0] == [];
    } else {
      StrVal(n / 10);
      assert Str(n)[..|Str(n)| - 1] == Str(n / 10);
    }
  }

  lemma {:induction false} ValAppend(s: string, t: string)
    ensures Val(s + t) == Val(s) * Pow10(|t|) + Val(t)
  {
    if t == [] {
      assert s + t == s;
    } else {
      var u := t[..|t| - 1];
      assert (s + t)[..|s + t| - 1] == s + u;
      ValAppend(s, u);
      assert 10 * (Val(s) * Pow10(|u|)) == Val(s) * (10 * Pow10(|u|));
    }
  }

  lemma {:induction false} ValZeros(n: nat)
    ensures Val(Zeros(n)) == 0 && AllDigits(Zeros(n))
  {
    if n == 0 {
    } else {
      ValZeros(n - 1);
      assert Zeros(n)[..n - 1] == Zeros(n - 1);
    }
  }

  lemma {:induction false} ValRange(s: string)
    requires AllDigits(s)
    ensures 0 <= Val(s) < Pow10(|s|)
  {
    if s == [] {
    } else {
      ValRange(s[..|s| - 1]);
    }
  }

  lemma {:induction false} Padded(s: string, width: nat)
    requires AllDigits(s)
    ensures AllDigits(PadStart(s, width)) && Val(PadStart(s, width)) == Val(s)
    ensures AllDigits(PadEnd(s, width)) && Val(PadEnd(s, width)) == Val(s) * Pow10(|PadEnd(s, width)| - |s|)
  {
    if |s| < width {
      ValZeros(width - |s|);
      ValAppend(Zeros(width - |s|), s);
      ValAppend(s, Zeros(width - |s|));
    }
  }

  /** `^0*$`. */
  predicate AllZeros(s: string) { forall i :: 0 <= i < |s| ==> s[i] == '0' }

  lemma {:induction false} ZeroVal(s: string)
    requires AllDigits(s)
    ensures AllZeros(s) <==> Val(s) == 0
  {
    if s == [] {
    } else {
      ZeroVal(s[..|s| - 1]);
      ValRange(s[..|s| - 1]);
    }
  }

  /** The string comparison of the language: by code unit, first difference decides. */
  predicate Lex(s: string, t: string)
  {
    if s == [] then t != []
    else t != [] && (s[0] < t[0] || (s[0] == t[0] && Lex(s[1..], t[1..])))
  }

  /** On digit strings of one length it is the comparison of numbers. */
  lemma {:induction false} LexIsLess(s: string, t: string)
    requires AllDigits(s) && AllDigits(t) && |s| == |t|
    ensures Lex(s, t) <==> Val(s) < Val(t)
    ensures s == t <==> Val(s) == Val(t)
  {
    if s == [] {
    } else {
      var u, v := s[1..], t[1..];
      assert s == [s[0]] + u && t == [t[0]] + v;
      LexIsLess(u, v);
      ValAppend([s[0]], u);
      ValAppend([t[0]], v);
      assert Val([s[0]]) == DigitOf(s[0]) by { assert [s[0]][..0] == []; }
      assert Val([t[0]]) == DigitOf(t[0]) by { assert [t[0]][..0] == []; }
      ValRange(u);
      ValRange(v);
      LeadingDigit(DigitOf(s[0]), DigitOf(t[0]), Val(u), Val(v), Pow10(|u|));
    }
  }

  lemma {:induction false} LeadingDigit(a: int, b: int, x: int, y: int, p: int)
    requires 0 <= x < p && 0 <= y < p
    ensures a < b ==> a * p + x < b * p + y
    ensures a == b ==> a * p == b * p
    ensures a > b ==> a * p + x > b * p + y
  {
    if a < b {
      MulMonotone(a + 1, b, p);
      assert (a + 1) * p == a * p + p;
    }
    if a > b {
      MulMonotone(b + 1, a, p);
      assert (b + 1) * p == b * p + p;
    }
  }
}

module Decimals {
  import opened Wrappers
  import opened Money
  import opened Digits

  datatype Parts = Parts(negative: bool, integer: string, fraction: string)

  function BeforeDot(s: string): (t: string)
    ensures t <= s && (forall i :: 0 <= i < |t| ==> t[i] != '.') && (|t| < |s| ==> s[|t|] == '.')
  {
    if s == [] || s[0] == '.' then [] else [s[0]] + BeforeDot(s[1..])
  }

  /** `unsigned.split(".")`, on digits with at most one dot. */
  function SplitAtDot(unsigned: string): (string, string)
  {
    var integer := BeforeDot(unsigned);
    (integer, if |integer| == |unsigned| then "" else BeforeDot(unsigned[|integer| + 1..]))
  }

  /** `parts`: sign, then what precedes the first dot, then what follows it up to any second one. */
  function PartsOf(value: string): Parts
  {
    var negative := value != [] && value[0] == '-';
    var unsigned := if negative then value[1..] else value;
    var (integer, fraction) := SplitAtDot(unsigned);
    Parts(negative, integer, fraction)
  }

  /** What comes before and after the dot is digits. */
  predicate Digital(value: string) { AllDigits(PartsOf(value).integer) && AllDigits(PartsOf(value).fraction) }

  /** The value a string is taken to have: an integer over a power of ten. */
  function Numerator(value: string): int
  {
    var p := PartsOf(value);
    var n := Val(p.integer + p.fraction);
    if p.negative then -n else n
  }

  function Places(value: string): nat { |PartsOf(value).fraction| }

  /** The true difference of two values, over a common denominator. */
  function Difference(a: string, b: string): int
  {
    Numerator(a) * Pow10(Places(b)) - Numerator(b) * Pow10(Places(a))
  }

  function Sign(x: int): int { if x < 0 then -1 else if x > 0 then 1 else 0 }

  // ---------------------------------------------------------------------------------------------
  // Numerals, and how they are written
  // ---------------------------------------------------------------------------------------------

  /** A decimal numeral: perhaps a sign, digits, and perhaps a dot with more digits; either run may be empty. */
  datatype Numeral = Numeral(negative: bool, integer: string, fraction: Option<string>)
  {
    predicate Valid() { AllDigits(integer) && AllDigits(Decimals()) }

    function Decimals(): string { if fraction.Some? then fraction.value else "" }

    function Text(): string
    {
      (if negative then "-" else "") + integer + (if fraction.Some? then "." + fraction.value else "")
    }

    /** The number denoted is `Amount` over ten to the power `Scale`. */
    function Amount(): int { if negative then -Val(integer + Decimals()) else Val(integer + Decimals()) }

    function Scale(): nat { |Decimals()| }
  }

  lemma {:induction false} BeforeDotIs(digits: string, rest: string)
    requires AllDigits(digits) && (rest == "" || rest[0] == '.')
    ensures BeforeDot(digits + rest) == digits
  {
    if digits == "" {
      assert digits + rest == rest;
    } else {
      assert (digits + rest)[1..] == digits[1..] + rest;
      BeforeDotIs(digits[1..], rest);
    }
  }

  lemma {:induction false} SplitIs(integer: string, fraction: Option<string>)
    requires AllDigits(integer) && (fraction.Some? ==> AllDigits(fraction.value))
    ensures SplitAtDot(integer + (if fraction.Some? then "." + fraction.value else ""))
         == (integer, if fraction.Some? then fraction.value else "")
  {
    hide BeforeDot;
    match fraction {
      case None =>
        assert integer + "" == integer;
        BeforeDotIs(integer, "");
      case Some(f) =>
        var unsigned := integer + ("." + f);
        BeforeDotIs(integer, "." + f);
        assert unsigned[|integer| + 1..] == f;
        BeforeDotIs(f, "");
        assert f + "" == f;
    }
  }

  lemma {:induction false} UnsignedStart(n: Numeral)
    requires n.Valid() && !n.negative
    ensures n.Text() != "" ==> n.Text()[0] != '-'
  {
  }

  /** Reading a written numeral finds its parts. */
  lemma {:induction false} PartsOfText(n: Numeral)
    requires n.Valid()
    ensures PartsOf(n.Text()) == Parts(n.negative, n.integer, n.Decimals())
  {
    hide SplitAtDot, BeforeDot, AllDigits;
    var unsigned := n.integer + (if n.fraction.Some? then "." + n.fraction.value else "");
    SplitIs(n.integer, n.fraction);
    if n.negative {
      assert n.Text() == "-" + unsigned && n.Text()[1..] == unsigned;
    } else {
      assert n.Text() == unsigned;
      UnsignedStart(n);
    }
  }

  lemma {:induction false} ReadsAs(n: Numeral)
    requires n.Valid()
    ensures Digital(n.Text()) && Numerator(n.Text()) == n.Amount() && Places(n.Text()) == n.Scale()
    ensures PartsOf(n.Text()).negative == n.negative
  {
    PartsOfText(n);
  }

  // ---------------------------------------------------------------------------------------------
  // Sign and comparison
  // ---------------------------------------------------------------------------------------------

  function SignOf(value: string): int
  {
    var p := PartsOf(value);
    if AllZeros(p.integer) && AllZeros(p.fraction) then 0 else if p.negative then -1 else 1
  }

  function CompareDecimal(a: string, b: string): int
  {
    var sa, sb := SignOf(a), SignOf(b);
    if sa != sb then sa - sb
    else
      var magnitude := Magnitude(PartsOf(a), PartsOf(b));
      if PartsOf(a).negative then -magnitude else magnitude
  }

  /** Digits lined up on both sides of the dot, then compared as strings. */
  function Magnitude(pa: Parts, pb: Parts): int
  {
    var width := if |pa.integer| < |pb.integer| then |pb.integer| else |pa.integer|;
    var places := if |pa.fraction| < |pb.fraction| then |pb.fraction| else |pa.fraction|;
    var left := PadStart(pa.integer, width) + PadEnd(pa.fraction, places);
    var right := PadStart(pb.integer, width) + PadEnd(pb.fraction, places);
    if left == right then 0 else if Lex(left, right) then -1 else 1
  }

  lemma {:induction false} SignIsTrue(value: string)
    requires Digital(value)
    ensures SignOf(value) == Sign(Numerator(value))
  {
    hide Val, PartsOf, AllZeros, Pow10;
    var p := PartsOf(value);
    ZeroVal(p.integer);
    ZeroVal(p.fraction);
    ValAppend(p.integer, p.fraction);
    ValRange(p.integer);
    ValRange(p.fraction);
    ScaleSign(Val(p.integer), Pow10(|p.fraction|));
  }

  lemma {:induction false} PadLength(p: Parts, width: nat, places: nat)
    requires |p.integer| <= width && |p.fraction| <= places
    ensures |PadStart(p.integer, width)| == width && |PadEnd(p.fraction, places)| == places
  {
  }

  /** Digits lined up at a common width read as the magnitude, scaled. */
  lemma {:induction false} LinedUp(p: Parts, width: nat, places: nat)
    requires AllDigits(p.integer) && AllDigits(p.fraction) && |p.integer| <= width && |p.fraction| <= places
    ensures var s := PadStart(p.integer, width) + PadEnd(p.fraction, places);
      && AllDigits(s) && |s| == width + places
      && Val(s) == Val(p.integer + p.fraction) * Pow10(places - |p.fraction|)
  {
    var i, f := PadStart(p.integer, width), PadEnd(p.fraction, places);
    var c := Pow10(places - |p.fraction|);
    Padded(p.integer, width);
    Padded(p.fraction, places);
    ValAppend(i, f);
    ValAppend(p.integer, p.fraction);
    PowPlus(|p.fraction|, places - |p.fraction|);
    MulAssoc(Val(p.integer), Pow10(|p.fraction|), c);
    MulAdd(Val(p.integer) * Pow10(|p.fraction|), Val(p.fraction), c);
    hide Val, Pow10, PadStart, PadEnd;
    PadLength(p, width, places);
  }

  /** Comparing over the wider denominator is comparing over the product of both. */
  lemma {:induction false} CommonScale(x: int, y: int, fx: nat, fy: nat, places: nat)
    requires places == if fx < fy then fy else fx
    ensures Sign(x * Pow10(places - fx) - y * Pow10(places - fy)) == Sign(x * Pow10(fy) - y * Pow10(fx))
  {
    hide Pow10;
    if fx < fy {
      PowPlus(fy - fx, fx);
      MulAssoc(x, Pow10(fy - fx), Pow10(fx));
      MulSub(x * Pow10(fy - fx), y, Pow10(fx));
      ScaleSign(x * Pow10(fy - fx) - y, Pow10(fx));
      NoPower();
    } else {
      PowPlus(fx - fy, fy);
      MulAssoc(y, Pow10(fx - fy), Pow10(fy));
      MulSub(x, y * Pow10(fx - fy), Pow10(fy));
      ScaleSign(x - y * Pow10(fx - fy), Pow10(fy));
      NoPower();
    }
  }

  lemma {:induction false} NoPower()
    ensures Pow10(0) == 1
  {
  }

  lemma {:induction false} ScaleSign(x: int, c: int)
    requires c > 0
    ensures Sign(x * c) == Sign(x)
  {
  }

  /** The wire's strings compare as the numbers they denote, at any length and any number of places. */
  lemma {:induction false} ComparesTruly(a: string, b: string)
    requires Digital(a) && Digital(b)
    ensures Sign(CompareDecimal(a, b)) == Sign(Difference(a, b))
  {
    SignIsTrue(a);
    SignIsTrue(b);
    if SignOf(a) == SignOf(b) {
      SameSign(a, b);
    } else {
      var x, y := Numerator(a), Numerator(b);
      ScaleSign(x, Pow10(Places(b)));
      ScaleSign(y, Pow10(Places(a)));
    }
  }

  lemma {:induction false} MagnitudeIsTrue(pa: Parts, pb: Parts)
    requires AllDigits(pa.integer) && AllDigits(pa.fraction) && AllDigits(pb.integer) && AllDigits(pb.fraction)
    ensures Magnitude(pa, pb) == Sign(Val(pa.integer + pa.fraction) * Pow10(|pb.fraction|)
                                      - Val(pb.integer + pb.fraction) * Pow10(|pa.fraction|))
  {
    hide Val, Pow10, PadStart, PadEnd, Lex, AllDigits;
    var width := if |pa.integer| < |pb.integer| then |pb.integer| else |pa.integer|;
    var places := if |pa.fraction| < |pb.fraction| then |pb.fraction| else |pa.fraction|;
    LinedUp(pa, width, places);
    LinedUp(pb, width, places);
    LexIsLess(PadStart(pa.integer, width) + PadEnd(pa.fraction, places),
      PadStart(pb.integer, width) + PadEnd(pb.fraction, places));
    CommonScale(Val(pa.integer + pa.fraction), Val(pb.integer + pb.fraction), |pa.fraction|, |pb.fraction|, places);
  }

  lemma {:induction false} FlipSign(na: bool, m: int, x: int, nb: bool, n: int, y: int)
    requires m >= 0 && n >= 0 && x > 0 && y > 0
    requires Sign(if na then -m else m) == Sign(if nb then -n else n)
    ensures Sign(if na then -Sign(m * y - n * x) else Sign(m * y - n * x))
         == Sign((if na then -m else m) * y - (if nb then -n else n) * x)
  {
  }

  lemma {:induction false} SameSign(a: string, b: string)
    requires Digital(a) && Digital(b) && SignOf(a) == SignOf(b)
    requires SignOf(a) == Sign(Numerator(a)) && SignOf(b) == Sign(Numerator(b))
    ensures Sign(CompareDecimal(a, b)) == Sign(Difference(a, b))
  {
    hide Val, Pow10, Magnitude, PartsOf, SignOf;
    var pa, pb := PartsOf(a), PartsOf(b);
    MagnitudeIsTrue(pa, pb);
    ValRange(pa.integer + pa.fraction);
    ValRange(pb.integer + pb.fraction);
    FlipSign(pa.negative, Val(pa.integer + pa.fraction), Pow10(|pa.fraction|), pb.negative,
      Val(pb.integer + pb.fraction), Pow10(|pb.fraction|));
  }

  // ---------------------------------------------------------------------------------------------
  // Display
  // ---------------------------------------------------------------------------------------------

  /** Thousands separators: a comma before every whole group of three digits but the first. */
  function Grouped(digits: string): string
  {
    if |digits| <= 3 then digits else Grouped(digits[..|digits| - 3]) + "," + digits[|digits| - 3..]
  }

  /** The displayed magnitude in cents: two places of the fraction, bumped by the third. */
  function Whole(p: Parts): (w: int)
    requires AllDigits(p.integer) && AllDigits(p.fraction)
    ensures w >= 0
  {
    var cents := PadEnd(p.fraction, 3);
    Padded(p.fraction, 3);
    ValRange(p.integer);
    ValRange(cents[..2]);
    Val(p.integer) * 100 + Val(cents[..2]) + if DigitOf(cents[2]) >= 5 then 1 else 0
  }

  function FormatMoney(value: string): string
    requires Digital(value)
  {
    var p := PartsOf(value);
    var whole := Whole(p);
    (if p.negative then "-" else "") + "$" + Grouped(Str(whole / 100)) + "." + PadStart(Str(whole % 100), 2)
  }

  /** w is n/d rounded to the nearest integer, an exact tie going up: away from zero for a magnitude. */
  ghost predicate IsHalfUp(n: int, d: int, w: int)
  {
    2 * w * d <= 2 * n + d < 2 * (w + 1) * d
  }

  /** What the displayed figure denotes, in cents. */
  function DisplayedCents(value: string): int
    requires Digital(value)
  {
    var p := PartsOf(value);
    if p.negative then -Whole(p) else Whole(p)
  }

  lemma {:induction false} HalfUpScaled(n: int, d: int, w: int, c: int)
    requires c > 0 && IsHalfUp(n * c, d * c, w)
    ensures IsHalfUp(n, d, w)
  {
  }

  /** Splitting off two places and looking at the third digit rounds to the nearest cent. */
  lemma {:induction false} ThirdDigitDecides(base: int, digit: int, rest: int, m: int)
    requires 0 <= digit <= 9 && 0 <= rest < m
    ensures IsHalfUp(base * (10 * m) + digit * m + rest, 10 * m, base + if digit >= 5 then 1 else 0)
  {
    var d := 10 * m;
    var up := if digit >= 5 then 1 else 0;
    assert 2 * (base + up) * d == 2 * (base * d) + 2 * up * d;
    assert 2 * (base + up + 1) * d == 2 * (base * d) + 2 * (up + 1) * d;
    if digit >= 5 {
      MulMonotone(5, digit, m);
      MulMonotone(digit, 9, m);
    } else {
      MulMonotone(0, digit, m);
      MulMonotone(digit, 4, m);
    }
  }

  /** On the fraction padded to three places, the third digit decides. */
  lemma {:induction false} PaddedRounds(p: Parts)
    requires AllDigits(p.integer) && AllDigits(p.fraction)
    ensures var f := PadEnd(p.fraction, 3);
      |f| >= 3 && IsHalfUp(Val(p.integer + f), 10 * Pow10(|f| - 3), Whole(p))
  {
    hide IsHalfUp, Val, Pow10;
    var f := PadEnd(p.fraction, 3);
    Padded(p.fraction, 3);
    ValRange(f[3..]);
    CentsSplit(p.integer, f);
    ThirdDigitDecides(Val(p.integer) * 100 + Val(f[..2]), DigitOf(f[2]), Val(f[3..]), Pow10(|f| - 3));
  }

  lemma {:induction false} PaddedValue(p: Parts)
    requires AllDigits(p.integer) && AllDigits(p.fraction)
    ensures var f := PadEnd(p.fraction, 3);
      |f| >= 3 && |f| >= |p.fraction| && Val(p.integer + f) == Val(p.integer + p.fraction) * Pow10(|f| - |p.fraction|)
  {
    var f := PadEnd(p.fraction, 3);
    LinedUp(p, |p.integer|, |f|);
    assert PadStart(p.integer, |p.integer|) == p.integer && PadEnd(p.fraction, |f|) == f;
  }

  /** The displayed magnitude is the exact magnitude rounded to the nearest cent, ties up. */
  lemma {:induction false} RoundsToCents(p: Parts)
    requires AllDigits(p.integer) && AllDigits(p.fraction)
    ensures IsHalfUp(100 * Val(p.integer + p.fraction), Pow10(|p.fraction|), Whole(p))
  {
    hide Val, Pow10, Whole, PadEnd, PadStart, IsHalfUp;
    PaddedRounds(p);
    PaddedValue(p);
    var f := PadEnd(p.fraction, 3);
    var n, d, c := Val(p.integer + p.fraction), Pow10(|p.fraction|), Pow10(|f| - |p.fraction|);
    PowPlus(|p.fraction|, |f| - |p.fraction|);
    ThreeMore(|f| - 3);
    HalfUpUp(n * c, 10 * Pow10(|f| - 3), Whole(p), 100);
    MulAssoc(100, n, c);
    HalfUpScaled(100 * n, d, Whole(p), c);
  }

  lemma {:induction false} ThreeMore(k: nat)
    ensures Pow10(k + 3) == (10 * Pow10(k)) * 100
  {
    assert Pow10(k + 3) == 10 * Pow10(k + 2) == 100 * Pow10(k + 1);
  }

  lemma {:induction false} HalfUpUp(n: int, d: int, w: int, c: int)
    requires c > 0 && IsHalfUp(n, d, w)
    ensures IsHalfUp(c * n, d * c, w)
  {
  }

  lemma {:induction false} CentsSplit(integer: string, f: string)
    requires |f| >= 3
    ensures var m := Pow10(|f| - 3);
      Val(integer + f) == (Val(integer) * 100 + Val(f[..2])) * (10 * m) + DigitOf(f[2]) * m + Val(f[3..])
  {
    var two, tail := f[..2], f[2..];
    var third, rest := f[2..3], f[3..];
    assert integer + f == (integer + two) + tail;
    assert tail == third + rest;
    ValAppend(integer + two, tail);
    ValAppend(third, rest);
    ValAppend(integer, two);
    assert Pow10(2) == 10 * Pow10(1) == 100;
    assert Val(third) == DigitOf(f[2]) by { assert third[..0] == []; }
    assert Pow10(|tail|) == 10 * Pow10(|rest|);
  }

  lemma {:induction false} RoundingKeepsOrder(n: int, d: int, w: int, n': int, d': int, w': int)
    requires d > 0 && d' > 0 && IsHalfUp(n, d, w) && IsHalfUp(n', d', w')
    requires n * d' <= n' * d
    ensures w <= w'
  {
    MulMonotone(2 * w * d, 2 * n + d, d');
    assert (2 * n + d) * d' == 2 * (n * d') + d * d';
    assert (2 * n' + d') * d == 2 * (n' * d) + d' * d;
    MulMonotone(2 * n' + d' + 1, 2 * (w' + 1) * d', d);
    assert (2 * n' + d' + 1) * d == (2 * n' + d') * d + d;
    assert (2 * w * d) * d' == (2 * w) * (d * d');
    assert (2 * (w' + 1) * d') * d == (2 * (w' + 1)) * (d * d');
    if w > w' {
      MulMonotone(2 * (w' + 1), 2 * w, d * d');
    }
  }

  /** w is n/d rounded to the nearest integer, an exact tie going away from zero. */
  ghost predicate IsHalfAway(n: int, d: int, w: int)
  {
    var gap := 2 * (n - w * d);
    -d <= gap <= d && (gap == d ==> n < 0) && (gap == -d ==> n > 0)
  }

  lemma {:induction false} HalfAwayOf(n: int, d: int, w: int)
    requires n >= 0 && d > 0 && IsHalfUp(n, d, w)
    ensures IsHalfAway(n, d, w) && IsHalfAway(-n, d, -w)
  {
    MulAssoc(2, w, d);
    MulAssoc(2, w + 1, d);
    MulAdd(w, 1, d);
    MulSub(w, 0, d);
    if w >= 1 {
      MulMonotone(1, w, d);
    } else {
      MulMonotone(w, 0, d);
    }
  }

  /** The cents shown for a string are the value it denotes, rounded to the nearest cent, ties away from zero. */
  lemma {:induction false} DisplayRounds(value: string)
    requires Digital(value)
    ensures IsHalfAway(100 * Numerator(value), Pow10(Places(value)), DisplayedCents(value))
  {
    hide Val, Whole, Pow10, IsHalfUp, IsHalfAway, PartsOf;
    var p := PartsOf(value);
    RoundsToCents(p);
    ValRange(p.integer + p.fraction);
    HalfAwayOf(100 * Val(p.integer + p.fraction), Pow10(|p.fraction|), Whole(p));
  }

  lemma {:induction false} BothZero(m: int, d: int, w: int)
    requires m == 0 && d > 0 && IsHalfUp(100 * m, d, w)
    ensures w == 0
  {
  }

  lemma {:induction false} SignedOrder(na: bool, m: int, d: int, w: int, nb: bool, n: int, d': int, w': int)
    requires m >= 0 && n >= 0 && d > 0 && d' > 0 && w >= 0 && w' >= 0
    requires IsHalfUp(100 * m, d, w) && IsHalfUp(100 * n, d', w')
    requires (if na then -m else m) * d' - (if nb then -n else n) * d <= 0
    ensures (if na then -w else w) <= (if nb then -w' else w')
  {
    hide IsHalfUp;
    MulAssoc(100, m, d');
    MulAssoc(100, n, d);
    MulSub(m, 0, d');
    MulSub(n, 0, d);
    ScaleSign(m, d');
    ScaleSign(n, d);
    if !na && !nb {
      RoundingKeepsOrder(100 * m, d, w, 100 * n, d', w');
    } else if na && nb {
      RoundingKeepsOrder(100 * n, d', w', 100 * m, d, w);
    } else if !na {
      BothZero(m, d, w);
      BothZero(n, d', w');
    }
  }

  /** Display never reverses an order: if one value is at most another, so are the cents shown for them. */
  lemma {:induction false} DisplayKeepsOrder(a: string, b: string)
    requires Digital(a) && Digital(b) && Difference(a, b) <= 0
    ensures DisplayedCents(a) <= DisplayedCents(b)
  {
    hide Val, Whole, PartsOf, IsHalfUp, Pow10;
    var pa, pb := PartsOf(a), PartsOf(b);
    RoundsToCents(pa);
    RoundsToCents(pb);
    ValRange(pa.integer + pa.fraction);
    ValRange(pb.integer + pb.fraction);
    SignedOrder(pa.negative, Val(pa.integer + pa.fraction), Pow10(|pa.fraction|), Whole(pa),
                pb.negative, Val(pb.integer + pb.fraction), Pow10(|pb.fraction|), Whole(pb));
  }

  // ---------------------------------------------------------------------------------------------
  // What the displayed text says
  // ---------------------------------------------------------------------------------------------

  function NoCommas(s: string): string
  {
    if s == [] then [] else NoCommas(s[..|s| - 1]) + if s[|s| - 1] == ',' then [] else [s[|s| - 1]]
  }

  /** Counting from the right, every fourth character is a comma and all others are digits; none leads. */
  ghost predicate WellGrouped(s: string)
  {
    && s != [] && s[0] != ','
    && forall i :: 0 <= i < |s| ==> (if i % 4 == 3 then s[|s| - 1 - i] == ',' else IsDigit(s[|s| - 1 - i]))
  }

  lemma {:induction false} NoCommasAppend(s: string, t: string)
    ensures NoCommas(s + t) == NoCommas(s) + NoCommas(t)
  {
    if t == [] {
      assert s + t == s;
    } else {
      assert (s + t)[..|s + t| - 1] == s + t[..|t| - 1];
      NoCommasAppend(s, t[..|t| - 1]);
    }
  }

  lemma {:induction false} NoCommasDigits(s: string)
    requires AllDigits(s)
    ensures NoCommas(s) == s
  {
    if s == [] {
    } else {
      NoCommasDigits(s[..|s| - 1]);
    }
  }

  lemma {:induction false} OnlyComma()
    ensures NoCommas(",") == ""
  {
  }

  lemma {:induction false} OneMoreGroup(g: string, tail: string)
    requires WellGrouped(g) && AllDigits(tail) && |tail| == 3
    ensures WellGrouped(g + "," + tail)
  {
    var all := g + "," + tail;
    forall i | 0 <= i < |all| ensures if i % 4 == 3 then all[|all| - 1 - i] == ',' else IsDigit(all[|all| - 1 - i]) {
      if i >= 4 {
        assert all[|all| - 1 - i] == g[|g| - 1 - (i - 4)];
        assert (i - 4) % 4 == i % 4;
      }
    }
  }

  lemma {:induction false} ShortGroup(digits: string)
    requires AllDigits(digits) && 0 < |digits| <= 3
    ensures WellGrouped(digits)
  {
  }

  lemma {:induction false} GroupedReads(digits: string)
    requires AllDigits(digits) && digits != []
    ensures WellGrouped(Grouped(digits)) && NoCommas(Grouped(digits)) == digits
  {
    hide NoCommas, WellGrouped;
    if |digits| <= 3 {
      NoCommasDigits(digits);
      ShortGroup(digits);
    } else {
      var head, tail := digits[..|digits| - 3], digits[|digits| - 3..];
      GroupedReads(head);
      var g := Grouped(head);
      assert Grouped(digits) == g + "," + tail;
      hide Grouped;
      NoCommasAppend(g + ",", tail);
      NoCommasAppend(g, ",");
      NoCommasDigits(tail);
      OnlyComma();
      OneMoreGroup(g, tail);
      assert head + tail == digits;
    }
  }

  /**
   * The text is a sign, a dollar sign, whole dollars in groups of three and two digits of cents; read back, it
   * denotes exactly the displayed cents.
   */
  lemma {:induction false} DisplayReads(value: string) returns (dollars: string, cents: string)
    requires Digital(value)
    ensures FormatMoney(value) == (if PartsOf(value).negative then "-" else "") + "$" + dollars + "." + cents
    ensures WellGrouped(dollars) && AllDigits(cents) && |cents| == 2
    ensures var n := Val(NoCommas(dollars)) * 100 + Val(cents);
      DisplayedCents(value) == if PartsOf(value).negative then -n else n
  {
    var whole := Whole(PartsOf(value));
    dollars, cents := Grouped(Str(whole / 100)), PadStart(Str(whole % 100), 2);
    StrVal(whole / 100);
    StrVal(whole % 100);
    GroupedReads(Str(whole / 100));
    Padded(Str(whole % 100), 2);
  }

  // ---------------------------------------------------------------------------------------------
  // Written numerals, compared and displayed
  // ---------------------------------------------------------------------------------------------

  /** The sign found for a written numeral is the sign of the number it denotes, negative zero included. */
  lemma {:induction false} SignOfText(n: Numeral)
    requires n.Valid()
    ensures SignOf(n.Text()) == if n.Amount() < 0 then -1 else if n.Amount() > 0 then 1 else 0
  {
    ReadsAs(n);
    SignIsTrue(n.Text());
  }

  /** Written numerals compare as the numbers they denote, at any length and any number of places. */
  lemma {:induction false} TextComparesTruly(a: Numeral, b: Numeral)
    requires a.Valid() && b.Valid()
    ensures var c, x, y := CompareDecimal(a.Text(), b.Text()), a.Amount() * Pow10(b.Scale()),
      b.Amount() * Pow10(a.Scale());
      (c < 0 <==> x < y) && (c == 0 <==> x == y) && (c > 0 <==> x > y)
  {
    hide CompareDecimal, PartsOf;
    ReadsAs(a);
    ReadsAs(b);
    ComparesTruly(a.Text(), b.Text());
  }

  /** A reading of a displayed amount: sign, dollar sign, dollars grouped in threes, a dot and two digits of cents. */
  ghost predicate ReadsCents(text: string, negative: bool, cents: int)
  {
    exists d: string, c: string :: DollarsAndCents(text, negative, cents, d, c)
  }

  ghost predicate DollarsAndCents(text: string, negative: bool, cents: int, dollars: string, rest: string)
  {
    && text == (if negative then "-" else "") + "$" + dollars + "." + rest
    && WellGrouped(dollars) && AllDigits(rest) && |rest| == 2
    && cents == (if negative then -1 else 1) * (Val(NoCommas(dollars)) * 100 + Val(rest))
  }

  /**
   * What is shown for a written numeral: its sign, and the number it denotes rounded to the nearest cent, ties
   * away from zero.
   */
  lemma {:induction false} TextDisplays(n: Numeral) returns (cents: int)
    requires n.Valid()
    ensures Digital(n.Text()) && ReadsCents(FormatMoney(n.Text()), n.negative, cents)
    ensures IsHalfAway(100 * n.Amount(), Pow10(n.Scale()), cents) && cents == DisplayedCents(n.Text())
  {
    ReadsAs(n);
    DisplayRounds(n.Text());
    cents := DisplayedCents(n.Text());
    var d, c := DisplayReads(n.Text());
    assert DollarsAndCents(FormatMoney(n.Text()), n.negative, cents, d, c);
  }

  /** Display never reverses an order: what is shown for the smaller number is never read as the larger amount. */
  lemma {:induction false} TextKeepsOrder(a: Numeral, b: Numeral) returns (x: int, y: int)
    requires a.Valid() && b.Valid() && a.Amount() * Pow10(b.Scale()) <= b.Amount() * Pow10(a.Scale())
    ensures Digital(a.Text()) && Digital(b.Text()) && x <= y
    ensures ReadsCents(FormatMoney(a.Text()), a.negative, x) && ReadsCents(FormatMoney(b.Text()), b.negative, y)
  {
    ReadsAs(a);
    ReadsAs(b);
    x := TextDisplays(a);
    y := TextDisplays(b);
    DisplayKeepsOrder(a.Text(), b.Text());
  }
}
