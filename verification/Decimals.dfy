/** Number lexemes mean what they say in decimal notation. */
module Decimals {
  import opened Values
  import opened Syntax

  function Digit(d: nat): char
    requires d < 10
  {
    '0' + d as char
  }

  /** The decimal notation of a number, by repeated division by ten. */
  function Digits(n: nat): (s: string)
    ensures s != []
  {
    if n < 10 then [Digit(n)] else Digits(n / 10) + [Digit(n % 10)]
  }

  function Pow10(k: nat): (p: nat)
    ensures p > 0
  {
    if k == 0 then 1 else 10 * Pow10(k - 1)
  }

  predicate AreDigits(s: string) { forall i :: 0 <= i < |s| ==> '0' <= s[i] <= '9' }

  lemma {:induction false} DigitsAre(n: nat)
    ensures AreDigits(Digits(n))
  {
    if n >= 10 { DigitsAre(n / 10); }
  }

  lemma {:induction false} DigitsShort(n: nat, k: nat)
    requires n < Pow10(k) && k > 0
    ensures |Digits(n)| <= k
    decreases k
  {
    if n >= 10 {
      assert Pow10(1) == 10 * Pow10(0) == 10;
      DigitsShort(n / 10, k - 1);
    }
  }

  lemma PowersOfTen()
    ensures Pow10(7) == 10_000_000 && Pow10(8) == 100_000_000
  {
    assert Pow10(4) == 10_000;
    assert Pow10(7) == 10 * (10 * (10 * Pow10(4)));
  }

  // ----- integers -----

  /** Reading one digit more. */
  lemma {:induction false} SumAppend(s: string, c: char, from: nat, acc: int)
    requires from <= |s|
    ensures DigitSum(s + [c], from, acc) == 10 * DigitSum(s, from, acc) + DigitValue(c)
    decreases |s| - from
  {
    if from < |s| { SumAppend(s, c, from + 1, 10 * acc + DigitValue(s[from])); }
  }

  lemma {:induction false} SumOfDigits(n: nat)
    ensures DigitSum(Digits(n), 0, 0) == n
  {
    if n >= 10 {
      SumOfDigits(n / 10);
      SumAppend(Digits(n / 10), Digit(n % 10), 0, 0);
    }
  }

  /** What stands in front of the position does not matter. */
  lemma {:induction false} SumBehind(p: string, s: string, from: nat, acc: int)
    requires from <= |s|
    ensures DigitSum(p + s, |p| + from, acc) == DigitSum(s, from, acc)
    decreases |s| - from
  {
    if from < |s| { SumBehind(p, s, from + 1, 10 * acc + DigitValue(s[from])); }
  }

  lemma {:induction false} SumBound(s: string, from: nat, acc: nat)
    requires from <= |s| && AreDigits(s)
    ensures 0 <= DigitSum(s, from, acc) < (acc + 1) * Pow10(|s| - from)
    decreases |s| - from
  {
    if from < |s| {
      var next := 10 * acc + DigitValue(s[from]);
      SumBound(s, from + 1, next);
      var p := Pow10(|s| - from - 1);
      assert next + 1 <= 10 * (acc + 1);
      assert (next + 1) * p <= 10 * (acc + 1) * p;
      assert 10 * (acc + 1) * p == (acc + 1) * (10 * p);
    }
  }

  /** Up to eight digits are read back as the number they denote. */
  lemma {:induction false} DecimalBack(n: nat)
    requires n < 100_000_000
    ensures DecodeInt(Digits(n)) == n
  {
    PowersOfTen();
    DigitsShort(n, 8);
    DigitsAre(n);
    SumOfDigits(n);
    hide Digits, DigitSum;
  }

  /** With a sign in front there is room for seven. */
  lemma {:induction false} NegativeBack(n: nat)
    requires n < 10_000_000
    ensures DecodeInt("-" + Digits(n)) == 0 - n
  {
    PowersOfTen();
    DigitsShort(n, 7);
    SumBehind("-", Digits(n), 0, 0);
    SumOfDigits(n);
    hide Digits, DigitSum;
  }

  /** Leading zeros change nothing within eight characters. */
  lemma {:induction false} LeadingZero(s: string)
    requires s != [] && |s| < 8 && AreDigits(s)
    ensures DecodeInt("0" + s) == DecodeInt(s)
  {
    SumBehind("0", s, 0, 0);
    assert DigitSum("0" + s, 0, 0) == DigitSum("0" + s, 1, 0);
    hide DigitSum;
  }

  /** More than eight characters count as zero. */
  lemma LongLexeme(s: string)
    requires |s| > 8
    ensures DecodeInt(s) == 0
  {
  }

  /** The source's own loop, from the last digit to the first with a growing weight, reads the same number. */
  method Atoi(s: string) returns (result: i32)
    requires s != [] && AreDigits(if s[0] == '-' then s[1..] else s)
    ensures result == DecodeInt(s)
  {
    result := 0;
    if |s| > 8 { return; }
    var from := if s[0] == '-' then 1 else 0;
    var i, base: nat, sum: int := |s|, 1, 0;
    while i > from
      invariant from <= i <= |s| && base == Pow10(|s| - i) && sum == DigitSum(s, i, 0)
    {
      i := i - 1;
      SumWeight(s, i);
      sum, base := sum + DigitValue(s[i]) * base, base * 10;
    }
    SmallSum(s, from);
    result := if from == 1 then 0 - sum else sum;
  }

  /** A digit in front weighs ten to the number of digits behind it. */
  lemma {:induction false} SumWeight(s: string, i: nat)
    requires i < |s|
    ensures DigitSum(s, i, 0) == DigitSum(s, i + 1, 0) + DigitValue(s[i]) * Pow10(|s| - i - 1)
  {
    SumShift(s, i + 1, DigitValue(s[i]));
  }

  lemma {:induction false} SumShift(s: string, i: nat, acc: int)
    requires i <= |s|
    ensures DigitSum(s, i, acc) == DigitSum(s, i, 0) + acc * Pow10(|s| - i)
    decreases |s| - i
  {
    if i < |s| {
      var d, p := DigitValue(s[i]), Pow10(|s| - i - 1);
      SumShift(s, i + 1, 10 * acc + d);
      SumShift(s, i + 1, d);
      assert (10 * acc + d) * p == acc * (10 * p) + d * p;
    }
  }

  lemma {:induction false} SmallSum(s: string, from: nat)
    requires from <= |s| <= 8 && AreDigits(s[from..])
    ensures 0 <= DigitSum(s, from, 0) < 100_000_000
  {
    PowersOfTen();
    SumBehind(s[..from], s[from..], 0, 0);
    assert s == s[..from] + s[from..];
    SumBound(s[from..], 0, 0);
    PowGrows(|s| - from, 8);
    hide DigitSum;
  }

  lemma {:induction false} PowGrows(a: nat, b: nat)
    requires a <= b
    ensures Pow10(a) <= Pow10(b)
    decreases b
  {
    if a < b { PowGrows(a, b - 1); }
  }

  // ----- reals -----

  predicate NoPoint(s: string) { forall i :: 0 <= i < |s| ==> s[i] != '.' }

  /** The weight of the first digit of `a.b` is ten to the number of digits behind it in front of the point. */
  lemma {:induction false} BaseIs(p: string, a: string, b: string)
    requires a != [] && NoPoint(a)
    ensures PointBase(p + a + "." + b, |p|) == Pow10(|a| - 1) as real
    decreases |a|
  {
    var s := p + a + "." + b;
    assert s[|p|..] == a + "." + b;
    if |a| == 1 {
      assert s[|p| + 1] == '.';
    } else {
      assert s[|p| + 1] == a[1];
      assert s == (p + [a[0]]) + a[1..] + "." + b;
      BaseIs(p + [a[0]], a[1..], b);
    }
  }

  lemma {:induction false} RealBehind(p: string, s: string, i: nat, base: real)
    ensures RealSum(p + s, |p| + i, base) == RealSum(s, i, base)
    decreases |s| - i
  {
    if i < |s| { RealBehind(p, s, i + 1, if s[i] == '.' then base else base / 10.0); }
  }

  lemma {:induction false} RealScales(s: string, i: nat, base: real)
    ensures RealSum(s, i, 10.0 * base) == 10.0 * RealSum(s, i, base)
    decreases |s| - i
  {
    if i < |s| {
      if s[i] == '.' { RealScales(s, i + 1, base); }
      else {
        RealScales(s, i + 1, base / 10.0);
        var d := DigitValue(s[i]) as real;
        assert d * (10.0 * base) == 10.0 * (d * base);
        assert 10.0 * base / 10.0 == 10.0 * (base / 10.0);
      }
    }
  }

  /** The source's two loops: the weight of the first digit, then the digits from the first to the last. */
  method Atof(s: string) returns (result: Float)
    requires s != [] && forall i :: 0 <= i < |s| ==> '0' <= s[i] <= '9' || s[i] == '.' || (i == 0 && s[i] == '-')
    ensures result == DecodeReal(s)
  {
    var from := if s[0] == '-' then 1 else 0;
    var base, p := 1.0, from;
    while p < |s|
      invariant from <= p <= |s| && base * PointBase(s, p) == PointBase(s, from)
      decreases |s| - p
    {
      if p + 1 < |s| && s[p + 1] == '.' { break; }
      base, p := base * 10.0, p + 1;
    }
    var sum, i := 0.0, from;
    while i < |s|
      invariant from <= i <= |s| && sum + RealSum(s, i, base) == RealSum(s, from, PointBase(s, from))
    {
      if s[i] != '.' {
        sum, base := sum + DigitValue(s[i]) as real * base, base / 10.0;
      }
      i := i + 1;
    }
    result := Num(if from == 1 then -sum else sum);
  }

  lemma {:induction false} PointInFront(c: char, b: string, base: real)
    requires c != '.'
    ensures RealSum([c] + "." + b, 0, base) == RealSum("." + [c] + b, 0, base)
  {
    RealBehind([c] + ".", b, 0, base / 10.0);
    RealBehind("." + [c], b, 0, base / 10.0);
    PointFirst([c] + "." + b, c, base);
    PointSecond("." + [c] + b, c, base);
  }

  lemma {:induction false} PointFirst(s: string, c: char, base: real)
    requires |s| >= 2 && s[0] == c != '.' && s[1] == '.'
    ensures RealSum(s, 0, base) == DigitValue(c) as real * base + RealSum(s, 2, base / 10.0)
  {
    assert RealSum(s, 1, base / 10.0) == RealSum(s, 2, base / 10.0);
  }

  lemma {:induction false} PointSecond(s: string, c: char, base: real)
    requires |s| >= 2 && s[1] == c != '.' && s[0] == '.'
    ensures RealSum(s, 0, base) == DigitValue(c) as real * base + RealSum(s, 2, base / 10.0)
  {
    assert RealSum(s, 0, base) == RealSum(s, 1, base);
  }

  /** The point itself has no weight, wherever it stands. */
  lemma {:induction false} PointMoves(a: string, c: char, b: string, base: real)
    requires NoPoint(a) && c != '.'
    ensures RealSum(a + [c] + "." + b, 0, base) == RealSum(a + "." + [c] + b, 0, base)
    decreases |a|
  {
    var s, t := a + [c] + "." + b, a + "." + [c] + b;
    if a == [] {
      assert s == [c] + "." + b && t == "." + [c] + b;
      PointInFront(c, b, base);
    } else {
      var u := a[1..];
      PointMoves(u, c, b, base / 10.0);
      assert s == [a[0]] + (u + [c] + "." + b) && t == [a[0]] + (u + "." + [c] + b);
      RealBehind([a[0]], u + [c] + "." + b, 0, base / 10.0);
      RealBehind([a[0]], u + "." + [c] + b, 0, base / 10.0);
    }
  }

  /** Moving the point one place to the right multiplies by ten. */
  lemma {:induction false} PointTimesTen(a: string, c: char, b: string)
    requires a != [] && AreDigits(a) && '0' <= c <= '9'
    ensures DecodeReal(a + [c] + "." + b) == FloatArith(Mul, Num(10.0), DecodeReal(a + "." + [c] + b))
  {
    var s, t := a + [c] + "." + b, a + "." + [c] + b;
    var low := Pow10(|a| - 1) as real;
    BaseIs("", a + [c], b);
    BaseIs("", a, [c] + b);
    assert "" + (a + [c]) + "." + b == s && "" + a + "." + ([c] + b) == t;
    assert Pow10(|a|) as real == 10.0 * low;
    PointMoves(a, c, b, 10.0 * low);
    RealScales(t, 0, low);
    assert s[0] == a[0] && t[0] == a[0];
    hide RealSum, PointBase;
    assert DecodeReal(s) == Num(RealSum(s, 0, 10.0 * low)) && DecodeReal(t) == Num(RealSum(t, 0, low));
    TenTimes(RealSum(t, 0, low));
  }

  lemma TenTimes(x: real)
    ensures FloatArith(Mul, Num(10.0), Num(x)) == Num(10.0 * x)
  {
    var a, b := Num(10.0), Num(x);
    assert a.r * b.r == 10.0 * x;
  }

  /** The digits in front of the point weigh like those of an integer. */
  lemma {:induction false} RealWhole(a: string, t: string)
    requires a != [] && AreDigits(a)
    ensures RealSum(a + t, 0, Pow10(|a| - 1) as real) == DigitSum(a, 0, 0) as real + RealSum(t, 0, 0.1)
    decreases |a|
  {
    var n := |a| - 1;
    var e, c := a[..n], a[n];
    assert a == e + [c];
    if n == 0 {
      assert a + t == [c] + t;
      RealBehind([c], t, 0, 0.1);
      assert RealSum([c] + t, 0, 1.0) == DigitValue(c) as real * 1.0 + RealSum([c] + t, 1, 1.0 / 10.0);
      assert DigitSum([c], 0, 0) == DigitSum([c], 1, DigitValue(c)) == DigitValue(c);
    } else {
      var low := Pow10(n - 1) as real;
      RealWhole(e, [c] + t);
      assert a + t == e + ([c] + t);
      assert Pow10(n) as real == 10.0 * low;
      RealScales(a + t, 0, low);
      RealScales([c] + t, 0, 0.1);
      RealBehind([c], t, 0, 0.1);
      assert RealSum([c] + t, 0, 1.0) == DigitValue(c) as real * 1.0 + RealSum([c] + t, 1, 1.0 / 10.0);
      SumAppend(e, c, 0, 0);
    }
  }

  /** With `.0` behind it a number is itself. */
  lemma {:induction false} WholeReal(n: nat)
    ensures DecodeReal(Digits(n) + ".0") == Num(n as real)
  {
    var d := Digits(n);
    DigitsAre(n);
    SumOfDigits(n);
    BaseIs("", d, "0");
    assert "" + d + "." + "0" == d + ".0";
    RealWhole(d, ".0");
    assert RealSum(".0", 0, 0.1) == RealSum(".0", 1, 0.1) == 0.0;
    assert (d + ".0")[0] == d[0] != '-';
    hide RealSum, PointBase, Digits;
  }

  /** A sign in front negates. */
  lemma {:induction false} NegativeReal(a: string, b: string)
    requires a != [] && AreDigits(a)
    ensures DecodeReal(a + "." + b).Num? &&
      DecodeReal("-" + a + "." + b) == FloatArith(Sub, Num(0.0), DecodeReal(a + "." + b))
  {
    var s := a + "." + b;
    BaseIs("-", a, b);
    BaseIs("", a, b);
    assert "" + a + "." + b == s && "-" + a + "." + b == "-" + s;
    RealBehind("-", s, 0, Pow10(|a| - 1) as real);
    assert s[0] == a[0] != '-';
    hide RealSum, PointBase;
  }

  /** A lexeme is an integer without a point and a real with one. */
  lemma PointDecides(s: string)
    ensures NoPoint(s) ==> NumValue(s) == VInt(DecodeInt(s))
    ensures !NoPoint(s) ==> NumValue(s) == VReal(DecodeReal(s))
  {
    hide DecodeInt, DecodeReal;
  }

  /** So the literals of a program are the numbers they spell. */
  lemma {:induction false} LiteralMeans(n: nat)
    ensures n < 100_000_000 ==> LitValue(LNum(Digits(n))) == VInt(n)
    ensures LitValue(LNum(Digits(n) + ".0")) == VReal(Num(n as real))
  {
    DigitsAre(n);
    PointDecides(Digits(n));
    PointDecides(Digits(n) + ".0");
    if n < 100_000_000 { DecimalBack(n); }
    WholeReal(n);
    assert (Digits(n) + ".0")[|Digits(n)|] == '.';
    hide NumValue, DecodeInt, DecodeReal, Digits;
  }
}
