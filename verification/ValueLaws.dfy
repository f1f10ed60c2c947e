/** What the operators and tests of the machine mean, in laws that name none of their definitions. */
module ValueLaws {
  import opened Values

  // ----- comparisons -----

  predicate Holds(op: BinOp, a: Value, b: Value) { Binary(op, a, b) == VBool(true) }

  /** Two values that have an order between them. */
  predicate Comparable(a: Value, b: Value) {
    || (a.VBool? && b.VBool?)
    || (a.VInt? && b.VInt?)
    || (a.VReal? && b.VReal? && a.f.Num? && b.f.Num?)
  }

  predicate IsComparison(op: BinOp) { op.Eq? || op.Ne? || op.Lt? || op.Gt? }

  lemma ComparisonsAnswer(op: BinOp, a: Value, b: Value)
    requires IsComparison(op)
    ensures Binary(op, a, b) == VBool(true) || Binary(op, a, b) == VBool(false)
  {
  }

  /** `<` is a strict total order on truth values, on integers and on numbers, with `==` as its equality. */
  lemma LessIsOrder(a: Value, b: Value, c: Value)
    requires Comparable(a, b) && Comparable(b, c)
    ensures !Holds(Lt, a, a)
    ensures Holds(Lt, a, b) && Holds(Lt, b, c) ==> Holds(Lt, a, c)
    ensures Holds(Lt, a, b) || Holds(Lt, b, a) || Holds(Eq, a, b)
    ensures Holds(Lt, a, b) ==> !Holds(Lt, b, a) && !Holds(Eq, a, b)
  {
  }

  /** Its direction: the next integer, TRUE and any larger number are larger. */
  lemma LessPointsUp(x: i32, r: real, d: real)
    ensures x < 0x7FFF_FFFF ==> Holds(Lt, VInt(x), VInt(x + 1))
    ensures Holds(Lt, VBool(false), VBool(true))
    ensures d > 0.0 ==> Holds(Lt, VReal(Num(r)), VReal(Num(r + d)))
  {
  }

  /** `>` is the converse of `<`, whatever the operands. */
  lemma GreaterIsConverse(a: Value, b: Value)
    ensures Binary(Gt, a, b) == Binary(Lt, b, a)
  {
  }

  /** `==` is identity where there is an order, and on NIL; there `!=` is its complement. */
  lemma EqualIsIdentity(a: Value, b: Value)
    requires Comparable(a, b) || (a.VNil? && b.VNil?)
    ensures Holds(Eq, a, b) <==> a == b
    ensures Holds(Ne, a, b) <==> a != b
  {
  }

  /** Everything else is unrelated, not even unequal: different tags, strings and objects. */
  lemma UnrelatedCompare(op: BinOp, a: Value, b: Value)
    requires IsComparison(op) && !Comparable(a, b) && !(a.VNil? && b.VNil?) && !(a.VReal? && b.VReal?)
    ensures Binary(op, a, b) == VBool(false)
  {
  }

  /** NIL is not below itself, and NaN is unequal to every number and to itself. */
  lemma NilAndNaN(f: Float)
    ensures !Holds(Lt, VNil, VNil)
    ensures Holds(Ne, VReal(NaN), VReal(f)) && Holds(Ne, VReal(f), VReal(NaN))
    ensures !Holds(Eq, VReal(NaN), VReal(f)) && !Holds(Eq, VReal(f), VReal(NaN))
    ensures !Holds(Lt, VReal(NaN), VReal(f)) && !Holds(Lt, VReal(f), VReal(NaN))
  {
  }

  // ----- tests -----

  /** An integer passes a test exactly when it differs from zero; so does a number; NaN passes; a truth
      value is its own answer; an object answers for itself; NIL and strings fail. */
  lemma TestMeans(i: i32, r: real, b: bool, id: nat, oid: int, o: int -> bool)
    ensures Truthy(VInt(i), o) <==> Binary(Ne, VInt(i), VInt(0)) == VBool(true)
    ensures Truthy(VReal(Num(r)), o) <==> Binary(Ne, VReal(Num(r)), VReal(Num(0.0))) == VBool(true)
    ensures Truthy(VReal(NaN), o) && (Truthy(VBool(b), o) <==> b) && (Truthy(VObj(oid), o) <==> o(oid))
    ensures !Truthy(VNil, o) && !Truthy(VStr(id), o)
  {
  }

  /** The test of `||` agrees with it on everything but NIL, strings and unwritten slots, which it keeps. */
  lemma TestsDiffer(v: Value, o: int -> bool)
    ensures KeepsForOr(v, o) != Truthy(v, o) <==> v.VNil? || v.VStr? || v.VUndef?
    ensures Truthy(v, o) ==> KeepsForOr(v, o)
  {
  }

  // ----- wrapping -----

  const TWO32: int := 0x1_0000_0000

  lemma WrapUnique(a: int, b: int, k: int)
    requires a == b + k * TWO32
    ensures Wrap32(a) == Wrap32(b)
  {
    var x, y := a + 0x8000_0000, b + 0x8000_0000;
    assert y == y / TWO32 * TWO32 + y % TWO32;
    assert x == (y / TWO32 + k) * TWO32 + y % TWO32;
    assert x / TWO32 == y / TWO32 + k;
  }

  lemma WrapBack(x: int) returns (k: int)
    ensures Wrap32(x) == x + k * TWO32
  {
    k := -((x + 0x8000_0000) / TWO32);
  }

  lemma WrapInside(x: i32)
    ensures Wrap32(x) == x
  {
  }

  /** Wrapping a part of a sum or a product changes nothing once the whole is wrapped. */
  lemma WrapSum(u: int, v: int)
    ensures Wrap32(Wrap32(u) + v) == Wrap32(u + v)
  {
    var k := WrapBack(u);
    WrapUnique(Wrap32(u) + v, u + v, k);
  }

  // ----- integer arithmetic -----

  /** Counting: one more, or from the largest integer to the smallest. */
  lemma AddOne(x: i32)
    ensures Binary(Add, VInt(x), VInt(1)) == if x < 0x7FFF_FFFF then VInt(x + 1) else VInt(-0x8000_0000)
  {
  }

  /** Addition counts, and subtraction undoes it. */
  lemma AddCounts(x: i32, y: i32)
    ensures Binary(Add, VInt(x), VInt(0)) == VInt(x)
    ensures y < 0x7FFF_FFFF ==>
      Binary(Add, VInt(x), VInt(y + 1)) == Binary(Add, Binary(Add, VInt(x), VInt(y)), VInt(1))
    ensures Binary(Sub, Binary(Add, VInt(x), VInt(y)), VInt(y)) == VInt(x)
  {
    hide Wrap32;
    WrapInside(x);
    WrapSum(x + y, 1);
    WrapSum(x + y, 0 - y);
  }

  /** Multiplication is repeated addition. */
  lemma MulCounts(x: i32, y: i32)
    ensures Binary(Mul, VInt(x), VInt(0)) == VInt(0)
    ensures y < 0x7FFF_FFFF ==>
      Binary(Mul, VInt(x), VInt(y + 1)) == Binary(Add, Binary(Mul, VInt(x), VInt(y)), VInt(x))
  {
    hide Wrap32;
    WrapInside(0);
    WrapSum(x * y, x);
    assert x * y + x == x * (y + 1);
  }

  function Magnitude(x: int): nat { if x < 0 then 0 - x else x }

  /** Division leaves a remainder smaller than the divisor with the sign of the dividend. */
  lemma DivLeaves(x: i32, y: i32)
    requires y != 0 && !(x == -0x8000_0000 && y == -1)
    ensures var q := Binary(Div, VInt(x), VInt(y));
      && q.VInt?
      && var rest := x - q.i * y;
         Magnitude(rest) < Magnitude(y) && (rest != 0 ==> (rest < 0 <==> x < 0))
  {
    TruncRest(x, y);
    WrapInside(TruncDiv(x, y));
    hide Wrap32, TruncDiv;
  }

  lemma SignedProduct(q: int, n: int, x: int, y: int)
    requires n == if y < 0 then 0 - y else y
    ensures (if (x < 0) == (y < 0) then q else 0 - q) * y == if x < 0 then 0 - q * n else q * n
  {
  }

  lemma TruncRest(x: i32, y: i32)
    requires y != 0 && !(x == -0x8000_0000 && y == -1)
    ensures var q := TruncDiv(x, y); var rest := x - q * y;
      && -0x8000_0000 <= q < 0x8000_0000
      && Magnitude(rest) < Magnitude(y) && (rest != 0 ==> (rest < 0 <==> x < 0))
  {
    var a, n := Magnitude(x), Magnitude(y);
    QuotientSigns(a, y);
    QuotientSmall(a, n);
    var q: int := a / n;
    var rest: int := a % n;
    assert a == q * n + rest;
    assert TruncDiv(x, y) == if (x < 0) == (y < 0) then q else 0 - q;
    SignedProduct(q, n, x, y);
    hide TruncDiv;
    assert x - TruncDiv(x, y) * y == if x < 0 then 0 - rest else rest;
  }

  /** The sign of the divisor only turns the quotient around. */
  lemma QuotientSigns(a: nat, y: int)
    requires y != 0
    ensures a / y == if y < 0 then 0 - a / Magnitude(y) else a / Magnitude(y)
  {
    if y < 0 {
      var n := Magnitude(y);
      var q := a / n;
      assert a == q * n + a % n;
      assert (0 - q) * y == q * n by { assert y == 0 - n; }
      EuclidUnique(a, y, 0 - q, a % n);
    }
  }

  lemma EuclidUnique(a: int, y: int, q: int, r: int)
    requires y != 0 && a == q * y + r && 0 <= r < Magnitude(y)
    ensures a / y == q
  {
    var p := a / y;
    assert a == p * y + a % y;
    assert (p - q) * y == r - a % y;
    if p - q >= 1 || p - q <= -1 { FarApart(p - q, y); }
  }

  lemma FarApart(d: int, y: int)
    requires d >= 1 || d <= -1
    ensures Magnitude(d * y) >= Magnitude(y)
  {
    if d >= 1 {
      if y >= 0 { assert d * y >= y; } else { assert d * y <= y; }
    } else {
      if y >= 0 { assert d * y <= 0 - y; } else { assert d * y >= 0 - y; }
    }
  }

  lemma QuotientSmall(a: nat, n: nat)
    requires n > 0
    ensures 0 <= a / n <= a && (n >= 2 && a > 0 ==> a / n < a)
  {
    var q := a / n;
    assert a == q * n + a % n;
    if q > 0 {
      assert q * n >= q;
      if n >= 2 { assert q * n >= 2 * q; }
    }
  }

  /** Division by zero is not a number, and the least integer divided by -1 is itself. */
  lemma DivEdges(x: i32)
    ensures Binary(Div, VInt(x), VInt(0)) == VReal(NaN)
    ensures Binary(Div, VInt(-0x8000_0000), VInt(-1)) == VInt(-0x8000_0000)
  {
  }

  /** Arithmetic needs two integers or two numbers. */
  lemma ArithNeedsNumbers(op: BinOp, a: Value, b: Value)
    requires IsArith(op) && !(a.VInt? && b.VInt?) && !(a.VReal? && b.VReal?)
    ensures Binary(op, a, b) == VReal(NaN)
  {
  }

  // ----- numbers -----

  /** NaN in, NaN out; division by zero too. */
  lemma NaNStays(op: BinOp, f: Float)
    requires IsArith(op)
    ensures Binary(op, VReal(NaN), VReal(f)) == VReal(NaN) && Binary(op, VReal(f), VReal(NaN)) == VReal(NaN)
    ensures Binary(Div, VReal(f), VReal(Num(0.0))) == VReal(NaN)
  {
  }

  function R(x: real): Value { VReal(Num(x)) }

  /** Addition counts like that of integers, keeps the order, and subtraction undoes it. */
  lemma RealSums(x: real, y: real, z: real, n: int)
    ensures Binary(Add, R(n as real), R(1.0)) == R((n + 1) as real)
    ensures Binary(Add, R(x), R(0.0)) == R(x) && Binary(Add, R(x), R(y)) == Binary(Add, R(y), R(x))
    ensures Binary(Add, Binary(Add, R(x), R(y)), R(z)) == Binary(Add, R(x), Binary(Add, R(y), R(z)))
    ensures Holds(Lt, R(x), R(y)) ==> Holds(Lt, Binary(Add, R(x), R(z)), Binary(Add, R(y), R(z)))
    ensures Binary(Sub, Binary(Add, R(x), R(y)), R(y)) == R(x)
  {
  }

  lemma RealIs(x: real, y: real)
    ensures Binary(Mul, R(x), R(y)) == R(x * y) && Binary(Add, R(x), R(y)) == R(x + y)
    ensures y != 0.0 ==> Binary(Div, R(x), R(y)) == R(x / y)
  {
    var a, b := Num(x), Num(y);
    assert a.r * b.r == x * y && a.r + b.r == x + y;
    assert FloatArith(Mul, a, b) == Num(x * y);
    if y != 0.0 { assert FloatArith(Div, a, b) == Num(x / y); }
  }

  lemma Distributes(x: real, y: real, z: real)
    ensures x * y == y * x && x * (y + z) == x * y + x * z && (y != 0.0 ==> x * y / y == x)
  {
  }

  lemma ProductOfSum(x: real, y: real, z: real, s: real, p: real, q: real)
    requires s == y + z && p == x * y && q == x * z
    ensures Binary(Mul, R(x), Binary(Add, R(y), R(z))) == Binary(Add, Binary(Mul, R(x), R(y)), Binary(Mul, R(x), R(z)))
  {
    hide Binary;
    RealIs(y, z);
    RealIs(x, s);
    RealIs(x, y);
    RealIs(x, z);
    RealIs(p, q);
    var t := x * s;
    assert t == p + q by { Distributes(x, y, z); }
    assert R(t) == R(p + q);
  }

  /** Multiplication has one as its unit and distributes, and division undoes it. */
  lemma RealProducts(x: real, y: real, z: real)
    ensures Binary(Mul, R(x), R(1.0)) == R(x) && Binary(Mul, R(x), R(y)) == Binary(Mul, R(y), R(x))
    ensures Binary(Mul, R(x), Binary(Add, R(y), R(z))) == Binary(Add, Binary(Mul, R(x), R(y)), Binary(Mul, R(x), R(z)))
    ensures y != 0.0 ==> Binary(Div, Binary(Mul, R(x), R(y)), R(y)) == R(x)
  {
    hide Binary;
    Distributes(x, y, z);
    RealIs(x, 1.0);
    RealIs(x, y);
    RealIs(y, x);
    RealIs(x * y, y);
    ProductOfSum(x, y, z, y + z, x * y, x * z);
  }

  // ----- bits -----

  /** Bit `k` of the two's complement representation. */
  function Bit(x: int, k: nat): bool
    decreases k
  {
    if k == 0 then x % 2 == 1 else Bit(x / 2, k - 1)
  }

  lemma {:induction false} BitSign(x: int, n: nat)
    requires 0 - Pow2(n) <= x < Pow2(n)
    ensures Bit(x, n) <==> x < 0
    decreases n
  {
    if n > 0 { BitSign(x / 2, n - 1); }
  }

  lemma {:induction false} BitsBit(op: BitOp, a: int, b: int, n: nat, k: nat)
    requires k <= n && 0 - Pow2(n) <= a < Pow2(n) && 0 - Pow2(n) <= b < Pow2(n)
    ensures Bit(Bits(op, a, b, n), k) <==> BitCombine(op, Bit(a, k), Bit(b, k))
    decreases n
  {
    if n > 0 {
      var rest := Bits(op, a / 2, b / 2, n - 1);
      var r := Bits(op, a, b, n);
      assert r / 2 == rest;
      if k > 0 { BitsBit(op, a / 2, b / 2, n - 1, k - 1); }
    }
  }

  /** An integer is its 32 bits. */
  lemma {:induction false} BitsDetermine(x: i32, y: i32)
    requires forall k: nat :: k < 32 ==> Bit(x, k) == Bit(y, k)
    ensures x == y
  {
    Pow31();
    SameBits(x, y, 31);
  }

  lemma {:induction false} SameBits(x: int, y: int, n: nat)
    requires 0 - Pow2(n) <= x < Pow2(n) && 0 - Pow2(n) <= y < Pow2(n)
    requires forall k: nat :: k <= n ==> Bit(x, k) == Bit(y, k)
    ensures x == y
    decreases n
  {
    assert Bit(x, 0) == Bit(y, 0);
    if n > 0 {
      forall k: nat | k <= n - 1
        ensures Bit(x / 2, k) == Bit(y / 2, k)
      {
        assert Bit(x, k + 1) == Bit(y, k + 1);
      }
      SameBits(x / 2, y / 2, n - 1);
    }
  }

  /** `&`, `|` and `^` work on each of the 32 bits. */
  lemma {:induction false} BitwiseBits(x: i32, y: i32, k: nat)
    requires k < 32
    ensures var r := Binary(BitAnd, VInt(x), VInt(y)); r.VInt? && (Bit(r.i, k) <==> Bit(x, k) && Bit(y, k))
    ensures var r := Binary(BitOr, VInt(x), VInt(y)); r.VInt? && (Bit(r.i, k) <==> Bit(x, k) || Bit(y, k))
    ensures var r := Binary(BitXor, VInt(x), VInt(y)); r.VInt? && (Bit(r.i, k) <==> Bit(x, k) != Bit(y, k))
  {
    Pow31();
    hide Pow2, Bits;
    BitsBit(BAnd, x, y, 31, k);
    BitsBit(BOr, x, y, 31, k);
    BitsBit(BXor, x, y, 31, k);
  }

  /** `~` turns every bit around: with its operand it sums to -1. */
  lemma ComplementSums(x: i32)
    ensures Binary(Add, VInt(x), Complement(VInt(x))) == VInt(-1)
  {
  }

  /** Bit operations need integers. */
  lemma BitwiseNeedsIntegers(op: BinOp, a: Value, b: Value)
    ensures IsBitwise(op) && !(a.VInt? && b.VInt?) ==> Binary(op, a, b) == VReal(NaN)
    ensures !a.VInt? ==> Complement(a) == VReal(NaN)
  {
  }

  // ----- shifts -----

  lemma PowTwo(k: nat)
    ensures Pow2(0) == 1 && Pow2(1) == 2 && Pow2(k + 1) == 2 * Pow2(k)
  {
  }

  lemma ShiftIs(x: i32, c: nat)
    requires c < 32
    ensures Binary(Shl, VInt(x), VInt(c)) == VInt(Wrap32(x * Pow2(c)))
    ensures Binary(Shr, VInt(x), VInt(c)) == VInt(Wrap32(x / Pow2(c)))
  {
    hide Wrap32, Pow2;
  }

  lemma SumIs(x: i32)
    ensures Binary(Add, VInt(x), VInt(x)) == VInt(Wrap32(x * 2))
  {
    hide Wrap32;
  }

  /** A shift to the left by one doubles; a longer one is a shift by one more often. */
  lemma {:induction false} ShiftsLeft(x: i32, k: nat)
    requires k < 31
    ensures Binary(Shl, VInt(x), VInt(0)) == VInt(x)
    ensures Binary(Shl, VInt(x), VInt(1)) == Binary(Add, VInt(x), VInt(x))
    ensures Binary(Shl, VInt(x), VInt(k + 1)) == Binary(Shl, Binary(Shl, VInt(x), VInt(k)), VInt(1))
  {
    hide Wrap32, Pow2, Binary;
    PowTwo(k);
    ShiftIs(x, 0);
    ShiftIs(x, 1);
    ShiftIs(x, k);
    ShiftIs(x, k + 1);
    WrapInside(x);
    var u := x * Pow2(k);
    ShiftIs(Wrap32(u), 1);
    var j := WrapBack(u);
    assert x * Pow2(k + 1) == u * 2;
    WrapUnique(Wrap32(u) * 2, u * 2, 2 * j);
    SumIs(x);
  }

  /** A shift to the right by one halves downwards; a longer one is a shift by one more often. */
  lemma {:induction false} ShiftsRight(x: i32, k: nat)
    requires k < 31
    ensures Binary(Shr, VInt(x), VInt(0)) == VInt(x)
    ensures var r := Binary(Shr, VInt(x), VInt(1)); r.VInt? && 2 * r.i <= x <= 2 * r.i + 1
    ensures Binary(Shr, VInt(x), VInt(k + 1)) == Binary(Shr, Binary(Shr, VInt(x), VInt(k)), VInt(1))
  {
    hide Wrap32, Pow2, Binary;
    PowTwo(k);
    ShiftIs(x, 0);
    ShiftIs(x, 1);
    ShiftIs(x, k);
    ShiftIs(x, k + 1);
    ShrinkDiv(x, 1);
    ShrinkDiv(x, 2);
    ShrinkDiv(x, Pow2(k));
    ShrinkDiv(x, Pow2(k + 1));
    ShiftIs(x / Pow2(k), 1);
    ShrinkDiv(x / Pow2(k), 2);
    DivTwice(x, Pow2(k));
  }

  lemma QuotientInside(x: int, p: int)
    requires p > 0
    ensures x >= 0 ==> 0 <= x / p <= x
    ensures x < 0 ==> x <= x / p < 0
  {
    var q, m := x / p, x % p;
    assert x == q * p + m;
    if q >= 1 { FarApart(q, p); assert q * p >= q by { QuotientTimes(q, p); } }
    if q <= -1 { QuotientTimes(0 - q - 1, p); assert (q + 1) * p == q * p + p; }
  }

  lemma QuotientTimes(q: int, p: int)
    requires q >= 0 && p > 0
    ensures q * p >= q && (0 - q) * p <= 0 - q
  {
  }

  lemma ShrinkDiv(x: i32, p: int)
    requires p > 0
    ensures -0x8000_0000 <= x / p < 0x8000_0000 && Wrap32(x / p) == x / p
  {
    QuotientInside(x, p);
    WrapInside(x / p);
    hide Wrap32;
  }

  lemma DivTwice(x: int, p: int)
    requires p > 0
    ensures x / (2 * p) == x / p / 2
  {
    var q := x / p;
    var h, b := q / 2, q % 2;
    var m := x % p;
    assert q * p == h * (2 * p) + b * p by { assert q == 2 * h + b; }
    assert 0 <= b * p <= p by { assert b == 0 || b == 1; }
    assert x == q * p + m;
    EuclidUnique(x, 2 * p, h, b * p + m);
  }

  /** Only the low five bits of the count matter. */
  lemma ShiftCounts(x: i32, y: i32)
    ensures Binary(Shl, VInt(x), VInt(y)) == Binary(Shl, VInt(x), VInt(y % 32))
    ensures Binary(Shr, VInt(x), VInt(y)) == Binary(Shr, VInt(x), VInt(y % 32))
  {
    hide Pow2, Wrap32;
  }
}
