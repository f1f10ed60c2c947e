/** Runtime values and the arithmetic of the opcode handlers.

    `VUndef` stands for a stack slot whose contents the virtual machine never
    wrote: RESERVE only moves the stack pointer, so the slots it exposes hold
    whatever an earlier computation left there. */
module Values {
  type i32 = x: int | -0x8000_0000 <= x < 0x8000_0000

  /** A `float`: not-a-number or a number. Rounding and infinities are not modelled. */
  datatype Float = NaN | Num(r: real)

  datatype Value =
    | VUndef
    | VNil
    | VBool(b: bool)
    | VInt(i: i32)
    | VReal(f: Float)
    | VStr(strId: nat)
    | VObj(objId: int)

  /** fn_call counts arguments in 16 signed bits; counts that come out negative are not modelled. */
  const MAX_ARGS := 0x7FFF

  /** The two's complement reading of the low 32 bits. */
  function Wrap32(x: int): (r: i32)
    ensures (r - x) % 0x1_0000_0000 == 0
  {
    (x + 0x8000_0000) % 0x1_0000_0000 - 0x8000_0000
  }

  /** C division: truncates toward zero. */
  function TruncDiv(a: int, b: int): int
    requires b != 0
  {
    if a >= 0 then a / b else -((-a) / b)
  }

  function Pow2(n: nat): (p: nat)
    ensures p > 0
  {
    if n == 0 then 1 else 2 * Pow2(n - 1)
  }

  datatype BitOp = BAnd | BOr | BXor

  function BitCombine(op: BitOp, a: bool, b: bool): bool {
    match op
    case BAnd => a && b
    case BOr => a || b
    case BXor => a != b
  }

  /** Combines the low `n` bits of two's complement numbers; the remaining bits are the sign. */
  function Bits(op: BitOp, a: int, b: int, n: nat): (r: int)
    ensures 0 - Pow2(n) <= r < Pow2(n)
    decreases n
  {
    if n == 0 then
      if BitCombine(op, a < 0, b < 0) then -1 else 0
    else
      var low := if BitCombine(op, a % 2 == 1, b % 2 == 1) then 1 else 0;
      2 * Bits(op, a / 2, b / 2, n - 1) + low
  }

  lemma Pow31()
    ensures Pow2(31) == 0x8000_0000
  {
    assert Pow2(8) == 256;
    assert Pow2(16) == 65536 by { assert Pow2(12) == 4096; }
    assert Pow2(24) == 0x100_0000 by { assert Pow2(20) == 0x10_0000; }
    assert Pow2(28) == 0x1000_0000;
  }

  function Bits32(op: BitOp, a: i32, b: i32): i32 {
    Pow31();
    Bits(op, a, b, 31)
  }

  datatype BinOp = Mul | Div | Add | Sub | BitAnd | BitOr | BitXor | Shl | Shr | Eq | Ne | Lt | Gt

  predicate IsArith(op: BinOp) { op.Mul? || op.Div? || op.Add? || op.Sub? }

  function FloatArith(op: BinOp, a: Float, b: Float): Float
    requires IsArith(op)
  {
    if a.NaN? || b.NaN? then NaN
    else match op
      case Mul => Num(a.r * b.r)
      case Div => if b.r == 0.0 then NaN else Num(a.r / b.r)
      case Add => Num(a.r + b.r)
      case Sub => Num(a.r - b.r)
  }

  function IntArith(op: BinOp, a: i32, b: i32): Value
    requires IsArith(op)
  {
    match op
    case Mul => VInt(Wrap32(a * b))
    case Div => if b == 0 then VReal(NaN) else VInt(Wrap32(TruncDiv(a, b)))
    case Add => VInt(Wrap32(a + b))
    case Sub => VInt(Wrap32(a - b))
  }

  /** fn_mul, fn_div, fn_add, fn_sub: operands of different or non-numeric tags give NaN. */
  function Arith(op: BinOp, a: Value, b: Value): Value
    requires IsArith(op)
  {
    match (a, b)
    case (VInt(x), VInt(y)) => IntArith(op, x, y)
    case (VReal(x), VReal(y)) => VReal(FloatArith(op, x, y))
    case _ => VReal(NaN)
  }

  predicate IsBitwise(op: BinOp) { op.BitAnd? || op.BitOr? || op.BitXor? || op.Shl? || op.Shr? }

  /** fn_bit_and .. fn_bit_shr; shift counts use their low five bits. */
  function Bitwise(op: BinOp, a: Value, b: Value): Value
    requires IsBitwise(op)
  {
    match (a, b)
    case (VInt(x), VInt(y)) =>
      (match op
       case BitAnd => VInt(Bits32(BAnd, x, y))
       case BitOr => VInt(Bits32(BOr, x, y))
       case BitXor => VInt(Bits32(BXor, x, y))
       case Shl => VInt(Wrap32(x * Pow2(y % 32)))
       case Shr => VInt(Wrap32(x / Pow2(y % 32))))
    case _ => VReal(NaN)
  }

  function FloatCompare(op: BinOp, a: Float, b: Float): bool {
    if a.NaN? || b.NaN? then op.Ne?
    else match op
      case Eq => a.r == b.r
      case Ne => a.r != b.r
      case Lt => a.r < b.r
      case _ => a.r > b.r
  }

  /** fn_eq, fn_ne, fn_lt, fn_gt. Values of different tags are never related, not even by `!=`. */
  function Compare(op: BinOp, a: Value, b: Value): bool {
    match (a, b)
    case (VNil, VNil) => op.Eq?
    case (VBool(x), VBool(y)) =>
      (match op
       case Eq => x == y
       case Ne => x != y
       case Lt => !x && y
       case _ => x && !y)
    case (VInt(x), VInt(y)) =>
      (match op
       case Eq => x == y
       case Ne => x != y
       case Lt => x < y
       case _ => x > y)
    case (VReal(x), VReal(y)) => FloatCompare(op, x, y)
    case _ => false
  }

  function Binary(op: BinOp, a: Value, b: Value): Value {
    if IsArith(op) then Arith(op, a, b)
    else if IsBitwise(op) then Bitwise(op, a, b)
    else VBool(Compare(op, a, b))
  }

  /** fn_bit_not. */
  function Complement(a: Value): Value {
    match a
    case VInt(x) => VInt(Wrap32(0 - x - 1))
    case _ => VReal(NaN)
  }

  /** The test of fn_jmp_false: NaN is truthy, strings are falsy, an object asks its `as_bool`. */
  function Truthy(v: Value, objTruth: int -> bool): bool {
    match v
    case VBool(b) => b
    case VInt(i) => i != 0
    case VReal(f) => f.NaN? || f.r != 0.0
    case VObj(id) => objTruth(id)
    case _ => false
  }

  /** The test of fn_jmp_if, which treats NIL and strings as values to keep. */
  function KeepsForOr(v: Value, objTruth: int -> bool): bool {
    match v
    case VBool(b) => b
    case VInt(i) => i != 0
    case VReal(f) => f.NaN? || f.r != 0.0
    case VObj(id) => objTruth(id)
    case _ => true
  }

  lemma FloatsCommute(op: BinOp, a: Float, b: Float)
    requires op.Mul? || op.Add?
    ensures FloatArith(op, a, b) == FloatArith(op, b, a)
  {
    if a.Num? && b.Num? { assert a.r * b.r == b.r * a.r; }
  }

  lemma IntsCommute(op: BinOp, a: i32, b: i32)
    requires op.Mul? || op.Add?
    ensures IntArith(op, a, b) == IntArith(op, b, a)
  {
    hide Wrap32;
    assert a * b == b * a;
  }

  lemma ArithCommutes(op: BinOp, a: Value, b: Value)
    requires op.Mul? || op.Add?
    ensures Arith(op, a, b) == Arith(op, b, a)
  {
    hide FloatArith, IntArith;
    if a.VInt? && b.VInt? { IntsCommute(op, a.i, b.i); }
    if a.VReal? && b.VReal? { FloatsCommute(op, a.f, b.f); }
  }
}
