/** Tokens, and the trees the single-pass compiler never builds. */
module Syntax {
  import opened Values

  /** `TkOther` is any token outside the modelled language: strings, ERR, brackets, braces, USES,
      BIND, ASSERT. Spaces and comments never reach the compiler. */
  datatype Token =
    | TkNil | TkTrue | TkFalse | TkNum(lex: string) | TkIdent(name: string)
    | TkOp(op: BinOp) | TkNullish | TkNullCoal | TkBitNot | TkAnd | TkOr
    | TkLParen | TkRParen | TkComma | TkColon | TkSemi | TkBind
    | TkLet | TkIf | TkElse | TkWhile | TkFor | TkBreak | TkContinue | TkRet
    | TkThrow | TkTry | TkCatch | TkFun | TkEnd | TkOther

  datatype Literal = LNil | LBool(b: bool) | LNum(lex: string)

  datatype Expr =
    | Lit(lit: Literal)
    | Var(name: string)
    | BitNot(e: Expr)
    | Nullish(e: Expr)
    | Coal(l: Expr, r: Expr)
    | Bin(op: BinOp, l: Expr, r: Expr)
    | And(l: Expr, r: Expr)
    | Or(l: Expr, r: Expr)
    | Call(callee: Expr, args: Exprs)

  datatype Exprs = ENil | ECons(head: Expr, tail: Exprs)

  /** A block is a chain of `Seq` ending in `Skip`; an empty block is a `Nop`, and a LET with several
      names is a chain of `Let`. */
  datatype Stmt =
    | Skip
    | Nop
    | Seq(first: Stmt, rest: Stmt)
    | Let(name: string, init: Expr)
    | Assign(name: string, value: Expr)
    | ExprStmt(e: Expr)
    | If(cond: Expr, thn: Stmt)
    | IfElse(cond: Expr, thn: Stmt, els: Stmt)
    | While(cond: Expr, body: Stmt)
    | For(counter: string, init: Expr, cond: Expr, update: Stmt, body: Stmt)
    | Break
    | Continue
    | Ret(value: Expr)
    | Throw(value: Expr)
    | Try(body: Stmt, handler: Stmt)

  /** Nodes with two operands compiled one after the other. */
  predicate IsPair(e: Expr) { e.Coal? || e.Bin? || e.And? || e.Or? }

  datatype Item =
    | TopStmt(s: Stmt)
    | TopFun(name: string, params: seq<string>, body: Stmt)

  datatype Tops = TNil | TCons(head: Item, tail: Tops)

  function ArgCount(es: Exprs): nat {
    match es
    case ENil => 0
    case ECons(_, tail) => 1 + ArgCount(tail)
  }

  /** The number of statement nodes, a measure for proofs about several statements at once. */
  function Nodes(s: Stmt): (n: nat)
    ensures n >= 1
  {
    match s
    case Seq(a, b) => 1 + Nodes(a) + Nodes(b)
    case Try(a, b) => 1 + Nodes(a) + Nodes(b)
    case If(_, t) => 1 + Nodes(t)
    case IfElse(_, t, e) => 1 + Nodes(t) + Nodes(e)
    case While(_, b) => 1 + Nodes(b)
    case For(_, _, _, u, b) => 1 + Nodes(u) + Nodes(b)
    case _ => 1
  }

  // ----- numbers -----

  function DigitValue(c: char): int { c as int - '0' as int }

  /** The digits from position `from` on, most significant first. */
  function DigitSum(s: string, from: nat, acc: int): int
    requires from <= |s|
    decreases |s| - from
  {
    if from == |s| then acc else DigitSum(s, from + 1, 10 * acc + DigitValue(s[from]))
  }

  /** charspan_atoi: a lexeme of more than eight characters counts as zero. */
  function DecodeInt(s: string): i32 {
    if |s| > 8 || s == [] then 0
    else if s[0] == '-' then Wrap32(0 - DigitSum(s, 1, 0))
    else Wrap32(DigitSum(s, 0, 0))
  }

  /** The weight of the first digit: the scan multiplies by ten until the next character is the point. */
  function PointBase(s: string, i: nat): real
    decreases |s| - i
  {
    if i >= |s| || (i + 1 < |s| && s[i + 1] == '.') then 1.0 else 10.0 * PointBase(s, i + 1)
  }

  function RealSum(s: string, i: nat, base: real): real
    decreases |s| - i
  {
    if i >= |s| then 0.0
    else if s[i] == '.' then RealSum(s, i + 1, base)
    else DigitValue(s[i]) as real * base + RealSum(s, i + 1, base / 10.0)
  }

  /** charspan_atof, without rounding. */
  function DecodeReal(s: string): Float {
    var from := if s != [] && s[0] == '-' then 1 else 0;
    var r := RealSum(s, from, PointBase(s, from));
    Num(if from == 1 then -r else r)
  }

  /** A decimal lexeme is real exactly when it has a point. */
  function NumValue(s: string): (v: Value)
    ensures v != VUndef
  {
    if '.' in s then VReal(DecodeReal(s)) else VInt(DecodeInt(s))
  }

  function LitValue(l: Literal): (v: Value)
    ensures v != VUndef
  {
    match l
    case LNil => VNil
    case LBool(b) => VBool(b)
    case LNum(s) => NumValue(s)
  }
}
