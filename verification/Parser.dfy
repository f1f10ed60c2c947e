/** The grammar of the recursive-descent ladder, as functions from tokens to trees. */
module Parser {
  import opened Values
  import opened Wrappers
  import opened Syntax

  type Toks = seq<Token>

  predicate At(t: Toks, k: Token) { t != [] && t[0] == k }

  /** Consumes one token; at the end of input there is nothing to consume. */
  function Eat(t: Toks): (r: Toks)
    ensures |r| <= |t| && (t != [] ==> |r| < |t|)
  {
    if t == [] then [] else t[1..]
  }

  function EatIf(t: Toks, k: Token): (r: Toks)
    ensures |r| <= |t|
  {
    if At(t, k) then t[1..] else t
  }

  /** The binary levels, tightest first. */
  function Level(op: BinOp): (k: nat)
    ensures 1 <= k <= 8
  {
    match op
    case Mul => 1
    case Div => 1
    case Add => 2
    case Sub => 2
    case BitAnd => 3
    case BitOr => 4
    case BitXor => 5
    case Shl => 6
    case Shr => 6
    case Eq => 7
    case Ne => 7
    case Lt => 8
    case Gt => 8
  }

  /** The operator that continues a level, if the next token is one. */
  predicate Continues(t: Toks, k: nat) { t != [] && t[0].TkOp? && Level(t[0].op) == k }

  /** A name or number followed by `:=` is an assignment target, not an operand. */
  predicate IsTarget(t: Toks) { |t| >= 2 && t[1] == TkBind && (t[0].TkIdent? || t[0].TkNum?) }

  function ParseLiteral(t: Toks): (r: Option<(Expr, Toks)>)
    ensures r.Some? ==> |r.value.1| < |t|
    decreases |t|, 0
  {
    if t == [] || IsTarget(t) then None
    else match t[0]
      case TkNil => Some((Lit(LNil), t[1..]))
      case TkTrue => Some((Lit(LBool(true)), t[1..]))
      case TkFalse => Some((Lit(LBool(false)), t[1..]))
      case TkNum(lex) => Some((Lit(LNum(lex)), t[1..]))
      case TkIdent(x) => Some((Var(x), t[1..]))
      case TkLParen =>
        (match ParseOr(t[1..])
         case Some((e, rest)) => if At(rest, TkRParen) then Some((e, rest[1..])) else None
         case None => None)
      case _ => None
  }

  /** Arguments up to the closing parenthesis or the end of input; commas between them are optional. */
  function ParseArgs(t: Toks): (r: Option<(Exprs, Toks)>)
    ensures r.Some? ==> |r.value.1| <= |t|
    decreases |t|, 21
  {
    if t == [] || At(t, TkRParen) then Some((ENil, Eat(t)))
    else match ParseLevel(8, t)
      case None => None
      case Some((e, rest)) =>
        match ParseArgs(EatIf(rest, TkComma))
        case None => None
        case Some((es, rest')) => Some((ECons(e, es), rest'))
  }

  function ParseCall(t: Toks): (r: Option<(Expr, Toks)>)
    ensures r.Some? ==> |r.value.1| < |t|
    decreases |t|, 1
  {
    match ParseLiteral(t)
    case None => None
    case Some((f, rest)) =>
      if !At(rest, TkLParen) then Some((f, rest))
      else match ParseArgs(rest[1..])
        case None => None
        case Some((args, rest')) => Some((Call(f, args), rest'))
  }

  function ParseUnary(t: Toks): (r: Option<(Expr, Toks)>)
    ensures r.Some? ==> |r.value.1| < |t|
    decreases |t|, 2
  {
    if At(t, TkNullish) then
      match ParseCall(t[1..])
      case None => None
      case Some((e, rest)) => Some((Nullish(e), rest))
    else if At(t, TkBitNot) then
      match ParseCall(t[1..])
      case None => None
      case Some((e, rest)) => Some((BitNot(e), rest))
    else ParseCall(t)
  }

  /** `??` takes one unary operand on each side and does not chain. */
  function ParseCoal(t: Toks): (r: Option<(Expr, Toks)>)
    ensures r.Some? ==> |r.value.1| < |t|
    decreases |t|, 3
  {
    match ParseUnary(t)
    case None => None
    case Some((l, rest)) =>
      if !At(rest, TkNullCoal) then Some((l, rest))
      else match ParseUnary(rest[1..])
        case None => None
        case Some((r, rest')) => Some((Coal(l, r), rest'))
  }

  /** The rest of a left-associative level after its left operand. */
  function ParseLoop(k: nat, lhs: Expr, t: Toks): (r: Option<(Expr, Toks)>)
    requires 1 <= k <= 8
    ensures r.Some? ==> |r.value.1| <= |t|
    decreases |t|, 4 + 2 * k
  {
    if !Continues(t, k) then Some((lhs, t))
    else match ParseLevel(k - 1, t[1..])
      case None => None
      case Some((rhs, rest)) => ParseLoop(k, Bin(t[0].op, lhs, rhs), rest)
  }

  function ParseLevel(k: nat, t: Toks): (r: Option<(Expr, Toks)>)
    requires k <= 8
    ensures r.Some? ==> |r.value.1| < |t|
    decreases |t|, 4 + 2 * k
  {
    if k == 0 then ParseCoal(t)
    else match ParseLevel(k - 1, t)
      case None => None
      case Some((l, rest)) => ParseLoop(k, l, rest)
  }

  function ParseAnd(t: Toks): (r: Option<(Expr, Toks)>)
    ensures r.Some? ==> |r.value.1| < |t|
    decreases |t|, 22
  {
    match ParseLevel(8, t)
    case None => None
    case Some((l, rest)) =>
      if !At(rest, TkAnd) then Some((l, rest))
      else match ParseLevel(8, rest[1..])
        case None => None
        case Some((r, rest')) => Some((And(l, r), rest'))
  }

  function ParseOr(t: Toks): (r: Option<(Expr, Toks)>)
    ensures r.Some? ==> |r.value.1| < |t|
    decreases |t|, 23
  {
    match ParseAnd(t)
    case None => None
    case Some((l, rest)) =>
      if !At(rest, TkOr) then Some((l, rest))
      else match ParseAnd(rest[1..])
        case None => None
        case Some((r, rest')) => Some((Or(l, r), rest'))
  }

  // ----- statements -----

  function ParseExprStmt(t: Toks): (r: Option<(Stmt, Toks)>)
    ensures r.Some? ==> |r.value.1| < |t| && (r.value.0.Assign? || r.value.0.ExprStmt?)
  {
    if IsTarget(t) then
      if !t[0].TkIdent? then None
      else match ParseOr(t[2..])
        case None => None
        case Some((e, rest)) => if At(rest, TkSemi) then Some((Assign(t[0].name, e), rest[1..])) else None
    else match ParseOr(t)
      case None => None
      case Some((e, rest)) => if At(rest, TkSemi) then Some((ExprStmt(e), rest[1..])) else None
  }

  /** The declarations of a LET, up to its semicolon or the end of input. */
  function ParseVars(t: Toks): (r: Option<(Stmt, Toks)>)
    ensures r.Some? ==> |r.value.1| <= |t|
    decreases |t|
  {
    if t == [] || At(t, TkSemi) then Some((Skip, Eat(t)))
    else if !t[0].TkIdent? || !At(t[1..], TkColon) then None
    else match ParseOr(t[2..])
      case None => None
      case Some((e, rest)) =>
        match ParseVars(EatIf(rest, TkComma))
        case None => None
        case Some((s, rest')) => Some((Seq(Let(t[0].name, e), s), rest'))
  }

  function ParseIf(t: Toks): (r: Option<(Stmt, Toks)>)
    ensures r.Some? ==> |r.value.1| <= |t|
    decreases |t|, 1
  {
    match ParseOr(t)
    case None => None
    case Some((c, t1)) =>
      match ParseBlock(t1)
      case None => None
      case Some((thn, t2)) =>
        if !At(t2, TkElse) then Some((If(c, thn), t2))
        else match ParseNestable(t2[1..])
          case None => None
          case Some((els, t3)) => Some((IfElse(c, thn, els), t3))
  }

  function ParseWhile(t: Toks): (r: Option<(Stmt, Toks)>)
    ensures r.Some? ==> |r.value.1| <= |t|
    decreases |t|, 1
  {
    match ParseOr(t)
    case None => None
    case Some((c, t1)) =>
      match ParseBlock(t1)
      case None => None
      case Some((body, t2)) => Some((While(c, body), t2))
  }

  /** FOR name : init , cond , update ; block. */
  function ParseFor(t: Toks): (r: Option<(Stmt, Toks)>)
    ensures r.Some? ==> |r.value.1| <= |t|
    decreases |t|, 1
  {
    if t == [] || !t[0].TkIdent? || !At(t[1..], TkColon) then None
    else match ParseOr(t[2..])
      case None => None
      case Some((init, t1)) =>
        if !At(t1, TkComma) then None
        else match ParseOr(t1[1..])
          case None => None
          case Some((cond, t2)) =>
            if !At(t2, TkComma) then None
            else match ParseExprStmt(t2[1..])
              case None => None
              case Some((update, t3)) =>
                match ParseBlock(t3)
                case None => None
                case Some((body, t4)) => Some((For(t[0].name, init, cond, update, body), t4))
  }

  function ParseTry(t: Toks): (r: Option<(Stmt, Toks)>)
    ensures r.Some? ==> |r.value.1| <= |t|
    decreases |t|, 1
  {
    match ParseBlock(t)
    case None => None
    case Some((body, t1)) =>
      if !At(t1, TkCatch) then None
      else match ParseBlock(t1[1..])
        case None => None
        case Some((handler, t2)) => Some((Try(body, handler), t2))
  }

  function ParseNestable(t: Toks): (r: Option<(Stmt, Toks)>)
    ensures r.Some? ==> |r.value.1| < |t|
    decreases |t|, 2
  {
    if t == [] then None
    else match t[0]
      case TkLet => ParseVars(t[1..])
      case TkIf => ParseIf(t[1..])
      case TkWhile => ParseWhile(t[1..])
      case TkFor => ParseFor(t[1..])
      case TkBreak => if At(t[1..], TkSemi) then Some((Break, t[2..])) else None
      case TkContinue => if At(t[1..], TkSemi) then Some((Continue, t[2..])) else None
      case TkRet =>
        (match ParseOr(t[1..])
         case None => None
         case Some((e, rest)) => if At(rest, TkSemi) then Some((Ret(e), rest[1..])) else None)
      case TkThrow =>
        (match ParseOr(t[1..])
         case None => None
         case Some((e, rest)) => if At(rest, TkSemi) then Some((Throw(e), rest[1..])) else None)
      case TkTry => ParseTry(t[1..])
      case TkColon => ParseBlock(t)
      case _ => ParseExprStmt(t)
  }

  function ParseBlock(t: Toks): (r: Option<(Stmt, Toks)>)
    ensures r.Some? ==> |r.value.1| < |t|
    decreases |t|, 0
  {
    if At(t, TkColon) then ParseBody(t[1..], true) else None
  }

  /** Statements up to END or the end of input; only a block closed by END right away gets a filler. */
  function ParseBody(t: Toks, first: bool): (r: Option<(Stmt, Toks)>)
    ensures r.Some? ==> |r.value.1| <= |t|
    decreases |t|, 3
  {
    if t == [] then Some((Skip, t))
    else if At(t, TkEnd) then Some((if first then Nop else Skip, t[1..]))
    else match ParseNestable(t)
      case None => None
      case Some((s, rest)) =>
        match ParseBody(rest, false)
        case None => None
        case Some((b, rest')) => Some((Seq(s, b), rest'))
  }

  // ----- programs -----

  function ParseParams(t: Toks): (r: Option<(seq<string>, Toks)>)
    ensures r.Some? ==> |r.value.1| <= |t|
    decreases |t|
  {
    if t == [] || At(t, TkRParen) then Some(([], Eat(t)))
    else if !t[0].TkIdent? then None
    else match ParseParams(EatIf(t[1..], TkComma))
      case None => None
      case Some((ps, rest)) => Some(([t[0].name] + ps, rest))
  }

  function ParseTop(t: Toks): (r: Option<(Item, Toks)>)
    ensures r.Some? ==> |r.value.1| < |t|
  {
    if t == [] then None
    else if t[0].TkFun? then
      if |t| < 3 || !t[1].TkIdent? || t[2] != TkLParen then None
      else match ParseParams(t[3..])
        case None => None
        case Some((ps, t1)) =>
          match ParseBlock(t1)
          case None => None
          case Some((body, t2)) => Some((TopFun(t[1].name, ps, body), t2))
    else if t[0].TkBreak? || t[0].TkContinue? || t[0].TkColon? then None
    else match ParseNestable(t)
      case None => None
      case Some((s, rest)) => Some((TopStmt(s), rest))
  }

  function ParseProgram(t: Toks): (r: Option<Tops>)
    decreases |t|
  {
    if t == [] then Some(TNil)
    else match ParseTop(t)
      case None => None
      case Some((top, rest)) =>
        match ParseProgram(rest)
        case None => None
        case Some(tops) => Some(TCons(top, tops))
  }
}
