/** The finished code of a tree, as if every jump were known when it is written. */
module Codegen {
  import opened Wrappers
  import opened Bytecode
  import opened Syntax
  import opened Scoping

  type Code = seq<Instr>

  function Op(op: Opcode): Instr { Instr(op, 0, 0) }
  function OpWide(op: Opcode, n: int): Instr { Instr(op, 0, Wide(n)) }
  const POP: Instr := Instr(OpPop, 1, 0)

  // ----- expressions -----

  function ExprSize(e: Expr): (n: nat)
    ensures n >= 1
  {
    match e
    case Lit(_) => 1
    case Var(_) => 1
    case BitNot(x) => ExprSize(x) + 1
    case Nullish(x) => ExprSize(x) + 1
    case Coal(l, r) => ExprSize(l) + ExprSize(r) + 5
    case Bin(_, l, r) => ExprSize(l) + ExprSize(r) + 1
    case And(l, r) => ExprSize(l) + ExprSize(r) + 3
    case Or(l, r) => ExprSize(l) + ExprSize(r) + 3
    case Call(f, args) => ExprSize(f) + ArgsSize(args) + 1
  }

  function ArgsSize(es: Exprs): nat {
    match es
    case ENil => 0
    case ECons(e, tail) => ExprSize(e) + ArgsSize(tail)
  }

  function LoadRef(r: Ref): Instr {
    match r
    case FunRef(id) => OpWide(OpLoadImmGid, id)
    case GlobRef(id) => OpWide(OpGetGvar, id)
    case LocRef(id) => OpWide(OpLoadLocal, id)
  }

  function GenLit(l: Literal, sc: Scope): Instr {
    match l
    case LNil => Op(OpPutNone)
    case LBool(b) => Instr(OpPutBool, if b then 1 else 0, 0)
    case LNum(s) => OpWide(OpPutK, if ConstId(sc, s).Some? then ConstId(sc, s).value else 0)
  }

  /** The right side of `??`: entered with the left value and a flag on top. A true flag falls
      through, drops the NIL and evaluates the right side; a false flag is dropped at the end. */
  function CoalTail(right: Code): Code {
    [OpWide(OpJmpFalse, |right| + 3), POP] + right + [OpWide(OpJmp, 2), POP]
  }

  function GenExpr(e: Expr, sc: Scope): (g: Code)
    ensures |g| == ExprSize(e)
  {
    match e
    case Lit(l) => [GenLit(l, sc)]
    case Var(x) => [if Resolve(sc, x).Some? then LoadRef(Resolve(sc, x).value) else Op(OpNop)]
    case BitNot(x) => GenExpr(x, sc) + [Op(OpBitNot)]
    case Nullish(x) => GenExpr(x, sc) + [Op(OpChkNone)]
    case Coal(l, r) => GenExpr(l, sc) + [Op(OpChkNone)] + CoalTail(GenExpr(r, sc))
    case Bin(op, l, r) => GenExpr(l, sc) + GenExpr(r, sc) + [Op(BinOpcode(op))]
    case And(l, r) => GenExpr(l, sc) + [OpWide(OpJmpFalse, ExprSize(r) + 2), POP] + GenExpr(r, sc) + [Op(OpNop)]
    case Or(l, r) => GenExpr(l, sc) + [OpWide(OpJmpIf, ExprSize(r) + 2), POP] + GenExpr(r, sc) + [Op(OpNop)]
    case Call(f, args) => GenExpr(f, sc) + GenArgs(args, sc) + [OpWide(OpCall, ArgCount(args))]
  }

  function GenArgs(es: Exprs, sc: Scope): (g: Code)
    ensures |g| == ArgsSize(es)
  {
    match es
    case ENil => []
    case ECons(e, tail) => GenExpr(e, sc) + GenArgs(tail, sc)
  }

  // ----- statements -----

  function StmtSize(s: Stmt): nat {
    match s
    case Skip => 0
    case Nop => 1
    case Seq(a, b) => StmtSize(a) + StmtSize(b)
    case Let(_, e) => ExprSize(e) + 1
    case Assign(_, e) => ExprSize(e) + 1
    case ExprStmt(e) => ExprSize(e) + 1
    case If(c, t) => ExprSize(c) + 1 + StmtSize(t) + 1
    case IfElse(c, t, e) => ExprSize(c) + 1 + StmtSize(t) + 1 + StmtSize(e) + 1
    case While(c, b) => ExprSize(c) + 1 + StmtSize(b) + 1
    case For(_, init, c, u, b) => ExprSize(init) + 1 + ExprSize(c) + 3 + StmtSize(u) + 1 + StmtSize(b) + 2
    case Break => 1
    case Continue => 1
    case Ret(e) => ExprSize(e) + 1
    case Throw(e) => ExprSize(e) + 1
    case Try(b, h) => 1 + StmtSize(b) + 2 + StmtSize(h)
  }

  /** Where BREAK and CONTINUE go. While the loop is still open the compiler does not know, and
      writes a forward jump of zero. */
  datatype Loop = Open | Closed(brk: int, cont: int)

  function BreakJump(lp: Loop, pc: nat): Instr {
    if lp.Open? then OpWide(OpJmp, 0) else OpWide(OpJmp, lp.brk - pc)
  }

  function ContinueJump(lp: Loop, pc: nat): Instr {
    if lp.Open? then OpWide(OpJmp, 0) else Instr(OpJmp, 1, Wide(pc - lp.cont))
  }

  function StoreRef(r: Option<Ref>): Instr {
    match r
    case Some(LocRef(id)) => OpWide(OpStoreLocal, id)
    case Some(GlobRef(id)) => OpWide(OpSetGvar, id)
    case _ => Op(OpNop)
  }

  // ----- the layouts; every displacement is fixed by the lengths of the parts -----

  function IfCode(c: Code, t: Code): (g: Code)
    ensures |g| == |c| + |t| + 2
  {
    c + [OpWide(OpJmpFalse, |t| + 1)] + t + [Op(OpNop)]
  }

  function IfElseCode(c: Code, t: Code, e: Code): (g: Code)
    ensures |g| == |c| + |t| + |e| + 3
  {
    c + [OpWide(OpJmpFalse, |t| + 2)] + t + [OpWide(OpJmp, |e| + 1)] + e + [Op(OpNop)]
  }

  function WhileCode(c: Code, b: Code): (g: Code)
    ensures |g| == |c| + |b| + 2
  {
    c + [OpWide(OpJmpFalse, |b| + 2)] + b + [Instr(OpJmp, 1, Wide(|c| + 1 + |b|))]
  }

  /** The initializer and its store, the test, a jump to the body, the update behind a filler, a jump
      back to the test, the body, a jump back to the update, a filler. */
  function ForCode(i: Code, store: Instr, c: Code, u: Code, b: Code): (g: Code)
    ensures |g| == |i| + |c| + |u| + |b| + 7
  {
    (i + [store]) + (c + [OpWide(OpJmpFalse, |u| + |b| + 5), OpWide(OpJmp, |u| + 3), Op(OpNop)])
    + (u + [Instr(OpJmp, 1, Wide(|c| + 3 + |u|))]) + (b + [Instr(OpJmp, 1, Wide(|u| + 2 + |b|)), Op(OpNop)])
  }

  function TryCode(b: Code, h: Code): (g: Code)
    ensures |g| == |b| + |h| + 3
  {
    [Op(OpTry)] + b + [OpWide(OpJmp, |h| + 2), Op(OpCatchErr)] + h
  }

  /** The filler in front of a FOR's update: where CONTINUE goes. */
  function ForUpdate(pc: nat, s: Stmt): nat
    requires s.For?
  {
    pc + ExprSize(s.init) + 1 + ExprSize(s.cond) + 2
  }

  function ForBody(pc: nat, s: Stmt): nat
    requires s.For?
  {
    ForUpdate(pc, s) + 1 + StmtSize(s.update) + 1
  }

  function GenStmt(s: Stmt, sc: Scope, pc: nat, lp: Loop): (g: Code)
    ensures |g| == StmtSize(s)
  {
    hide IfCode, IfElseCode, WhileCode, ForCode, TryCode, Resolve, VarRef, StoreRef, GenExpr, ExprSize, Wide;
    match s
    case Skip => []
    case Nop => [Op(OpNop)]
    case Seq(a, b) => GenStmt(a, sc, pc, lp) + GenStmt(b, sc, pc + StmtSize(a), lp)
    case Let(x, e) => GenExpr(e, sc) + [StoreRef(VarRef(sc, x))]
    case Assign(x, e) => GenExpr(e, sc) + [StoreRef(Resolve(sc, x))]
    case ExprStmt(e) => GenExpr(e, sc) + [POP]
    case If(c, t) => IfCode(GenExpr(c, sc), GenStmt(t, sc, pc + ExprSize(c) + 1, lp))
    case IfElse(c, t, e) =>
      IfElseCode(GenExpr(c, sc), GenStmt(t, sc, pc + ExprSize(c) + 1, lp),
                 GenStmt(e, sc, pc + ExprSize(c) + StmtSize(t) + 2, lp))
    case While(c, b) =>
      WhileCode(GenExpr(c, sc), GenStmt(b, sc, pc + ExprSize(c) + 1, Closed(pc + StmtSize(s), pc)))
    case For(x, init, c, u, b) =>
      var update := ForUpdate(pc, s);
      ForCode(GenExpr(init, sc), StoreRef(Resolve(sc, x)), GenExpr(c, sc), GenStmt(u, sc, update + 1, Open),
              GenStmt(b, sc, ForBody(pc, s), Closed(pc + StmtSize(s) - 1, update)))
    case Break => [BreakJump(lp, pc)]
    case Continue => [ContinueJump(lp, pc)]
    case Ret(e) => GenExpr(e, sc) + [Op(OpRet)]
    case Throw(e) => GenExpr(e, sc) + [Op(OpRaiseErr)]
    case Try(b, h) => TryCode(GenStmt(b, sc, pc + 1, lp), GenStmt(h, sc, pc + 1 + StmtSize(b) + 2, lp))
  }

  const LAST_RET: Instr := Instr(OpRet, RET_MARK_LAST, 0)

  /** The chunk of a function: RESERVE for its non-parameter locals, its body, the closing RET. */
  function FunCode(argc: nat, body: Stmt, sc: Scope): Code {
    [OpWide(OpReserve, sc.nLoc - argc)] + GenStmt(body, sc, 1, Open) + [LAST_RET]
  }

  // ----- the code of a node from the code of its parts -----

  lemma {:induction false} SeqCodeOf(a: Stmt, b: Stmt, sc: Scope, pc: nat, lp: Loop)
    ensures GenStmt(Seq(a, b), sc, pc, lp) == GenStmt(a, sc, pc, lp) + GenStmt(b, sc, pc + StmtSize(a), lp)
  {
    hide GenExpr, IfCode, IfElseCode, WhileCode, ForCode, TryCode, Resolve, VarRef, StoreRef, Wide;
  }

  lemma {:induction false} IfCodeOf(c: Expr, t: Stmt, sc: Scope, pc: nat, lp: Loop)
    ensures GenStmt(If(c, t), sc, pc, lp) == IfCode(GenExpr(c, sc), GenStmt(t, sc, pc + ExprSize(c) + 1, lp))
  {
    hide GenExpr, IfCode, IfElseCode, WhileCode, ForCode, TryCode, Resolve, VarRef, StoreRef, Wide;
  }

  lemma {:induction false} IfElseCodeOf(c: Expr, t: Stmt, e: Stmt, sc: Scope, pc: nat, lp: Loop)
    ensures GenStmt(IfElse(c, t, e), sc, pc, lp) ==
      IfElseCode(GenExpr(c, sc), GenStmt(t, sc, pc + ExprSize(c) + 1, lp),
          GenStmt(e, sc, pc + ExprSize(c) + StmtSize(t) + 2, lp))
  {
    hide GenExpr, IfCode, IfElseCode, WhileCode, ForCode, TryCode, Resolve, VarRef, StoreRef, Wide;
  }

  lemma {:induction false} WhileCodeOf(c: Expr, b: Stmt, sc: Scope, pc: nat, lp: Loop)
    ensures var pb := pc + ExprSize(c) + 1;
      GenStmt(While(c, b), sc, pc, lp) ==
          WhileCode(GenExpr(c, sc), GenStmt(b, sc, pb, Closed(pb + StmtSize(b) + 1, pc)))
  {
    hide GenExpr, IfCode, IfElseCode, WhileCode, ForCode, TryCode, Resolve, VarRef, StoreRef, Wide;
  }

  lemma {:induction false} TryCodeOf(b: Stmt, h: Stmt, sc: Scope, pc: nat, lp: Loop)
    ensures GenStmt(Try(b, h), sc, pc, lp) ==
      TryCode(GenStmt(b, sc, pc + 1, lp), GenStmt(h, sc, pc + 1 + StmtSize(b) + 2, lp))
  {
    hide GenExpr, IfCode, IfElseCode, WhileCode, ForCode, TryCode, Resolve, VarRef, StoreRef, Wide;
  }

  lemma {:induction false} ForCodeIs(s: Stmt, sc: Scope, pc: nat, lp: Loop)
    requires s.For?
    ensures var fill := pc + ExprSize(s.init) + 1 + ExprSize(s.cond) + 2;
      var body := fill + 1 + StmtSize(s.update) + 1;
      GenStmt(s, sc, pc, lp) ==
      ForCode(GenExpr(s.init, sc), StoreRef(Resolve(sc, s.counter)), GenExpr(s.cond, sc),
          GenStmt(s.update, sc, fill + 1, Open),
              GenStmt(s.body, sc, body, Closed(body + StmtSize(s.body) + 1, fill)))
  {
    hide GenExpr, IfCode, IfElseCode, WhileCode, ForCode, TryCode, Resolve, VarRef, StoreRef, Wide;
  }

  // ----- the code of a tree does not change as the scope grows -----

  lemma {:induction false} GenExprStable(e: Expr, a: Scope, b: Scope)
    requires Extends(a, b) && KnownExpr(e, a)
    ensures GenExpr(e, b) == GenExpr(e, a)
    decreases e
  {
    hide Extends;
    match e
    case Lit(LNum(s)) => ExtendsConstId(a, b, s);
    case Lit(_) =>
    case Var(x) => ExtendsResolve(a, b, x);
    case BitNot(x) => GenExprStable(x, a, b);
    case Nullish(x) => GenExprStable(x, a, b);
    case Call(f, args) =>
      GenExprStable(f, a, b);
      GenArgsStable(args, a, b);
    case _ =>
      GenExprStable(e.l, a, b);
      GenExprStable(e.r, a, b);
  }

  lemma {:induction false} GenArgsStable(es: Exprs, a: Scope, b: Scope)
    requires Extends(a, b) && KnownArgs(es, a)
    ensures GenArgs(es, b) == GenArgs(es, a)
    decreases es
  {
    hide Extends;
    match es
    case ENil =>
    case ECons(e, tail) =>
      GenExprStable(e, a, b);
      GenArgsStable(tail, a, b);
  }

  lemma {:induction false} GenStmtStable(s: Stmt, a: Scope, b: Scope, pc: nat, lp: Loop)
    requires Extends(a, b) && KnownStmt(s, a)
    ensures GenStmt(s, b, pc, lp) == GenStmt(s, a, pc, lp)
    decreases s, 1
  {
    hide Extends, GenExpr, KnownExpr, IfCode, IfElseCode, WhileCode, ForCode, TryCode, Resolve, VarRef,
         StoreRef, Wide, Lookup;
    match s
    case Seq(x, y) =>
      GenStmtStable(x, a, b, pc, lp);
      GenStmtStable(y, a, b, pc + StmtSize(x), lp);
    case Let(x, e) => ExtendsVarRef(a, b, x); GenExprStable(e, a, b);
    case Assign(x, e) => ExtendsResolve(a, b, x); GenExprStable(e, a, b);
    case ExprStmt(e) => GenExprStable(e, a, b);
    case Ret(e) => GenExprStable(e, a, b);
    case Throw(e) => GenExprStable(e, a, b);
    case Try(_, _) => GenNestedStable(s, a, b, pc, lp);
    case If(_, _) => GenNestedStable(s, a, b, pc, lp);
    case IfElse(_, _, _) => GenNestedStable(s, a, b, pc, lp);
    case While(_, _) => GenLoopStable(s, a, b, pc, lp);
    case For(_, _, _, _, _) => GenLoopStable(s, a, b, pc, lp);
    case _ =>
  }

  lemma {:induction false} GenNestedStable(s: Stmt, a: Scope, b: Scope, pc: nat, lp: Loop)
    requires Extends(a, b) && KnownStmt(s, a) && (s.Try? || s.If? || s.IfElse?)
    ensures GenStmt(s, b, pc, lp) == GenStmt(s, a, pc, lp)
    decreases s, 0
  {
    hide *;
    KnownParts(s, a);
    match s
    case Try(x, y) =>
      GenStmtStable(x, a, b, pc + 1, lp);
      GenStmtStable(y, a, b, pc + 1 + StmtSize(x) + 2, lp);
      TryCodeOf(x, y, a, pc, lp);
      TryCodeOf(x, y, b, pc, lp);
    case If(c, t) =>
      GenExprStable(c, a, b);
      GenStmtStable(t, a, b, pc + ExprSize(c) + 1, lp);
      IfCodeOf(c, t, a, pc, lp);
      IfCodeOf(c, t, b, pc, lp);
    case IfElse(c, t, e) =>
      GenExprStable(c, a, b);
      GenStmtStable(t, a, b, pc + ExprSize(c) + 1, lp);
      GenStmtStable(e, a, b, pc + ExprSize(c) + StmtSize(t) + 2, lp);
      IfElseCodeOf(c, t, e, a, pc, lp);
      IfElseCodeOf(c, t, e, b, pc, lp);
  }

  lemma {:induction false} KnownParts(s: Stmt, sc: Scope)
    requires KnownStmt(s, sc)
    ensures s.Try? ==> KnownStmt(s.body, sc) && KnownStmt(s.handler, sc)
    ensures s.If? ==> KnownExpr(s.cond, sc) && KnownStmt(s.thn, sc)
    ensures s.While? ==> KnownExpr(s.cond, sc) && KnownStmt(s.body, sc)
    ensures s.IfElse? ==> KnownExpr(s.cond, sc) && KnownStmt(s.thn, sc) && KnownStmt(s.els, sc)
  {
    hide KnownExpr, Resolve;
  }

  lemma {:induction false} GenLoopStable(s: Stmt, a: Scope, b: Scope, pc: nat, lp: Loop)
    requires Extends(a, b) && KnownStmt(s, a) && (s.While? || s.For?)
    ensures GenStmt(s, b, pc, lp) == GenStmt(s, a, pc, lp)
    decreases s, 0
  {
    hide Extends, GenExpr, KnownExpr, WhileCode, ForCode, Resolve;
    match s
    case While(c, t) =>
      GenExprStable(c, a, b);
      GenStmtStable(t, a, b, pc + ExprSize(c) + 1, Closed(pc + StmtSize(s), pc));
    case For(x, init, c, u, t) =>
      ExtendsResolve(a, b, x);
      GenExprStable(init, a, b);
      GenExprStable(c, a, b);
      GenStmtStable(u, a, b, ForUpdate(pc, s) + 1, Open);
      GenStmtStable(t, a, b, ForBody(pc, s), Closed(pc + StmtSize(s) - 1, ForUpdate(pc, s)));
  }
}
