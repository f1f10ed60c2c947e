/** The layout of each statement in its chunk: where its parts begin and which instructions join them. */
module Layout {
  import opened Values
  import opened Bytecode
  import opened Syntax
  import opened Scoping
  import opened Codegen
  import opened Placement

  predicate Is(code: Code, p: nat, i: Instr) { p < |code| && code[p] == i }

  lemma {:induction false} IsInside(code: Code, p: nat, i: Instr)
    requires Is(code, p, i)
    ensures p < |code|
  {
  }

  ghost predicate PlacedExpr(code: Code, pc: nat, e: Expr, sc: Scope) {
    Placed(code, pc, GenExpr(e, sc))
  }

  ghost predicate PlacedStmt(code: Code, pc: nat, s: Stmt, sc: Scope, lp: Loop) {
    Placed(code, pc, GenStmt(s, sc, pc, lp))
  }

  ghost predicate PlacedArgs(code: Code, pc: nat, es: Exprs, sc: Scope) {
    Placed(code, pc, GenArgs(es, sc))
  }

  // ----- expressions with parts -----

  ghost predicate BinAt(code: Code, pc: nat, op: BinOp, l: Expr, r: Expr, sc: Scope) {
    && PlacedExpr(code, pc, l, sc) && PlacedExpr(code, pc + ExprSize(l), r, sc)
    && Is(code, pc + ExprSize(l) + ExprSize(r), Op(BinOpcode(op)))
  }

  lemma {:induction false} BinLayout(code: Code, pc: nat, op: BinOp, l: Expr, r: Expr, sc: Scope)
    requires PlacedExpr(code, pc, Bin(op, l, r), sc)
    ensures BinAt(code, pc, op, l, r, sc)
  {
    hide Placed;
    var gl, gr := GenExpr(l, sc), GenExpr(r, sc);
    Split3(code, pc, gl, gr, [Op(BinOpcode(op))]);
    PlacedOne(code, pc + |gl| + |gr|, Op(BinOpcode(op)));
  }

  /** The left side, the check, the jump to the last pop, a pop, the right side, a jump to the end, a pop. */
  ghost predicate CoalAt(code: Code, pc: nat, l: Expr, r: Expr, sc: Scope) {
    var p := pc + ExprSize(l);
    && PlacedExpr(code, pc, l, sc) && Is(code, p, Op(OpChkNone)) && Is(code, p + 1, OpWide(OpJmpFalse, ExprSize(r) + 3))
    && Is(code, p + 2, POP) && PlacedExpr(code, p + 3, r, sc)
    && Is(code, p + 3 + ExprSize(r), OpWide(OpJmp, 2)) && Is(code, p + 4 + ExprSize(r), POP)
  }

  lemma {:induction false} CoalPlaced(code: Code, pc: nat, gl: Code, gr: Code)
    requires Placed(code, pc, gl + [Op(OpChkNone)] + CoalTail(gr))
    ensures var p := pc + |gl|;
      && Placed(code, pc, gl) && Is(code, p, Op(OpChkNone)) && Is(code, p + 1, OpWide(OpJmpFalse, |gr| + 3))
      && Is(code, p + 2, POP) && Placed(code, p + 3, gr)
      && Is(code, p + 3 + |gr|, OpWide(OpJmp, 2)) && Is(code, p + 4 + |gr|, POP)
  {
    hide Placed;
    var p, jf, j := pc + |gl|, OpWide(OpJmpFalse, |gr| + 3), OpWide(OpJmp, 2);
    Split3(code, pc, gl, [Op(OpChkNone)], CoalTail(gr));
    PlacedOne(code, p, Op(OpChkNone));
    Split3(code, p + 1, [jf, POP], gr, [j, POP]);
    PlacedTwo(code, p + 1, jf, POP);
    PlacedTwo(code, p + 3 + |gr|, j, POP);
  }

  lemma {:induction false} CoalLayout(code: Code, pc: nat, l: Expr, r: Expr, sc: Scope)
    requires PlacedExpr(code, pc, Coal(l, r), sc)
    ensures CoalAt(code, pc, l, r, sc)
  {
    hide Placed, CoalTail;
    CoalPlaced(code, pc, GenExpr(l, sc), GenExpr(r, sc));
  }

  /** `&&` and `||`: the left side, a jump to the closing filler, a pop, the right side, the filler. */
  ghost predicate ShortAt(code: Code, pc: nat, op: Opcode, l: Expr, r: Expr, sc: Scope) {
    var p := pc + ExprSize(l);
    && PlacedExpr(code, pc, l, sc) && Is(code, p, OpWide(op, ExprSize(r) + 2)) && Is(code, p + 1, POP)
    && PlacedExpr(code, p + 2, r, sc) && Is(code, p + 2 + ExprSize(r), Op(OpNop))
  }

  lemma {:induction false} ShortPlaced(code: Code, pc: nat, op: Opcode, gl: Code, gr: Code)
    requires Placed(code, pc, gl + [OpWide(op, |gr| + 2), POP] + gr + [Op(OpNop)])
    ensures var p := pc + |gl|;
      && Placed(code, pc, gl) && Is(code, p, OpWide(op, |gr| + 2)) && Is(code, p + 1, POP)
      && Placed(code, p + 2, gr) && Is(code, p + 2 + |gr|, Op(OpNop))
  {
    hide Placed;
    var p, j := pc + |gl|, OpWide(op, |gr| + 2);
    Split4(code, pc, gl, [j, POP], gr, [Op(OpNop)]);
    PlacedTwo(code, p, j, POP);
    PlacedOne(code, p + 2 + |gr|, Op(OpNop));
  }

  lemma {:induction false} AndLayout(code: Code, pc: nat, l: Expr, r: Expr, sc: Scope)
    requires PlacedExpr(code, pc, And(l, r), sc)
    ensures ShortAt(code, pc, OpJmpFalse, l, r, sc)
  {
    hide Placed;
    ShortPlaced(code, pc, OpJmpFalse, GenExpr(l, sc), GenExpr(r, sc));
  }

  lemma {:induction false} OrLayout(code: Code, pc: nat, l: Expr, r: Expr, sc: Scope)
    requires PlacedExpr(code, pc, Or(l, r), sc)
    ensures ShortAt(code, pc, OpJmpIf, l, r, sc)
  {
    hide Placed;
    ShortPlaced(code, pc, OpJmpIf, GenExpr(l, sc), GenExpr(r, sc));
  }

  ghost predicate CallAt(code: Code, pc: nat, f: Expr, args: Exprs, sc: Scope) {
    && PlacedExpr(code, pc, f, sc) && PlacedArgs(code, pc + ExprSize(f), args, sc)
    && Is(code, pc + ExprSize(f) + ArgsSize(args), OpWide(OpCall, ArgCount(args)))
  }

  lemma {:induction false} CallLayout(code: Code, pc: nat, f: Expr, args: Exprs, sc: Scope)
    requires PlacedExpr(code, pc, Call(f, args), sc)
    ensures CallAt(code, pc, f, args, sc)
  {
    hide Placed;
    var gf, ga := GenExpr(f, sc), GenArgs(args, sc);
    Split3(code, pc, gf, ga, [OpWide(OpCall, ArgCount(args))]);
    PlacedOne(code, pc + |gf| + |ga|, OpWide(OpCall, ArgCount(args)));
  }

  lemma {:induction false} ArgsLayout(code: Code, pc: nat, e: Expr, tail: Exprs, sc: Scope)
    requires PlacedArgs(code, pc, ECons(e, tail), sc)
    ensures PlacedExpr(code, pc, e, sc) && PlacedArgs(code, pc + ExprSize(e), tail, sc)
  {
    Split2(code, pc, GenExpr(e, sc), GenArgs(tail, sc));
  }

  lemma {:induction false} UnaryLayout(code: Code, pc: nat, x: Expr, sc: Scope)
    ensures PlacedExpr(code, pc, BitNot(x), sc) ==> UseAt(code, pc, x, Op(OpBitNot), sc)
    ensures PlacedExpr(code, pc, Nullish(x), sc) ==> UseAt(code, pc, x, Op(OpChkNone), sc)
  {
    hide Placed, UseAt;
    if PlacedExpr(code, pc, BitNot(x), sc) { UseLayout(code, pc, x, Op(OpBitNot), sc); }
    if PlacedExpr(code, pc, Nullish(x), sc) { UseLayout(code, pc, x, Op(OpChkNone), sc); }
  }

  // ----- one expression and the instruction that uses it -----

  ghost predicate UseAt(code: Code, pc: nat, e: Expr, i: Instr, sc: Scope) {
    PlacedExpr(code, pc, e, sc) && Is(code, pc + ExprSize(e), i)
  }

  lemma {:induction false} UseLayout(code: Code, pc: nat, e: Expr, i: Instr, sc: Scope)
    requires Placed(code, pc, GenExpr(e, sc) + [i])
    ensures UseAt(code, pc, e, i, sc)
  {
    Split2(code, pc, GenExpr(e, sc), [i]);
    PlacedOne(code, pc + ExprSize(e), i);
  }

  lemma {:induction false} LeafLayout(code: Code, pc: nat, s: Stmt, sc: Scope, lp: Loop)
    requires PlacedStmt(code, pc, s, sc, lp)
    ensures s.Let? ==> UseAt(code, pc, s.init, StoreRef(VarRef(sc, s.name)), sc)
    ensures s.Assign? ==> UseAt(code, pc, s.value, StoreRef(Resolve(sc, s.name)), sc)
    ensures s.ExprStmt? ==> UseAt(code, pc, s.e, POP, sc)
    ensures s.Ret? ==> UseAt(code, pc, s.value, Op(OpRet), sc)
    ensures s.Throw? ==> UseAt(code, pc, s.value, Op(OpRaiseErr), sc)
    ensures s.Nop? ==> Is(code, pc, Op(OpNop))
    ensures s.Break? ==> Is(code, pc, BreakJump(lp, pc))
    ensures s.Continue? ==> Is(code, pc, ContinueJump(lp, pc))
  {
    hide GenExpr, UseAt, VarRef, Resolve;
    match s
    case Let(x, e) => UseLayout(code, pc, e, StoreRef(VarRef(sc, x)), sc);
    case Assign(x, e) => UseLayout(code, pc, e, StoreRef(Resolve(sc, x)), sc);
    case ExprStmt(e) => UseLayout(code, pc, e, POP, sc);
    case Ret(e) => UseLayout(code, pc, e, Op(OpRet), sc);
    case Throw(e) => UseLayout(code, pc, e, Op(OpRaiseErr), sc);
    case Nop => PlacedOne(code, pc, Op(OpNop));
    case Break => PlacedOne(code, pc, BreakJump(lp, pc));
    case Continue => PlacedOne(code, pc, ContinueJump(lp, pc));
    case _ =>
  }

  // ----- statements with parts -----

  ghost predicate SeqAt(code: Code, pc: nat, a: Stmt, b: Stmt, sc: Scope, lp: Loop) {
    PlacedStmt(code, pc, a, sc, lp) && PlacedStmt(code, pc + StmtSize(a), b, sc, lp)
  }

  lemma {:induction false} SeqLayout(code: Code, pc: nat, a: Stmt, b: Stmt, sc: Scope, lp: Loop)
    requires PlacedStmt(code, pc, Seq(a, b), sc, lp)
    ensures SeqAt(code, pc, a, b, sc, lp)
  {
    Split2(code, pc, GenStmt(a, sc, pc, lp), GenStmt(b, sc, pc + StmtSize(a), lp));
  }

  ghost predicate IfAt(code: Code, pc: nat, c: Expr, t: Stmt, sc: Scope, lp: Loop) {
    var pt := pc + ExprSize(c) + 1;
    && PlacedExpr(code, pc, c, sc) && Is(code, pt - 1, OpWide(OpJmpFalse, StmtSize(t) + 1))
    && PlacedStmt(code, pt, t, sc, lp) && Is(code, pt + StmtSize(t), Op(OpNop))
  }

  lemma {:induction false} IfPlaced(code: Code, pc: nat, gc: Code, gt: Code)
    requires Placed(code, pc, IfCode(gc, gt))
    ensures var pt := pc + |gc| + 1;
      && Placed(code, pc, gc) && Is(code, pt - 1, OpWide(OpJmpFalse, |gt| + 1))
      && Placed(code, pt, gt) && Is(code, pt + |gt|, Op(OpNop))
  {
    hide Placed;
    var jf, pt := OpWide(OpJmpFalse, |gt| + 1), pc + |gc| + 1;
    Split3(code, pc, gc + [jf], gt, [Op(OpNop)]);
    Split2(code, pc, gc, [jf]);
    PlacedOne(code, pt - 1, jf);
    PlacedOne(code, pt + |gt|, Op(OpNop));
  }

  lemma {:induction false} IfLayout(code: Code, pc: nat, c: Expr, t: Stmt, sc: Scope, lp: Loop)
    requires PlacedStmt(code, pc, If(c, t), sc, lp)
    ensures IfAt(code, pc, c, t, sc, lp)
  {
    hide GenExpr, GenStmt, IfCode, Placed;
    IfCodeOf(c, t, sc, pc, lp);
    IfPlaced(code, pc, GenExpr(c, sc), GenStmt(t, sc, pc + ExprSize(c) + 1, lp));
  }

  ghost predicate IfElseAt(code: Code, pc: nat, c: Expr, t: Stmt, e: Stmt, sc: Scope, lp: Loop) {
    var pt := pc + ExprSize(c) + 1;
    var pe := pc + ExprSize(c) + StmtSize(t) + 2;
    && PlacedExpr(code, pc, c, sc) && Is(code, pt - 1, OpWide(OpJmpFalse, StmtSize(t) + 2))
    && PlacedStmt(code, pt, t, sc, lp) && Is(code, pe - 1, OpWide(OpJmp, StmtSize(e) + 1))
    && PlacedStmt(code, pe, e, sc, lp) && Is(code, pe + StmtSize(e), Op(OpNop))
  }

  lemma {:induction false} IfElsePlaced(code: Code, pc: nat, gc: Code, gt: Code, ge: Code)
    requires Placed(code, pc, IfElseCode(gc, gt, ge))
    ensures var pt := pc + |gc| + 1;
      var pe := pt + |gt| + 1;
      && Placed(code, pc, gc) && Is(code, pt - 1, OpWide(OpJmpFalse, |gt| + 2))
      && Placed(code, pt, gt) && Is(code, pe - 1, OpWide(OpJmp, |ge| + 1))
      && Placed(code, pe, ge) && Is(code, pe + |ge|, Op(OpNop))
  {
    hide Placed;
    var jf, j := OpWide(OpJmpFalse, |gt| + 2), OpWide(OpJmp, |ge| + 1);
    var pt := pc + |gc| + 1;
    var pe := pt + |gt| + 1;
    Split3(code, pc, gc + [jf] + gt + [j], ge, [Op(OpNop)]);
    Split3(code, pc, gc + [jf], gt, [j]);
    Split2(code, pc, gc, [jf]);
    PlacedOne(code, pt - 1, jf);
    PlacedOne(code, pe - 1, j);
    PlacedOne(code, pe + |ge|, Op(OpNop));
  }

  lemma {:induction false} IfElseLayout(code: Code, pc: nat, c: Expr, t: Stmt, e: Stmt, sc: Scope, lp: Loop)
    requires PlacedStmt(code, pc, IfElse(c, t, e), sc, lp)
    ensures IfElseAt(code, pc, c, t, e, sc, lp)
  {
    hide GenExpr, GenStmt, IfElseCode, Placed;
    IfElseCodeOf(c, t, e, sc, pc, lp);
    IfElsePlaced(code, pc, GenExpr(c, sc), GenStmt(t, sc, pc + ExprSize(c) + 1, lp),
                 GenStmt(e, sc, pc + ExprSize(c) + StmtSize(t) + 2, lp));
  }

  ghost predicate WhileAt(code: Code, pc: nat, c: Expr, b: Stmt, sc: Scope) {
    var pb := pc + ExprSize(c) + 1;
    && PlacedExpr(code, pc, c, sc) && Is(code, pb - 1, OpWide(OpJmpFalse, StmtSize(b) + 2))
    && PlacedStmt(code, pb, b, sc, Closed(pb + StmtSize(b) + 1, pc))
    && Is(code, pb + StmtSize(b), Instr(OpJmp, 1, Wide(ExprSize(c) + 1 + StmtSize(b))))
  }

  lemma {:induction false} WhilePlaced(code: Code, pc: nat, gc: Code, gb: Code)
    requires Placed(code, pc, WhileCode(gc, gb))
    ensures var pb := pc + |gc| + 1;
      && Placed(code, pc, gc) && Is(code, pb - 1, OpWide(OpJmpFalse, |gb| + 2))
      && Placed(code, pb, gb) && Is(code, pb + |gb|, Instr(OpJmp, 1, Wide(|gc| + 1 + |gb|)))
  {
    hide Placed;
    var jf, back := OpWide(OpJmpFalse, |gb| + 2), Instr(OpJmp, 1, Wide(|gc| + 1 + |gb|));
    var pb := pc + |gc| + 1;
    Split3(code, pc, gc + [jf], gb, [back]);
    Split2(code, pc, gc, [jf]);
    PlacedOne(code, pb - 1, jf);
    PlacedOne(code, pb + |gb|, back);
  }

  lemma {:induction false} WhileLayout(code: Code, pc: nat, c: Expr, b: Stmt, sc: Scope, lp: Loop)
    requires PlacedStmt(code, pc, While(c, b), sc, lp)
    ensures WhileAt(code, pc, c, b, sc)
  {
    hide GenExpr, GenStmt, WhileCode, Placed;
    var pb := pc + ExprSize(c) + 1;
    WhileCodeOf(c, b, sc, pc, lp);
    WhilePlaced(code, pc, GenExpr(c, sc), GenStmt(b, sc, pb, Closed(pb + StmtSize(b) + 1, pc)));
  }

  ghost predicate TryAt(code: Code, pc: nat, b: Stmt, h: Stmt, sc: Scope, lp: Loop) {
    var ph := pc + 1 + StmtSize(b) + 2;
    && Is(code, pc, Op(OpTry)) && PlacedStmt(code, pc + 1, b, sc, lp)
    && Is(code, ph - 2, OpWide(OpJmp, StmtSize(h) + 2)) && Is(code, ph - 1, Op(OpCatchErr))
    && PlacedStmt(code, ph, h, sc, lp)
  }

  lemma {:induction false} TryPlaced(code: Code, pc: nat, gb: Code, gh: Code)
    requires Placed(code, pc, TryCode(gb, gh))
    ensures var ph := pc + 1 + |gb| + 2;
      && Is(code, pc, Op(OpTry)) && Placed(code, pc + 1, gb)
      && Is(code, ph - 2, OpWide(OpJmp, |gh| + 2)) && Is(code, ph - 1, Op(OpCatchErr)) && Placed(code, ph, gh)
  {
    hide Placed;
    var j, ph := OpWide(OpJmp, |gh| + 2), pc + 1 + |gb| + 2;
    Split3(code, pc, [Op(OpTry)] + gb, [j, Op(OpCatchErr)], gh);
    Split2(code, pc, [Op(OpTry)], gb);
    PlacedOne(code, pc, Op(OpTry));
    PlacedTwo(code, ph - 2, j, Op(OpCatchErr));
  }

  lemma {:induction false} TryLayout(code: Code, pc: nat, b: Stmt, h: Stmt, sc: Scope, lp: Loop)
    requires PlacedStmt(code, pc, Try(b, h), sc, lp)
    ensures TryAt(code, pc, b, h, sc, lp)
  {
    hide GenStmt, TryCode, Placed;
    TryCodeOf(b, h, sc, pc, lp);
    TryPlaced(code, pc, GenStmt(b, sc, pc + 1, lp), GenStmt(h, sc, pc + 1 + StmtSize(b) + 2, lp));
  }

  /** Initializer and store; test, exit jump, jump to the body; filler, update, jump to the test; body,
      jump to the filler; filler. */
  ghost predicate ForAt(code: Code, pc: nat, s: Stmt, sc: Scope)
    requires s.For?
  {
    var test := pc + ExprSize(s.init) + 1;
    var fill := test + ExprSize(s.cond) + 2;
    var body := fill + 1 + StmtSize(s.update) + 1;
    var end := body + StmtSize(s.body) + 1;
    && UseAt(code, pc, s.init, StoreRef(Resolve(sc, s.counter)), sc)
    && PlacedExpr(code, test, s.cond, sc)
    && Is(code, fill - 2, OpWide(OpJmpFalse, StmtSize(s.update) + StmtSize(s.body) + 5))
    && Is(code, fill - 1, OpWide(OpJmp, StmtSize(s.update) + 3)) && Is(code, fill, Op(OpNop))
    && PlacedStmt(code, fill + 1, s.update, sc, Open)
    && Is(code, body - 1, Instr(OpJmp, 1, Wide(ExprSize(s.cond) + 3 + StmtSize(s.update))))
    && PlacedStmt(code, body, s.body, sc, Closed(end, fill))
    && Is(code, end - 1, Instr(OpJmp, 1, Wide(StmtSize(s.update) + 2 + StmtSize(s.body)))) && Is(code, end, Op(OpNop))
  }

  lemma {:induction false} PlacedThree(code: Code, pc: nat, i: Instr, j: Instr, k: Instr)
    requires Placed(code, pc, [i, j, k])
    ensures Is(code, pc, i) && Is(code, pc + 1, j) && Is(code, pc + 2, k)
  {
    assert [i, j, k][0] == i && [i, j, k][1] == j && [i, j, k][2] == k;
  }

  lemma {:induction false} Split4(code: Code, pc: nat, a: Code, b: Code, c: Code, d: Code)
    requires Placed(code, pc, a + b + c + d)
    ensures Placed(code, pc, a) && Placed(code, pc + |a|, b) && Placed(code, pc + |a| + |b|, c)
        && Placed(code, pc + |a| + |b| + |c|, d)
  {
    Split2(code, pc, a + b + c, d);
    Split3(code, pc, a, b, c);
  }

  lemma {:induction false} ForPlaced(code: Code, pc: nat, gi: Code, store: Instr, gc: Code, gu: Code, gb: Code)
    requires Placed(code, pc, ForCode(gi, store, gc, gu, gb))
    ensures var test := pc + |gi| + 1;
      var fill := test + |gc| + 2;
      var body := fill + 1 + |gu| + 1;
      && Placed(code, pc, gi + [store]) && Placed(code, test, gc)
      && Is(code, fill - 2, OpWide(OpJmpFalse, |gu| + |gb| + 5)) && Is(code, fill - 1, OpWide(OpJmp, |gu| + 3))
          && Is(code, fill, Op(OpNop))
      && Placed(code, fill + 1, gu) && Is(code, body - 1, Instr(OpJmp, 1, Wide(|gc| + 3 + |gu|)))
      && Placed(code, body, gb) && Is(code, body + |gb|, Instr(OpJmp, 1, Wide(|gu| + 2 + |gb|)))
      && Is(code, body + |gb| + 1, Op(OpNop))
  {
    var test := pc + |gi| + 1;
    var fill := test + |gc| + 2;
    var body := fill + 1 + |gu| + 1;
    var a, b, c := OpWide(OpJmpFalse, |gu| + |gb| + 5), OpWide(OpJmp, |gu| + 3), Op(OpNop);
    var rep, back := Instr(OpJmp, 1, Wide(|gc| + 3 + |gu|)), Instr(OpJmp, 1, Wide(|gu| + 2 + |gb|));
    hide Placed;
    Split4(code, pc, gi + [store], gc + [a, b, c], gu + [rep], gb + [back, Op(OpNop)]);
    Split2(code, test, gc, [a, b, c]);
    PlacedThree(code, fill - 2, a, b, c);
    Split2(code, fill + 1, gu, [rep]);
    PlacedOne(code, body - 1, rep);
    Split2(code, body, gb, [back, Op(OpNop)]);
    PlacedTwo(code, body + |gb|, back, Op(OpNop));
  }

  lemma {:induction false} ForLayout(code: Code, pc: nat, s: Stmt, sc: Scope, lp: Loop)
    requires s.For? && PlacedStmt(code, pc, s, sc, lp)
    ensures ForAt(code, pc, s, sc)
  {
    hide Placed, ForCode, GenExpr, GenStmt, StmtSize, ExprSize, Resolve, UseAt;
    ForCodeIs(s, sc, pc, lp);
    var fill := pc + ExprSize(s.init) + 1 + ExprSize(s.cond) + 2;
    var body := fill + 1 + StmtSize(s.update) + 1;
    var gi, gc, gu := GenExpr(s.init, sc), GenExpr(s.cond, sc), GenStmt(s.update, sc, fill + 1, Open);
    var gb := GenStmt(s.body, sc, body, Closed(body + StmtSize(s.body) + 1, fill));
    ForPlaced(code, pc, gi, StoreRef(Resolve(sc, s.counter)), gc, gu, gb);
    UseLayout(code, pc, s.init, StoreRef(Resolve(sc, s.counter)), sc);
  }

  /** The jumps of a FOR, by where they lead. */
  lemma {:induction false} ForJumps(code: Code, pc: nat, s: Stmt, sc: Scope, test: nat, fill: nat, body: nat, end: nat)
    requires s.For? && ForAt(code, pc, s, sc) && test == pc + ExprSize(s.init) + 1
        && fill == test + ExprSize(s.cond) + 2
    requires body == fill + StmtSize(s.update) + 2 && end == body + StmtSize(s.body) + 1
    ensures UseAt(code, pc, s.init, StoreRef(Resolve(sc, s.counter)), sc) && PlacedExpr(code, test, s.cond, sc)
    ensures Is(code, fill - 2, OpWide(OpJmpFalse, end - (fill - 2)))
        && Is(code, fill - 1, OpWide(OpJmp, body - (fill - 1)))
    ensures Is(code, fill, Op(OpNop)) && PlacedStmt(code, fill + 1, s.update, sc, Open)
    ensures Is(code, body - 1, Instr(OpJmp, 1, Wide(body - 1 - test)))
        && PlacedStmt(code, body, s.body, sc, Closed(end, fill))
    ensures Is(code, end - 1, Instr(OpJmp, 1, Wide(end - 1 - fill))) && Is(code, end, Op(OpNop))
  {
    hide PlacedStmt, PlacedExpr, UseAt, Resolve, Wide, StmtSize, ExprSize;
  }

  // ----- the chunk of a function -----

  lemma {:induction false} PlacedSelf(code: Code)
    ensures Placed(code, 0, code)
  {
  }

  lemma {:induction false} FunLayout(argc: nat, body: Stmt, sc: Scope, code: Code)
    requires code == FunCode(argc, body, sc)
    ensures Is(code, 0, OpWide(OpReserve, sc.nLoc - argc)) && PlacedStmt(code, 1, body, sc, Open)
    ensures Is(code, 1 + StmtSize(body), LAST_RET) && |code| == StmtSize(body) + 2
  {
    hide GenStmt, Placed;
    var g := GenStmt(body, sc, 1, Open);
    var r := OpWide(OpReserve, sc.nLoc - argc);
    PlacedSelf([r] + g + [LAST_RET]);
    Split3(code, 0, [r], g, [LAST_RET]);
    PlacedOne(code, 0, r);
    PlacedOne(code, 1 + |g|, LAST_RET);
  }
}
