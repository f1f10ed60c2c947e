/** Closing a loop: the recorded BREAK and CONTINUE positions get their displacements. */
module Backpatch {
  import opened Bytecode
  import opened Syntax
  import opened Scoping
  import opened Codegen

  /** Positions of the BREAKs of the enclosing loop in the code of `s` placed at `pc`. */
  function Breaks(s: Stmt, pc: nat): seq<nat> {
    match s
    case Break => [pc]
    case Seq(a, b) => Breaks(a, pc) + Breaks(b, pc + StmtSize(a))
    case If(c, t) => Breaks(t, pc + ExprSize(c) + 1)
    case IfElse(c, t, e) => Breaks(t, pc + ExprSize(c) + 1) + Breaks(e, pc + ExprSize(c) + StmtSize(t) + 2)
    case Try(b, h) => Breaks(b, pc + 1) + Breaks(h, pc + 1 + StmtSize(b) + 2)
    case _ => []
  }

  function Conts(s: Stmt, pc: nat): seq<nat> {
    match s
    case Continue => [pc]
    case Seq(a, b) => Conts(a, pc) + Conts(b, pc + StmtSize(a))
    case If(c, t) => Conts(t, pc + ExprSize(c) + 1)
    case IfElse(c, t, e) => Conts(t, pc + ExprSize(c) + 1) + Conts(e, pc + ExprSize(c) + StmtSize(t) + 2)
    case Try(b, h) => Conts(b, pc + 1) + Conts(h, pc + 1 + StmtSize(b) + 2)
    case _ => []
  }

  /** What the patch loops of WHILE and FOR make of the instruction at position `p`. */
  function PatchAt(i: Instr, p: int, bs: seq<nat>, cs: seq<nat>, brk: int, cont: int): Instr {
    if p in cs then Instr(i.op, 1, Wide(p - cont))
    else if p in bs then i.(wide := Wide(brk - p))
    else i
  }

  /** `closed`, placed at `pc`, is `open` with the recorded positions patched. */
  ghost predicate Patched(open: Code, closed: Code, pc: nat, bs: seq<nat>, cs: seq<nat>, brk: int, cont: int) {
    && |open| == |closed|
    && (forall i :: 0 <= i < |open| ==> closed[i] == PatchAt(open[i], pc + i, bs, cs, brk, cont))
    && (forall p :: p in bs ==> pc <= p < pc + |open|)
    && (forall p :: p in cs ==> pc <= p < pc + |open|)
  }

  lemma {:induction false} PatchedJoin(o1: Code, c1: Code, o2: Code, c2: Code, pc: nat,
      b1: seq<nat>, k1: seq<nat>, b2: seq<nat>, k2: seq<nat>, brk: int, cont: int)
    requires Patched(o1, c1, pc, b1, k1, brk, cont) && Patched(o2, c2, pc + |o1|, b2, k2, brk, cont)
    ensures Patched(o1 + o2, c1 + c2, pc, b1 + b2, k1 + k2, brk, cont)
  {
  }

  /** Fixed code around a patched part. */
  lemma {:induction false} PatchedInside(pre: Code, o: Code, c: Code, post: Code, pc: nat,
      bs: seq<nat>, cs: seq<nat>, brk: int, cont: int)
    requires Patched(o, c, pc + |pre|, bs, cs, brk, cont)
    ensures Patched(pre + o + post, pre + c + post, pc, bs, cs, brk, cont)
  {
  }

  /** Closing the loop around `s` patches exactly its recorded positions. */
  ghost predicate Closes(s: Stmt, sc: Scope, pc: nat, brk: int, cont: int) {
    Patched(GenStmt(s, sc, pc, Open), GenStmt(s, sc, pc, Closed(brk, cont)), pc, Breaks(s, pc), Conts(s, pc), brk, cont)
  }

  lemma {:induction false} ClosingPatches(s: Stmt, sc: Scope, pc: nat, brk: int, cont: int)
    ensures Closes(s, sc, pc, brk, cont)
    decreases s
  {
    hide Closes;
    match s
    case Break => CloseJump(s, sc, pc, brk, cont);
    case Continue => CloseJump(s, sc, pc, brk, cont);
    case Seq(a, b) =>
      ClosingPatches(a, sc, pc, brk, cont);
      ClosingPatches(b, sc, pc + StmtSize(a), brk, cont);
      CloseSeq(a, b, sc, pc, brk, cont);
    case If(c, t) =>
      ClosingPatches(t, sc, pc + ExprSize(c) + 1, brk, cont);
      CloseIf(c, t, sc, pc, brk, cont);
    case IfElse(c, t, e) =>
      ClosingPatches(t, sc, pc + ExprSize(c) + 1, brk, cont);
      ClosingPatches(e, sc, pc + ExprSize(c) + StmtSize(t) + 2, brk, cont);
      CloseIfElse(c, t, e, sc, pc, brk, cont);
    case Try(b, h) =>
      ClosingPatches(b, sc, pc + 1, brk, cont);
      ClosingPatches(h, sc, pc + 1 + StmtSize(b) + 2, brk, cont);
      CloseTry(b, h, sc, pc, brk, cont);
    case _ => CloseJump(s, sc, pc, brk, cont);
  }

  /** Statements without an exposed BREAK or CONTINUE, and those two. */
  lemma {:induction false} CloseJump(s: Stmt, sc: Scope, pc: nat, brk: int, cont: int)
    requires !s.Seq? && !s.If? && !s.IfElse? && !s.Try?
    ensures Closes(s, sc, pc, brk, cont)
  {
    hide GenExpr, ForCode, WhileCode;
  }

  lemma {:induction false} CloseSeq(a: Stmt, b: Stmt, sc: Scope, pc: nat, brk: int, cont: int)
    requires Closes(a, sc, pc, brk, cont) && Closes(b, sc, pc + StmtSize(a), brk, cont)
    ensures Closes(Seq(a, b), sc, pc, brk, cont)
  {
    var pb, cl := pc + StmtSize(a), Closed(brk, cont);
    SeqCodeOf(a, b, sc, pc, Open);
    SeqCodeOf(a, b, sc, pc, cl);
    hide Patched, GenStmt;
    PatchedJoin(GenStmt(a, sc, pc, Open), GenStmt(a, sc, pc, cl), GenStmt(b, sc, pb, Open), GenStmt(b, sc, pb, cl), pc,
                Breaks(a, pc), Conts(a, pc), Breaks(b, pb), Conts(b, pb), brk, cont);
  }

  lemma {:induction false} CloseIf(c: Expr, t: Stmt, sc: Scope, pc: nat, brk: int, cont: int)
    requires Closes(t, sc, pc + ExprSize(c) + 1, brk, cont)
    ensures Closes(If(c, t), sc, pc, brk, cont)
  {
    hide Patched, GenExpr, GenStmt, Wide;
    var body, cl := pc + ExprSize(c) + 1, Closed(brk, cont);
    IfCodeOf(c, t, sc, pc, Open);
    IfCodeOf(c, t, sc, pc, cl);
    PatchedInside(GenExpr(c, sc) + [OpWide(OpJmpFalse, StmtSize(t) + 1)], GenStmt(t, sc, body, Open),
                  GenStmt(t, sc, body, cl), [Op(OpNop)], pc, Breaks(t, body), Conts(t, body), brk, cont);
  }

  lemma {:induction false} CloseIfElse(c: Expr, t: Stmt, e: Stmt, sc: Scope, pc: nat, brk: int, cont: int)
    requires Closes(t, sc, pc + ExprSize(c) + 1, brk, cont)
    requires Closes(e, sc, pc + ExprSize(c) + StmtSize(t) + 2, brk, cont)
    ensures Closes(IfElse(c, t, e), sc, pc, brk, cont)
  {
    IfElseOpened(c, t, e, sc, pc, Open);
    IfElseOpened(c, t, e, sc, pc, Closed(brk, cont));
    IfElseExposed(c, t, e, pc);
    hide Patched, GenExpr, GenStmt, StmtSize, ExprSize, Breaks, Conts;
    CloseTwo(t, e, sc, pc, pc + ExprSize(c) + 1, pc + ExprSize(c) + StmtSize(t) + 2, brk, cont,
             GenExpr(c, sc) + [OpWide(OpJmpFalse, StmtSize(t) + 2)], [OpWide(OpJmp, StmtSize(e) + 1)], [Op(OpNop)]);
  }

  lemma {:induction false} IfElseOpened(c: Expr, t: Stmt, e: Stmt, sc: Scope, pc: nat, lp: Loop)
    ensures GenStmt(IfElse(c, t, e), sc, pc, lp) ==
      GenExpr(c, sc) + [OpWide(OpJmpFalse, StmtSize(t) + 2)] + GenStmt(t, sc, pc + ExprSize(c) + 1, lp)
      + [OpWide(OpJmp, StmtSize(e) + 1)] + GenStmt(e, sc, pc + ExprSize(c) + StmtSize(t) + 2, lp) + [Op(OpNop)]
  {
    hide GenExpr, GenStmt, StmtSize, ExprSize;
    IfElseCodeOf(c, t, e, sc, pc, lp);
  }

  lemma {:induction false} IfElseExposed(c: Expr, t: Stmt, e: Stmt, pc: nat)
    ensures var pt, pe := pc + ExprSize(c) + 1, pc + ExprSize(c) + StmtSize(t) + 2;
      Breaks(IfElse(c, t, e), pc) == Breaks(t, pt) + Breaks(e, pe)
          && Conts(IfElse(c, t, e), pc) == Conts(t, pt) + Conts(e, pe)
  {
  }

  lemma {:induction false} CloseTry(b: Stmt, h: Stmt, sc: Scope, pc: nat, brk: int, cont: int)
    requires Closes(b, sc, pc + 1, brk, cont) && Closes(h, sc, pc + 1 + StmtSize(b) + 2, brk, cont)
    ensures Closes(Try(b, h), sc, pc, brk, cont)
  {
    hide Patched;
    var cl, ph := Closed(brk, cont), pc + 1 + StmtSize(b) + 2;
    var mid := [OpWide(OpJmp, StmtSize(h) + 2), Op(OpCatchErr)];
    CloseTwo(b, h, sc, pc, pc + 1, ph, brk, cont, [Op(OpTry)], mid, []);
    EmptyEnd([Op(OpTry)] + GenStmt(b, sc, pc + 1, Open) + mid + GenStmt(h, sc, ph, Open));
    EmptyEnd([Op(OpTry)] + GenStmt(b, sc, pc + 1, cl) + mid + GenStmt(h, sc, ph, cl));
  }

  lemma {:induction false} EmptyEnd(g: Code)
    ensures g + [] == g
  {
  }

  lemma {:induction false} CloseTwo(a: Stmt, b: Stmt, sc: Scope, pc: nat, pa: nat, pb: nat, brk: int, cont: int,
      pre: Code, mid: Code, post: Code)
    requires pa == pc + |pre| && pb == pa + StmtSize(a) + |mid|
    requires Closes(a, sc, pa, brk, cont) && Closes(b, sc, pb, brk, cont)
    ensures Patched(pre + GenStmt(a, sc, pa, Open) + mid + GenStmt(b, sc, pb, Open) + post,
                    pre + GenStmt(a, sc, pa, Closed(brk, cont)) + mid + GenStmt(b, sc, pb, Closed(brk, cont)) + post,
                    pc, Breaks(a, pa) + Breaks(b, pb), Conts(a, pa) + Conts(b, pb), brk, cont)
  {
    hide GenStmt, StmtSize, Breaks, Conts, Patched;
    var oa, ca := GenStmt(a, sc, pa, Open), GenStmt(a, sc, pa, Closed(brk, cont));
    var ob, cb := GenStmt(b, sc, pb, Open), GenStmt(b, sc, pb, Closed(brk, cont));
    PatchedInside(pre, oa, ca, mid, pc, Breaks(a, pa), Conts(a, pa), brk, cont);
    PatchedInside([], ob, cb, post, pb, Breaks(b, pb), Conts(b, pb), brk, cont);
    assert [] + ob + post == ob + post && [] + cb + post == cb + post;
    PatchedJoin(pre + oa + mid, pre + ca + mid, ob + post, cb + post, pc,
                Breaks(a, pa), Conts(a, pa), Breaks(b, pb), Conts(b, pb), brk, cont);
    assert pre + oa + mid + (ob + post) == pre + oa + mid + ob + post;
    assert pre + ca + mid + (cb + post) == pre + ca + mid + cb + post;
  }
}
