/** Where the code of a tree lies in its chunk, and what a catch search sees of it. */
module Placement {
  import opened Bytecode
  import opened Machine
  import opened Syntax
  import opened Scoping
  import opened Codegen

  ghost predicate Placed(code: Code, pc: nat, g: Code) {
    pc + |g| <= |code| && forall i :: 0 <= i < |g| ==> code[pc + i] == g[i]
  }

  lemma {:induction false} Split2(code: Code, pc: nat, a: Code, b: Code)
    requires Placed(code, pc, a + b)
    ensures Placed(code, pc, a) && Placed(code, pc + |a|, b)
  {
    forall i | 0 <= i < |a| ensures code[pc + i] == a[i] { assert (a + b)[i] == a[i]; }
    forall i | 0 <= i < |b| ensures code[pc + |a| + i] == b[i] { assert (a + b)[|a| + i] == b[i]; }
  }

  lemma {:induction false} Split3(code: Code, pc: nat, a: Code, b: Code, c: Code)
    requires Placed(code, pc, a + b + c)
    ensures Placed(code, pc, a) && Placed(code, pc + |a|, b) && Placed(code, pc + |a| + |b|, c)
  {
    Split2(code, pc, a + b, c);
    Split2(code, pc, a, b);
  }

  lemma {:induction false} PlacedOne(code: Code, pc: nat, i: Instr)
    requires Placed(code, pc, [i])
    ensures pc < |code| && code[pc] == i
  {
    assert code[pc + 0] == [i][0];
  }

  lemma {:induction false} PlacedTwo(code: Code, pc: nat, i: Instr, j: Instr)
    requires Placed(code, pc, [i, j])
    ensures pc + 1 < |code| && code[pc] == i && code[pc + 1] == j
  {
    assert [i, j][0] == i && [i, j][1] == j;
  }

  /** Instructions a catch search walks over without counting. */
  predicate Plain(i: Instr) { !i.op.OpTry? && !i.op.OpCatchErr? && !IsLastRet(i) }

  lemma {:induction false} ScanSkips(code: Code, a: nat, b: nat, depth: int)
    requires a <= b <= |code| && forall i :: a <= i < b ==> Plain(code[i])
    ensures Scan(code, a, depth) == Scan(code, b, depth)
    decreases b - a
  {
    if a < b { ScanSkips(code, a + 1, b, depth); }
  }

  ghost predicate AllPlain(g: Code) { forall i :: 0 <= i < |g| ==> Plain(g[i]) }

  lemma {:induction false} ScanPlain(code: Code, pc: nat, g: Code, depth: int)
    requires Placed(code, pc, g) && AllPlain(g)
    ensures Scan(code, pc, depth) == Scan(code, pc + |g|, depth)
  {
    forall i | pc <= i < pc + |g| ensures Plain(code[i]) { assert code[pc + (i - pc)] == g[i - pc]; }
    ScanSkips(code, pc, pc + |g|, depth);
  }

  lemma {:induction false} PlainJoin(a: Code, b: Code)
    requires AllPlain(a) && AllPlain(b)
    ensures AllPlain(a + b)
  {
  }

  /** Expressions have neither TRY nor CATCH nor the closing RET. */
  lemma {:induction false} ExprPlain(e: Expr, sc: Scope)
    ensures AllPlain(GenExpr(e, sc))
    decreases e
  {
    match e
    case BitNot(x) => ExprPlain(x, sc);
    case Nullish(x) => ExprPlain(x, sc);
    case Call(f, args) =>
      ExprPlain(f, sc);
      ArgsPlain(args, sc);
    case Coal(l, r) => ExprPlain(l, sc); ExprPlain(r, sc); PairPlain(e, sc);
    case Bin(_, l, r) => ExprPlain(l, sc); ExprPlain(r, sc); PairPlain(e, sc);
    case And(l, r) => ExprPlain(l, sc); ExprPlain(r, sc); PairPlain(e, sc);
    case Or(l, r) => ExprPlain(l, sc); ExprPlain(r, sc); PairPlain(e, sc);
    case _ =>
  }

  lemma {:induction false} PairPlain(e: Expr, sc: Scope)
    requires IsPair(e) && AllPlain(GenExpr(e.l, sc)) && AllPlain(GenExpr(e.r, sc))
    ensures AllPlain(GenExpr(e, sc))
  {
    var gl, gr := GenExpr(e.l, sc), GenExpr(e.r, sc);
    PlainJoin(gl, gr);
    match e
    case Coal(_, _) =>
      var a, b := [OpWide(OpJmpFalse, |gr| + 3), POP], [OpWide(OpJmp, 2), POP];
      PlainJoin(a, gr);
      PlainJoin(a + gr, b);
      PlainJoin(gl + [Op(OpChkNone)], a + gr + b);
    case _ =>
  }

  lemma {:induction false} ArgsPlain(es: Exprs, sc: Scope)
    ensures AllPlain(GenArgs(es, sc))
    decreases es
  {
    if es.ECons? {
      ExprPlain(es.head, sc);
      ArgsPlain(es.tail, sc);
    }
  }
}
