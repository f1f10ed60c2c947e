/** Every jump of compiled code is patched, stays in its chunk and misses the inside of every window
    the optimizer fuses. */
module Jumps {
  import opened Wrappers
  import opened Bytecode
  import opened Optimizer
  import opened Syntax
  import opened Scoping
  import opened Codegen
  import opened Placement
  import opened Layout

  /** `t` is a position of the chunk, and no fused window has it as its second or third instruction:
      a load or an operation is only met by a jump that follows something other than a load. */
  predicate Lands(code: Code, t: int) {
    0 <= t < |code| && (t == 0 || !IsLoad(code[t - 1]) || !(IsLoad(code[t]) || FusableOp(code[t].op).Some?))
  }

  /** A patched jump: not a placeholder, inside the chunk, outside every window; a test only jumps
      forward. */
  predicate JumpOk(code: Code, i: nat) {
    i < |code| && IsJump(code[i]) ==>
      && code[i].wide != 0 && Lands(code, JumpTarget(i, code[i]))
      && (!code[i].op.OpJmp? ==> JumpTarget(i, code[i]) > i)
  }

  ghost predicate JumpsOk(code: Code, a: nat, b: nat) {
    forall i :: a <= i < b ==> JumpOk(code, i)
  }

  lemma {:induction false} JumpsJoin(code: Code, a: nat, b: nat, c: nat)
    requires JumpsOk(code, a, b) && JumpsOk(code, b, c)
    ensures JumpsOk(code, a, c)
  {
    hide JumpOk;
  }

  lemma {:induction false} JumpsNone(code: Code, a: nat)
    ensures JumpsOk(code, a, a)
  {
  }

  /** An instruction that is not a jump. */
  lemma {:induction false} Straight(code: Code, p: nat, i: Instr)
    requires Is(code, p, i) && !IsJump(i)
    ensures JumpsOk(code, p, p + 1)
  {
  }

  /** Landing behind something that is not a load. */
  lemma {:induction false} LandsBehind(code: Code, t: nat)
    requires 1 <= t < |code| && !IsLoad(code[t - 1])
    ensures Lands(code, t)
  {
  }

  /** Landing on a filler. */
  lemma {:induction false} LandsOnNop(code: Code, t: nat)
    requires Is(code, t, Op(OpNop))
    ensures Lands(code, t)
  {
  }

  lemma {:induction false} ForwardOk(code: Code, p: nat, op: Opcode, n: nat)
    requires Is(code, p, OpWide(op, n)) && 0 < n < 0x1_0000 && Lands(code, p + n)
    requires op.OpJmp? || op.OpJmpFalse? || op.OpJmpIf?
    ensures JumpsOk(code, p, p + 1)
  {
    hide Lands;
    assert JumpOk(code, p);
  }

  lemma {:induction false} BackOk(code: Code, p: nat, n: nat)
    requires Is(code, p, Instr(OpJmp, 1, Wide(n))) && 0 < n < 0x1_0000 && n <= p && Lands(code, p - n)
    ensures JumpsOk(code, p, p + 1)
  {
    hide Lands;
    assert JumpOk(code, p);
  }

  // ----- expressions -----

  lemma {:induction false} ExprJumps(code: Code, pc: nat, e: Expr, sc: Scope)
    requires PlacedExpr(code, pc, e, sc) && pc + ExprSize(e) < |code| < 0x1_0000
    ensures JumpsOk(code, pc, pc + ExprSize(e))
    decreases e, 1
  {
    hide *;
    match e
    case Lit(_) => LeafJumps(code, pc, e, sc);
    case Var(_) => LeafJumps(code, pc, e, sc);
    case BitNot(_) => UnaryJumps(code, pc, e, sc);
    case Nullish(_) => UnaryJumps(code, pc, e, sc);
    case Call(_, _) => CallJumps(code, pc, e, sc);
    case Bin(_, _, _) => BinJumps(code, pc, e, sc);
    case Coal(_, _) => CoalJumps(code, pc, e, sc);
    case And(_, _) => ShortJumps(code, pc, e, sc);
    case Or(_, _) => ShortJumps(code, pc, e, sc);
  }

  lemma {:induction false} UnaryJumps(code: Code, pc: nat, e: Expr, sc: Scope)
    requires (e.BitNot? || e.Nullish?) && PlacedExpr(code, pc, e, sc) && pc + ExprSize(e) < |code| < 0x1_0000
    ensures JumpsOk(code, pc, pc + ExprSize(e))
    decreases e, 0
  {
    hide PlacedExpr, JumpsOk;
    var p := pc + ExprSize(e.e);
    UnaryLayout(code, pc, e.e, sc);
    ExprJumps(code, pc, e.e, sc);
    Straight(code, p, Op(if e.BitNot? then OpBitNot else OpChkNone));
    JumpsJoin(code, pc, p, p + 1);
  }

  lemma {:induction false} CallJumps(code: Code, pc: nat, e: Expr, sc: Scope)
    requires e.Call? && PlacedExpr(code, pc, e, sc) && pc + ExprSize(e) < |code| < 0x1_0000
    ensures JumpsOk(code, pc, pc + ExprSize(e))
    decreases e, 0
  {
    hide PlacedExpr, PlacedArgs, JumpsOk, Wide;
    var f, args, p, q := e.callee, e.args, pc + ExprSize(e.callee), pc + ExprSize(e.callee) + ArgsSize(e.args);
    CallLayout(code, pc, f, args, sc);
    ExprJumps(code, pc, f, sc);
    ArgsJumps(code, p, args, sc);
    JumpsJoin(code, pc, p, q);
    Straight(code, q, OpWide(OpCall, ArgCount(args)));
    JumpsJoin(code, pc, q, q + 1);
  }

  lemma {:induction false} BinJumps(code: Code, pc: nat, e: Expr, sc: Scope)
    requires e.Bin? && PlacedExpr(code, pc, e, sc) && pc + ExprSize(e) < |code| < 0x1_0000
    ensures JumpsOk(code, pc, pc + ExprSize(e))
    decreases e, 0
  {
    hide PlacedExpr, JumpsOk;
    var p, q := pc + ExprSize(e.l), pc + ExprSize(e.l) + ExprSize(e.r);
    BinLayout(code, pc, e.op, e.l, e.r, sc);
    ExprJumps(code, pc, e.l, sc);
    ExprJumps(code, p, e.r, sc);
    JumpsJoin(code, pc, p, q);
    Straight(code, q, Op(BinOpcode(e.op)));
    JumpsJoin(code, pc, q, q + 1);
  }

  lemma {:induction false} LeafJumps(code: Code, pc: nat, e: Expr, sc: Scope)
    requires (e.Lit? || e.Var?) && PlacedExpr(code, pc, e, sc)
    ensures JumpsOk(code, pc, pc + ExprSize(e))
  {
    var i := GenExpr(e, sc)[0];
    PlacedOne(code, pc, i);
    Straight(code, pc, i);
  }

  lemma {:induction false} ArgsJumps(code: Code, pc: nat, es: Exprs, sc: Scope)
    requires PlacedArgs(code, pc, es, sc) && pc + ArgsSize(es) < |code| < 0x1_0000
    ensures JumpsOk(code, pc, pc + ArgsSize(es))
    decreases es
  {
    hide PlacedExpr, PlacedArgs, JumpsOk;
    match es
    case ENil => JumpsNone(code, pc);
    case ECons(e, tail) =>
      ArgsLayout(code, pc, e, tail, sc);
      ExprJumps(code, pc, e, sc);
      ArgsJumps(code, pc + ExprSize(e), tail, sc);
      JumpsJoin(code, pc, pc + ExprSize(e), pc + ArgsSize(es));
  }

  lemma {:induction false} CoalJumps(code: Code, pc: nat, e: Expr, sc: Scope)
    requires e.Coal? && PlacedExpr(code, pc, e, sc) && pc + ExprSize(e) < |code| < 0x1_0000
    ensures JumpsOk(code, pc, pc + ExprSize(e))
    decreases e, 0
  {
    hide PlacedExpr, JumpsOk, Lands;
    var l, r := e.l, e.r;
    var p := pc + ExprSize(l);
    var q := p + 3 + ExprSize(r);
    CoalLayout(code, pc, l, r, sc);
    ExprJumps(code, pc, l, sc);
    Straight(code, p, Op(OpChkNone));
    LandsBehind(code, q + 1);
    ForwardOk(code, p + 1, OpJmpFalse, ExprSize(r) + 3);
    Straight(code, p + 2, POP);
    ExprJumps(code, p + 3, r, sc);
    LandsBehind(code, q + 2);
    ForwardOk(code, q, OpJmp, 2);
    Straight(code, q + 1, POP);
    JumpsJoin(code, pc, p, p + 1);
    JumpsJoin(code, pc, p + 1, p + 2);
    JumpsJoin(code, pc, p + 2, p + 3);
    JumpsJoin(code, pc, p + 3, q);
    JumpsJoin(code, pc, q, q + 1);
    JumpsJoin(code, pc, q + 1, q + 2);
  }

  lemma {:induction false} ShortJumpParts(code: Code, pc: nat, e: Expr, sc: Scope)
    requires (e.And? || e.Or?) && PlacedExpr(code, pc, e, sc)
    ensures var p := pc + ExprSize(e.l);
      var q := p + 2 + ExprSize(e.r);
      && ExprSize(e) == ExprSize(e.l) + ExprSize(e.r) + 3 && q < |code|
      && PlacedExpr(code, pc, e.l, sc) && PlacedExpr(code, p + 2, e.r, sc)
      && Is(code, p, OpWide(if e.And? then OpJmpFalse else OpJmpIf, ExprSize(e.r) + 2))
      && Is(code, p + 1, POP) && Is(code, q, Op(OpNop))
  {
    hide PlacedExpr, OpWide;
    if e.And? { AndLayout(code, pc, e.l, e.r, sc); } else { OrLayout(code, pc, e.l, e.r, sc); }
  }

  lemma ShortPlain()
    ensures !IsJump(POP) && !IsLoad(POP) && !IsJump(Op(OpNop))
  {
  }

  lemma {:induction false} ShortJumps(code: Code, pc: nat, e: Expr, sc: Scope)
    requires (e.And? || e.Or?) && PlacedExpr(code, pc, e, sc) && pc + ExprSize(e) < |code| < 0x1_0000
    ensures JumpsOk(code, pc, pc + ExprSize(e))
    decreases e, 0
  {
    hide *;
    ShortJumpParts(code, pc, e, sc);
    var p := pc + ExprSize(e.l);
    var q := p + 2 + ExprSize(e.r);
    ShortPlain();
    ExprJumps(code, pc, e.l, sc);
    LandsOnNop(code, q);
    ForwardOk(code, p, if e.And? then OpJmpFalse else OpJmpIf, ExprSize(e.r) + 2);
    Straight(code, p + 1, POP);
    ExprJumps(code, p + 2, e.r, sc);
    Straight(code, q, Op(OpNop));
    JumpsJoin(code, pc, p, p + 1);
    JumpsJoin(code, pc, p + 1, p + 2);
    JumpsJoin(code, pc, p + 2, q);
    JumpsJoin(code, pc, q, q + 1);
  }

  // ----- statements -----

  /** BREAK and CONTINUE only in loops, nothing but an assignment or an expression as a FOR's update. */
  predicate Bound(s: Stmt, inLoop: bool) {
    match s
    case Break => inLoop
    case Continue => inLoop
    case Seq(a, b) => Bound(a, inLoop) && Bound(b, inLoop)
    case Try(a, b) => Bound(a, inLoop) && Bound(b, inLoop)
    case If(_, t) => Bound(t, inLoop)
    case IfElse(_, t, e) => Bound(t, inLoop) && Bound(e, inLoop)
    case While(_, b) => Bound(b, true)
    case For(_, _, _, u, b) => (u.Assign? || u.ExprStmt?) && Bound(b, true)
    case _ => true
  }

  /** Control does not enter behind a load. */
  predicate Entry(code: Code, pc: nat) { pc <= |code| && (pc == 0 || !IsLoad(code[pc - 1])) }

  lemma {:induction false} EntryLands(code: Code, pc: nat)
    requires Entry(code, pc) && pc < |code|
    ensures Lands(code, pc)
  {
  }

  lemma {:induction false} EntryBehind(code: Code, p: nat, i: Instr)
    requires Is(code, p, i) && !IsLoad(i)
    ensures Entry(code, p + 1)
  {
  }

  /** Where the enclosing loop's jumps lead from code at `pc`. */
  predicate LoopLands(code: Code, lp: Loop, pc: nat, size: nat) {
    lp.Closed? ==> 0 <= lp.cont < pc && pc + size <= lp.brk < |code| && Lands(code, lp.brk) && Lands(code, lp.cont)
  }

  lemma {:induction false} LoopWithin(code: Code, lp: Loop, pc: nat, size: nat, p: nat, n: nat)
    requires LoopLands(code, lp, pc, size) && pc <= p && p + n <= pc + size
    ensures LoopLands(code, lp, p, n)
  {
    hide Lands;
  }

  /** The jumps of a statement, and where control may go on behind it. */
  ghost predicate Tidy(code: Code, pc: nat, end: nat) { JumpsOk(code, pc, end) && Entry(code, end) }

  lemma {:induction false} TidyIs(code: Code, pc: nat, end: nat)
    ensures Tidy(code, pc, end) <==> JumpsOk(code, pc, end) && Entry(code, end)
  {
    hide JumpsOk, Entry;
  }

  lemma {:induction false} StmtJumps(s: Stmt, sc: Scope, pc: nat, lp: Loop, code: Code)
    requires PlacedStmt(code, pc, s, sc, lp) && pc + StmtSize(s) < |code| < 0x1_0000
    requires Bound(s, lp.Closed?) && Entry(code, pc) && LoopLands(code, lp, pc, StmtSize(s))
    ensures Tidy(code, pc, pc + StmtSize(s))
    decreases s, 1
  {
    hide *;
    match s
    case Seq(_, _) => SeqJumpsOk(s, sc, pc, lp, code);
    case If(_, _) => IfJumpsOk(s, sc, pc, lp, code);
    case IfElse(_, _, _) => IfElseJumpsOk(s, sc, pc, lp, code);
    case While(_, _) => WhileJumpsOk(s, sc, pc, lp, code);
    case For(_, _, _, _, _) => ForJumpsOk(s, sc, pc, lp, code);
    case Try(_, _) => TryJumpsOk(s, sc, pc, lp, code);
    case Let(_, _) => UseJumpsOk(s, sc, pc, lp, code);
    case Assign(_, _) => UseJumpsOk(s, sc, pc, lp, code);
    case ExprStmt(_) => UseJumpsOk(s, sc, pc, lp, code);
    case Ret(_) => UseJumpsOk(s, sc, pc, lp, code);
    case Throw(_) => UseJumpsOk(s, sc, pc, lp, code);
    case Skip => PlainJumpsOk(s, sc, pc, lp, code);
    case Nop => PlainJumpsOk(s, sc, pc, lp, code);
    case Break => PlainJumpsOk(s, sc, pc, lp, code);
    case Continue => PlainJumpsOk(s, sc, pc, lp, code);
  }

  lemma {:induction false} PlainJumpsOk(s: Stmt, sc: Scope, pc: nat, lp: Loop, code: Code)
    requires s.Skip? || s.Nop? || s.Break? || s.Continue?
    requires PlacedStmt(code, pc, s, sc, lp) && pc + StmtSize(s) < |code| < 0x1_0000
    requires Bound(s, lp.Closed?) && Entry(code, pc) && LoopLands(code, lp, pc, StmtSize(s))
    ensures Tidy(code, pc, pc + StmtSize(s))
  {
    hide PlacedStmt, Lands;
    LeafLayout(code, pc, s, sc, lp);
    match s
    case Break => ForwardOk(code, pc, OpJmp, lp.brk - pc);
    case Continue => BackOk(code, pc, pc - lp.cont);
    case _ =>
  }

  lemma {:induction false} UseJumpsOk(s: Stmt, sc: Scope, pc: nat, lp: Loop, code: Code)
    requires s.Let? || s.Assign? || s.ExprStmt? || s.Ret? || s.Throw?
    requires PlacedStmt(code, pc, s, sc, lp) && pc + StmtSize(s) < |code| < 0x1_0000
    ensures Tidy(code, pc, pc + StmtSize(s))
  {
    hide PlacedStmt, PlacedExpr, JumpsOk, Entry, Resolve, VarRef, Wide;
    LeafLayout(code, pc, s, sc, lp);
    var e := if s.Let? then s.init else if s.ExprStmt? then s.e else s.value;
    var p := pc + ExprSize(e);
    ExprJumps(code, pc, e, sc);
    Straight(code, p, code[p]);
    JumpsJoin(code, pc, p, p + 1);
    EntryBehind(code, p, code[p]);
  }

  lemma {:induction false} SeqJumpsOk(s: Stmt, sc: Scope, pc: nat, lp: Loop, code: Code)
    requires s.Seq? && PlacedStmt(code, pc, s, sc, lp) && pc + StmtSize(s) < |code| < 0x1_0000
    requires Bound(s, lp.Closed?) && Entry(code, pc) && LoopLands(code, lp, pc, StmtSize(s))
    ensures Tidy(code, pc, pc + StmtSize(s))
    decreases s, 0
  {
    hide PlacedStmt, JumpsOk, Entry, LoopLands;
    var p := pc + StmtSize(s.first);
    SeqLayout(code, pc, s.first, s.rest, sc, lp);
    LoopWithin(code, lp, pc, StmtSize(s), pc, StmtSize(s.first));
    LoopWithin(code, lp, pc, StmtSize(s), p, StmtSize(s.rest));
    StmtJumps(s.first, sc, pc, lp, code);
    StmtJumps(s.rest, sc, p, lp, code);
    JumpsJoin(code, pc, p, p + StmtSize(s.rest));
  }

  /** A test, its jump and the statement it guards. */
  lemma {:induction false} TestedJumps(c: Expr, n: nat, t: Stmt, sc: Scope, pc: nat, lp: Loop, code: Code)
    requires PlacedExpr(code, pc, c, sc) && Is(code, pc + ExprSize(c), OpWide(OpJmpFalse, n)) && 0 < n
    requires PlacedStmt(code, pc + ExprSize(c) + 1, t, sc, lp) && pc + ExprSize(c) + 1 + StmtSize(t) < |code| < 0x1_0000
    requires pc + ExprSize(c) + n < |code| && Lands(code, pc + ExprSize(c) + n)
    requires Bound(t, lp.Closed?) && LoopLands(code, lp, pc + ExprSize(c) + 1, StmtSize(t))
    ensures Tidy(code, pc, pc + ExprSize(c) + 1 + StmtSize(t))
    decreases t, 2
  {
    hide PlacedStmt, PlacedExpr, JumpsOk, Entry, LoopLands, Lands, Wide;
    var p := pc + ExprSize(c);
    ExprJumps(code, pc, c, sc);
    ForwardOk(code, p, OpJmpFalse, n);
    JumpsJoin(code, pc, p, p + 1);
    EntryBehind(code, p, OpWide(OpJmpFalse, n));
    StmtJumps(t, sc, p + 1, lp, code);
    JumpsJoin(code, pc, p + 1, p + 1 + StmtSize(t));
  }

  lemma {:induction false} IfJumpsOk(s: Stmt, sc: Scope, pc: nat, lp: Loop, code: Code)
    requires s.If? && PlacedStmt(code, pc, s, sc, lp) && pc + StmtSize(s) < |code| < 0x1_0000
    requires Bound(s, lp.Closed?) && Entry(code, pc) && LoopLands(code, lp, pc, StmtSize(s))
    ensures Tidy(code, pc, pc + StmtSize(s))
    decreases s, 0
  {
    hide PlacedStmt, PlacedExpr, JumpsOk, Entry, LoopLands, Lands, Wide;
    IfLayout(code, pc, s.cond, s.thn, sc, lp);
    var p := pc + ExprSize(s.cond) + 1;
    var q := p + StmtSize(s.thn);
    LandsOnNop(code, q);
    LoopWithin(code, lp, pc, StmtSize(s), p, StmtSize(s.thn));
    TestedJumps(s.cond, StmtSize(s.thn) + 1, s.thn, sc, pc, lp, code);
    Straight(code, q, Op(OpNop));
    JumpsJoin(code, pc, q, q + 1);
    EntryBehind(code, q, Op(OpNop));
  }

  lemma {:induction false} BoundIfElse(s: Stmt, inLoop: bool)
    requires s.IfElse? && Bound(s, inLoop)
    ensures Bound(s.thn, inLoop) && Bound(s.els, inLoop)
  {
  }

  lemma {:induction false} IfElseJumpParts(code: Code, pc: nat, s: Stmt, sc: Scope, lp: Loop)
    requires s.IfElse? && PlacedStmt(code, pc, s, sc, lp)
    ensures var p := pc + ExprSize(s.cond) + 1;
      var q := p + StmtSize(s.thn);
      var r := q + 1 + StmtSize(s.els);
      && StmtSize(s) == ExprSize(s.cond) + StmtSize(s.thn) + StmtSize(s.els) + 3
      && PlacedExpr(code, pc, s.cond, sc) && Is(code, p - 1, OpWide(OpJmpFalse, StmtSize(s.thn) + 2))
      && PlacedStmt(code, p, s.thn, sc, lp) && Is(code, q, OpWide(OpJmp, StmtSize(s.els) + 1)) && q < |code|
      && PlacedStmt(code, q + 1, s.els, sc, lp) && Is(code, r, Op(OpNop)) && r < |code|
  {
    hide PlacedStmt, PlacedExpr, OpWide, Op;
    IfElseLayout(code, pc, s.cond, s.thn, s.els, sc, lp);
  }

  lemma ForwardNotLoad(n: nat)
    ensures !IsLoad(OpWide(OpJmp, n)) && !IsLoad(Op(OpNop)) && !IsJump(Op(OpNop))
  {
  }

  lemma {:induction false} IfElseJumpsOk(s: Stmt, sc: Scope, pc: nat, lp: Loop, code: Code)
    requires s.IfElse? && PlacedStmt(code, pc, s, sc, lp) && pc + StmtSize(s) < |code| < 0x1_0000
    requires Bound(s, lp.Closed?) && Entry(code, pc) && LoopLands(code, lp, pc, StmtSize(s))
    ensures Tidy(code, pc, pc + StmtSize(s))
    decreases s, 0
  {
    hide *;
    IfElseJumpParts(code, pc, s, sc, lp);
    BoundIfElse(s, lp.Closed?);
    var p := pc + ExprSize(s.cond) + 1;
    var q := p + StmtSize(s.thn);
    var r := q + 1 + StmtSize(s.els);
    var n := StmtSize(s.els) + 1;
    ForwardNotLoad(n);
    EntryBehind(code, q, OpWide(OpJmp, n));
    EntryLands(code, q + 1);
    LandsOnNop(code, r);
    LoopWithin(code, lp, pc, StmtSize(s), p, StmtSize(s.thn));
    LoopWithin(code, lp, pc, StmtSize(s), q + 1, StmtSize(s.els));
    TestedJumps(s.cond, StmtSize(s.thn) + 2, s.thn, sc, pc, lp, code);
    TidyIs(code, pc, q);
    ForwardOk(code, q, OpJmp, n);
    JumpsJoin(code, pc, q, q + 1);
    StmtJumps(s.els, sc, q + 1, lp, code);
    TidyIs(code, q + 1, r);
    JumpsJoin(code, pc, q + 1, r);
    Straight(code, r, Op(OpNop));
    JumpsJoin(code, pc, r, r + 1);
    EntryBehind(code, r, Op(OpNop));
    TidyIs(code, pc, r + 1);
  }

  lemma {:induction false} WhileJumpsOk(s: Stmt, sc: Scope, pc: nat, lp: Loop, code: Code)
    requires s.While? && PlacedStmt(code, pc, s, sc, lp) && pc + StmtSize(s) < |code| < 0x1_0000
    requires Bound(s, lp.Closed?) && Entry(code, pc)
    ensures Tidy(code, pc, pc + StmtSize(s))
    decreases s, 0
  {
    hide *;
    WhileParts(code, pc, s, sc, lp);
    var p := pc + ExprSize(s.cond) + 1;
    var q := p + StmtSize(s.body);
    var n := ExprSize(s.cond) + 1 + StmtSize(s.body);
    BackJump(n);
    EntryLands(code, pc);
    EntryBehind(code, q, Instr(OpJmp, 1, Wide(n)));
    EntryLands(code, q + 1);
    WhileLands(code, Closed(q + 1, pc), p, StmtSize(s.body));
    WhileBound(s, lp.Closed?);
    TestedJumps(s.cond, StmtSize(s.body) + 2, s.body, sc, pc, Closed(q + 1, pc), code);
    BackOk(code, q, n);
    TidyIs(code, pc, q);
    JumpsJoin(code, pc, q, q + 1);
    TidyIs(code, pc, q + 1);
  }

  lemma BackJump(n: nat)
    ensures !IsLoad(Instr(OpJmp, 1, Wide(n)))
  {
  }

  lemma {:induction false} WhileBound(s: Stmt, inLoop: bool)
    requires s.While? && Bound(s, inLoop)
    ensures Bound(s.body, true)
  {
  }

  lemma {:induction false} WhileLands(code: Code, lp: Loop, p: nat, n: nat)
    requires lp.Closed? && 0 <= lp.cont < p && p + n <= lp.brk < |code| && Lands(code, lp.brk) && Lands(code, lp.cont)
    ensures LoopLands(code, lp, p, n)
  {
    hide Lands;
  }

  lemma {:induction false} WhileParts(code: Code, pc: nat, s: Stmt, sc: Scope, lp: Loop)
    requires s.While? && PlacedStmt(code, pc, s, sc, lp)
    ensures var p := pc + ExprSize(s.cond) + 1;
      var q := p + StmtSize(s.body);
      && StmtSize(s) == ExprSize(s.cond) + 1 + StmtSize(s.body) + 1
      && PlacedExpr(code, pc, s.cond, sc) && Is(code, p - 1, OpWide(OpJmpFalse, StmtSize(s.body) + 2))
      && PlacedStmt(code, p, s.body, sc, Closed(q + 1, pc))
      && Is(code, q, Instr(OpJmp, 1, Wide(ExprSize(s.cond) + 1 + StmtSize(s.body)))) && q < |code|
  {
    hide PlacedStmt, PlacedExpr, Wide;
    WhileLayout(code, pc, s.cond, s.body, sc, lp);
  }

  lemma {:induction false} TryJumpsOk(s: Stmt, sc: Scope, pc: nat, lp: Loop, code: Code)
    requires s.Try? && PlacedStmt(code, pc, s, sc, lp) && pc + StmtSize(s) < |code| < 0x1_0000
    requires Bound(s, lp.Closed?) && Entry(code, pc) && LoopLands(code, lp, pc, StmtSize(s))
    ensures Tidy(code, pc, pc + StmtSize(s))
    decreases s, 0
  {
    hide *;
    TryParts(code, pc, s, sc, lp);
    TryBound(s, lp.Closed?);
    MarksStraight();
    var ph := pc + 1 + StmtSize(s.body) + 2;
    var end := ph + StmtSize(s.handler);
    Straight(code, pc, Op(OpTry));
    EntryBehind(code, pc, Op(OpTry));
    LoopWithin(code, lp, pc, StmtSize(s), pc + 1, StmtSize(s.body));
    StmtJumps(s.body, sc, pc + 1, lp, code);
    TidyIs(code, pc + 1, ph - 2);
    JumpsJoin(code, pc, pc + 1, ph - 2);
    Straight(code, ph - 1, Op(OpCatchErr));
    EntryBehind(code, ph - 1, Op(OpCatchErr));
    LoopWithin(code, lp, pc, StmtSize(s), ph, StmtSize(s.handler));
    StmtJumps(s.handler, sc, ph, lp, code);
    TidyIs(code, ph, end);
    EntryLands(code, end);
    ForwardOk(code, ph - 2, OpJmp, StmtSize(s.handler) + 2);
    JumpsJoin(code, pc, ph - 2, ph - 1);
    JumpsJoin(code, pc, ph - 1, ph);
    JumpsJoin(code, pc, ph, end);
    TidyIs(code, pc, end);
  }

  lemma {:induction false} TryParts(code: Code, pc: nat, s: Stmt, sc: Scope, lp: Loop)
    requires s.Try? && PlacedStmt(code, pc, s, sc, lp) && pc + StmtSize(s) < |code|
    ensures var ph := pc + 1 + StmtSize(s.body) + 2;
      && StmtSize(s) == StmtSize(s.body) + StmtSize(s.handler) + 3 && ph <= |code|
      && Is(code, pc, Op(OpTry)) && Is(code, ph - 1, Op(OpCatchErr))
      && Is(code, ph - 2, OpWide(OpJmp, StmtSize(s.handler) + 2))
      && PlacedStmt(code, pc + 1, s.body, sc, lp) && PlacedStmt(code, ph, s.handler, sc, lp)
  {
    hide PlacedStmt, OpWide, Op;
    TryLayout(code, pc, s.body, s.handler, sc, lp);
  }

  lemma {:induction false} TryBound(s: Stmt, inLoop: bool)
    requires s.Try? && Bound(s, inLoop)
    ensures Bound(s.body, inLoop) && Bound(s.handler, inLoop)
  {
  }

  lemma MarksStraight()
    ensures !IsJump(Op(OpTry)) && !IsLoad(Op(OpTry)) && !IsJump(Op(OpCatchErr)) && !IsLoad(Op(OpCatchErr))
  {
  }

  lemma {:induction false} ForJumpsOk(s: Stmt, sc: Scope, pc: nat, lp: Loop, code: Code)
    requires s.For? && PlacedStmt(code, pc, s, sc, lp) && pc + StmtSize(s) < |code| < 0x1_0000
    requires Bound(s, lp.Closed?) && Entry(code, pc)
    ensures Tidy(code, pc, pc + StmtSize(s))
    decreases s, 0
  {
    hide *;
    ForLayout(code, pc, s, sc, lp);
    ForSizes(s, lp.Closed?);
    var test := pc + ExprSize(s.init) + 1;
    var fill := test + ExprSize(s.cond) + 2;
    var body := fill + StmtSize(s.update) + 2;
    var end := body + StmtSize(s.body) + 1;
    ForFront(s, sc, pc, test, fill, body, end, code);
    ForBack(s, sc, pc, test, fill, body, end, code);
    JumpsJoin(code, pc, fill + 1, end + 1);
    TidyIs(code, pc, end + 1);
  }

  lemma {:induction false} ForSizes(s: Stmt, inLoop: bool)
    requires s.For? && Bound(s, inLoop)
    ensures StmtSize(s) == ExprSize(s.init) + ExprSize(s.cond) + StmtSize(s.update) + StmtSize(s.body) + 7
    ensures (s.update.Assign? || s.update.ExprStmt?) && Bound(s.body, true)
  {
    hide ExprSize;
  }

  /** Instructions of a FOR that are neither jumps nor loads. */
  lemma {:induction false} FillersStraight(r: Option<Ref>)
    ensures !IsJump(StoreRef(r)) && !IsLoad(StoreRef(r)) && !IsJump(Op(OpNop)) && !IsLoad(Op(OpNop))
  {
    hide Wide;
  }

  lemma {:induction false} UseAtIs(code: Code, pc: nat, e: Expr, i: Instr, sc: Scope)
    requires UseAt(code, pc, e, i, sc)
    ensures PlacedExpr(code, pc, e, sc) && Is(code, pc + ExprSize(e), i)
  {
    hide PlacedExpr;
  }

  /** Initializer, test and the jumps in front of the update. */
  lemma {:induction false} ForFront(s: Stmt, sc: Scope, pc: nat, test: nat, fill: nat, body: nat, end: nat, code: Code)
    requires s.For? && ForAt(code, pc, s, sc) && test == pc + ExprSize(s.init) + 1
        && fill == test + ExprSize(s.cond) + 2
    requires body == fill + StmtSize(s.update) + 2 && end == body + StmtSize(s.body) + 1 && end + 1 < |code| < 0x1_0000
    ensures JumpsOk(code, pc, fill + 1)
  {
    hide *;
    var store := StoreRef(Resolve(sc, s.counter));
    ForJumps(code, pc, s, sc, test, fill, body, end);
    FillersStraight(Resolve(sc, s.counter));
    UseAtIs(code, pc, s.init, store, sc);
    ExprJumps(code, pc, s.init, sc);
    Straight(code, test - 1, store);
    JumpsJoin(code, pc, test - 1, test);
    ExprJumps(code, test, s.cond, sc);
    JumpsJoin(code, pc, test, fill - 2);
    LandsOnNop(code, end);
    ForwardOk(code, fill - 2, OpJmpFalse, end - (fill - 2));
    JumpsJoin(code, pc, fill - 2, fill - 1);
    BackJump(body - 1 - test);
    EntryBehind(code, body - 1, Instr(OpJmp, 1, Wide(body - 1 - test)));
    EntryLands(code, body);
    ForwardOk(code, fill - 1, OpJmp, body - (fill - 1));
    JumpsJoin(code, pc, fill - 1, fill);
    Straight(code, fill, Op(OpNop));
    JumpsJoin(code, pc, fill, fill + 1);
  }

  /** Update, body and the jumps behind them. */
  lemma {:induction false} ForBack(s: Stmt, sc: Scope, pc: nat, test: nat, fill: nat, body: nat, end: nat, code: Code)
    requires s.For? && ForAt(code, pc, s, sc) && test == pc + ExprSize(s.init) + 1
        && fill == test + ExprSize(s.cond) + 2
    requires body == fill + StmtSize(s.update) + 2 && end == body + StmtSize(s.body) + 1 && end + 1 < |code| < 0x1_0000
    requires (s.update.Assign? || s.update.ExprStmt?) && Bound(s.body, true)
    ensures JumpsOk(code, fill + 1, end + 1) && Entry(code, end + 1)
    decreases s.body, 2
  {
    hide *;
    var store := StoreRef(Resolve(sc, s.counter));
    ForJumps(code, pc, s, sc, test, fill, body, end);
    FillersStraight(Resolve(sc, s.counter));
    UseAtIs(code, pc, s.init, store, sc);
    UseJumpsOk(s.update, sc, fill + 1, Open, code);
    TidyIs(code, fill + 1, body - 1);
    EntryBehind(code, test - 1, store);
    EntryLands(code, test);
    BackOk(code, body - 1, body - 1 - test);
    JumpsJoin(code, fill + 1, body - 1, body);
    BackJump(body - 1 - test);
    EntryBehind(code, body - 1, Instr(OpJmp, 1, Wide(body - 1 - test)));
    LandsOnNop(code, fill);
    LandsOnNop(code, end);
    WhileLands(code, Closed(end, fill), body, StmtSize(s.body));
    StmtJumps(s.body, sc, body, Closed(end, fill), code);
    TidyIs(code, body, end - 1);
    JumpsJoin(code, fill + 1, body, end - 1);
    BackOk(code, end - 1, end - 1 - fill);
    JumpsJoin(code, fill + 1, end - 1, end);
    Straight(code, end, Op(OpNop));
    JumpsJoin(code, fill + 1, end, end + 1);
    EntryBehind(code, end, Op(OpNop));
  }
}
