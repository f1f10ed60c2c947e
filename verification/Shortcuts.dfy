/** `&&`, `||` and prefix `?`: exactly when their code leaves one value.

    The jump of `&&` and `||` drops the tested value when it falls through, and the pop behind it drops
    one more. So the node leaves one value if and only if its left side decides it; otherwise the right
    side's value takes the place of whatever lay under the node. */
module Shortcuts {
  import opened Values
  import opened Bytecode
  import opened Machine
  import opened Handlers
  import opened Syntax
  import opened Scoping
  import opened Slots
  import opened Codegen
  import opened Layout
  import opened Semantics
  import opened Frames
  import opened ExprCases
  import opened CallCases
  import opened Simulation

  /** The left side alone gives the result: falsy for `&&`, worth keeping for `||`. */
  predicate Decides(e: Expr, v: Value, objTruth: int -> bool) {
    if e.And? then !Truthy(v, objTruth) else KeepsForOr(v, objTruth)
  }

  /** The jump falls through and the pop takes another slot. */
  lemma {:induction false} FallTwice(ctx: Ctx, m: State, a: State, op: Opcode, n: nat, ip: nat) returns (c: State)
    requires AtInstr(ctx.img, a, OpWide(op, n)) && Is(CodeOf(ctx, a), ip + 1, POP) && a.ip == ip
        && (op.OpJmpFalse? || op.OpJmpIf?)
    requires |a.stack| == |m.stack| + 1 && a.floor == m.floor < |m.stack| - 1 && Top(a) != VUndef
    requires if op.OpJmpFalse? then Truthy(Top(a), ctx.img.objTruth) else !KeepsForOr(Top(a), ctx.img.objTruth)
    ensures Steps(ctx.img, a, c) && c == a.(stack := a.stack[..|m.stack| - 1], ip := ip + 2)
  {
    hide Step, Run, Truthy, KeepsForOr;
    if op.OpJmpFalse? { StepJmpFalse(ctx.img, a, OpWide(op, n)); } else { StepJmpIf(ctx.img, a, OpWide(op, n)); }
    StepsNone(ctx.img, a);
    StepsThen(ctx.img, a, a);
    var b := Step(ctx.img, a);
    StepPop(ctx.img, b, POP);
    StepsThen(ctx.img, a, b);
    c := Step(ctx.img, b);
  }

  lemma {:induction false} LoweredFine(ctx: Ctx, sc: Scope, st: Store, d: nat, m: State, a: State, c: State, ip: int,
      to: nat)
    requires Reach(ctx, sc, st, d, m, a, 1, ip) && m.floor < |m.stack| - 1 && |a.stack| == |m.stack| + 1
    requires c == a.(stack := a.stack[..|m.stack| - 1], ip := to)
    ensures Fine(ctx, sc, st, d, c)
  {
    hide Steps, Held;
    HeldBelow(st.g, ctx.mains, GlobalVar, 0, a.floor, a.stack, c.stack);
    HeldBelow(st.l, sc.locals, Local, a.bp, a.floor, a.stack, c.stack);
  }

  /** A node that its left side does not decide reaches its right side with one temporary fewer than
      there were in front of the node. */
  lemma {:induction false} UndecidedDropsOne(ctx: Ctx, n: nat, d: nat, e: Expr, sc: Scope, st: Store, m: State,
      v: Value, s1: Store)
    returns (c: State)
    requires (e.And? || e.Or?) && World(ctx) && Ready(ctx, sc, st, d, m) && Part(CodeOf(ctx, m), m.ip, e, sc)
    requires Eval(ctx.env, n, d, e.l, sc, st) == Val(s1, v) && v != VUndef && !Decides(e, v, ctx.env.objTruth)
    requires Temps(m) >= 1
    ensures Steps(ctx.img, m, c) && c.ip == m.ip + ExprSize(e.l) + 2 && Ready(ctx, sc, s1, d, c)
    ensures |c.stack| == |m.stack| - 1 && CodeOf(ctx, c) == CodeOf(ctx, m)
  {
    hide *;
    var code, p := CodeOf(ctx, m), m.ip + ExprSize(e.l);
    var op := if e.And? then OpJmpFalse else OpJmpIf;
    TempsIs(m);
    var a := UndecidedTests(ctx, n, d, e, sc, st, m, v, s1);
    FineOf(ctx, sc, s1, d, m, a, 1, p);
    c := FallTwice(ctx, m, a, op, ExprSize(e.r) + 2, p);
    ReadyIs(ctx, sc, st, d, m);
    LoweredFine(ctx, sc, s1, d, m, a, c, p, p + 2);
    LoweredReady(ctx, sc, st, s1, d, m, a, c, p + 2);
    ReachSteps(ctx, sc, s1, d, m, a, 1, p);
    StepsTrans(ctx.img, m, a, c);
  }

  /** The tested value is on top, the branch is about to fall through and a POP follows. */
  lemma {:induction false} UndecidedTests(ctx: Ctx, n: nat, d: nat, e: Expr, sc: Scope, st: Store, m: State,
      v: Value, s1: Store)
    returns (a: State)
    requires (e.And? || e.Or?) && World(ctx) && Ready(ctx, sc, st, d, m) && Part(CodeOf(ctx, m), m.ip, e, sc)
    requires Eval(ctx.env, n, d, e.l, sc, st) == Val(s1, v) && v != VUndef && !Decides(e, v, ctx.env.objTruth)
    ensures var p, op := m.ip + ExprSize(e.l), if e.And? then OpJmpFalse else OpJmpIf;
      && Reach(ctx, sc, s1, d, m, a, 1, p) && Live(a) && a.chunk == m.chunk
      && |a.stack| == |m.stack| + 1 && a.floor == m.floor && Top(a) == v
      && AtInstr(ctx.img, a, OpWide(op, ExprSize(e.r) + 2)) && Is(CodeOf(ctx, a), p + 1, POP) && a.ip == p
      && (if op.OpJmpFalse? then Truthy(v, ctx.img.objTruth) else !KeepsForOr(v, ctx.img.objTruth))
  {
    hide *;
    var code, p := CodeOf(ctx, m), m.ip + ExprSize(e.l);
    var op := if e.And? then OpJmpFalse else OpJmpIf;
    ReadyIs(ctx, sc, st, d, m);
    DecidesIs(e, v, ctx.env.objTruth);
    PartIs(code, m.ip, e, sc);
    ShortSplit(code, m.ip, e, sc);
    ShortRight(code, m.ip, e, sc);
    a := SimExpr(ctx, n, d, e.l, sc, st, m);
    PostIs(ctx, sc, d, m, a, Val(s1, v), p);
    PushedIs(ctx, sc, s1, d, m, a, v, p);
    FineOf(ctx, sc, s1, d, m, a, 1, p);
    SameChunk(ctx, sc, s1, d, m, a, 1, p);
    Here(ctx, sc, s1, d, m, a, 1, p, OpWide(op, ExprSize(e.r) + 2));
  }

  /** Such a node ends with one value too few: its own value is on top, and the temporary that lay under
      the node is gone. */
  lemma {:induction false} UndecidedEatsOne(ctx: Ctx, n: nat, d: nat, e: Expr, sc: Scope, st: Store, m: State,
      v: Value, w: Value, s1: Store, s2: Store)
    returns (b: State)
    requires (e.And? || e.Or?) && World(ctx) && Ready(ctx, sc, st, d, m) && Part(CodeOf(ctx, m), m.ip, e, sc)
    requires Eval(ctx.env, n, d, e.l, sc, st) == Val(s1, v) && v != VUndef && !Decides(e, v, ctx.env.objTruth)
    requires Eval(ctx.env, n, d, e.r, sc, s1) == Val(s2, w) && Temps(m) >= 1
    ensures Steps(ctx.img, m, b) && b.ip == m.ip + ExprSize(e) && Fine(ctx, sc, s2, d, b)
    ensures |b.stack| == |m.stack| && (w != VUndef ==> Top(b) == w)
  {
    hide *;
    var code, p := CodeOf(ctx, m), m.ip + ExprSize(e.l);
    PartIs(code, m.ip, e, sc);
    ShortSplit(code, m.ip, e, sc);
    ShortRight(code, m.ip, e, sc);
    var c := UndecidedDropsOne(ctx, n, d, e, sc, st, m, v, s1);
    var r := SimExpr(ctx, n, d, e.r, sc, s1, c);
    PostIs(ctx, sc, d, c, r, Val(s2, w), p + 2 + ExprSize(e.r));
    PushedIs(ctx, sc, s2, d, c, r, w, p + 2 + ExprSize(e.r));
    ReadyIs(ctx, sc, s1, d, c);
    b := NopMove(ctx, sc, s2, d, c, r, 1, p + 2 + ExprSize(e.r));
    FineOf(ctx, sc, s2, d, c, b, 1, p + 3 + ExprSize(e.r));
    TopIs(b);
    TopIs(r);
    ReachSteps(ctx, sc, s2, d, c, b, 1, p + 3 + ExprSize(e.r));
    StepsTrans(ctx.img, m, c, b);
  }

  /** Without a temporary under the node, as in the first operand of a statement, the extra POP meets an
      empty operand stack: it takes the last reserved slot. */
  lemma {:induction false} UndecidedMeetsFloor(ctx: Ctx, n: nat, d: nat, e: Expr, sc: Scope, st: Store, m: State,
      v: Value, s1: Store)
    returns (c: State)
    requires (e.And? || e.Or?) && World(ctx) && Ready(ctx, sc, st, d, m) && Part(CodeOf(ctx, m), m.ip, e, sc)
    requires Eval(ctx.env, n, d, e.l, sc, st) == Val(s1, v) && v != VUndef && !Decides(e, v, ctx.env.objTruth)
    requires Temps(m) == 0
    ensures Steps(ctx.img, m, c) && AtInstr(ctx.img, c, POP) && c.ip == m.ip + ExprSize(e.l) + 1
    ensures |c.stack| == |m.stack| && c.floor == m.floor == |c.stack| - 1 && Step(ctx.img, c).mode.Stuck?
  {
    hide *;
    var p := m.ip + ExprSize(e.l);
    var op := if e.And? then OpJmpFalse else OpJmpIf;
    var a := UndecidedTests(ctx, n, d, e, sc, st, m, v, s1);
    TempsIs(m);
    c := FallToPop(ctx, m, a, op, ExprSize(e.r) + 2, p);
    ReachSteps(ctx, sc, s1, d, m, a, 1, p);
    StepsTrans(ctx.img, m, a, c);
  }

  lemma {:induction false} FallToPop(ctx: Ctx, m: State, a: State, op: Opcode, n: nat, ip: nat) returns (c: State)
    requires AtInstr(ctx.img, a, OpWide(op, n)) && Is(CodeOf(ctx, a), ip + 1, POP) && a.ip == ip
        && (op.OpJmpFalse? || op.OpJmpIf?)
    requires |a.stack| == |m.stack| + 1 && a.floor == m.floor == |m.stack| - 1 && Top(a) != VUndef
    requires if op.OpJmpFalse? then Truthy(Top(a), ctx.img.objTruth) else !KeepsForOr(Top(a), ctx.img.objTruth)
    ensures Steps(ctx.img, a, c) && AtInstr(ctx.img, c, POP) && c.ip == ip + 1
    ensures |c.stack| == |m.stack| && c.floor == m.floor && Step(ctx.img, c).mode.Stuck?
  {
    hide Step, Run, Truthy, KeepsForOr;
    if op.OpJmpFalse? { StepJmpFalse(ctx.img, a, OpWide(op, n)); } else { StepJmpIf(ctx.img, a, OpWide(op, n)); }
    StepsNone(ctx.img, a);
    StepsThen(ctx.img, a, a);
    c := Step(ctx.img, a);
    DataStep(ctx.img, c, POP);
  }

  /** In a function whose frame holds just its variables, that slot is a variable's. */
  lemma FloorIsVariable(ctx: Ctx, sc: Scope, st: Store, d: nat, m: State) returns (x: string)
    requires Ready(ctx, sc, st, d, m) && sc.inFun && sc.nLoc > 0 && m.bp + sc.nLoc == m.floor
    ensures Lookup(sc.locals, x, Local).Some? && m.bp + Lookup(sc.locals, x, Local).value == m.floor
  {
    hide Numbered, ConstsMatch, Fine;
    x := IdIsUsed(sc.locals, Local, 1, sc.nLoc, sc.nLoc);
  }

  lemma {:induction false} DecidesIs(e: Expr, v: Value, objTruth: int -> bool)
    ensures Decides(e, v, objTruth) == if e.And? then !Truthy(v, objTruth) else KeepsForOr(v, objTruth)
  {
    hide Truthy, KeepsForOr;
  }

  lemma ReachSteps(ctx: Ctx, sc: Scope, st: Store, d: nat, m: State, n: State, k: int, ip: int)
    requires Reach(ctx, sc, st, d, m, n, k, ip)
    ensures Steps(ctx.img, m, n)
  {
    hide Steps, Fine, Grew;
  }

  lemma {:induction false} ShortRight(code: Code, pc: nat, e: Expr, sc: Scope)
    requires (e.And? || e.Or?) && Part(code, pc, e, sc)
    ensures var p := pc + ExprSize(e.l);
      Is(code, p + 1, POP) && Part(code, p + 2, e.r, sc) && p + 2 + ExprSize(e.r) < |code|
  {
    hide PlacedExpr, Wide;
    if e.And? { AndLayout(code, pc, e.l, e.r, sc); } else { OrLayout(code, pc, e.l, e.r, sc); }
  }

  lemma LoweredReady(ctx: Ctx, sc: Scope, st: Store, s1: Store, d: nat, m: State, a: State, c: State, to: nat)
    requires Ready(ctx, sc, st, d, m) && Live(a) && Fine(ctx, sc, s1, d, c) && a.chunk == m.chunk
        && |a.stack| >= |m.stack| - 1 >= 0
    requires c == a.(stack := a.stack[..|m.stack| - 1], ip := to)
    ensures Ready(ctx, sc, s1, d, c) && CodeOf(ctx, c) == CodeOf(ctx, m)
  {
    hide Fine, ScopeFits;
  }

  /** One value: exactly when the left side decides. */
  lemma {:induction false} OneValueIffDecided(ctx: Ctx, n: nat, d: nat, e: Expr, sc: Scope, st: Store, m: State,
      v: Value, w: Value, s1: Store, s2: Store)
    returns (b: State)
    requires (e.And? || e.Or?) && World(ctx) && Ready(ctx, sc, st, d, m) && Part(CodeOf(ctx, m), m.ip, e, sc)
    requires Eval(ctx.env, n, d, e.l, sc, st) == Val(s1, v) && v != VUndef
    requires Eval(ctx.env, n, d, e.r, sc, s1) == Val(s2, w) && Temps(m) >= 1
    ensures Steps(ctx.img, m, b) && b.ip == m.ip + ExprSize(e)
    ensures |b.stack| == |m.stack| + 1 <==> Decides(e, v, ctx.env.objTruth)
  {
    hide *;
    if Decides(e, v, ctx.env.objTruth) {
      DecidesIs(e, v, ctx.env.objTruth);
      ShortEval(ctx.env, n, d, e, sc, st);
      b := SimExpr(ctx, n, d, e, sc, st, m);
      PostIs(ctx, sc, d, m, b, Val(s1, v), m.ip + ExprSize(e));
      PushedIs(ctx, sc, s1, d, m, b, v, m.ip + ExprSize(e));
      ReachSteps(ctx, sc, s1, d, m, b, 1, m.ip + ExprSize(e));
    } else {
      b := UndecidedEatsOne(ctx, n, d, e, sc, st, m, v, w, s1, s2);
    }
  }

  /** The first operand of a statement, with nothing under it: the node ends with its one value when
      the left side decides, and otherwise takes the frame's last slot instead of a temporary. */
  lemma {:induction false} BareNodeIffDecided(ctx: Ctx, n: nat, d: nat, e: Expr, sc: Scope, st: Store, m: State,
      v: Value, s1: Store)
    returns (b: State)
    requires (e.And? || e.Or?) && World(ctx) && Ready(ctx, sc, st, d, m) && Part(CodeOf(ctx, m), m.ip, e, sc)
    requires Eval(ctx.env, n, d, e.l, sc, st) == Val(s1, v) && v != VUndef && Temps(m) == 0
    ensures Steps(ctx.img, m, b)
    ensures Decides(e, v, ctx.env.objTruth) <==>
      b.ip == m.ip + ExprSize(e) && |b.stack| == |m.stack| + 1 && Top(b) == v
    ensures !Decides(e, v, ctx.env.objTruth) <==>
      AtInstr(ctx.img, b, POP) && |b.stack| == |m.stack| && b.floor == |b.stack| - 1 && Step(ctx.img, b).mode.Stuck?
  {
    hide *;
    if Decides(e, v, ctx.env.objTruth) {
      DecidesIs(e, v, ctx.env.objTruth);
      ShortEval(ctx.env, n, d, e, sc, st);
      b := SimExpr(ctx, n, d, e, sc, st, m);
      PostIs(ctx, sc, d, m, b, Val(s1, v), m.ip + ExprSize(e));
      PushedIs(ctx, sc, s1, d, m, b, v, m.ip + ExprSize(e));
      ReachSteps(ctx, sc, s1, d, m, b, 1, m.ip + ExprSize(e));
    } else {
      b := UndecidedMeetsFloor(ctx, n, d, e, sc, st, m, v, s1);
    }
  }

  /** Prefix `?` never leaves one value: the checked value stays under the answer. */
  lemma {:induction false} NullishLeavesTwo(ctx: Ctx, n: nat, d: nat, x: Expr, sc: Scope, st: Store, m: State,
      v: Value, s1: Store) returns (b: State)
    requires World(ctx) && Ready(ctx, sc, st, d, m) && Part(CodeOf(ctx, m), m.ip, Nullish(x), sc)
    requires Eval(ctx.env, n, d, x, sc, st) == Val(s1, v) && v != VUndef
    ensures Steps(ctx.img, m, b) && b.ip == m.ip + ExprSize(Nullish(x)) && |b.stack| == |m.stack| + 2
    ensures b.stack[|m.stack|] == v && b.stack[|m.stack| + 1] == VBool(v == VNil)
  {
    hide *;
    var p := m.ip + ExprSize(x);
    NullishSplit(CodeOf(ctx, m), m.ip, x, sc);
    var a := SimExpr(ctx, n, d, x, sc, st, m);
    PostIs(ctx, sc, d, m, a, Val(s1, v), p);
    PushedIs(ctx, sc, s1, d, m, a, v, p);
    b := CheckMove(ctx, sc, st, s1, d, m, a, v, p);
    PushIs(a, VBool(v == VNil));
    TopIs(a);
    ReachSteps(ctx, sc, s1, d, m, b, 2, p + 1);
    FineOf(ctx, sc, s1, d, m, b, 2, p + 1);
  }

  lemma PushIs(a: State, v: Value)
    ensures Push(a, v).stack == a.stack + [v]
  {
  }

  lemma {:induction false} NullishSplit(code: Code, pc: nat, x: Expr, sc: Scope)
    requires Part(code, pc, Nullish(x), sc)
    ensures ExprSize(Nullish(x)) == ExprSize(x) + 1 && Part(code, pc, x, sc)
        && Is(code, pc + ExprSize(x), Op(OpChkNone))
  {
    hide PlacedExpr;
    UnaryLayout(code, pc, x, sc);
  }
}
