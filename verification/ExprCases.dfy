/** Running the code of an expression, one form at a time: what the parts do gives what the whole does. */
module ExprCases {
  import opened Values
  import opened Bytecode
  import opened Machine
  import opened Handlers
  import opened Syntax
  import opened Scoping
  import opened Slots
  import opened Codegen
  import opened Placement
  import opened Layout
  import opened Semantics
  import opened Frames

  function ConstsOf(ctx: Ctx, m: State): seq<Value> {
    if m.chunk < |ctx.img.chunks| then ctx.img.chunks[m.chunk].consts else []
  }

  /** The machine stands in front of some code of `sc`, in source state `st`. */
  ghost predicate Ready(ctx: Ctx, sc: Scope, st: Store, d: nat, m: State) {
    && GlobalsFit(ctx) && ctx.img.objTruth == ctx.env.objTruth && d >= 1
    && Fine(ctx, sc, st, d, m) && Live(m)
    && ScopeFits(ctx, sc, ConstsOf(ctx, m)) && |CodeOf(ctx, m)| < 0x1_0000
  }

  ghost predicate EvalPost(ctx: Ctx, sc: Scope, d: nat, m: State, n: State, out: EOut, end: nat) {
    match out
    case Val(st, v) => Pushed(ctx, sc, st, d, m, n, v, end)
    case EThrow(st, k) => Threw(ctx, sc, st, d, m, n, k, end)
    case EStop => true
  }

  /** Arguments lie on the stack in order. */
  ghost predicate Listed(ctx: Ctx, sc: Scope, st: Store, d: nat, m: State, n: State, vs: seq<Value>, ip: int) {
    && Reach(ctx, sc, st, d, m, n, |vs|, ip) && Live(n) && |m.stack| <= |n.stack| && n.stack[|m.stack|..] == vs
    && forall i :: 0 <= i < |vs| ==> vs[i] != VUndef
  }

  ghost predicate ArgsPost(ctx: Ctx, sc: Scope, d: nat, m: State, n: State, out: AOut, count: nat, end: nat) {
    match out
    case Vals(st, vs) => Listed(ctx, sc, st, d, m, n, vs, end) && |vs| == count
    case AThrow(st, k) => Threw(ctx, sc, st, d, m, n, k, end)
    case AStop => true
  }

  // ----- moving on -----

  lemma {:induction false} ReadyAfter(ctx: Ctx, sc: Scope, st: Store, s1: Store, d: nat, m: State, n: State, k: int,
      ip: int)
    requires Ready(ctx, sc, st, d, m) && Reach(ctx, sc, s1, d, m, n, k, ip) && Live(n)
    ensures Ready(ctx, sc, s1, d, n) && CodeOf(ctx, n) == CodeOf(ctx, m) && n.ip == ip && n.floor < |n.stack|
  {
    FineOf(ctx, sc, s1, d, m, n, k, ip);
    hide Reach, Fine, ScopeFits;
  }

  lemma ReadyIs(ctx: Ctx, sc: Scope, st: Store, d: nat, m: State)
    requires Ready(ctx, sc, st, d, m)
    ensures Fine(ctx, sc, st, d, m) && Live(m) && GlobalsFit(ctx) && ScopeFits(ctx, sc, ConstsOf(ctx, m))
    ensures |CodeOf(ctx, m)| < 0x1_0000 && m.floor < |m.stack| && m.bp <= m.floor && ctx.ng <= m.floor
    ensures ctx.img.objTruth == ctx.env.objTruth && d >= 1
  {
    hide ScopeFits, Held;
  }

  lemma PushedIs(ctx: Ctx, sc: Scope, st: Store, d: nat, m: State, n: State, v: Value, ip: int)
    requires Pushed(ctx, sc, st, d, m, n, v, ip)
    ensures Reach(ctx, sc, st, d, m, n, 1, ip) && Live(n) && n.stack != [] && (v != VUndef ==> Top(n) == v)
    ensures |n.stack| == |m.stack| + 1 && n.ip == ip && n.floor == m.floor
  {
    hide Steps, Fine, Kept;
  }

  lemma PushedMake(ctx: Ctx, sc: Scope, st: Store, d: nat, m: State, n: State, v: Value, ip: int)
    requires Reach(ctx, sc, st, d, m, n, 1, ip) && Live(n) && n.stack != [] && (v != VUndef ==> Top(n) == v)
    ensures Pushed(ctx, sc, st, d, m, n, v, ip)
  {
    hide Reach;
  }

  lemma RanIs(ctx: Ctx, sc: Scope, st: Store, d: nat, m: State, n: State, k: nat, ip: int)
    ensures Ran(ctx, sc, st, d, m, n, k, ip) <==> Reach(ctx, sc, st, d, m, n, k, ip) && Live(n)
  {
    hide Reach;
  }

  ghost predicate PlainRange(code: Code, a: int, b: int) {
    0 <= a <= b <= |code| && forall i :: a <= i < b ==> Plain(code[i])
  }

  lemma {:induction false} ExprRange(code: Code, pc: nat, e: Expr, sc: Scope)
    requires PlacedExpr(code, pc, e, sc)
    ensures PlainRange(code, pc, pc + ExprSize(e))
  {
    ExprPlain(e, sc);
    var g := GenExpr(e, sc);
    forall i | pc <= i < pc + |g| ensures Plain(code[i]) { assert code[pc + (i - pc)] == g[i - pc]; }
  }

  lemma {:induction false} ArgsRange(code: Code, pc: nat, es: Exprs, sc: Scope)
    requires PlacedArgs(code, pc, es, sc)
    ensures PlainRange(code, pc, pc + ArgsSize(es))
  {
    ArgsPlain(es, sc);
    var g := GenArgs(es, sc);
    forall i | pc <= i < pc + |g| ensures Plain(code[i]) { assert code[pc + (i - pc)] == g[i - pc]; }
  }

  lemma {:induction false} SubRange(code: Code, a: int, b: int, c: int)
    requires PlainRange(code, a, c) && a <= b <= c
    ensures PlainRange(code, b, c)
  {
  }

  /** A catch search walks over plain code. */
  lemma {:induction false} ThrewPast(ctx: Ctx, sc: Scope, st: Store, d: nat, m: State, n: State, k: nat, a: nat, b: nat)
    requires Threw(ctx, sc, st, d, m, n, k, a) && PlainRange(CodeOf(ctx, m), a, b)
    ensures Threw(ctx, sc, st, d, m, n, k, b)
  {
    hide Reach, Scan;
    ScanSkips(CodeOf(ctx, m), a, b, 1);
    ThrewOn(ctx, sc, st, d, m, n, k, a, b);
  }

  /** A temporary stays where it is while more is computed on top of it. */
  lemma {:induction false} Undisturbed(ctx: Ctx, sc: Scope, s1: Store, s2: Store, d: nat, a: State, b: State, c: State,
      j: int, k: int, ip1: int, ip2: int, i: nat)
    requires Reach(ctx, sc, s1, d, a, b, j, ip1) && Reach(ctx, sc, s2, d, b, c, k, ip2)
    requires b.floor < i < |b.stack|
    ensures i < |c.stack| && c.stack[i] == b.stack[i]
  {
    hide Steps, Held;
    assert !Writable(ctx, b, i);
  }

  // ----- leaves -----

  lemma {:induction false} LitCase(ctx: Ctx, sc: Scope, st: Store, d: nat, m: State, l: Literal) returns (b: State)
    requires Ready(ctx, sc, st, d, m) && KnownExpr(Lit(l), sc) && PlacedExpr(CodeOf(ctx, m), m.ip, Lit(l), sc)
    ensures Pushed(ctx, sc, st, d, m, b, LitValue(l), m.ip + 1)
  {
    LitStep(ctx, sc, st, d, m, l);
    hide *;
    ReadyIs(ctx, sc, st, d, m);
    b := LeafMove(ctx, sc, st, d, m, LitValue(l));
  }

  lemma {:induction false} LitStep(ctx: Ctx, sc: Scope, st: Store, d: nat, m: State, l: Literal)
    requires Ready(ctx, sc, st, d, m) && KnownExpr(Lit(l), sc) && PlacedExpr(CodeOf(ctx, m), m.ip, Lit(l), sc)
    ensures Step(ctx.img, m) == Push(m, LitValue(l))
  {
    hide Step, Held;
    var i := GenLit(l, sc);
    PlacedOne(CodeOf(ctx, m), m.ip, i);
    match l
    case LNil => StepNone(ctx.img, m, i);
    case LBool(v) => StepBool(ctx.img, m, i);
    case LNum(s) =>
      ConstIs(ctx, sc, ConstsOf(ctx, m), s);
      StepConst(ctx.img, m, i, NumValue(s));
  }

  lemma {:induction false} ConstIs(ctx: Ctx, sc: Scope, consts: seq<Value>, lex: string)
    requires ScopeFits(ctx, sc, consts) && ConstId(sc, lex).Some?
    ensures var id := ConstId(sc, lex).value; Wide(id) == id < |consts| && consts[id] == NumValue(lex)
  {
    hide Numbered, SeesGlobals, NumValue;
    var id := ConstId(sc, lex).value;
    assert consts[id] == consts[..|sc.consts|][id];
  }

  lemma {:induction false} VarCase(ctx: Ctx, sc: Scope, st: Store, d: nat, m: State, x: string,
      v: Value) returns (b: State)
    requires Ready(ctx, sc, st, d, m) && KnownExpr(Var(x), sc) && PlacedExpr(CodeOf(ctx, m), m.ip, Var(x), sc)
    requires ReadVar(Resolve(sc, x), x, st) == Val(st, v)
    ensures Pushed(ctx, sc, st, d, m, b, v, m.ip + 1)
  {
    VarCode(CodeOf(ctx, m), m.ip, x, sc);
    hide *;
    ReadyIs(ctx, sc, st, d, m);
    b := ReadMove(ctx, sc, ConstsOf(ctx, m), st, d, m, x, v);
  }

  lemma {:induction false} VarCode(code: Code, pc: nat, x: string, sc: Scope)
    requires PlacedExpr(code, pc, Var(x), sc) && KnownExpr(Var(x), sc)
    ensures Resolve(sc, x).Some? && Is(code, pc, LoadRef(Resolve(sc, x).value))
  {
    hide Resolve, LoadRef;
    PlacedOne(code, pc, LoadRef(Resolve(sc, x).value));
  }

  // ----- `~` -----

  lemma {:induction false} NotCase(ctx: Ctx, sc: Scope, st: Store, s1: Store, d: nat, m: State, a: State, v: Value,
      ip: nat) returns (b: State)
    requires Ready(ctx, sc, st, d, m) && Pushed(ctx, sc, s1, d, m, a, v, ip) && v != VUndef
    requires Is(CodeOf(ctx, m), ip, Op(OpBitNot))
    ensures Pushed(ctx, sc, s1, d, m, b, Complement(v), ip + 1)
  {
    hide *;
    ReadyIs(ctx, sc, st, d, m);
    PushedIs(ctx, sc, s1, d, m, a, v, ip);
    FineOf(ctx, sc, s1, d, m, a, 1, ip);
    Here(ctx, sc, s1, d, m, a, 1, ip, Op(OpBitNot));
    b := NotStep(ctx, sc, s1, d, m, a, v, ip);
  }

  lemma {:induction false} NotStep(ctx: Ctx, sc: Scope, s1: Store, d: nat, m: State, a: State, v: Value,
      ip: nat) returns (b: State)
    requires Reach(ctx, sc, s1, d, m, a, 1, ip) && Live(a) && |a.stack| == |m.stack| + 1 && m.floor < |m.stack|
    requires a.floor == m.floor && Top(a) == v != VUndef && AtInstr(ctx.img, a, Op(OpBitNot)) && a.ip == ip
    ensures Pushed(ctx, sc, s1, d, m, b, Complement(v), ip + 1)
  {
    hide Step, Reach, Fine, Complement;
    StepNot(ctx.img, a, Op(OpBitNot));
    b := a.(stack := a.stack[..|a.stack| - 1] + [Complement(v)], ip := ip + 1);
    ReplaceMove(ctx, sc, s1, d, m, a, 1, ip, [Complement(v)], b, ip + 1);
  }

  // ----- binary operations -----

  lemma {:induction false} BinCase(ctx: Ctx, sc: Scope, st: Store, s1: Store, s2: Store, d: nat, m: State, a: State,
      c: State,
      op: BinOp, v: Value, w: Value, ip1: nat, ip2: nat) returns (b: State)
    requires Ready(ctx, sc, st, d, m) && Pushed(ctx, sc, s1, d, m, a, v, ip1) && Pushed(ctx, sc, s2, d, a, c, w, ip2)
    requires v != VUndef && w != VUndef && Is(CodeOf(ctx, m), ip2, Op(BinOpcode(op)))
    ensures Pushed(ctx, sc, s2, d, m, b, Binary(op, v, w), ip2 + 1)
  {
    hide *;
    ReadyIs(ctx, sc, st, d, m);
    PushedIs(ctx, sc, s1, d, m, a, v, ip1);
    PushedIs(ctx, sc, s2, d, a, c, w, ip2);
    TopIs(a);
    Undisturbed(ctx, sc, s1, s2, d, m, a, c, 1, 1, ip1, ip2, |m.stack|);
    ReachTrans(ctx, sc, s1, s2, d, m, a, c, 1, 1, ip1, ip2);
    Here(ctx, sc, s2, d, m, c, 2, ip2, Op(BinOpcode(op)));
    b := BinStep(ctx, sc, s2, d, m, c, op, v, w, ip2);
  }

  lemma TopIs(a: State)
    requires a.stack != []
    ensures Top(a) == a.stack[|a.stack| - 1]
  {
  }

  lemma {:induction false} BinStep(ctx: Ctx, sc: Scope, st: Store, d: nat, m: State, a: State, op: BinOp, v: Value,
      w: Value, ip: nat) returns (b: State)
    requires Reach(ctx, sc, st, d, m, a, 2, ip) && Live(a) && |a.stack| == |m.stack| + 2
        && a.floor == m.floor < |m.stack|
    requires a.stack[|m.stack|] == v != VUndef && Top(a) == w != VUndef && AtInstr(ctx.img, a, Op(BinOpcode(op)))
        && a.ip == ip
    ensures Pushed(ctx, sc, st, d, m, b, Binary(op, v, w), ip + 1)
  {
    hide Step, Reach, Binary, BinOpcode;
    StepBinary(ctx.img, a, Op(BinOpcode(op)), op);
    b := a.(stack := a.stack[..|a.stack| - 2] + [Binary(op, v, w)], ip := ip + 1);
    ReplaceMove(ctx, sc, st, d, m, a, 2, ip, [Binary(op, v, w)], b, ip + 1);
  }

  // ----- jumps over part of an expression -----

  /** An unconditional forward jump. */
  lemma {:induction false} JumpMove(ctx: Ctx, sc: Scope, st: Store, d: nat, m: State, a: State, k: nat, ip: nat,
      n: nat) returns (b: State)
    requires Reach(ctx, sc, st, d, m, a, k, ip) && Live(a) && m.floor < |m.stack| && n < 0x1_0000
    requires Is(CodeOf(ctx, m), ip, OpWide(OpJmp, n))
    ensures Reach(ctx, sc, st, d, m, b, k, ip + n) && Live(b) && b == a.(ip := ip + n)
  {
    Here(ctx, sc, st, d, m, a, k, ip, OpWide(OpJmp, n));
    FineOf(ctx, sc, st, d, m, a, k, ip);
    hide Step, Reach;
    StepJmp(ctx.img, a, OpWide(OpJmp, n));
    b := IpMove(ctx, sc, st, d, m, a, k, ip, ip + n);
  }

  /** A jump back. */
  lemma {:induction false} BackMove(ctx: Ctx, sc: Scope, st: Store, d: nat, m: State, a: State, k: nat, ip: nat,
      n: nat) returns (b: State)
    requires Reach(ctx, sc, st, d, m, a, k, ip) && Live(a) && m.floor < |m.stack| && n < 0x1_0000 && n <= ip
    requires Is(CodeOf(ctx, m), ip, Instr(OpJmp, 1, Wide(n)))
    ensures Reach(ctx, sc, st, d, m, b, k, ip - n) && Live(b) && b == a.(ip := ip - n)
  {
    Here(ctx, sc, st, d, m, a, k, ip, Instr(OpJmp, 1, Wide(n)));
    FineOf(ctx, sc, st, d, m, a, k, ip);
    hide Step, Reach;
    StepJmp(ctx.img, a, Instr(OpJmp, 1, Wide(n)));
    b := IpMove(ctx, sc, st, d, m, a, k, ip, ip - n);
  }

  lemma {:induction false} NopMove(ctx: Ctx, sc: Scope, st: Store, d: nat, m: State, a: State, k: nat,
      ip: nat) returns (b: State)
    requires Reach(ctx, sc, st, d, m, a, k, ip) && Live(a) && m.floor < |m.stack| && Is(CodeOf(ctx, m), ip, Op(OpNop))
    ensures Reach(ctx, sc, st, d, m, b, k, ip + 1) && Live(b) && b == a.(ip := ip + 1)
  {
    Here(ctx, sc, st, d, m, a, k, ip, Op(OpNop));
    FineOf(ctx, sc, st, d, m, a, k, ip);
    hide Step, Reach;
    StepNop(ctx.img, a, Op(OpNop));
    b := IpMove(ctx, sc, st, d, m, a, k, ip, ip + 1);
  }

  /** A pop of one temporary. */
  lemma {:induction false} PopMove(ctx: Ctx, sc: Scope, st: Store, d: nat, m: State, a: State, k: nat,
      ip: nat) returns (b: State)
    requires Reach(ctx, sc, st, d, m, a, k + 1, ip) && Live(a) && m.floor < |m.stack| && Is(CodeOf(ctx, m), ip, POP)
    ensures Reach(ctx, sc, st, d, m, b, k, ip + 1) && Live(b) && |a.stack| > 0
    ensures b == a.(stack := a.stack[..|a.stack| - 1], ip := ip + 1)
  {
    Here(ctx, sc, st, d, m, a, k + 1, ip, POP);
    FineOf(ctx, sc, st, d, m, a, k + 1, ip);
    hide Step, Reach;
    StepPop(ctx.img, a, POP);
    b := a.(stack := a.stack[..|a.stack| - 1], ip := ip + 1);
    assert a.stack[..|m.stack| + k] + [] == a.stack[..|a.stack| - 1];
    Settle(ctx, sc, st, d, m, a, b, k + 1, ip, k, [], ip + 1);
  }

  /** A test that falls through drops the tested value, */
  lemma {:induction false} FallMove(ctx: Ctx, sc: Scope, st: Store, d: nat, m: State, a: State, k: nat, ip: nat,
      i: Instr) returns (b: State)
    requires Reach(ctx, sc, st, d, m, a, k + 1, ip) && Live(a) && m.floor < |m.stack| && Is(CodeOf(ctx, m), ip, i)
    requires i.op.OpJmpFalse? && a.stack != [] && Top(a) != VUndef && Truthy(Top(a), ctx.img.objTruth)
    ensures Reach(ctx, sc, st, d, m, b, k, ip + 1) && Live(b)
    ensures b == a.(stack := a.stack[..|a.stack| - 1], ip := ip + 1)
  {
    Here(ctx, sc, st, d, m, a, k + 1, ip, i);
    FineOf(ctx, sc, st, d, m, a, k + 1, ip);
    hide Step, Reach, Truthy;
    StepJmpFalse(ctx.img, a, i);
    b := a.(stack := a.stack[..|a.stack| - 1], ip := ip + 1);
    assert a.stack[..|m.stack| + k] + [] == a.stack[..|a.stack| - 1];
    Settle(ctx, sc, st, d, m, a, b, k + 1, ip, k, [], ip + 1);
  }

  /** a test that jumps keeps it. */
  lemma {:induction false} LeapMove(ctx: Ctx, sc: Scope, st: Store, d: nat, m: State, a: State, k: nat, ip: nat,
      op: Opcode, n: nat) returns (b: State)
    requires Reach(ctx, sc, st, d, m, a, k + 1, ip) && Live(a) && m.floor < |m.stack| && n < 0x1_0000
    requires Is(CodeOf(ctx, m), ip, OpWide(op, n)) && a.stack != [] && Top(a) != VUndef
    requires (op.OpJmpFalse? && !Truthy(Top(a), ctx.img.objTruth)) || (op.OpJmpIf?
        && KeepsForOr(Top(a), ctx.img.objTruth))
    ensures Reach(ctx, sc, st, d, m, b, k + 1, ip + n) && Live(b) && b == a.(ip := ip + n)
  {
    Here(ctx, sc, st, d, m, a, k + 1, ip, OpWide(op, n));
    FineOf(ctx, sc, st, d, m, a, k + 1, ip);
    hide Step, Reach, Truthy, KeepsForOr;
    if op.OpJmpFalse? { StepJmpFalse(ctx.img, a, OpWide(op, n)); } else { StepJmpIf(ctx.img, a, OpWide(op, n)); }
    b := IpMove(ctx, sc, st, d, m, a, k + 1, ip, ip + n);
  }

  // ----- `??` -----

  /** Left side, check, jump: when the left side is NIL both it and the flag are gone, */
  lemma {:induction false} CoalOpens(ctx: Ctx, sc: Scope, st: Store, s1: Store, d: nat, m: State, a: State, r: Expr,
      ip: nat) returns (b: State)
    requires Ready(ctx, sc, st, d, m) && Pushed(ctx, sc, s1, d, m, a, VNil, ip)
    requires Is(CodeOf(ctx, m), ip, Op(OpChkNone)) && Is(CodeOf(ctx, m), ip + 1, OpWide(OpJmpFalse, ExprSize(r) + 3))
        && Is(CodeOf(ctx, m), ip + 2, POP)
    ensures Ran(ctx, sc, s1, d, m, b, 0, ip + 3)
  {
    var c := CheckMove(ctx, sc, st, s1, d, m, a, VNil, ip);
    hide Ready, Reach, Pushed;
    ReadyIs(ctx, sc, st, d, m);
    var e := FallMove(ctx, sc, s1, d, m, c, 1, ip + 1, OpWide(OpJmpFalse, ExprSize(r) + 3));
    b := PopMove(ctx, sc, s1, d, m, e, 0, ip + 2);
  }

  /** the flag of OpChkNone on top of the checked value. */
  lemma {:induction false} CheckMove(ctx: Ctx, sc: Scope, st: Store, s1: Store, d: nat, m: State, a: State, v: Value,
      ip: nat) returns (b: State)
    requires Ready(ctx, sc, st, d, m) && Pushed(ctx, sc, s1, d, m, a, v, ip) && v != VUndef
        && Is(CodeOf(ctx, m), ip, Op(OpChkNone))
    ensures Reach(ctx, sc, s1, d, m, b, 2, ip + 1) && Live(b) && b == Push(a, VBool(v == VNil))
        && Top(b) == VBool(v == VNil)
    ensures a.stack != [] && Top(a) == v
  {
    hide *;
    ReadyIs(ctx, sc, st, d, m);
    PushedIs(ctx, sc, s1, d, m, a, v, ip);
    Here(ctx, sc, s1, d, m, a, 1, ip, Op(OpChkNone));
    CheckStep(ctx, m, a, v);
    b := PushMove(ctx, sc, s1, d, m, a, 1, ip, VBool(v == VNil));
  }

  lemma CheckStep(ctx: Ctx, m: State, a: State, v: Value)
    requires AtInstr(ctx.img, a, Op(OpChkNone)) && |a.stack| == |m.stack| + 1 && a.floor == m.floor < |m.stack|
        && Top(a) == v != VUndef
    ensures Step(ctx.img, a) == Push(a, VBool(v == VNil))
  {
    hide Step;
    StepChkNone(ctx.img, a, Op(OpChkNone));
  }

  /** When it is not, the flag is dropped at the end and the left side stays. */
  lemma {:induction false} CoalKeeps(ctx: Ctx, sc: Scope, st: Store, s1: Store, d: nat, m: State, a: State, v: Value,
      r: Expr, ip: nat) returns (b: State)
    requires Ready(ctx, sc, st, d, m) && Pushed(ctx, sc, s1, d, m, a, v, ip) && v != VUndef && v != VNil
    requires Is(CodeOf(ctx, m), ip, Op(OpChkNone)) && Is(CodeOf(ctx, m), ip + 1, OpWide(OpJmpFalse, ExprSize(r) + 3))
    requires Is(CodeOf(ctx, m), ip + 4 + ExprSize(r), POP)
    ensures Pushed(ctx, sc, s1, d, m, b, v, ip + ExprSize(r) + 5)
  {
    var c := CheckMove(ctx, sc, st, s1, d, m, a, v, ip);
    hide Ready, Reach;
    ReadyIs(ctx, sc, st, d, m);
    var e := LeapMove(ctx, sc, s1, d, m, c, 1, ip + 1, OpJmpFalse, ExprSize(r) + 3);
    b := PopMove(ctx, sc, s1, d, m, e, 1, ip + 4 + ExprSize(r));
    assert b.stack == a.stack;
  }

  /** The right side of `??`, then a jump over the last pop. */
  lemma {:induction false} CoalCloses(ctx: Ctx, sc: Scope, st: Store, s1: Store, s2: Store, d: nat, m: State,
      a: State, c: State, w: Value, ip1: nat, ip2: nat) returns (b: State)
    requires Ready(ctx, sc, st, d, m) && Ran(ctx, sc, s1, d, m, a, 0, ip1) && Pushed(ctx, sc, s2, d, a, c, w, ip2)
    requires Is(CodeOf(ctx, m), ip2, OpWide(OpJmp, 2))
    ensures Pushed(ctx, sc, s2, d, m, b, w, ip2 + 2)
  {
    hide *;
    ReadyIs(ctx, sc, st, d, m);
    RanThenPushed(ctx, sc, s1, s2, d, m, a, c, w, ip1, ip2);
    PushedIs(ctx, sc, s2, d, m, c, w, ip2);
    b := JumpMove(ctx, sc, s2, d, m, c, 1, ip2, 2);
    TopIs(b);
    TopIs(c);
    PushedMake(ctx, sc, s2, d, m, b, w, ip2 + 2);
  }

  // ----- `&&` and `||` when the left side decides -----

  lemma {:induction false} ShortCase(ctx: Ctx, sc: Scope, st: Store, s1: Store, d: nat, m: State, a: State, v: Value,
      op: Opcode, r: Expr, ip: nat) returns (b: State)
    requires Ready(ctx, sc, st, d, m) && Pushed(ctx, sc, s1, d, m, a, v, ip) && v != VUndef
    requires Is(CodeOf(ctx, m), ip, OpWide(op, ExprSize(r) + 2)) && Is(CodeOf(ctx, m), ip + 2 + ExprSize(r), Op(OpNop))
    requires (op.OpJmpFalse? && !Truthy(v, ctx.env.objTruth)) || (op.OpJmpIf? && KeepsForOr(v, ctx.env.objTruth))
    ensures Pushed(ctx, sc, s1, d, m, b, v, ip + ExprSize(r) + 3)
  {
    hide *;
    ReadyIs(ctx, sc, st, d, m);
    PushedIs(ctx, sc, s1, d, m, a, v, ip);
    IsInside(CodeOf(ctx, m), ip + 2 + ExprSize(r), Op(OpNop));
    var c := LeapMove(ctx, sc, s1, d, m, a, 0, ip, op, ExprSize(r) + 2);
    b := NopMove(ctx, sc, s1, d, m, c, 1, ip + 2 + ExprSize(r));
    TopIs(b);
    TopIs(a);
    PushedMake(ctx, sc, s1, d, m, b, v, ip + ExprSize(r) + 3);
  }

  // ----- arguments -----

  lemma {:induction false} ArgsNone(ctx: Ctx, sc: Scope, st: Store, d: nat, m: State)
    requires Ready(ctx, sc, st, d, m)
    ensures Listed(ctx, sc, st, d, m, m, [], m.ip)
  {
    ReadyIs(ctx, sc, st, d, m);
    hide Ready, Fine, Reach;
    ReachSelf(ctx, sc, st, d, m);
  }

  lemma {:induction false} ArgsMore(ctx: Ctx, sc: Scope, st: Store, s1: Store, s2: Store, d: nat, m: State, a: State,
      c: State,
      v: Value, vs: seq<Value>, ip1: nat, ip2: nat)
    requires Ready(ctx, sc, st, d, m) && Pushed(ctx, sc, s1, d, m, a, v, ip1) && v != VUndef
    requires Listed(ctx, sc, s2, d, a, c, vs, ip2)
    ensures Listed(ctx, sc, s2, d, m, c, [v] + vs, ip2)
  {
    hide Ready, Fine, Reach;
    ReadyIs(ctx, sc, st, d, m);
    PushedIs(ctx, sc, s1, d, m, a, v, ip1);
    Undisturbed(ctx, sc, s1, s2, d, m, a, c, 1, |vs|, ip1, ip2, |m.stack|);
    ReachTrans(ctx, sc, s1, s2, d, m, a, c, 1, |vs|, ip1, ip2);
    assert c.stack[|m.stack|..] == [c.stack[|m.stack|]] + c.stack[|a.stack|..];
  }
}
