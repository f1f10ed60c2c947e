/** Running the code of a statement, one form at a time. */
module StmtCases {
  import opened Values
  import opened Bytecode
  import opened Machine
  import opened Handlers
  import opened Scoping
  import opened Codegen
  import opened Layout
  import opened CatchSearch
  import opened Semantics
  import opened Frames
  import opened ExprCases
  import opened CallCases

  /** Where a statement that ended in `out` has brought the machine. */
  ghost predicate StmtPost(ctx: Ctx, sc: Scope, d: nat, m: State, n: State, out: SOut, end: nat, lp: Loop) {
    match out
    case Normal(st, k) => Ran(ctx, sc, st, d, m, n, k, end)
    case Brk(st, k) => lp.Closed? ==> Ran(ctx, sc, st, d, m, n, k, lp.brk)
    case Cont(st, k) => lp.Closed? ==> Ran(ctx, sc, st, d, m, n, k, lp.cont)
    case Retn(st, v) => AtReturn(ctx, sc, st, d, m, n, v)
    case SThrow(st, k) => Threw(ctx, sc, st, d, m, n, k, end)
    case SStop => true
  }

  /** The targets of the enclosing loop lie around the code at `pc`. */
  predicate LoopFits(lp: Loop, pc: nat, size: nat) {
    lp.Closed? ==> 0 <= lp.cont <= pc && pc + size <= lp.brk < 0x1_0000
  }

  // ----- one phrase after another -----

  lemma {:induction false} ReturnPrefixed(ctx: Ctx, sc: Scope, s1: Store, s2: Store, d: nat, m: State, a: State,
      b: State, j: nat, ip: int, v: Value)
    requires Ran(ctx, sc, s1, d, m, a, j, ip) && AtReturn(ctx, sc, s2, d, a, b, v)
    ensures AtReturn(ctx, sc, s2, d, m, b, v)
  {
    FineOf(ctx, sc, s1, d, m, a, j, ip);
    SameChunk(ctx, sc, s1, d, m, a, j, ip);
    hide Reach;
    ReachTrans(ctx, sc, s1, s2, d, m, a, b, j, |b.stack| - |a.stack|, ip, b.ip);
  }

  /** A statement behind a finished phrase: what the phrase left is added to what the statement leaves. */
  lemma {:induction false} Prefixed(ctx: Ctx, sc: Scope, s1: Store, d: nat, m: State, a: State, b: State, j: nat,
      ip: int, out: SOut, end: nat, lp: Loop)
    requires Ran(ctx, sc, s1, d, m, a, j, ip) && StmtPost(ctx, sc, d, a, b, out, end, lp)
    ensures StmtPost(ctx, sc, d, m, b, AddLeft(out, j), end, lp)
  {
    hide Ran, Threw, AtReturn;
    match out
    case Normal(st, k) => RanThenRan(ctx, sc, s1, st, d, m, a, b, j, k, ip, end);
    case Brk(st, k) => if lp.Closed? { RanThenRan(ctx, sc, s1, st, d, m, a, b, j, k, ip, lp.brk); }
    case Cont(st, k) => if lp.Closed? { RanThenRan(ctx, sc, s1, st, d, m, a, b, j, k, ip, lp.cont); }
    case Retn(st, v) => ReturnPrefixed(ctx, sc, s1, st, d, m, a, b, j, ip, v);
    case SThrow(st, k) =>
      RanIs(ctx, sc, s1, d, m, a, j, ip);
      ReachThenThrew(ctx, sc, s1, st, d, m, a, b, j, k, ip, end);
    case SStop =>
  }

  lemma NoMore(out: SOut)
    ensures AddLeft(out, 0) == out
  {
  }

  /** The instruction that carries control from the end of a part to the end of the whole. */
  predicate Carries(code: Code, end: nat, to: nat) {
    (Is(code, end, Op(OpNop)) && to == end + 1) || (end <= to < end + 0x1_0000
        && Is(code, end, OpWide(OpJmp, to - end)))
  }

  lemma {:induction false} CarryMove(ctx: Ctx, sc: Scope, st: Store, d: nat, m: State, a: State, k: nat, end: nat,
      to: nat) returns (b: State)
    requires Ran(ctx, sc, st, d, m, a, k, end) && m.floor < |m.stack| && Carries(CodeOf(ctx, m), end, to)
    ensures Ran(ctx, sc, st, d, m, b, k, to)
  {
    hide Reach, Wide;
    if Is(CodeOf(ctx, m), end, Op(OpNop)) && to == end + 1 {
      b := NopMove(ctx, sc, st, d, m, a, k, end);
    } else {
      b := JumpMove(ctx, sc, st, d, m, a, k, end, to - end);
    }
  }

  /** A part that ends normally is carried on; an exception is searched for as from the end of the whole. */
  lemma {:induction false} Carry(ctx: Ctx, sc: Scope, d: nat, m: State, a: State, out: SOut, end: nat, to: nat,
      lp: Loop) returns (b: State)
    requires StmtPost(ctx, sc, d, m, a, out, end, lp) && m.floor < |m.stack| && Carries(CodeOf(ctx, m), end, to)
    requires Scan(CodeOf(ctx, m), end, 1) == Scan(CodeOf(ctx, m), to, 1)
    ensures StmtPost(ctx, sc, d, m, b, out, to, lp)
  {
    hide Ran, Threw, AtReturn, Carries, Scan, CodeOf;
    b := a;
    match out
    case Normal(st, k) => b := CarryMove(ctx, sc, st, d, m, a, k, end, to);
    case SThrow(st, k) => ThrewOn(ctx, sc, st, d, m, a, k, end, to);
    case _ =>
  }

  // ----- statements made of one expression -----

  lemma {:induction false} UseCase(ctx: Ctx, sc: Scope, st: Store, s1: Store, d: nat, m: State, a: State, v: Value,
      ip: nat) returns (b: State)
    requires Ready(ctx, sc, st, d, m) && Pushed(ctx, sc, s1, d, m, a, v, ip) && Is(CodeOf(ctx, m), ip, POP)
    ensures Ran(ctx, sc, s1, d, m, b, 0, ip + 1)
  {
    hide *;
    ReadyIs(ctx, sc, st, d, m);
    PushedIs(ctx, sc, s1, d, m, a, v, ip);
    b := PopMove(ctx, sc, s1, d, m, a, 0, ip);
    RanIs(ctx, sc, s1, d, m, b, 0, ip + 1);
  }

  lemma {:induction false} ReturnCase(ctx: Ctx, sc: Scope, st: Store, d: nat, m: State, a: State, v: Value, ip: nat)
    requires Pushed(ctx, sc, st, d, m, a, v, ip) && Is(CodeOf(ctx, m), ip, Op(OpRet))
    ensures AtReturn(ctx, sc, st, d, m, a, v)
  {
    PushedIs(ctx, sc, st, d, m, a, v, ip);
    hide Reach, CodeOf;
  }

  /** THROW hands the value to the search. */
  lemma {:induction false} RaiseCase(ctx: Ctx, sc: Scope, st: Store, s1: Store, d: nat, m: State, a: State, v: Value,
      ip: nat) returns (b: State)
    requires Ready(ctx, sc, st, d, m) && Pushed(ctx, sc, s1, d, m, a, v, ip) && v != VUndef && s1.trying
    requires Is(CodeOf(ctx, m), ip, Op(OpRaiseErr))
    ensures Threw(ctx, sc, s1.(err := v), d, m, b, 0, ip + 1)
  {
    hide *;
    ReadyIs(ctx, sc, st, d, m);
    PushedIs(ctx, sc, s1, d, m, a, v, ip);
    FineOf(ctx, sc, s1, d, m, a, 1, ip);
    Here(ctx, sc, s1, d, m, a, 1, ip, Op(OpRaiseErr));
    SameChunk(ctx, sc, s1, d, m, a, 1, ip);
    RaisePlain(CodeOf(ctx, m), ip);
    ScanOne(CodeOf(ctx, m), ip, 1);
    b := RaiseStep(ctx, sc, s1, d, m, a, v, ip);
    ThrewOn(ctx, sc, s1.(err := v), d, m, b, 0, ip, ip + 1);
  }

  lemma {:induction false} RaisePlain(code: Code, p: nat)
    requires Is(code, p, Op(OpRaiseErr))
    ensures PlainAt(code, p)
  {
  }

  lemma {:induction false} RaiseStep(ctx: Ctx, sc: Scope, s1: Store, d: nat, m: State, a: State, v: Value,
      ip: nat) returns (b: State)
    requires Reach(ctx, sc, s1, d, m, a, 1, ip) && Live(a) && |a.stack| == |m.stack| + 1
        && a.floor == m.floor < |m.stack| && a.ip == ip
    requires Machine.Top(a) == v != VUndef && s1.trying && a.trying && AtInstr(ctx.img, a, Op(OpRaiseErr))
        && CodeOf(ctx, a) == CodeOf(ctx, m)
    ensures Threw(ctx, sc, s1.(err := v), d, m, b, 0, ip)
  {
    hide Steps, Step, Held, Scan;
    StepRaise(ctx.img, a, Op(OpRaiseErr));
    b := Step(ctx.img, a);
    StepsThen(ctx.img, m, a);
    HeldBelow(s1.g, ctx.mains, GlobalVar, 0, m.floor, a.stack, b.stack);
    HeldBelow(s1.l, sc.locals, Local, m.bp, m.floor, a.stack, b.stack);
  }

  // ----- TRY and CATCH -----

  lemma {:induction false} TryMove(ctx: Ctx, sc: Scope, st: Store, d: nat, m: State) returns (b: State)
    requires Ready(ctx, sc, st, d, m) && Is(CodeOf(ctx, m), m.ip, Op(OpTry))
    ensures Ran(ctx, sc, st.(trying := true), d, m, b, 0, m.ip + 1)
  {
    hide Steps, Step, Held, ScopeFits;
    StepTry(ctx.img, m, Op(OpTry));
    StepsNone(ctx.img, m);
    StepsThen(ctx.img, m, m);
    b := Step(ctx.img, m);
  }

  lemma {:induction false} CatchMove(ctx: Ctx, sc: Scope, st: Store, d: nat, m: State, a: State, k: nat, end: nat,
      at: nat) returns (b: State)
    requires Threw(ctx, sc, st, d, m, a, k, end) && Scan(CodeOf(ctx, m), end, 1) == at
        && Is(CodeOf(ctx, m), at, Op(OpCatchErr))
    ensures Ran(ctx, sc, st.(trying := false), d, m, b, k, at + 1)
  {
    hide Steps, Step, Held, Scan;
    Here(ctx, sc, st, d, m, a, k, at, Op(OpCatchErr));
    StepCatch(ctx.img, a, Op(OpCatchErr));
    b := Step(ctx.img, a);
    StepsThen(ctx.img, m, a);
  }

  // ----- tests -----

  lemma OpWideIs(op: Opcode, n: int)
    ensures OpWide(op, n) == Instr(op, 0, Wide(n))
  {
  }

  /** A truthy test is gone, */
  lemma {:induction false} TestHolds(ctx: Ctx, sc: Scope, st: Store, s1: Store, d: nat, m: State, a: State, v: Value,
      ip: nat, n: nat) returns (b: State)
    requires Ready(ctx, sc, st, d, m) && Pushed(ctx, sc, s1, d, m, a, v, ip) && v != VUndef
        && Truthy(v, ctx.env.objTruth)
    requires Is(CodeOf(ctx, m), ip, OpWide(OpJmpFalse, n))
    ensures Ran(ctx, sc, s1, d, m, b, 0, ip + 1) && Ready(ctx, sc, s1, d, b) && CodeOf(ctx, b) == CodeOf(ctx, m)
        && b.ip == ip + 1
  {
    hide *;
    ReadyIs(ctx, sc, st, d, m);
    PushedIs(ctx, sc, s1, d, m, a, v, ip);
    OpWideIs(OpJmpFalse, n);
    b := FallMove(ctx, sc, s1, d, m, a, 0, ip, OpWide(OpJmpFalse, n));
    RanIs(ctx, sc, s1, d, m, b, 0, ip + 1);
    ReadyAfter(ctx, sc, st, s1, d, m, b, 0, ip + 1);
  }

  /** a falsy one stays behind. */
  lemma {:induction false} TestFails(ctx: Ctx, sc: Scope, st: Store, s1: Store, d: nat, m: State, a: State, v: Value,
      ip: nat, n: nat) returns (b: State)
    requires Ready(ctx, sc, st, d, m) && Pushed(ctx, sc, s1, d, m, a, v, ip) && v != VUndef
        && !Truthy(v, ctx.env.objTruth)
    requires Is(CodeOf(ctx, m), ip, OpWide(OpJmpFalse, n)) && n < 0x1_0000
    ensures Ran(ctx, sc, s1, d, m, b, 1, ip + n) && Ready(ctx, sc, s1, d, b) && CodeOf(ctx, b) == CodeOf(ctx, m)
        && b.ip == ip + n
  {
    hide *;
    ReadyIs(ctx, sc, st, d, m);
    PushedIs(ctx, sc, s1, d, m, a, v, ip);
    b := LeapMove(ctx, sc, s1, d, m, a, 0, ip, OpJmpFalse, n);
    RanIs(ctx, sc, s1, d, m, b, 1, ip + n);
    ReadyAfter(ctx, sc, st, s1, d, m, b, 1, ip + n);
  }
}
