/** Calls: what entering a function makes of the stack and what leaving it gives back. */
module CallCases {
  import opened Values
  import opened Wrappers
  import opened Bytecode
  import opened Machine
  import opened Handlers
  import opened Scoping
  import opened Slots
  import opened Codegen
  import opened Layout
  import opened CatchSearch
  import opened Semantics
  import opened Frames
  import opened ExprCases

  /** Chunk `k + 1` is the code of function `k`, in a scope that fits it. */
  ghost predicate FunFits(ctx: Ctx, k: nat)
    requires k < |ctx.env.funs| && k + 1 < |ctx.img.chunks|
  {
    var f, c := ctx.env.funs[k], ctx.img.chunks[k + 1];
    && c.code == FunCode(|f.params|, f.body, f.sc) && |c.code| < 0x1_0000
    && ScopeFits(ctx, f.sc, c.consts) && f.sc.inFun && KnownStmt(f.body, f.sc)
    && (DistinctNames(f.params) ==> |f.params| <= f.sc.nLoc && ParamsPlaced(f.params, f.sc))
  }

  ghost predicate ParamsPlaced(ps: seq<string>, sc: Scope) {
    forall i :: 0 <= i < |ps| ==> Lookup(sc.locals, ps[i], Local) == Some(i + 1)
  }

  ghost predicate World(ctx: Ctx) {
    && GlobalsFit(ctx) && ctx.img.objTruth == ctx.env.objTruth
    && |ctx.img.chunks| == |ctx.env.funs| + 1
    && forall k :: 0 <= k < |ctx.env.funs| ==> FunFits(ctx, k)
  }

  // ----- entering -----

  lemma {:induction false} BindAt(ps: seq<string>, vs: seq<Value>, x: string) returns (i: nat)
    requires |ps| == |vs| && x in Bind(ps, vs)
    ensures i < |ps| && ps[i] == x && Bind(ps, vs)[x] == vs[i]
    decreases |ps|
  {
    var n := |ps| - 1;
    if x == ps[n] { i := n; } else { i := BindAt(ps[..n], vs[..n], x); }
  }

  /** Arguments on the stack are the values of the parameters. */
  lemma {:induction false} ArgsHeld(ps: seq<string>, vs: seq<Value>, sc: Scope, base: nat, top: nat, stack: seq<Value>)
    requires |ps| == |vs| && DistinctNames(ps) && ParamsPlaced(ps, sc)
    requires base + |ps| <= top < |stack| && stack[base + 1..base + 1 + |vs|] == vs
    requires forall i :: 0 <= i < |vs| ==> vs[i] != VUndef
    ensures Held(Bind(ps, vs), sc.locals, Local, base, top, stack)
  {
    var b := Bind(ps, vs);
    hide Bind, DistinctNames;
    forall x | x in b
      ensures b[x] != VUndef && Lookup(sc.locals, x, Local).Some?
      ensures base + Lookup(sc.locals, x, Local).value <= top && stack[base + Lookup(sc.locals, x, Local).value] == b[x]
    {
      var i := BindAt(ps, vs, x);
      assert stack[base + 1 + i] == stack[base + 1..base + 1 + |vs|][i];
    }
  }

  /** The state behind CALL and RESERVE. */
  function Entered(c: State, k: nat, argc: nat, locals: nat, retIp: nat): State
    requires argc < |c.stack|
  {
    var base := |c.stack| - 1 - argc;
    c.(frames := c.frames + [Frame(c.chunk, retIp, c.bp, c.floor, base)],
       bp := base, stack := c.stack + Undefs(locals), floor := |c.stack| - 1 + locals, chunk := k, ip := 1,
       depth := (c.depth + 1) % 0x100)
  }

  lemma {:induction false} EnterSteps(ctx: Ctx, c: State, k: nat, argc: nat, locals: nat)
    requires AtInstr(ctx.img, c, OpWide(OpCall, argc)) && Temps(c) >= argc + 1 && argc <= MAX_ARGS && locals < 0x1_0000
    requires c.stack[|c.stack| - 1 - argc].VInt? && c.stack[|c.stack| - 1 - argc].i == k < |ctx.img.chunks|
    requires Is(ctx.img.chunks[k].code, 0, OpWide(OpReserve, locals))
    ensures Steps(ctx.img, c, Entered(c, k, argc, locals, c.ip + 1))
  {
    hide Step, Run;
    StepCall(ctx.img, c, OpWide(OpCall, argc), k);
    StepsNone(ctx.img, c);
    StepsThen(ctx.img, c, c);
    var e := Step(ctx.img, c);
    StepReserve(ctx.img, e, OpWide(OpReserve, locals));
    StepsThen(ctx.img, c, e);
  }

  /** Inside the function the parameters have their values and nothing else is known. */
  lemma {:induction false} EnteredFine(ctx: Ctx, sc: Scope, st: Store, d: nat, c: State, k: nat, vs: seq<Value>,
      retIp: nat)
    requires World(ctx) && 1 <= k <= |ctx.env.funs| && Fine(ctx, sc, st, d, c) && Live(c) && 1 <= d < MAX_DEPTH
    requires var f := ctx.env.funs[k - 1]; |f.params| == |vs| && DistinctNames(f.params)
    requires |c.stack| >= c.floor + 2 + |vs| && c.stack[|c.stack| - |vs|..] == vs && forall i :: 0 <= i < |vs| ==>
      vs[i] != VUndef
    ensures var f := ctx.env.funs[k - 1]; f.sc.nLoc >= |vs| && k < |ctx.img.chunks|
    ensures var f := ctx.env.funs[k - 1]; var e := Entered(c, k, |vs|, f.sc.nLoc - |vs|, retIp);
      Ready(ctx, f.sc, Enter(st, f.params, vs), d + 1, e)
  {
    hide Held, ScopeFits, DistinctNames, ParamsPlaced, KnownStmt, FunCode, Bind;
    assert FunFits(ctx, k - 1);
    var f := ctx.env.funs[k - 1];
    var e := Entered(c, k, |vs|, f.sc.nLoc - |vs|, retIp);
    assert e.stack[e.bp + 1..e.bp + 1 + |vs|] == vs;
    ArgsHeld(f.params, vs, f.sc, e.bp, e.floor, e.stack);
    HeldHigher(st.g, ctx.mains, GlobalVar, c.floor, e.floor, c.stack, e.stack);
  }

  lemma {:induction false} HeldHigher(vs: map<string, Value>, t: seq<Symbol>, d: Domain, low: nat, high: nat,
      a: seq<Value>, b: seq<Value>)
    requires Held(vs, t, d, 0, low, a) && low <= high < |b| && forall i :: 0 <= i <= low && i < |a| ==> b[i] == a[i]
    ensures Held(vs, t, d, 0, high, b)
  {
  }

  // ----- leaving -----

  /** The caller's frame after the callee is gone: one value in place of callee and arguments; the
      globals are the callee's, everything else is as the caller left it. */
  lemma {:induction false} LeftFine(ctx: Ctx, sc: Scope, st: Store, fsc: Scope, s3: Store, d: nat, m: State, c: State,
      e: State, g: State,
      j: nat, ip: int, result: Value, b: State)
    requires Reach(ctx, sc, st, d, m, c, j, ip) && m.floor < |m.stack| && ctx.ng <= m.floor && j >= 1 && GlobalsFit(ctx)
    requires e.bp == |m.stack| && |e.stack| >= |c.stack| && e.stack[..|c.stack|] == c.stack
    requires Fine(ctx, fsc, s3, d + 1, g) && Kept(ctx, e, g) && |g.stack| > |m.stack|
    requires b == g.(stack := g.stack[..|m.stack|] + [result], bp := c.bp, floor := c.floor, chunk := c.chunk,
        frames := c.frames,
                     ip := b.ip, depth := d, mode := Running)
    ensures Fine(ctx, sc, Leave(st, s3), d, b) && Grew(ctx, m, b, 1)
  {
    hide Steps, Held;
    forall i | 0 <= i < |m.stack| && i >= ctx.ng
      ensures g.stack[i] == c.stack[i]
    {
      assert !Writable(ctx, e, i);
      assert e.stack[i] == c.stack[i];
    }
    GlobalsLower(ctx, s3.g, g.floor, m.floor, g.stack, b.stack);
    if sc.inFun {
      LocalsBack(st.l, sc.locals, ctx.ng, c.bp, c.floor, c.stack, b.stack);
    } else {
      HeldNothing(sc.locals, Local, c.bp, c.floor, b.stack);
    }
  }

  lemma {:induction false} GlobalsLower(ctx: Ctx, vs: map<string, Value>, high: nat, low: nat, a: seq<Value>,
      b: seq<Value>)
    requires GlobalsFit(ctx) && Held(vs, ctx.mains, GlobalVar, 0, high, a) && ctx.ng <= low + 1 && low < |b|
    requires forall i :: 0 <= i <= low && i < |a| ==> b[i] == a[i]
    ensures Held(vs, ctx.mains, GlobalVar, 0, low, b)
  {
    forall x | x in vs
      ensures Lookup(ctx.mains, x, GlobalVar).value <= low
    {
      IdInRange(ctx.mains, GlobalVar, 0, ctx.ng, x);
    }
  }

  lemma {:induction false} LocalsBack(vs: map<string, Value>, t: seq<Symbol>, ng: nat, base: nat, top: nat,
      a: seq<Value>, b: seq<Value>)
    requires Held(vs, t, Local, base, top, a) && ng <= base && top < |b|
    requires forall i :: ng <= i <= top && i < |a| ==> b[i] == a[i]
    ensures Held(vs, t, Local, base, top, b)
  {
  }

  /** Control stands at a RET with `v` on top. */
  ghost predicate AtReturn(ctx: Ctx, sc: Scope, st: Store, d: nat, m: State, n: State, v: Value) {
    && Reach(ctx, sc, st, d, m, n, |n.stack| - |m.stack|, n.ip) && Live(n) && n.stack != []
    && n.ip < |CodeOf(ctx, m)| && CodeOf(ctx, m)[n.ip].op.OpRet? && (v != VUndef ==> Top(n) == v)
  }

  /** The callee's frame is on top of the caller's. */
  ghost predicate InCall(ctx: Ctx, sc: Scope, st: Store, d: nat, m: State, c: State, e: State, j: nat, ip: nat) {
    && Reach(ctx, sc, st, d, m, c, j, ip) && j >= 1 && m.floor < |m.stack| && ctx.ng <= m.floor && GlobalsFit(ctx)
    && Steps(ctx.img, c, e) && e.bp == |m.stack| && |e.stack| >= |c.stack| && e.stack[..|c.stack|] == c.stack
    && e.frames == c.frames + [Frame(c.chunk, ip + 1, c.bp, c.floor, |m.stack|)]
  }

  lemma {:induction false} RetStep(ctx: Ctx, sc: Scope, st: Store, fsc: Scope, s3: Store, d: nat, m: State, c: State,
      e: State, g: State,
      j: nat, ip: nat, i: Instr)
    requires InCall(ctx, sc, st, d, m, c, e, j, ip) && d >= 1
    requires Reach(ctx, fsc, s3, d + 1, e, g, |g.stack| - |e.stack|, g.ip) && Is(CodeOf(ctx, e), g.ip, i) && i.op.OpRet?
    ensures |g.stack| > |m.stack|
    ensures var result := if g.status.StatusErrThrow? then VNil else Machine.Top(g);
      Step(ctx.img, g) == g.(depth := d, frames := c.frames, stack := g.stack[..|m.stack|] + [result], bp := c.bp,
          floor := c.floor,
        chunk := c.chunk, ip := ip + 1, mode := if g.status.StatusErrThrow? then Seeking else Running)
  {
    hide Steps, Held, Step, Kept, Scan;
    Here(ctx, fsc, s3, d + 1, e, g, |g.stack| - |e.stack|, g.ip, i);
    var f := Frame(c.chunk, ip + 1, c.bp, c.floor, |m.stack|);
    assert g.frames[|g.frames| - 1] == f && g.frames[..|g.frames| - 1] == c.frames;
    StepRet(ctx.img, g, i, f);
  }

  /** A RET brings the caller back with the value on top. */
  lemma {:induction false} LeaveMove(ctx: Ctx, sc: Scope, st: Store, fsc: Scope, s3: Store, d: nat, m: State,
      c: State, e: State, g: State,
      j: nat, ip: nat, v: Value) returns (b: State)
    requires InCall(ctx, sc, st, d, m, c, e, j, ip) && d >= 1 && AtReturn(ctx, fsc, s3, d + 1, e, g, v)
    ensures Pushed(ctx, sc, Leave(st, s3), d, m, b, v, ip + 1)
  {
    var i := CodeOf(ctx, e)[g.ip];
    RetStep(ctx, sc, st, fsc, s3, d, m, c, e, g, j, ip, i);
    b := Step(ctx.img, g);
    hide Step, Held, Kept, CodeOf;
    LeftFine(ctx, sc, st, fsc, s3, d, m, c, e, g, j, ip, Machine.Top(g), b);
    StepsTrans(ctx.img, m, c, e);
    StepsTrans(ctx.img, m, e, g);
    StepsThen(ctx.img, m, g);
    hide Steps, Fine, Grew;
  }

  /** An exception that reaches the end of the callee goes on in the caller, behind the call. */
  lemma {:induction false} LeaveThrow(ctx: Ctx, sc: Scope, st: Store, fsc: Scope, s3: Store, d: nat, m: State,
      c: State, e: State, g: State,
      j: nat, ip: nat, k: nat, end: nat) returns (b: State)
    requires InCall(ctx, sc, st, d, m, c, e, j, ip) && d >= 1 && Threw(ctx, fsc, s3, d + 1, e, g, k, end)
    requires Is(CodeOf(ctx, e), end, LAST_RET) && ip + 1 < |CodeOf(ctx, m)|
    ensures Threw(ctx, sc, Leave(st, s3), d, m, b, 1, ip + 1)
  {
    ScanMark(CodeOf(ctx, e), end, 1);
    FineOf(ctx, fsc, s3, d + 1, e, g, k, end);
    RetStep(ctx, sc, st, fsc, s3, d, m, c, e, g, j, ip, LAST_RET);
    FineOf(ctx, sc, st, d, m, c, j, ip);
    SameChunk(ctx, sc, st, d, m, c, j, ip);
    var h := Step(ctx.img, g);
    StepSeek(ctx.img, h);
    b := Step(ctx.img, h);
    hide Step, Held, Kept, Scan;
    LeftFine(ctx, sc, st, fsc, s3, d, m, c, e, g, j, ip, VNil, b);
    StepsTrans(ctx.img, m, c, e);
    StepsTrans(ctx.img, m, e, g);
    StepsThen(ctx.img, m, g);
    StepsThen(ctx.img, m, h);
  }

  // ----- the whole call -----

  /** Chunk `k` in the terms of function `k`. */
  lemma {:induction false} FunChunk(ctx: Ctx, k: nat, argc: nat)
    requires World(ctx) && 1 <= k <= |ctx.env.funs| && argc == |ctx.env.funs[k - 1].params|
    requires DistinctNames(ctx.env.funs[k - 1].params)
    ensures var f := ctx.env.funs[k - 1];
      && k < |ctx.img.chunks| && argc <= f.sc.nLoc < 0x1_0000 && KnownStmt(f.body, f.sc)
      && var code := ctx.img.chunks[k].code;
         && Is(code, 0, OpWide(OpReserve, f.sc.nLoc - argc)) && PlacedStmt(code, 1, f.body, f.sc, Open)
         && Is(code, 1 + StmtSize(f.body), LAST_RET) && |code| == StmtSize(f.body) + 2 && |code| < 0x1_0000
  {
    hide FunCode, PlacedStmt, KnownStmt, ParamsPlaced, DistinctNames;
    assert FunFits(ctx, k - 1);
    var f := ctx.env.funs[k - 1];
    FunLayout(|f.params|, f.body, f.sc, ctx.img.chunks[k].code);
  }

  lemma {:induction false} CallMove(ctx: Ctx, sc: Scope, st: Store, s1: Store, s2: Store, d: nat, m: State, a: State,
      c: State,
      v: Value, vs: seq<Value>, ip1: nat, ip2: nat) returns (e: State)
    requires World(ctx) && Ready(ctx, sc, st, d, m) && d < MAX_DEPTH
    requires Pushed(ctx, sc, s1, d, m, a, v, ip1) && Listed(ctx, sc, s2, d, a, c, vs, ip2)
    requires v.VInt? && 1 <= v.i <= |ctx.env.funs|
    requires var f := ctx.env.funs[v.i - 1]; |f.params| == |vs| <= MAX_ARGS && DistinctNames(f.params)
    requires Is(CodeOf(ctx, m), ip2, OpWide(OpCall, |vs|))
    ensures InCall(ctx, sc, s2, d, m, c, e, 1 + |vs|, ip2)
    ensures var f := ctx.env.funs[v.i - 1];
      Ready(ctx, f.sc, Enter(s2, f.params, vs), d + 1, e) && e.ip == 1 && e.chunk == v.i
  {
    hide *;
    var f := ctx.env.funs[v.i - 1];
    ReadyIs(ctx, sc, st, d, m);
    PushedIs(ctx, sc, s1, d, m, a, v, ip1);
    ListedIs(ctx, sc, s2, d, a, c, vs, ip2);
    TopIs(a);
    Undisturbed(ctx, sc, s1, s2, d, m, a, c, 1, |vs|, ip1, ip2, |m.stack|);
    ReachTrans(ctx, sc, s1, s2, d, m, a, c, 1, |vs|, ip1, ip2);
    FineOf(ctx, sc, s2, d, m, c, 1 + |vs|, ip2);
    Here(ctx, sc, s2, d, m, c, 1 + |vs|, ip2, OpWide(OpCall, |vs|));
    FunChunk(ctx, v.i, |vs|);
    EnteredFine(ctx, sc, s2, d, c, v.i, vs, ip2 + 1);
    e := Entered(c, v.i, |vs|, f.sc.nLoc - |vs|, ip2 + 1);
    TempsIs(c);
    EnterSteps(ctx, c, v.i, |vs|, f.sc.nLoc - |vs|);
    InCallMake(ctx, sc, s2, d, m, c, v.i, |vs|, f.sc.nLoc - |vs|, ip2);
  }

  lemma TempsIs(c: State)
    ensures Temps(c) == |c.stack| - 1 - c.floor
  {
  }

  lemma {:induction false} ListedIs(ctx: Ctx, sc: Scope, st: Store, d: nat, a: State, c: State, vs: seq<Value>, ip: int)
    requires Listed(ctx, sc, st, d, a, c, vs, ip)
    ensures Reach(ctx, sc, st, d, a, c, |vs|, ip) && Live(c) && |c.stack| == |a.stack| + |vs|
        && c.stack[|a.stack|..] == vs
    ensures forall i :: 0 <= i < |vs| ==> vs[i] != VUndef
  {
    hide Steps, Fine, Kept;
  }

  lemma {:induction false} InCallMake(ctx: Ctx, sc: Scope, st: Store, d: nat, m: State, c: State, k: nat, argc: nat,
      locals: nat, ip: nat)
    requires Reach(ctx, sc, st, d, m, c, 1 + argc, ip) && m.floor < |m.stack| && ctx.ng <= m.floor && GlobalsFit(ctx)
    requires |c.stack| == |m.stack| + 1 + argc
    requires Steps(ctx.img, c, Entered(c, k, argc, locals, ip + 1))
    ensures InCall(ctx, sc, st, d, m, c, Entered(c, k, argc, locals, ip + 1), 1 + argc, ip)
    ensures Entered(c, k, argc, locals, ip + 1).ip == 1 && Entered(c, k, argc, locals, ip + 1).chunk == k
  {
    hide Reach, Steps, GlobalsFit;
  }
}
