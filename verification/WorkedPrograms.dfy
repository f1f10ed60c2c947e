/** Two small programs followed all the way: one that meets every condition of the end-to-end theorem,
    and one that the optimizer breaks. */
module WorkedPrograms {
  import opened Values
  import opened Wrappers
  import opened Bytecode
  import opened Machine
  import opened Handlers
  import opened Syntax
  import opened Parser
  import opened ParserRoundTrip
  import opened Scoping
  import opened Codegen
  import opened ProgramSpec
  import opened Semantics
  import opened Frames
  import opened Simulation
  import opened Programs
  import opened Optimizer
  import opened OptimizerRefinement
  import opened EndToEnd
  import opened Driver

  // ----- an exception that leaves a function and is caught -----

  const THROWER: Stmt := Seq(Throw(Var("x")), Skip)
  const CALL_F: Expr := Call(Var("f"), ECons(Lit(LNum("7")), ENil))
  const RESCUE: Stmt := Try(Seq(ExprStmt(CALL_F), Skip), Seq(Ret(Lit(LNum("2"))), Skip))
  const RESCUED: Tops := TCons(TopFun("f", ["x"], THROWER), TCons(TopStmt(RESCUE), TNil))

  const RESCUE_TOKENS: Toks := [
    TkFun, TkIdent("f"), TkLParen, TkIdent("x"), TkRParen, TkColon, TkThrow, TkIdent("x"), TkSemi, TkEnd,
    TkTry, TkColon, TkIdent("f"), TkLParen, TkNum("7"), TkRParen, TkSemi, TkEnd,
    TkCatch, TkColon, TkRet, TkNum("2"), TkSemi, TkEnd]

  const THROWER_CHUNK: Chunk := Chunk([OpWide(OpReserve, 0), OpWide(OpLoadLocal, 1), Op(OpRaiseErr), LAST_RET], [])

  const RESCUE_CHUNK: Chunk := Chunk([
    OpWide(OpReserve, 0), Op(OpTry), OpWide(OpLoadImmGid, 1), OpWide(OpPutK, 0), OpWide(OpCall, 1), POP,
    OpWide(OpJmp, 4), Op(OpCatchErr), OpWide(OpPutK, 1), Op(OpRet), LAST_RET], [VInt(7), VInt(2)])

  lemma Numbers()
    ensures NumValue("7") == VInt(7) && NumValue("2") == VInt(2) && NumValue("1") == VInt(1) && NumValue("3") == VInt(3)
  {
    assert DigitSum("7", 0, 0) == DigitSum("7", 1, 7) == 7;
    assert DigitSum("2", 0, 0) == DigitSum("2", 1, 2) == 2;
    assert DigitSum("1", 0, 0) == DigitSum("1", 1, 1) == 1;
    assert DigitSum("3", 0, 0) == DigitSum("3", 1, 3) == 3;
  }

  const F_ONLY: seq<Symbol> := [Symbol("f", 1, Func)]

  /** What is known inside the function, and at the end of the program. */
  const F_SCOPE: Scope := Scope(F_ONLY, [], [Symbol("x", 1, Local)], true, 0, 1, [])
  const RESCUE_SCOPE: Scope :=
    Scope(F_ONLY, [Symbol("7", 0, Constant), Symbol("2", 1, Constant)], [], false, 0, 0, [VInt(7), VInt(2)])

  const F_BUILT: Build :=
    Build(Scope(F_ONLY, [], [], false, 0, 0, []), [Op(OpReserve)], [Chunk([], []), THROWER_CHUNK])

  lemma FScopeIs()
    ensures FunScope(NO_SCOPE, "f", 1, ["x"]) == F_SCOPE && RecordFunc(NO_SCOPE, "f", 1) == F_BUILT.sc
  {
    assert ["x"][1..] == [];
  }

  lemma ThrowerBuilt()
    ensures TopResult(TopFun("f", ["x"], THROWER), START) == Some(F_BUILT)
    ensures FunOf(TopFun("f", ["x"], THROWER), START) == FunDef(["x"], THROWER, F_SCOPE)
  {
    FScopeIs();
    assert DeclStmt(THROWER, F_SCOPE, false) == Some(F_SCOPE);
    assert GenStmt(THROWER, F_SCOPE, 1, Open) == [OpWide(OpLoadLocal, 1), Op(OpRaiseErr)];
    assert FunCode(1, THROWER, F_SCOPE) == THROWER_CHUNK.code;
    assert START.chunks + [THROWER_CHUNK] == F_BUILT.chunks;
  }

  const CALL_SCOPE: Scope := Scope(F_ONLY, [Symbol("7", 0, Constant)], [], false, 0, 0, [VInt(7)])

  lemma CallDeclared()
    ensures DeclExpr(CALL_F, F_BUILT.sc) == Some(CALL_SCOPE)
    ensures DeclExpr(Lit(LNum("2")), CALL_SCOPE) == Some(RESCUE_SCOPE)
  {
    Numbers();
    hide NumValue;
    assert RecordConst(F_BUILT.sc, "7") == CALL_SCOPE;
    assert RecordConst(CALL_SCOPE, "2") == RESCUE_SCOPE;
    hide RecordConst;
    assert DeclExpr(Lit(LNum("7")), F_BUILT.sc) == Some(CALL_SCOPE);
    assert DeclArgs(ECons(Lit(LNum("7")), ENil), F_BUILT.sc) == Some(CALL_SCOPE);
  }

  lemma RescueDeclared()
    ensures DeclStmt(RESCUE, F_BUILT.sc, false) == Some(RESCUE_SCOPE)
  {
    CallDeclared();
    hide DeclExpr, RecordConst;
    assert DeclStmt(Seq(ExprStmt(CALL_F), Skip), F_BUILT.sc, false) == Some(CALL_SCOPE);
    assert DeclStmt(Seq(Ret(Lit(LNum("2"))), Skip), CALL_SCOPE, false) == Some(RESCUE_SCOPE);
  }

  lemma RescueGenerated()
    ensures GenStmt(RESCUE, RESCUE_SCOPE, 1, Open) == RESCUE_CHUNK.code[1..10]
  {
    var sc := RESCUE_SCOPE;
    assert GenLit(LNum("7"), sc) == OpWide(OpPutK, 0) && GenLit(LNum("2"), sc) == OpWide(OpPutK, 1);
    var args := ECons(Lit(LNum("7")), ENil);
    assert GenArgs(args, sc) == [OpWide(OpPutK, 0)];
    assert GenExpr(CALL_F, sc) == [OpWide(OpLoadImmGid, 1), OpWide(OpPutK, 0), OpWide(OpCall, 1)];
    assert GenStmt(Seq(ExprStmt(CALL_F), Skip), sc, 2, Open) ==
      [OpWide(OpLoadImmGid, 1), OpWide(OpPutK, 0), OpWide(OpCall, 1), POP];
    assert GenStmt(Seq(Ret(Lit(LNum("2"))), Skip), sc, 8, Open) == [OpWide(OpPutK, 1), Op(OpRet)];
    TryCodeOf(Seq(ExprStmt(CALL_F), Skip), Seq(Ret(Lit(LNum("2"))), Skip), sc, 1, Open);
  }

  /** The program compiles to these two chunks. */
  lemma {:induction false} RescueCompiles()
    ensures TreeChunks(RESCUED) == Some([RESCUE_CHUNK, THROWER_CHUNK])
    ensures TopsResult(RESCUED, START).Some? && TopsResult(RESCUED, START).value.sc == RESCUE_SCOPE
    ensures Funs(RESCUED, START) == [FunDef(["x"], THROWER, F_SCOPE)]
        && Units(RESCUED, START) == [Unit(RESCUE, RESCUE_SCOPE)]
  {
    ThrowerBuilt();
    RescueDeclared();
    RescueGenerated();
    hide TopResult, DeclStmt, GenStmt, FunOf;
    RescueAdded();
    var end := Build(RESCUE_SCOPE, [Op(OpReserve)] + RESCUE_CHUNK.code[1..10], F_BUILT.chunks);
    assert TopsResult(TCons(TopStmt(RESCUE), TNil), F_BUILT) == Some(end);
    assert (end.code + [LAST_RET])[0 := OpWide(OpReserve, 0)] == RESCUE_CHUNK.code;
    assert Finish(end) == [RESCUE_CHUNK, THROWER_CHUNK];
    assert Funs(TCons(TopStmt(RESCUE), TNil), F_BUILT) == [];
    assert Units(TCons(TopStmt(RESCUE), TNil), F_BUILT) == [Unit(RESCUE, RESCUE_SCOPE)];
  }

  lemma RescueAdded()
    ensures TopResult(TopStmt(RESCUE), F_BUILT) ==
      Some(Build(RESCUE_SCOPE, [Op(OpReserve)] + RESCUE_CHUNK.code[1..10], F_BUILT.chunks))
  {
    RescueDeclared();
    RescueGenerated();
    hide DeclStmt, GenStmt;
  }

  // ----- what it means -----

  function FEnv(objTruth: int -> bool): Env { Env([FunDef(["x"], THROWER, F_SCOPE)], objTruth) }

  lemma ThrowMeans(env: Env, st: Store)
    requires st.trying && "x" in st.l && st.l["x"] != VUndef
    ensures Perform(env, 0, 2, THROWER, F_SCOPE, st) == SThrow(st.(err := st.l["x"]), 0)
  {
    assert Eval(env, 0, 2, Var("x"), F_SCOPE, st) == Val(st, st.l["x"]);
    assert Perform(env, 0, 2, Throw(Var("x")), F_SCOPE, st) == SThrow(st.(err := st.l["x"]), 0);
  }

  lemma ApplyMeans(objTruth: int -> bool, st: Store, v: Value)
    requires st.trying && v != VUndef
    ensures Apply(FEnv(objTruth), 0, 1, VInt(1), [v], st) == EThrow(st.(err := v), 1)
  {
    assert ["x"][..0] == [] && [v][..0] == [];
    assert Bind(["x"], [v]) == map["x" := v];
    ThrowMeans(FEnv(objTruth), Enter(st, ["x"], [v]));
    hide Perform;
  }

  lemma NamesMean(env: Env, st: Store)
    ensures Eval(env, 1, 1, Var("f"), RESCUE_SCOPE, st) == Val(st, VInt(1))
    ensures Eval(env, 1, 1, Lit(LNum("7")), RESCUE_SCOPE, st) == Val(st, VInt(7))
    ensures Eval(env, 1, 1, Lit(LNum("2")), RESCUE_SCOPE, st) == Val(st, VInt(2))
    ensures EvalArgs(env, 1, 1, ENil, RESCUE_SCOPE, st) == Vals(st, [])
  {
    Numbers();
    hide NumValue, Eval;
    LeafEval(env, 1, 1, Var("f"), RESCUE_SCOPE, st);
    LeafEval(env, 1, 1, Lit(LNum("7")), RESCUE_SCOPE, st);
    LeafEval(env, 1, 1, Lit(LNum("2")), RESCUE_SCOPE, st);
  }

  lemma CallMeans(objTruth: int -> bool, st: Store)
    requires st.trying
    ensures Eval(FEnv(objTruth), 1, 1, CALL_F, RESCUE_SCOPE, st) == EThrow(st.(err := VInt(7)), 1)
  {
    hide Eval, EvalArgs, Apply, FEnv, RESCUE_SCOPE;
    var env, args := FEnv(objTruth), ECons(Lit(LNum("7")), ENil);
    NamesMean(env, st);
    ListingIs(VInt(7), Vals(st, []));
    ArgsEval(env, 1, 1, Lit(LNum("7")), ENil, RESCUE_SCOPE, st);
    assert EvalArgs(env, 1, 1, args, RESCUE_SCOPE, st) == Vals(st, [VInt(7)]);
    CallEval(env, 1, 1, Var("f"), args, RESCUE_SCOPE, st);
    ApplyMeans(objTruth, st, VInt(7));
  }

  lemma TryMeans(objTruth: int -> bool)
    ensures Perform(FEnv(objTruth), 1, 1, RESCUE, RESCUE_SCOPE, EMPTY_STORE) ==
      Retn(Store(map[], map[], false, VInt(7)), VInt(2))
  {
    hide Eval, Perform, FEnv, RESCUE_SCOPE;
    var env, st, caught := FEnv(objTruth), EMPTY_STORE.(trying := true), Store(map[], map[], false, VInt(7));
    CallMeans(objTruth, st);
    NamesMean(env, caught);
    PerformUse(env, 1, 1, ExprStmt(CALL_F), RESCUE_SCOPE, st);
    PerformSeq(env, 1, 1, ExprStmt(CALL_F), Skip, RESCUE_SCOPE, st);
    PerformUse(env, 1, 1, Ret(Lit(LNum("2"))), RESCUE_SCOPE, caught);
    PerformSeq(env, 1, 1, Ret(Lit(LNum("2"))), Skip, RESCUE_SCOPE, caught);
    PerformTry(env, 1, 1, Seq(ExprStmt(CALL_F), Skip), Seq(Ret(Lit(LNum("2"))), Skip), RESCUE_SCOPE, EMPTY_STORE);
  }

  lemma RescueMeans(objTruth: int -> bool)
    ensures ProgramMeaning(RESCUED, objTruth, 1) == Retn(Store(map[], map[], false, VInt(7)), VInt(2))
  {
    RescueCompiles();
    TryMeans(objTruth);
    hide Perform, Funs, Units;
  }

  // ----- from its tokens -----

  /** An expression up to its semicolon. */
  lemma {:induction false} ReadsExpr(e: Expr, t: Toks, s: Toks)
    requires Print(e, 13) == t
    ensures ParseOr(t + ([TkSemi] + s)) == Some((e, [TkSemi] + s))
  {
    ParseOfPrint(e, [TkSemi] + s);
  }

  lemma {:induction false} ReadsBody(t: Toks, first: bool, s: Stmt, rest: Toks)
    requires t != [] && !At(t, TkEnd) && ParseNestable(t) == Some((s, [TkEnd] + rest))
    ensures ParseBody(t, first) == Some((Seq(s, Skip), rest))
  {
    assert ParseBody([TkEnd] + rest, false) == Some((Skip, rest));
    hide ParseNestable;
  }

  /** THROW and RET in front of an expression, and an expression alone. */
  lemma {:induction false} ReadsUse(t: Toks, e: Expr, rest: Toks)
    requires t != [] && ParseOr(if t[0].TkThrow? || t[0].TkRet? then t[1..] else t) == Some((e, [TkSemi] + rest))
    ensures t[0].TkThrow? ==> ParseNestable(t) == Some((Throw(e), rest))
    ensures t[0].TkRet? ==> ParseNestable(t) == Some((Ret(e), rest))
    ensures t[0].TkIdent? && !IsTarget(t) ==> ParseNestable(t) == Some((ExprStmt(e), rest))
  {
    hide ParseOr, ParseVars, ParseIf, ParseWhile, ParseFor, ParseTry, ParseBlock;
  }

  lemma {:induction false} ReadsBlock(t: Toks, s: Stmt, rest: Toks)
    requires t != [] && !At(t, TkEnd) && ParseNestable(t) == Some((s, [TkEnd] + rest))
    ensures ParseBlock([TkColon] + t) == Some((Seq(s, Skip), rest))
  {
    ReadsBody(t, true, s, rest);
    hide ParseNestable, ParseBody;
    assert ([TkColon] + t)[1..] == t;
  }

  lemma {:induction false} ReadsThrower(rest: Toks)
    ensures ParseBlock([TkColon, TkThrow, TkIdent("x"), TkSemi, TkEnd] + rest) == Some((THROWER, rest))
  {
    hide ParseOr, ParseNestable, ParseBlock;
    var t := [TkThrow, TkIdent("x"), TkSemi, TkEnd] + rest;
    assert t[1..] == [TkIdent("x")] + ([TkSemi] + ([TkEnd] + rest));
    ReadsExpr(Var("x"), [TkIdent("x")], [TkEnd] + rest);
    ReadsUse(t, Var("x"), [TkEnd] + rest);
    ReadsBlock(t, Throw(Var("x")), rest);
    assert [TkColon] + t == [TkColon, TkThrow, TkIdent("x"), TkSemi, TkEnd] + rest;
  }

  lemma {:induction false} ReadsReturn(rest: Toks)
    ensures ParseBlock([TkColon, TkRet, TkNum("2"), TkSemi, TkEnd] + rest) ==
      Some((Seq(Ret(Lit(LNum("2"))), Skip), rest))
  {
    hide ParseOr, ParseNestable, ParseBlock;
    var t := [TkRet, TkNum("2"), TkSemi, TkEnd] + rest;
    assert t[1..] == [TkNum("2")] + ([TkSemi] + ([TkEnd] + rest));
    ReadsExpr(Lit(LNum("2")), [TkNum("2")], [TkEnd] + rest);
    ReadsUse(t, Lit(LNum("2")), [TkEnd] + rest);
    ReadsBlock(t, Ret(Lit(LNum("2"))), rest);
    assert [TkColon] + t == [TkColon, TkRet, TkNum("2"), TkSemi, TkEnd] + rest;
  }

  const CALL_TOKENS: Toks := [TkIdent("f"), TkLParen, TkNum("7"), TkRParen]

  lemma CallPrinted()
    ensures Print(CALL_F, 13) == CALL_TOKENS
  {
    assert PrintArgs(ECons(Lit(LNum("7")), ENil)) == [TkNum("7"), TkRParen];
    assert Bare(CALL_F) == CALL_TOKENS;
  }

  lemma {:induction false} ReadsCall(rest: Toks)
    ensures ParseBlock([TkColon] + CALL_TOKENS + [TkSemi, TkEnd] + rest) == Some((Seq(ExprStmt(CALL_F), Skip), rest))
  {
    hide ParseOr, ParseNestable, ParseBlock;
    var t := CALL_TOKENS + ([TkSemi] + ([TkEnd] + rest));
    CallPrinted();
    ReadsExpr(CALL_F, CALL_TOKENS, [TkEnd] + rest);
    ReadsUse(t, CALL_F, [TkEnd] + rest);
    ReadsBlock(t, ExprStmt(CALL_F), rest);
    assert [TkColon] + t == [TkColon] + CALL_TOKENS + [TkSemi, TkEnd] + rest;
  }

  const HANDLER_TOKENS: Toks := [TkCatch, TkColon, TkRet, TkNum("2"), TkSemi, TkEnd]
  const RESCUE_PART: Toks := [TkTry] + ([TkColon] + CALL_TOKENS + [TkSemi, TkEnd] + HANDLER_TOKENS)

  lemma ReadsRescue()
    ensures ParseTop(RESCUE_PART) == Some((TopStmt(RESCUE), []))
  {
    ReadsCall(HANDLER_TOKENS);
    ReadsReturn([]);
    hide ParseBlock;
    assert HANDLER_TOKENS[1..] == [TkColon, TkRet, TkNum("2"), TkSemi, TkEnd] + [];
    assert RESCUE_PART[1..] == [TkColon] + CALL_TOKENS + [TkSemi, TkEnd] + HANDLER_TOKENS;
    assert ParseTry(RESCUE_PART[1..]) == Some((RESCUE, []));
    assert ParseNestable(RESCUE_PART) == Some((RESCUE, []));
  }

  lemma {:induction false} ReadsParam(x: string, rest: Toks)
    ensures ParseParams([TkIdent(x), TkRParen] + rest) == Some(([x], rest))
  {
    var t := [TkIdent(x), TkRParen] + rest;
    assert t[1..] == [TkRParen] + rest;
    assert EatIf(t[1..], TkComma) == t[1..];
    assert ParseParams(t[1..]) == Some(([], rest));
    assert [x] + [] == [x];
  }

  lemma ReadsFunction()
    ensures ParseTop(RESCUE_TOKENS) == Some((TopFun("f", ["x"], THROWER), RESCUE_PART))
  {
    hide ParseBlock, ParseParams, ParseNestable;
    ReadsThrower(RESCUE_PART);
    var body := [TkColon, TkThrow, TkIdent("x"), TkSemi, TkEnd] + RESCUE_PART;
    ReadsParam("x", body);
    assert RESCUE_TOKENS[3..] == [TkIdent("x"), TkRParen] + body;
  }

  /** The tokens are those of the tree. */
  lemma {:induction false} RescueParses()
    ensures ParseProgram(RESCUE_TOKENS) == Some(RESCUED)
  {
    ReadsFunction();
    ReadsRescue();
    hide ParseTop;
    assert ParseProgram([]) == Some(TNil);
    assert ParseProgram(RESCUE_PART) == Some(TCons(TopStmt(RESCUE), TNil));
  }

  // ----- its run -----

  lemma {:induction false} NothingFused(code: seq<Instr>)
    requires forall i :: 0 <= i < |code| ==> FusableOp(code[i].op).None?
    ensures WindowsSafe(code) && Opt(code) == code
  {
    forall i: nat
      ensures !Fused(code, i)
    {
      if Fused(code, i) { FusedIsWindow(code, 0, i); }
    }
  }

  /** Every state of the run from `m` stays below the capacity. */
  ghost predicate Below(img: Image, m: State, capacity: nat) { forall j: nat :: |Run(img, j, m).stack| < capacity }

  lemma {:induction false} BelowStep(img: Image, m: State, n: State, capacity: nat)
    requires Step(img, m) == n && Below(img, n, capacity) && |m.stack| < capacity
    ensures Below(img, m, capacity)
  {
    hide Step;
    forall j: nat
      ensures |Run(img, j, m).stack| < capacity
    {
      if j > 0 { assert Run(img, j, m) == Run(img, j - 1, n); }
    }
  }

  lemma {:induction false} BelowEnd(img: Image, m: State, capacity: nat)
    requires m.mode.Halted? && |m.stack| < capacity
    ensures Below(img, m, capacity)
  {
    forall j: nat
      ensures |Run(img, j, m).stack| < capacity
    {
      RunStuck(img, j, m);
    }
  }

  function RescueImage(objTruth: int -> bool): Image { Image([RESCUE_CHUNK, THROWER_CHUNK], objTruth) }

  /** The machine in the top-level code, and in the function. */
  function InMain(ip: nat, stack: seq<Value>, status: Status, trying: bool, err: Value): State {
    State(0, ip, 0, 0, stack, [], 1, status, trying, err, Running)
  }

  function InF(ip: nat, stack: seq<Value>, status: Status, err: Value): State {
    State(1, ip, 1, 2, stack, [Frame(0, 5, 0, 0, 1)], 2, status, true, err, Running)
  }

  const THROWN: State := InF(3, [VNil, VInt(1), VInt(7)], StatusErrThrow, VInt(7))
  const SEEKING: State := InMain(5, [VNil, VNil], StatusErrThrow, true, VInt(7)).(mode := Seeking)
  const CAUGHT: State := InMain(8, [VNil, VNil], StatusPending, false, VInt(7))
  const ENDED: State := State(0, 9, 0, 0, [VInt(2)], [], 0, StatusOk, false, VInt(7), Halted)

  /** Into the function. */
  lemma RescueEnters(objTruth: int -> bool, capacity: nat)
    requires Below(RescueImage(objTruth), InF(0, [VNil, VInt(1), VInt(7)], StatusPending, VNil), capacity)
        && capacity > 3
    ensures Below(RescueImage(objTruth), Initial(0), capacity)
  {
    hide Step, Below;
    var img, c := RescueImage(objTruth), RESCUE_CHUNK.code;
    var m0, m1 := Initial(0), InMain(1, [VNil], StatusPending, false, VNil);
    var m2 := InMain(2, [VNil], StatusPending, true, VNil);
    var m3 := InMain(3, [VNil, VInt(1)], StatusPending, true, VNil);
    var m4 := InMain(4, [VNil, VInt(1), VInt(7)], StatusPending, true, VNil);
    var m5 := InF(0, [VNil, VInt(1), VInt(7)], StatusPending, VNil);
    StepReserve(img, m0, c[0]);
    StepTry(img, m1, c[1]);
    StepGid(img, m2, c[2]);
    StepConst(img, m3, c[3], VInt(7));
    StepCall(img, m4, c[4], 1);
    BelowStep(img, m4, m5, capacity);
    BelowStep(img, m3, m4, capacity);
    BelowStep(img, m2, m3, capacity);
    BelowStep(img, m1, m2, capacity);
    BelowStep(img, m0, m1, capacity);
  }

  lemma RescueScans()
    ensures Scan(THROWER_CHUNK.code, 2, 1) == 3 && Scan(RESCUE_CHUNK.code, 5, 1) == 7
  {
    assert Scan(THROWER_CHUNK.code, 3, 1) == 3;
    assert Scan(RESCUE_CHUNK.code, 6, 1) == Scan(RESCUE_CHUNK.code, 7, 1) == 7;
  }

  /** Out of it by the exception. */
  lemma RescueThrows(objTruth: int -> bool, capacity: nat)
    requires Below(RescueImage(objTruth), SEEKING, capacity) && capacity > 4
    ensures Below(RescueImage(objTruth), InF(0, [VNil, VInt(1), VInt(7)], StatusPending, VNil), capacity)
  {
    hide Step, Below, Scan;
    var img, c := RescueImage(objTruth), THROWER_CHUNK.code;
    var m5, m6 := InF(0, [VNil, VInt(1), VInt(7)], StatusPending, VNil), InF(1, [VNil, VInt(1), VInt(7)],
        StatusPending, VNil);
    var m7 := InF(2, [VNil, VInt(1), VInt(7), VInt(7)], StatusPending, VNil);
    RescueScans();
    StepReserve(img, m5, c[0]);
    StepGetLocal(img, m6, c[1], VInt(7));
    StepRaise(img, m7, c[2]);
    StepRet(img, THROWN, c[3], Frame(0, 5, 0, 0, 1));
    BelowStep(img, THROWN, SEEKING, capacity);
    BelowStep(img, m7, THROWN, capacity);
    BelowStep(img, m6, m7, capacity);
    BelowStep(img, m5, m6, capacity);
  }

  /** To the CATCH and the end. */
  lemma RescueCatches(objTruth: int -> bool, capacity: nat)
    requires capacity > 3
    ensures Below(RescueImage(objTruth), SEEKING, capacity)
  {
    hide Step, Below, Scan;
    var img, c := RescueImage(objTruth), RESCUE_CHUNK.code;
    var m9 := InMain(7, [VNil, VNil], StatusErrThrow, true, VInt(7));
    var m11 := InMain(9, [VNil, VNil, VInt(2)], StatusPending, false, VInt(7));
    RescueScans();
    StepSeek(img, SEEKING);
    StepCatch(img, m9, c[7]);
    StepConst(img, CAUGHT, c[8], VInt(2));
    StepHalt(img, m11, c[9]);
    BelowEnd(img, ENDED, capacity);
    BelowStep(img, m11, ENDED, capacity);
    BelowStep(img, CAUGHT, m11, capacity);
    BelowStep(img, m9, CAUGHT, capacity);
    BelowStep(img, SEEKING, m9, capacity);
  }

  lemma RescueCode()
    ensures var chunks := [RESCUE_CHUNK, THROWER_CHUNK];
      && (forall k :: 0 <= k < |chunks| ==> |chunks[k].code| < 0x1_0000 && |chunks[k].consts| <= 0x1_0000)
      && forall k :: 0 <= k < |chunks| ==> WindowsSafe(chunks[k].code) && Opt(chunks[k].code) == chunks[k].code
  {
    NothingFused(RESCUE_CHUNK.code);
    NothingFused(THROWER_CHUNK.code);
    hide WindowsSafe, Opt;
  }

  lemma RescueSized()
    ensures Sized([RESCUE_CHUNK, THROWER_CHUNK], [FunDef(["x"], THROWER, F_SCOPE)], RESCUE_SCOPE)
  {
    RescueCode();
    hide WindowsSafe, Opt, RESCUE_CHUNK, THROWER_CHUNK;
  }

  lemma RescueRoomy(objTruth: int -> bool)
    ensures Roomy(OptImage(RescueImage(objTruth)), 5)
  {
    RescueCode();
    RescueCatches(objTruth, 5);
    RescueThrows(objTruth, 5);
    RescueEnters(objTruth, 5);
    RoomyIs(RescueImage(objTruth), 5);
    hide WindowsSafe, Opt, Below, Roomy, RESCUE_CHUNK, THROWER_CHUNK;
    assert OptImage(RescueImage(objTruth)).chunks == RescueImage(objTruth).chunks;
  }

  lemma RescueFinishes(objTruth: int -> bool)
    ensures Finishes(ProgramMeaning(RESCUED, objTruth, 1))
  {
    RescueMeans(objTruth);
    hide ProgramMeaning;
  }

  /** The conditions of the end-to-end theorem can be met: this program meets them all, exception,
      unwinding and handler included. */
  lemma {:induction false} RescuePromised(objTruth: int -> bool)
    ensures Promised(RESCUE_TOKENS, objTruth, 1, 5)
  {
    hide Sized, Finishes, Roomy, OptImage, ProgramMeaning, Funs, Units, WindowsSafe, TreeChunks, TopsResult,
        ParseProgram,
         RESCUE_TOKENS, RESCUED, RESCUE_CHUNK, THROWER_CHUNK, RESCUE_SCOPE, F_SCOPE, THROWER;
    RescueParses();
    RescueCompiles();
    RescueFinishes(objTruth);
    RescueCode();
    RescueSized();
    RescueRoomy(objTruth);
    assert SourceChunks(RESCUE_TOKENS) == TreeChunks(RESCUED);
  }

  lemma RoomyIs(img: Image, capacity: nat)
    requires Below(img, Initial(0), capacity)
    ensures Roomy(img, capacity)
  {
  }

  /** So the machine returns 2. */
  method RunRescue(objTruth: int -> bool) returns (status: Status, result: Value)
    ensures status.StatusOk? && result == VInt(2)
  {
    hide *;
    RescuePromised(objTruth);
    RescueParses();
    RescueMeans(objTruth);
    var err;
    status, result, err := Interpret(RESCUE_TOKENS, objTruth, 5, 1);
  }

  // ----- a subtraction the optimizer turns around -----

  const ONE_MINUS: Expr := Bin(Sub, Lit(LNum("1")), Var("x"))
  const SUBTRACTER: Stmt := Seq(Ret(ONE_MINUS), Skip)
  const SUBTRACT: Stmt := Ret(Call(Var("f"), ECons(Lit(LNum("3")), ENil)))
  const SUBTRACTED: Tops := TCons(TopFun("f", ["x"], SUBTRACTER), TCons(TopStmt(SUBTRACT), TNil))

  const SUB_SCOPE: Scope :=
    Scope(F_ONLY, [], [Symbol("x", 1, Local), Symbol("1", 0, Constant)], true, 0, 1, [VInt(1)])
  const MAIN_SCOPE: Scope := Scope(F_ONLY, [Symbol("3", 0, Constant)], [], false, 0, 0, [VInt(3)])

  const SUB_CHUNK: Chunk :=
    Chunk([OpWide(OpReserve, 0), OpWide(OpPutK, 0), OpWide(OpLoadLocal, 1), Op(OpSub), Op(OpRet), LAST_RET], [VInt(1)])
  const MAIN_CHUNK: Chunk :=
    Chunk([OpWide(OpReserve, 0), OpWide(OpLoadImmGid, 1), OpWide(OpPutK, 0), OpWide(OpCall, 1), Op(OpRet), LAST_RET],
        [VInt(3)])
  const FUSED_CODE: Code := [OpWide(OpReserve, 0), Instr(OpSubKl, 0, 1), NOP, NOP, Op(OpRet), LAST_RET]

  const SUB_BUILT: Build := Build(F_BUILT.sc, [Op(OpReserve)], [Chunk([], []), SUB_CHUNK])

  lemma SubtracterBuilt()
    ensures TopResult(TopFun("f", ["x"], SUBTRACTER), START) == Some(SUB_BUILT)
    ensures FunOf(TopFun("f", ["x"], SUBTRACTER), START) == FunDef(["x"], SUBTRACTER, SUB_SCOPE)
  {
    FScopeIs();
    SubtracterDeclared();
    SubtracterCode();
    hide GenStmt, DeclStmt, FunScope, RecordFunc;
    assert FunCode(1, SUBTRACTER, SUB_SCOPE) == SUB_CHUNK.code;
    assert START.chunks + [SUB_CHUNK] == SUB_BUILT.chunks;
  }

  lemma SubtracterDeclared()
    ensures DeclStmt(SUBTRACTER, F_SCOPE, false) == Some(SUB_SCOPE)
  {
    Numbers();
    hide NumValue;
    assert RecordConst(F_SCOPE, "1") == SUB_SCOPE;
    assert DeclExpr(ONE_MINUS, F_SCOPE) == Some(SUB_SCOPE);
  }

  lemma SubtracterCode()
    ensures GenStmt(SUBTRACTER, SUB_SCOPE, 1, Open) == SUB_CHUNK.code[1..5]
  {
    assert ConstId(SUB_SCOPE, "1") == Some(0);
    assert GenExpr(Lit(LNum("1")), SUB_SCOPE) == [OpWide(OpPutK, 0)];
    assert Resolve(SUB_SCOPE, "x") == Some(LocRef(1));
    assert GenExpr(ONE_MINUS, SUB_SCOPE) == [OpWide(OpPutK, 0), OpWide(OpLoadLocal, 1), Op(OpSub)];
  }

  lemma SubtractAdded()
    ensures TopResult(TopStmt(SUBTRACT), SUB_BUILT) ==
      Some(Build(MAIN_SCOPE, [Op(OpReserve)] + MAIN_CHUNK.code[1..5], SUB_BUILT.chunks))
  {
    Numbers();
    hide NumValue;
    var args := ECons(Lit(LNum("3")), ENil);
    assert RecordConst(SUB_BUILT.sc, "3") == MAIN_SCOPE;
    assert DeclExpr(Lit(LNum("3")), SUB_BUILT.sc) == Some(MAIN_SCOPE);
    assert DeclArgs(args, SUB_BUILT.sc) == Some(MAIN_SCOPE);
    assert GenArgs(args, MAIN_SCOPE) == [OpWide(OpPutK, 0)];
    assert GenExpr(Call(Var("f"), args), MAIN_SCOPE) == [OpWide(OpLoadImmGid, 1), OpWide(OpPutK, 0), OpWide(OpCall, 1)];
    assert GenStmt(SUBTRACT, MAIN_SCOPE, 1, Open) == MAIN_CHUNK.code[1..5];
  }

  lemma {:induction false} SubtractCompiles()
    ensures TreeChunks(SUBTRACTED) == Some([MAIN_CHUNK, SUB_CHUNK])
    ensures TopsResult(SUBTRACTED, START).Some? && TopsResult(SUBTRACTED, START).value.sc == MAIN_SCOPE
    ensures Funs(SUBTRACTED, START) == [FunDef(["x"], SUBTRACTER, SUB_SCOPE)]
    ensures Units(SUBTRACTED, START) == [Unit(SUBTRACT, MAIN_SCOPE)]
  {
    SubtracterBuilt();
    SubtractAdded();
    hide TopResult, FunOf;
    var end := Build(MAIN_SCOPE, [Op(OpReserve)] + MAIN_CHUNK.code[1..5], SUB_BUILT.chunks);
    assert TopsResult(TCons(TopStmt(SUBTRACT), TNil), SUB_BUILT) == Some(end);
    assert (end.code + [LAST_RET])[0 := OpWide(OpReserve, 0)] == MAIN_CHUNK.code;
    assert Finish(end) == [MAIN_CHUNK, SUB_CHUNK];
    assert Funs(TCons(TopStmt(SUBTRACT), TNil), SUB_BUILT) == [];
    assert Units(TCons(TopStmt(SUBTRACT), TNil), SUB_BUILT) == [Unit(SUBTRACT, MAIN_SCOPE)];
  }

  /** The only window of the function. */
  lemma SubtractWindow()
    ensures var code := SUB_CHUNK.code;
      Fused(code, 1) && Opt(code)[0] == code[0] && Opt(code)[4] == code[4] && Opt(code)[5] == code[5]
  {
    var code := SUB_CHUNK.code;
    assert FusedFrom(code, 1, 1);
    assert Fused(code, 1);
    OnlyWindow(0);
    OnlyWindow(2);
    OnlyWindow(3);
    OnlyWindow(4);
    OnlyWindow(5);
    hide Fused;
  }

  lemma OnlyWindow(k: nat)
    requires k != 1
    ensures !Fused(SUB_CHUNK.code, k)
  {
    if Fused(SUB_CHUNK.code, k) { FusedIsWindow(SUB_CHUNK.code, 0, k); }
  }

  lemma SubtractFuses()
    ensures Fuse(OpWide(OpPutK, 0), OpWide(OpLoadLocal, 1), Sub) == Instr(OpSubKl, 0, 1)
  {
  }

  lemma SubtractOptimized()
    ensures Opt(SUB_CHUNK.code) == FUSED_CODE && Opt(MAIN_CHUNK.code) == MAIN_CHUNK.code
  {
    hide Fused, Opt, OptAt, FusedFrom, Interior, WindowsSafe, Fuse;
    NothingFused(MAIN_CHUNK.code);
    SubtractWindow();
    WindowOut(SUB_CHUNK.code, 1);
    SubtractFuses();
    assert Opt(SUB_CHUNK.code) == FUSED_CODE;
  }

  /** In the source the function gives `1 - 3`. */
  lemma SubtractMeans(objTruth: int -> bool)
    ensures ProgramMeaning(SUBTRACTED, objTruth, 1) == Retn(EMPTY_STORE, VInt(-2))
  {
    SubtractCompiles();
    var env := Env([FunDef(["x"], SUBTRACTER, SUB_SCOPE)], objTruth);
    SubtractCalled(env);
    PerformUse(env, 1, 1, SUBTRACT, MAIN_SCOPE, EMPTY_STORE);
    hide Perform, Eval, Funs, Units;
  }

  lemma SubtractApplied(env: Env)
    requires env.funs == [FunDef(["x"], SUBTRACTER, SUB_SCOPE)]
    ensures Apply(env, 0, 1, VInt(1), [VInt(3)], EMPTY_STORE) == Val(EMPTY_STORE, VInt(-2))
  {
    SubtracterMeans(env, Enter(EMPTY_STORE, ["x"], [VInt(3)]));
    hide Perform;
    assert ["x"][..0] == [] && [VInt(3)][..0] == [];
    assert Bind(["x"], [VInt(3)]) == map["x" := VInt(3)];
  }

  lemma ThreeMeans(env: Env)
    ensures Eval(env, 1, 1, Var("f"), MAIN_SCOPE, EMPTY_STORE) == Val(EMPTY_STORE, VInt(1))
    ensures Eval(env, 1, 1, Lit(LNum("3")), MAIN_SCOPE, EMPTY_STORE) == Val(EMPTY_STORE, VInt(3))
    ensures EvalArgs(env, 1, 1, ENil, MAIN_SCOPE, EMPTY_STORE) == Vals(EMPTY_STORE, [])
  {
    Numbers();
    hide NumValue, Eval;
    LeafEval(env, 1, 1, Var("f"), MAIN_SCOPE, EMPTY_STORE);
    LeafEval(env, 1, 1, Lit(LNum("3")), MAIN_SCOPE, EMPTY_STORE);
  }

  lemma SubtractCalled(env: Env)
    requires env.funs == [FunDef(["x"], SUBTRACTER, SUB_SCOPE)]
    ensures Eval(env, 1, 1, Call(Var("f"), ECons(Lit(LNum("3")), ENil)), MAIN_SCOPE, EMPTY_STORE) ==
      Val(EMPTY_STORE, VInt(-2))
  {
    hide Eval, EvalArgs, Apply, EMPTY_STORE, MAIN_SCOPE;
    SubtractApplied(env);
    ThreeMeans(env);
    ListingIs(VInt(3), Vals(EMPTY_STORE, []));
    ArgsEval(env, 1, 1, Lit(LNum("3")), ENil, MAIN_SCOPE, EMPTY_STORE);
    assert [VInt(3)] + [] == [VInt(3)];
    CallEval(env, 1, 1, Var("f"), ECons(Lit(LNum("3")), ENil), MAIN_SCOPE, EMPTY_STORE);
  }

  lemma SubtracterMeans(env: Env, st: Store)
    requires "x" in st.l && st.l["x"] == VInt(3)
    ensures Perform(env, 0, 2, SUBTRACTER, SUB_SCOPE, st) == Retn(st, VInt(-2))
  {
    Numbers();
    hide NumValue, Eval, Perform;
    LeafEval(env, 0, 2, Lit(LNum("1")), SUB_SCOPE, st);
    LeafEval(env, 0, 2, Var("x"), SUB_SCOPE, st);
    BinEval(env, 0, 2, Sub, Lit(LNum("1")), Var("x"), SUB_SCOPE, st);
    PerformUse(env, 0, 2, Ret(ONE_MINUS), SUB_SCOPE, st);
    PerformSeq(env, 0, 2, Ret(ONE_MINUS), Skip, SUB_SCOPE, st);
  }

  function FusedImage(objTruth: int -> bool): Image { Image([MAIN_CHUNK, Chunk(FUSED_CODE, [VInt(1)])], objTruth) }

  function InSub(ip: nat, stack: seq<Value>): State {
    State(1, ip, 1, 2, stack, [Frame(0, 4, 0, 0, 1)], 2, StatusPending, false, VNil, Running)
  }

  const RETURNED: State := State(0, 4, 0, 0, [VInt(2)], [], 0, StatusOk, false, VNil, Halted)

  lemma SubKlIs()
    ensures SuperOpcode(KL, Sub) == OpSubKl
  {
  }

  lemma ThreeMinusOne()
    ensures Arith(Sub, VInt(3), VInt(1)) == VInt(2)
  {
  }

  lemma FusedSubtracts(objTruth: int -> bool)
    ensures Step(FusedImage(objTruth), InSub(1, [VNil, VInt(1), VInt(3)])) ==
        InSub(2, [VNil, VInt(1), VInt(3), VInt(2)])
  {
    hide Exec, Step, Arith, SuperOpcode;
    var img, m := FusedImage(objTruth), InSub(1, [VNil, VInt(1), VInt(3)]);
    StepRunning(img, m);
    SubKlIs();
    ExecSuperIs(img, m, img.chunks[1], FUSED_CODE[1], KL, Sub);
    ThreeMinusOne();
  }

  lemma StepsTo(img: Image, m: State, a: State, b: State)
    requires Steps(img, m, a) && Step(img, a) == b
    ensures Steps(img, m, b)
  {
    hide Step, Steps;
    StepsThen(img, m, a);
  }

  /** Optimized, the program returns `3 - 1`. */
  lemma {:induction false} FusedRun(objTruth: int -> bool)
    ensures Steps(FusedImage(objTruth), Initial(0), RETURNED)
  {
    hide Step, Steps;
    var img, c, m := FusedImage(objTruth), MAIN_CHUNK.code, Initial(0);
    var m1, m2 := InMain(1, [VNil], StatusPending, false, VNil), InMain(2, [VNil, VInt(1)], StatusPending, false, VNil);
    var m3 := InMain(3, [VNil, VInt(1), VInt(3)], StatusPending, false, VNil);
    var m9 := InMain(4, [VNil, VInt(2)], StatusPending, false, VNil);
    StepReserve(img, m, c[0]);
    StepGid(img, m1, c[1]);
    StepConst(img, m2, c[2], VInt(3));
    StepCall(img, m3, c[3], 1);
    StepHalt(img, m9, c[4]);
    StepsNone(img, m);
    StepsTo(img, m, m, m1);
    StepsTo(img, m, m1, m2);
    StepsTo(img, m, m2, m3);
    StepsTo(img, m, m3, InSub(0, [VNil, VInt(1), VInt(3)]));
    SubtracterRun(objTruth);
    StepsTrans(img, m, InSub(0, [VNil, VInt(1), VInt(3)]), m9);
    StepsTo(img, m, m9, RETURNED);
  }

  lemma {:induction false} SubtracterRun(objTruth: int -> bool)
    ensures Steps(FusedImage(objTruth), InSub(0, [VNil, VInt(1), VInt(3)]),
        InMain(4, [VNil, VInt(2)], StatusPending, false, VNil))
  {
    hide Step, Steps;
    var img, f, m := FusedImage(objTruth), FUSED_CODE, InSub(0, [VNil, VInt(1), VInt(3)]);
    var m5, m6 := InSub(1, [VNil, VInt(1), VInt(3)]), InSub(2, [VNil, VInt(1), VInt(3), VInt(2)]);
    var m7, m8 := InSub(3, [VNil, VInt(1), VInt(3), VInt(2)]), InSub(4, [VNil, VInt(1), VInt(3), VInt(2)]);
    StepReserve(img, m, f[0]);
    FusedSubtracts(objTruth);
    StepNop(img, m6, f[2]);
    StepNop(img, m7, f[3]);
    StepRet(img, m8, f[4], Frame(0, 4, 0, 0, 1));
    StepsNone(img, m);
    StepsTo(img, m, m, m5);
    StepsTo(img, m, m5, m6);
    StepsTo(img, m, m6, m7);
    StepsTo(img, m, m7, m8);
    StepsTo(img, m, m8, InMain(4, [VNil, VInt(2)], StatusPending, false, VNil));
  }

  lemma FusedImageIs(objTruth: int -> bool)
    ensures OptImage(Image([MAIN_CHUNK, SUB_CHUNK], objTruth)) == FusedImage(objTruth)
  {
    SubtractOptimized();
    hide Opt;
    assert OptImage(Image([MAIN_CHUNK, SUB_CHUNK], objTruth)).chunks == FusedImage(objTruth).chunks;
  }

  lemma SubtractSized()
    ensures Sized([MAIN_CHUNK, SUB_CHUNK], [FunDef(["x"], SUBTRACTER, SUB_SCOPE)], MAIN_SCOPE)
  {
  }

  lemma EndedIs(h: State, st: Store, v: Value)
    requires Ended(h, Retn(st, v)) && v != VUndef
    ensures h.mode.Halted? && h.stack == [v]
  {
  }

  /** A program whose optimized code does not do what the program means: it means -2, its own chunks
      return that, and its optimized chunks return 2. */
  lemma {:induction false} OptimizerTurnsSubtractionAround(objTruth: int -> bool) returns (plain: State)
    ensures TreeChunks(SUBTRACTED) == Some([MAIN_CHUNK, SUB_CHUNK])
    ensures var img := Image([MAIN_CHUNK, SUB_CHUNK], objTruth);
      && ProgramMeaning(SUBTRACTED, objTruth, 1) == Retn(EMPTY_STORE, VInt(-2))
      && Steps(img, Initial(0), plain) && plain.mode.Halted? && plain.stack == [VInt(-2)]
      && Steps(OptImage(img), Initial(0), RETURNED) && RETURNED.mode.Halted? && RETURNED.stack == [VInt(2)]
  {
    SubtractCompiles();
    SubtractMeans(objTruth);
    SubtractSized();
    FusedImageIs(objTruth);
    FusedRun(objTruth);
    hide ProgramMeaning, TreeChunks, TopsResult, Funs, Units, Opt, Run, Sized, Steps, Step, Ended, Held,
         MAIN_CHUNK, SUB_CHUNK, SUBTRACTED, SUBTRACTER, SUB_SCOPE, MAIN_SCOPE;
    var before;
    before, plain := ProgramRuns(SUBTRACTED, objTruth, 1);
    EndedIs(plain, EMPTY_STORE, VInt(-2));
  }
}
