/** From source text to the end of the run: what the program means is what its compiled and optimized
    chunks do. */
module EndToEnd {
  import opened Values
  import opened Wrappers
  import opened Bytecode
  import opened Machine
  import opened Handlers
  import opened Syntax
  import opened Scoping
  import opened Slots
  import opened Codegen
  import opened ProgramSpec
  import opened Layout
  import opened CatchSearch
  import opened Semantics
  import opened Frames
  import opened ExprCases
  import opened CallCases
  import opened StmtCases
  import opened Simulation
  import opened Programs
  import opened Parser
  import opened Optimizer
  import opened OptimizerRefinement
  import opened Jumps
  import opened Shapes

  // ----- one top-level scope after another -----

  /** In top-level code nothing depends on which of the scopes is meant. */
  lemma {:induction false} MainFine(ctx: Ctx, a: Scope, b: Scope, st: Store, d: nat, m: State)
    requires Fine(ctx, a, st, d, m) && !a.inFun && !b.inFun
    ensures Fine(ctx, b, st, d, m)
  {
    HeldNothing(b.locals, Local, m.bp, m.floor, m.stack);
    hide Held;
  }

  lemma MainReach(ctx: Ctx, a: Scope, b: Scope, st: Store, d: nat, m: State, n: State, k: int, ip: int)
    requires Reach(ctx, a, st, d, m, n, k, ip) && !a.inFun && !b.inFun
    ensures Reach(ctx, b, st, d, m, n, k, ip)
  {
    hide Fine, Grew, Steps;
    MainFine(ctx, a, b, st, d, n);
  }

  lemma MainPost(ctx: Ctx, a: Scope, b: Scope, d: nat, m: State, n: State, out: SOut, end: nat)
    requires StmtPost(ctx, a, d, m, n, out, end, Open) && !a.inFun && !b.inFun
    ensures StmtPost(ctx, b, d, m, n, out, end, Open)
  {
    hide Reach, Scan, CodeOf;
    match out
    case Normal(st, k) => MainReach(ctx, a, b, st, d, m, n, k, end);
    case Retn(st, v) => MainReach(ctx, a, b, st, d, m, n, |n.stack| - |m.stack|, n.ip);
    case SThrow(st, k) => MainReach(ctx, a, b, st, d, m, n, k, Scan(CodeOf(ctx, m), end, 1));
    case _ =>
  }

  /** What the program needs beside its parse: operands fit their fields. */
  ghost predicate Sized(chunks: seq<Chunk>, fs: seq<FunDef>, fin: Scope) {
    && (forall k :: 0 <= k < |chunks| ==> |chunks[k].code| < 0x1_0000 && |chunks[k].consts| <= 0x1_0000)
    && (forall k :: 0 <= k < |fs| ==> fs[k].sc.nLoc < 0x1_0000)
    && fin.nGlob < 0x1_0000
  }

  /** The finished program as a world to run in. */
  function CtxOf(chunks: seq<Chunk>, fs: seq<FunDef>, fin: Scope, objTruth: int -> bool): Ctx {
    Ctx(Image(chunks, objTruth), Env(fs, objTruth), fin.mains, fin.nGlob)
  }

  lemma {:induction false} WorldOk(chunks: seq<Chunk>, fs: seq<FunDef>, fin: Scope, objTruth: int -> bool)
    requires ScopeOk(fin) && FunsOk(fs, fin) && Sized(chunks, fs, fin)
    requires |chunks| == |fs| + 1 && chunks[1..] == ChunksOf(fs)
    ensures World(CtxOf(chunks, fs, fin, objTruth))
  {
    hide KnownStmt, FunCode, ConstsMatch, Numbered, SeesGlobals, ParamsPlaced, DistinctNames;
    var ctx := CtxOf(chunks, fs, fin, objTruth);
    forall k | 0 <= k < |fs|
      ensures FunFits(ctx, k)
    {
      assert FunOk(fs[k], fin);
      assert chunks[1..][k] == ChunkOf(fs[k]);
    }
    assert GlobalsFit(ctx);
  }

  lemma {:induction false} UnitReady(ctx: Ctx, u: Unit, fin: Scope, st: Store, m: State)
    requires UnitFits(u, fin) && ctx.mains == fin.mains && World(ctx) && Fine(ctx, fin, st, 1, m) && Live(m)
        && !fin.inFun
    requires m.chunk < |ctx.img.chunks| && ConstsOf(ctx, m) == fin.consts && |fin.consts| <= 0x1_0000
        && |CodeOf(ctx, m)| < 0x1_0000
    ensures Ready(ctx, u.sc, st, 1, m) && !u.sc.inFun && KnownStmt(u.stmt, u.sc)
  {
    hide Fine, KnownStmt, FunFits, SeesGlobals, Numbered, ConstsMatch;
    MainFine(ctx, fin, u.sc, st, 1, m);
  }

  lemma {:induction false} UnitPiece(code: Code, pc: nat, us: seq<Unit>)
    requires us != [] && UnitsPlaced(code, pc, us) && pc + UnitsSize(us) < |code| && KnownStmt(us[0].stmt, us[0].sc)
    ensures Piece(code, pc, us[0].stmt, us[0].sc, Open)
    ensures UnitsPlaced(code, pc + StmtSize(us[0].stmt), us[1..])
    ensures UnitsSize(us) == StmtSize(us[0].stmt) + UnitsSize(us[1..])
  {
    hide PlacedStmt, KnownStmt;
  }

  lemma {:induction false} RunUnitsIs(env: Env, n: nat, us: seq<Unit>, st: Store)
    ensures us == [] ==> RunUnits(env, n, us, st) == Normal(st, 0)
    ensures us != [] ==>
      var o := Perform(env, n, 1, us[0].stmt, us[0].sc, st);
      RunUnits(env, n, us, st) == if o.Normal? then AddLeft(RunUnits(env, n, us[1..], o.st), o.left) else o
  {
    hide Perform, AddLeft;
  }

  lemma {:induction false} UnitsSearch(code: Code, pc: nat, us: seq<Unit>)
    requires UnitsPlaced(code, pc, us)
    ensures SameSearch(code, pc, pc + UnitsSize(us))
    decreases |us|
  {
    hide Scan, PlacedStmt;
    if us != [] {
      ScanBalanced(us[0].stmt, us[0].sc, pc, Open, code, 1);
      UnitsSearch(code, pc + StmtSize(us[0].stmt), us[1..]);
    }
  }

  /** The CATCH of the innermost TRY around position `p` in the top-level statements from `pc` on. */
  function UnitsHandler(us: seq<Unit>, pc: nat, p: nat): Option<nat> {
    if us == [] then None
    else Pick(Handler(us[0].stmt, pc, p), UnitsHandler(us[1..], pc + StmtSize(us[0].stmt), p))
  }

  lemma {:induction false} UnitsHandlerOutside(us: seq<Unit>, pc: nat, p: nat)
    requires p < pc
    ensures UnitsHandler(us, pc, p).None?
    decreases |us|
  {
    hide Handler;
    if us != [] {
      HandlerOutside(us[0].stmt, pc, p);
      UnitsHandlerOutside(us[1..], pc + StmtSize(us[0].stmt), p);
    }
  }

  lemma {:induction false} UnitsFind(code: Code, pc: nat, us: seq<Unit>, p: nat)
    requires UnitsPlaced(code, pc, us) && pc <= p < pc + UnitsSize(us)
    ensures Scan(code, p, 1) == Answer(UnitsHandler(us, pc, p), pc + UnitsSize(us), code)
    decreases |us|
  {
    hide Scan, PlacedStmt, Handler;
    var next, tail := pc + StmtSize(us[0].stmt), us[1..];
    if p < next {
      ScanFinds(us[0].stmt, us[0].sc, pc, Open, code, p);
      UnitsHandlerOutside(tail, next, p);
      UnitsSearch(code, next, tail);
    } else {
      HandlerOutside(us[0].stmt, pc, p);
      UnitsFind(code, next, tail, p);
    }
  }

  lemma {:induction false} UnitsFitTail(us: seq<Unit>, fin: Scope)
    requires us != [] && UnitsFit(us, fin)
    ensures UnitFits(us[0], fin) && UnitsFit(us[1..], fin)
  {
    hide UnitFits;
  }

  /** The top-level statements, one after the other. */
  lemma {:induction false} SimUnits(ctx: Ctx, n: nat, us: seq<Unit>, fin: Scope, st: Store, m: State) returns (b: State)
    requires World(ctx) && UnitsFit(us, fin) && ctx.mains == fin.mains && !fin.inFun
    requires Fine(ctx, fin, st, 1, m) && Live(m)
    requires m.chunk < |ctx.img.chunks| && ConstsOf(ctx, m) == fin.consts && |fin.consts| <= 0x1_0000
        && |CodeOf(ctx, m)| < 0x1_0000
    requires UnitsPlaced(CodeOf(ctx, m), m.ip, us) && m.ip + UnitsSize(us) < |CodeOf(ctx, m)|
    ensures StmtPost(ctx, fin, 1, m, b, RunUnits(ctx.env, n, us, st), m.ip + UnitsSize(us), Open)
    decreases |us|
  {
    hide *;
    RunUnitsIs(ctx.env, n, us, st);
    var code, end := CodeOf(ctx, m), m.ip + UnitsSize(us);
    if us == [] {
      NoUnits(ctx, fin, st, m);
      b := m;
    } else {
      var u := us[0];
      UnitsFitTail(us, fin);
      UnitReady(ctx, u, fin, st, m);
      UnitPiece(code, m.ip, us);
      var p := m.ip + StmtSize(u.stmt);
      UnitsSearch(code, p, us[1..]);
      SearchIs(code, p, end);
      var o := Perform(ctx.env, n, 1, u.stmt, u.sc, st);
      b := SimStmt(ctx, n, 1, u.stmt, u.sc, st, m, Open);
      MainPost(ctx, u.sc, fin, 1, m, b, o, p);
      StmtPostIs(ctx, fin, 1, m, b, o, p, Open);
      if o.Normal? {
        var a := b;
        RanIs(ctx, fin, o.st, 1, m, a, o.left, p);
        FineOf(ctx, fin, o.st, 1, m, a, o.left, p);
        SameChunk(ctx, fin, o.st, 1, m, a, o.left, p);
        SameConsts(ctx, m, a);
        b := SimUnits(ctx, n, us[1..], fin, o.st, a);
        Prefixed(ctx, fin, o.st, 1, m, a, b, o.left, p, RunUnits(ctx.env, n, us[1..], o.st), end, Open);
      } else {
        if o.SThrow? { ThrewOn(ctx, fin, o.st, 1, m, b, o.left, p, end); }
        StmtPostIs(ctx, fin, 1, m, b, o, end, Open);
      }
    }
  }

  lemma SameConsts(ctx: Ctx, m: State, a: State)
    requires a.chunk == m.chunk
    ensures ConstsOf(ctx, a) == ConstsOf(ctx, m)
  {
  }

  lemma NoUnits(ctx: Ctx, fin: Scope, st: Store, m: State)
    requires Fine(ctx, fin, st, 1, m) && Live(m)
    ensures StmtPost(ctx, fin, 1, m, m, Normal(st, 0), m.ip + UnitsSize([]), Open)
  {
    hide Fine, Reach;
    ReachSelf(ctx, fin, st, 1, m);
  }

  // ----- the start and the end of a run -----

  /** RESERVE puts the global variables' slots under everything else. */
  lemma {:induction false} StartMove(ctx: Ctx, fin: Scope) returns (m: State)
    requires ctx.img.chunks != [] && Is(ctx.img.chunks[0].code, 0, OpWide(OpReserve, fin.nGlob)) && fin.nGlob < 0x1_0000
    requires ctx.ng == fin.nGlob && !fin.inFun
    ensures Steps(ctx.img, Initial(0), m) && Fine(ctx, fin, EMPTY_STORE, 1, m) && Live(m)
    ensures m.ip == 1 && m.chunk == 0 && m.frames == [] && m.floor < |m.stack|
  {
    hide Steps, Step;
    StepReserve(ctx.img, Initial(0), OpWide(OpReserve, fin.nGlob));
    StepsNone(ctx.img, Initial(0));
    StepsThen(ctx.img, Initial(0), Initial(0));
    m := Step(ctx.img, Initial(0));
    HeldNothing(ctx.mains, GlobalVar, 0, m.floor, m.stack);
    HeldNothing(fin.locals, Local, m.bp, m.floor, m.stack);
  }

  /** How a run has ended when the program means `out`. */
  ghost predicate Ended(h: State, out: SOut) {
    match out
    case Normal(_, _) => h.mode.Halted? && h.status.StatusOk?
    case Retn(_, v) => h.mode.Halted? && h.status.StatusOk? && (v != VUndef ==> h.stack == [v])
    case SThrow(st, _) => h.mode.Halted? && h.status.StatusErrThrow? && h.err == st.err
    case _ => true
  }

  predicate Finishes(out: SOut) { out.Normal? || out.Retn? || out.SThrow? }

  lemma {:induction false} HaltMove(ctx: Ctx, fin: Scope, m: State, b: State, out: SOut, end: nat) returns (h: State)
    requires StmtPost(ctx, fin, 1, m, b, out, end, Open) && Finishes(out) && m.frames == [] && m.floor < |m.stack|
    requires Is(CodeOf(ctx, m), end, LAST_RET)
    ensures Steps(ctx.img, m, h) && Ended(h, out) && h == Step(ctx.img, b)
    ensures Steps(ctx.img, m, b) && Fine(ctx, fin, out.st, 1, b)
  {
    hide Scan, Held, Step, Steps, Kept;
    ScanMark(CodeOf(ctx, m), end, 1);
    var i := CodeOf(ctx, m)[b.ip];
    Here(ctx, fin, out.st, 1, m, b, |b.stack| - |m.stack|, b.ip, i);
    StepHalt(ctx.img, b, i);
    StepsThen(ctx.img, m, b);
    h := Step(ctx.img, b);
  }

  // ----- the chunks of a program -----

  lemma {:induction false} UnitsInto(a: Code, b: Code, pc: nat, us: seq<Unit>)
    requires UnitsPlaced(a, pc, us) && |a| <= |b| && forall i :: pc <= i < |a| ==> b[i] == a[i]
    ensures UnitsPlaced(b, pc, us)
    decreases |us|
  {
    hide GenStmt;
    if us != [] {
      UnitsInto(a, b, pc + StmtSize(us[0].stmt), us[1..]);
    }
  }

  /** What compiling a tree makes of it. */
  ghost predicate Compiled(tops: Tops, chunks: seq<Chunk>, fin: Scope) {
    var us, fs := Units(tops, START), Funs(tops, START);
    && chunks != [] && chunks[1..] == ChunksOf(fs) && ScopeOk(fin) && !fin.inFun && FunsOk(fs, fin) && UnitsFit(us, fin)
    && chunks[0].consts == fin.consts && Is(chunks[0].code, 0, OpWide(OpReserve, fin.nGlob))
    && UnitsPlaced(chunks[0].code, 1, us) && Is(chunks[0].code, 1 + UnitsSize(us), LAST_RET)
    && |chunks[0].code| == UnitsSize(us) + 2
  }

  lemma {:induction false} TreeCompiled(tops: Tops)
    requires TopsResult(tops, START).Some?
    ensures TreeChunks(tops).Some? && Compiled(tops, TreeChunks(tops).value, TopsResult(tops, START).value.sc)
  {
    hide TopsResult, Units, Funs, FunsOk, UnitsFit;
    var fin := TopsResult(tops, START).value;
    var us := Units(tops, START);
    assert ScopeOk(NO_SCOPE);
    TopsLater(tops, START);
    UnitsOk(tops, START);
    UnitsCode(tops, START);
    FunsChunks(tops, START);
    var code := MainChunk(fin).code;
    UnitsInto(fin.code, code, 1, us);
  }

  // ----- the theorem -----

  /** A program that means something does it: its chunks run to a halt, with the status, the value and
      the error its meaning gives, and in front of the last RET the global variables have the values its
      meaning gives them. */
  lemma {:induction false} ProgramRuns(tops: Tops, objTruth: int -> bool, n: nat) returns (b: State, h: State)
    requires TopsResult(tops, START).Some?
    requires Sized(TreeChunks(tops).value, Funs(tops, START), TopsResult(tops, START).value.sc)
    requires Finishes(ProgramMeaning(tops, objTruth, n))
    ensures var img := Image(TreeChunks(tops).value, objTruth); var out := ProgramMeaning(tops, objTruth, n);
      && Steps(img, Initial(0), h) && Ended(h, out)
      && Steps(img, Initial(0), b) && h == Step(img, b)
      && Held(out.st.g, TopsResult(tops, START).value.sc.mains, GlobalVar, 0, b.floor, b.stack)
  {
    hide *;
    var fin, us, fs := TopsResult(tops, START).value.sc, Units(tops, START), Funs(tops, START);
    TreeCompiled(tops);
    var chunks := TreeChunks(tops).value;
    b, h := CompiledRuns(tops, chunks, fin, objTruth, n);
  }

  lemma {:induction false} CompiledRuns(tops: Tops, chunks: seq<Chunk>, fin: Scope, objTruth: int -> bool,
      n: nat) returns (b: State, h: State)
    requires Compiled(tops, chunks, fin) && Sized(chunks, Funs(tops, START), fin)
        && Finishes(ProgramMeaning(tops, objTruth, n))
    ensures var img := Image(chunks, objTruth); var out := ProgramMeaning(tops, objTruth, n);
      && Steps(img, Initial(0), h) && Ended(h, out)
      && Steps(img, Initial(0), b) && h == Step(img, b)
      && Held(out.st.g, fin.mains, GlobalVar, 0, b.floor, b.stack)
  {
    hide Steps, Step, Fine, Ended, Held, World, UnitsFit, UnitsPlaced, FunsOk, ScopeOk, RunUnits, StmtPost,
         Units, Funs, Finishes;
    var us, fs := Units(tops, START), Funs(tops, START);
    var ctx, out := CtxOf(chunks, fs, fin, objTruth), ProgramMeaning(tops, objTruth, n);
    WorldOk(chunks, fs, fin, objTruth);
    var m := StartMove(ctx, fin);
    var a := SimUnits(ctx, n, us, fin, EMPTY_STORE, m);
    h := HaltMove(ctx, fin, m, a, out, 1 + UnitsSize(us));
    b := a;
    StepsTrans(ctx.img, Initial(0), m, h);
    StepsTrans(ctx.img, Initial(0), m, b);
    FinishesHas(out);
    GlobalsOf(ctx, fin, out.st, b);
  }

  lemma FinishesHas(out: SOut)
    requires Finishes(out)
    ensures !out.SStop?
  {
  }

  lemma GlobalsOf(ctx: Ctx, fin: Scope, st: Store, b: State)
    requires Fine(ctx, fin, st, 1, b)
    ensures Held(st.g, ctx.mains, GlobalVar, 0, b.floor, b.stack)
  {
    hide Held;
  }

  /** The catch search in top-level code: from any position of any statement it stops at the CATCH of
      the innermost enclosing TRY or, when there is none, at the closing RET. */
  lemma {:induction false} MainScan(tops: Tops, p: nat)
    requires TopsResult(tops, START).Some? && 1 <= p < 1 + UnitsSize(Units(tops, START))
    ensures TreeChunks(tops).Some? && |TreeChunks(tops).value| > 0
    ensures var us, code := Units(tops, START), TreeChunks(tops).value[0].code;
      var catchAt := UnitsHandler(us, 1, p);
      Scan(code, p, 1) == if catchAt.Some? then catchAt.value else 1 + UnitsSize(us)
  {
    hide *;
    TreeCompiled(tops);
    CompiledParts(tops, TreeChunks(tops).value, TopsResult(tops, START).value.sc);
    var us, code := Units(tops, START), TreeChunks(tops).value[0].code;
    var end := 1 + UnitsSize(us);
    UnitsFind(code, 1, us, p);
    AnswerNone(UnitsHandler(us, 1, p), end, code);
    LastIs(code, end);
    ScanMark(code, end, 1);
  }

  lemma {:induction false} CompiledParts(tops: Tops, chunks: seq<Chunk>, fin: Scope)
    requires Compiled(tops, chunks, fin)
    ensures |chunks| > 0 && UnitsPlaced(chunks[0].code, 1, Units(tops, START))
    ensures Is(chunks[0].code, 1 + UnitsSize(Units(tops, START)), LAST_RET)
  {
    hide UnitsPlaced, UnitsFit, FunsOk, ScopeOk, Units;
  }

  // ----- optimized -----

  /** The chunk of a function keeps its jumps away from the optimizer's windows. */
  lemma {:induction false} FunctionTidy(argc: nat, body: Stmt, sc: Scope)
    requires Bound(body, false) && StmtSize(body) + 2 < 0x1_0000
    ensures var code := FunCode(argc, body, sc); JumpsOk(code, 0, |code|)
  {
    hide GenStmt, PlacedStmt, JumpsOk, Entry, Wide, Bound, Jumps.Lands;
    var code := FunCode(argc, body, sc);
    FunLayout(argc, body, sc, code);
    var end := 1 + StmtSize(body);
    Straight(code, 0, OpWide(OpReserve, sc.nLoc - argc));
    EntryBehind(code, 0, OpWide(OpReserve, sc.nLoc - argc));
    StmtJumps(body, sc, 1, Open, code);
    JumpsJoin(code, 0, 1, end);
    Straight(code, end, LAST_RET);
    JumpsJoin(code, 0, end, end + 1);
  }

  ghost predicate UnitsBound(us: seq<Unit>) { forall i :: 0 <= i < |us| ==> Bound(us[i].stmt, false) }

  lemma {:induction false} UnitsTidy(code: Code, pc: nat, us: seq<Unit>)
    requires UnitsPlaced(code, pc, us) && UnitsBound(us) && Entry(code, pc) && pc + UnitsSize(us) < |code| < 0x1_0000
    ensures Tidy(code, pc, pc + UnitsSize(us))
    decreases |us|
  {
    hide PlacedStmt, JumpsOk, Entry, Bound, Wide;
    if us == [] {
      JumpsNone(code, pc);
    } else {
      var u, p := us[0], pc + StmtSize(us[0].stmt);
      StmtJumps(u.stmt, u.sc, pc, Open, code);
      UnitsTidy(code, p, us[1..]);
      JumpsJoin(code, pc, p, pc + UnitsSize(us));
    }
  }

  lemma {:induction false} MainTidy(code: Code, us: seq<Unit>, n: int)
    requires UnitsPlaced(code, 1, us) && UnitsBound(us) && Is(code, 0, OpWide(OpReserve, n))
        && Is(code, 1 + UnitsSize(us), LAST_RET)
    requires |code| == UnitsSize(us) + 2 && |code| < 0x1_0000
    ensures JumpsOk(code, 0, |code|)
  {
    hide UnitsPlaced, UnitsBound, JumpsOk, Entry, Wide;
    var end := 1 + UnitsSize(us);
    Straight(code, 0, OpWide(OpReserve, n));
    EntryBehind(code, 0, OpWide(OpReserve, n));
    UnitsTidy(code, 1, us);
    JumpsJoin(code, 0, 1, end);
    Straight(code, end, LAST_RET);
    JumpsJoin(code, 0, end, end + 1);
  }

  /** A jump that lands well misses every fused window. */
  lemma {:induction false} JumpsMiss(code: Code)
    requires JumpsOk(code, 0, |code|)
    ensures NoInteriorJumps(code)
  {
    hide Fused, Interior;
    forall i | 0 <= i < |code| && IsJump(code[i])
      ensures !Interior(code, JumpTarget(i, code[i]))
    {
      assert JumpOk(code, i);
      if Interior(code, JumpTarget(i, code[i])) { InteriorContents(code, JumpTarget(i, code[i])); }
    }
  }

  lemma {:induction false} BoundParts(tops: Tops, b: Build)
    requires TopsBound(tops) && TopsResult(tops, b).Some?
    ensures UnitsBound(Units(tops, b))
    ensures forall i :: 0 <= i < |Funs(tops, b)| ==> Bound(Funs(tops, b)[i].body, false)
    decreases tops
  {
    hide Bound, TopResult, DeclStmt;
    if tops.TCons? { BoundParts(tops.tail, TopResult(tops.head, b).value); }
  }

  /** Backpatching is sound for every chunk of every program that compiles: no placeholder is left, every
      jump stays in its chunk, tests jump forward, and no jump leads into a window the optimizer fuses. */
  lemma {:induction false} JumpsAreSound(t: Toks)
    requires ParseProgram(t).Some? && TopsResult(ParseProgram(t).value, START).Some?
    requires var tops := ParseProgram(t).value;
      Sized(TreeChunks(tops).value, Funs(tops, START), TopsResult(tops, START).value.sc)
    ensures forall k :: 0 <= k < |SourceChunks(t).value| ==>
      var code := SourceChunks(t).value[k].code;
      JumpsOk(code, 0, |code|) && NoInteriorJumps(code)
  {
    hide *;
    var tops := ParseProgram(t).value;
    ProgramBound(t, START);
    TreeCompiled(tops);
    BoundParts(tops, START);
    SourceIsTree(t);
    CompiledTidy(tops, TreeChunks(tops).value, TopsResult(tops, START).value.sc);
  }

  lemma {:induction false} SourceIsTree(t: Toks)
    requires ParseProgram(t).Some?
    ensures SourceChunks(t) == TreeChunks(ParseProgram(t).value)
  {
  }

  lemma {:induction false} CompiledTidy(tops: Tops, chunks: seq<Chunk>, fin: Scope)
    requires Compiled(tops, chunks, fin) && Sized(chunks, Funs(tops, START), fin) && UnitsBound(Units(tops, START))
    requires forall i :: 0 <= i < |Funs(tops, START)| ==> Bound(Funs(tops, START)[i].body, false)
    ensures forall k :: 0 <= k < |chunks| ==>
      JumpsOk(chunks[k].code, 0, |chunks[k].code|) && NoInteriorJumps(chunks[k].code)
  {
    hide JumpsOk, NoInteriorJumps, UnitsFit, UnitsPlaced, FunsOk, ScopeOk, UnitsBound, Bound, Units, Funs,
         Wide;
    var us, fs := Units(tops, START), Funs(tops, START);
    forall k | 0 <= k < |chunks|
      ensures JumpsOk(chunks[k].code, 0, |chunks[k].code|) && NoInteriorJumps(chunks[k].code)
    {
      if k == 0 {
        MainTidy(chunks[0].code, us, fin.nGlob);
      } else {
        assert chunks[k] == chunks[1..][k - 1] == ChunkOf(fs[k - 1]);
        FunctionTidyChunk(fs[k - 1]);
      }
      JumpsMiss(chunks[k].code);
    }
  }

  lemma FunctionTidyChunk(f: FunDef)
    requires Bound(f.body, false) && |ChunkOf(f).code| < 0x1_0000
    ensures JumpsOk(ChunkOf(f).code, 0, |ChunkOf(f).code|)
  {
    hide JumpsOk, Bound, GenStmt;
    FunctionTidy(|f.params|, f.body, f.sc);
  }

  /** Source text to optimized run: a program that compiles and means something, and whose windows pass
      the optimizer's guard, has one halting run that both its chunks and its optimized chunks make, in
      the same number of steps; the run ends as the meaning says. */
  lemma {:induction false} SourceToOptimizedRun(t: Toks, objTruth: int -> bool, n: nat) returns (h: State, k: nat)
    requires ParseProgram(t).Some? && TopsResult(ParseProgram(t).value, START).Some?
    requires var tops := ParseProgram(t).value;
      && Sized(TreeChunks(tops).value, Funs(tops, START), TopsResult(tops, START).value.sc)
      && Finishes(ProgramMeaning(tops, objTruth, n))
    requires forall i :: 0 <= i < |SourceChunks(t).value| ==> WindowsSafe(SourceChunks(t).value[i].code)
    ensures var img := Image(SourceChunks(t).value, objTruth);
      && Run(img, k, Initial(0)) == h && Run(OptImage(img), k, Initial(0)) == h
      && Ended(h, ProgramMeaning(ParseProgram(t).value, objTruth, n))
  {
    hide *;
    var tops := ParseProgram(t).value;
    TreeCompiled(tops);
    SourceIsTree(t);
    JumpsAreSound(t);
    var img := Image(SourceChunks(t).value, objTruth);
    var b, last := ProgramRuns(tops, objTruth, n);
    h := last;
    k := StepsOf(img, Initial(0), h);
    EndedHalts(h, ProgramMeaning(tops, objTruth, n));
    OptimizableIs(img);
    OptimizedRunEnds(img, k, 0);
  }

  lemma StepsOf(img: Image, m: State, h: State) returns (k: nat)
    requires Steps(img, m, h)
    ensures Run(img, k, m) == h
  {
    hide Run;
    k :| Run(img, k, m) == h;
  }

  lemma EndedHalts(h: State, out: SOut)
    requires Ended(h, out) && Finishes(out)
    ensures h.mode.Halted?
  {
  }

  lemma OptimizableIs(img: Image)
    requires forall i :: 0 <= i < |img.chunks| ==>
      WindowsSafe(img.chunks[i].code) && NoInteriorJumps(img.chunks[i].code)
    ensures Optimizable(img)
  {
    hide WindowsSafe, NoInteriorJumps;
  }
}
