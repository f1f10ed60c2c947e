/** Whole programs: the meaning of a source text, its chunks, and the run of the one against the other. */
module Programs {
  import opened Values
  import opened Wrappers
  import opened Bytecode
  import opened Syntax
  import opened Scoping
  import opened Slots
  import opened Codegen
  import opened ProgramSpec
  import opened Semantics
  import opened Frames
  import opened CallCases
  import opened Layout

  /** A top-level statement and the names visible when it was compiled. */
  datatype Unit = Unit(stmt: Stmt, sc: Scope)

  /** The top-level statements of a program in order, */
  function Units(tops: Tops, b: Build): seq<Unit> {
    match tops
    case TNil => []
    case TCons(top, tail) =>
      match TopResult(top, b)
      case None => []
      case Some(b1) => (if top.TopStmt? then [Unit(top.s, b1.sc)] else []) + Units(tail, b1)
  }

  /** and its functions. */
  function Funs(tops: Tops, b: Build): seq<FunDef> {
    match tops
    case TNil => []
    case TCons(top, tail) =>
      match TopResult(top, b)
      case None => []
      case Some(b1) => (if top.TopFun? then [FunOf(top, b)] else []) + Funs(tail, b1)
  }

  function FunOf(top: Item, b: Build): FunDef
    requires top.TopFun? && TopResult(top, b).Some?
  {
    FunDef(top.params, top.body, DeclStmt(top.body, FunScope(b.sc, top.name, |b.chunks|, top.params), false).value)
  }

  /** The top-level code runs its statements in order, at call depth one. */
  function RunUnits(env: Env, n: nat, us: seq<Unit>, st: Store): SOut {
    if us == [] then Normal(st, 0)
    else match Perform(env, n, 1, us[0].stmt, us[0].sc, st)
      case Normal(s1, k) => AddLeft(RunUnits(env, n, us[1..], s1), k)
      case o => o
  }

  const EMPTY_STORE := Store(map[], map[], false, VNil)

  /** What a program means with fuel `n`. */
  function ProgramMeaning(tops: Tops, objTruth: int -> bool, n: nat): SOut {
    RunUnits(Env(Funs(tops, START), objTruth), n, Units(tops, START), EMPTY_STORE)
  }

  // ----- top-level scopes only learn -----

  /** `b` knows the globals and constants of `a` under the same ids. */
  ghost predicate Later(a: Scope, b: Scope) {
    && !a.inFun && !b.inFun && SeesGlobals(a.mains, b.mains)
    && |a.consts| <= |b.consts| && b.consts[..|a.consts|] == a.consts
  }

  lemma LaterSelf(a: Scope)
    requires !a.inFun
    ensures Later(a, a)
  {
  }

  lemma {:induction false} LaterTrans(a: Scope, b: Scope, c: Scope)
    requires Later(a, b) && Later(b, c)
    ensures Later(a, c)
  {
    assert c.consts[..|a.consts|] == c.consts[..|b.consts|][..|a.consts|];
    forall x | Lookup(a.mains, x, GlobalVar).Some?
      ensures Lookup(c.mains, x, GlobalVar) == Lookup(a.mains, x, GlobalVar)
    {
      assert Lookup(b.mains, x, GlobalVar) == Lookup(a.mains, x, GlobalVar);
    }
  }

  lemma {:induction false} StmtLater(s: Stmt, sc: Scope)
    requires ScopeOk(sc) && !sc.inFun && DeclStmt(s, sc, false).Some?
    ensures var sc1 := DeclStmt(s, sc, false).value;
      Later(sc, sc1) && ScopeOk(sc1) && KnownStmt(s, sc1)
  {
    DeclStmtExtends(s, sc, false);
    DeclStmtOk(s, sc, false);
    DeclStmtKnown(s, sc, false);
    hide DeclStmt, ScopeOk, KnownStmt;
    var sc1 := DeclStmt(s, sc, false).value;
    forall x | Lookup(sc.mains, x, GlobalVar).Some?
      ensures Lookup(sc1.mains, x, GlobalVar) == Lookup(sc.mains, x, GlobalVar)
    {
      assert Lookup(Current(sc), x, GlobalVar).Some?;
    }
  }

  /** What the function table adds does not matter to globals and constants. */
  lemma {:induction false} FuncLater(sc: Scope, name: string, id: nat)
    requires ScopeOk(sc) && !sc.inFun
    ensures Later(sc, RecordFunc(sc, name, id)) && ScopeOk(RecordFunc(sc, name, id))
  {
  }

  lemma {:induction false} TopLater(top: Item, b: Build)
    requires ScopeOk(b.sc) && !b.sc.inFun && TopResult(top, b).Some?
    ensures var b1 := TopResult(top, b).value; Later(b.sc, b1.sc) && ScopeOk(b1.sc) && !b1.sc.inFun
  {
    match top
    case TopStmt(s) => StmtLater(s, b.sc);
    case TopFun(name, _, _) => FuncLater(b.sc, name, |b.chunks|);
  }

  lemma {:induction false} TopsLater(tops: Tops, b: Build)
    requires ScopeOk(b.sc) && !b.sc.inFun && TopsResult(tops, b).Some?
    ensures var b1 := TopsResult(tops, b).value; Later(b.sc, b1.sc) && ScopeOk(b1.sc) && !b1.sc.inFun
    decreases tops
  {
    hide ScopeOk, Later, TopResult;
    match tops
    case TNil => LaterSelf(b.sc);
    case TCons(top, tail) =>
      TopLater(top, b);
      var b1 := TopResult(top, b).value;
      TopsLater(tail, b1);
      LaterTrans(b.sc, b1.sc, TopsResult(tail, b1).value.sc);
  }

  // ----- units -----

  /** A unit is ready to be run beside the finished program. */
  ghost predicate UnitFits(u: Unit, fin: Scope) {
    ScopeOk(u.sc) && Later(u.sc, fin) && KnownStmt(u.stmt, u.sc)
  }

  ghost predicate UnitsFit(us: seq<Unit>, fin: Scope) {
    forall i :: 0 <= i < |us| ==> UnitFits(us[i], fin)
  }

  function UnitsSize(us: seq<Unit>): nat {
    if us == [] then 0 else StmtSize(us[0].stmt) + UnitsSize(us[1..])
  }

  /** The code of the units lies one behind the other. */
  ghost predicate UnitsPlaced(code: Code, pc: nat, us: seq<Unit>)
    decreases |us|
  {
    us != [] ==>
      PlacedStmt(code, pc, us[0].stmt, us[0].sc, Open) && UnitsPlaced(code, pc + StmtSize(us[0].stmt), us[1..])
  }

  lemma {:induction false} UnitsOk(tops: Tops, b: Build)
    requires ScopeOk(b.sc) && !b.sc.inFun && TopsResult(tops, b).Some?
    ensures UnitsFit(Units(tops, b), TopsResult(tops, b).value.sc)
    decreases tops
  {
    hide ScopeOk, Later;
    if tops.TCons? {
      var b1 := TopResult(tops.head, b).value;
      TopLater(tops.head, b);
      TopsLater(tops.tail, b1);
      UnitsOk(tops.tail, b1);
      if tops.head.TopStmt? { StmtLater(tops.head.s, b.sc); }
    }
  }

  /** One declaration and the rest. */
  lemma {:induction false} TopsSplit(top: Item, tail: Tops, b: Build)
    ensures TopsResult(TCons(top, tail), b).Some? ==>
      && TopResult(top, b).Some?
      && var b1 := TopResult(top, b).value;
         && TopsResult(TCons(top, tail), b) == TopsResult(tail, b1)
         && Units(TCons(top, tail), b) == (if top.TopStmt? then [Unit(top.s, b1.sc)] else []) + Units(tail, b1)
         && Funs(TCons(top, tail), b) == (if top.TopFun? then [FunOf(top, b)] else []) + Funs(tail, b1)
  {
    hide TopResult, FunOf;
  }

  /** The top-level code after one declaration. */
  lemma {:induction false} TopCode(top: Item, b: Build, code: Code, us: seq<Unit>)
    requires TopResult(top, b).Some?
    requires var b1 := TopResult(top, b).value;
      |b1.code| <= |code| && code[..|b1.code|] == b1.code && UnitsPlaced(code, |b1.code|, us)
    ensures var b1 := TopResult(top, b).value;
      var all := (if top.TopStmt? then [Unit(top.s, b1.sc)] else []) + us;
      && |b1.code| + UnitsSize(us) == |b.code| + UnitsSize(all) && |b.code| <= |b1.code| && b.code == code[..|b.code|]
      && UnitsPlaced(code, |b.code|, all)
  {
    hide GenStmt, DeclStmt, StmtSize;
    var b1 := TopResult(top, b).value;
    if top.TopStmt? {
      var g := GenStmt(top.s, b1.sc, |b.code|, Open);
      assert b1.code == b.code + g;
      forall i | 0 <= i < |g| ensures code[|b.code| + i] ==
          g[i] { assert code[|b.code| + i] == code[..|b1.code|][|b.code| + i]; }
      assert ([Unit(top.s, b1.sc)] + us)[1..] == us;
      assert code[..|b.code|] == code[..|b1.code|][..|b.code|];
    } else {
      assert [] + us == us;
    }
  }

  /** The code buffer of the top level: what was there and the units behind it. */
  lemma {:induction false} UnitsCode(tops: Tops, b: Build)
    requires TopsResult(tops, b).Some?
    ensures var fin := TopsResult(tops, b).value;
      && |fin.code| == |b.code| + UnitsSize(Units(tops, b)) && b.code == fin.code[..|b.code|]
      && UnitsPlaced(fin.code, |b.code|, Units(tops, b))
    decreases tops, 1
  {
    if tops.TNil? {
      assert b.code[..|b.code|] == b.code;
    } else {
      UnitsCodeMore(tops.head, tops.tail, b);
    }
  }

  lemma {:induction false} UnitsCodeMore(top: Item, tail: Tops, b: Build)
    requires TopsResult(TCons(top, tail), b).Some?
    ensures var fin, us := TopsResult(TCons(top, tail), b).value, Units(TCons(top, tail), b);
      |fin.code| == |b.code| + UnitsSize(us) && b.code == fin.code[..|b.code|] && UnitsPlaced(fin.code, |b.code|, us)
    decreases tail, 2
  {
    hide *;
    TopsSplit(top, tail, b);
    var b1 := TopResult(top, b).value;
    UnitsCode(tail, b1);
    TopCode(top, b, TopsResult(tail, b1).value.code, Units(tail, b1));
  }

  // ----- functions -----

  /** A function is ready to be called beside the finished program. */
  ghost predicate FunOk(f: FunDef, fin: Scope) {
    && ScopeOk(f.sc) && f.sc.inFun && SeesGlobals(f.sc.mains, fin.mains) && KnownStmt(f.body, f.sc)
    && (DistinctNames(f.params) ==> |f.params| <= f.sc.nLoc && ParamsPlaced(f.params, f.sc))
  }

  function ChunkOf(f: FunDef): Chunk { Chunk(FunCode(|f.params|, f.body, f.sc), f.sc.consts) }

  lemma {:induction false} FunOfOk(top: Item, b: Build)
    requires ScopeOk(b.sc) && !b.sc.inFun && top.TopFun? && TopResult(top, b).Some?
    ensures FunOk(FunOf(top, b), b.sc)
    ensures TopResult(top, b).value.chunks == b.chunks + [ChunkOf(FunOf(top, b))]
  {
    var f := FunOf(top, b);
    var sc0 := Inside(RecordFunc(b.sc, top.name, |b.chunks|));
    var sc1 := DeclParams(top.params, sc0);
    InsideOk(b.sc, top.name, |b.chunks|);
    DeclParamsOk(top.params, sc0);
    ParamsSound(top.params, sc0);
    DeclStmtOk(top.body, sc1, false);
    DeclStmtKnown(top.body, sc1, false);
    DeclStmtExtends(top.body, sc1, false);
    hide DeclStmt, KnownStmt, FunCode, DeclParams;
    ParamsStay(top.params, sc0, sc1, f.sc);
  }

  lemma {:induction false} InsideOk(sc: Scope, name: string, id: nat)
    requires ScopeOk(sc) && !sc.inFun
    ensures var sc0 := Inside(RecordFunc(sc, name, id));
      ScopeOk(sc0) && sc0.inFun && sc0.mains == sc.mains && sc0.locals == [] && sc0.nLoc == 0
  {
  }

  lemma {:induction false} ParamsStay(ps: seq<string>, sc0: Scope, sc1: Scope, fin: Scope)
    requires sc0.inFun && sc0.locals == [] && sc0.nLoc == 0 && sc1 == DeclParams(ps, sc0) && sc1.inFun
        && Extends(sc1, fin)
    ensures fin.mains == sc1.mains && fin.inFun
    ensures DistinctNames(ps) ==> |ps| <= fin.nLoc && ParamsPlaced(ps, fin)
  {
    if DistinctNames(ps) {
      ParamSlots(ps, sc0);
      forall i | 0 <= i < |ps|
        ensures Lookup(fin.locals, ps[i], Local) == Some(i + 1)
      {
        assert Lookup(Current(sc1), ps[i], Local) == Some(i + 1);
      }
    }
  }

  lemma {:induction false} SeesLater(f: FunDef, a: Scope, b: Scope)
    requires FunOk(f, a) && Later(a, b)
    ensures FunOk(f, b)
  {
    hide ScopeOk, KnownStmt, ParamsPlaced, DistinctNames;
    forall x | Lookup(f.sc.mains, x, GlobalVar).Some?
      ensures Lookup(b.mains, x, GlobalVar) == Lookup(f.sc.mains, x, GlobalVar)
    {
      assert Lookup(a.mains, x, GlobalVar) == Lookup(f.sc.mains, x, GlobalVar);
    }
  }

  ghost predicate FunsOk(fs: seq<FunDef>, fin: Scope) {
    forall i :: 0 <= i < |fs| ==> FunOk(fs[i], fin)
  }

  function ChunksOf(fs: seq<FunDef>): (cs: seq<Chunk>)
    ensures |cs| == |fs| && forall i :: 0 <= i < |fs| ==> cs[i] == ChunkOf(fs[i])
  {
    if fs == [] then [] else [ChunkOf(fs[0])] + ChunksOf(fs[1..])
  }

  /** The chunks of the functions, in order of their declarations. */
  lemma {:induction false} FunsChunks(tops: Tops, b: Build)
    requires ScopeOk(b.sc) && !b.sc.inFun && TopsResult(tops, b).Some?
    ensures FunsOk(Funs(tops, b), TopsResult(tops, b).value.sc)
    ensures TopsResult(tops, b).value.chunks == b.chunks + ChunksOf(Funs(tops, b))
    decreases tops, 1
  {
    if tops.TCons? { FunsChunksMore(tops.head, tops.tail, b); }
  }

  lemma {:induction false} FunsChunksMore(top: Item, tail: Tops, b: Build)
    requires ScopeOk(b.sc) && !b.sc.inFun && TopsResult(TCons(top, tail), b).Some?
    ensures FunsOk(Funs(TCons(top, tail), b), TopsResult(TCons(top, tail), b).value.sc)
    ensures TopsResult(TCons(top, tail), b).value.chunks == b.chunks + ChunksOf(Funs(TCons(top, tail), b))
    decreases tail, 2
  {
    hide *;
    TopsSplit(top, tail, b);
    var b1 := TopResult(top, b).value;
    TopLater(top, b);
    TopsLater(tail, b1);
    FunsChunks(tail, b1);
    var fin, fs := TopsResult(tail, b1).value, Funs(tail, b1);
    if top.TopFun? {
      FunOfOk(top, b);
      LaterTrans(b.sc, b1.sc, fin.sc);
      SeesLater(FunOf(top, b), b.sc, fin.sc);
      FunsMore(FunOf(top, b), fs, fin.sc, b.chunks);
    } else {
      StmtChunks(top, b);
      assert [] + fs == fs;
    }
  }

  lemma {:induction false} FunsMore(f: FunDef, fs: seq<FunDef>, fin: Scope, cs: seq<Chunk>)
    requires FunOk(f, fin) && FunsOk(fs, fin)
    ensures FunsOk([f] + fs, fin) && cs + [ChunkOf(f)] + ChunksOf(fs) == cs + ChunksOf([f] + fs)
  {
    hide FunOk, ChunkOf;
    assert ([f] + fs)[1..] == fs;
    assert cs + [ChunkOf(f)] + ChunksOf(fs) == cs + ([ChunkOf(f)] + ChunksOf(fs));
  }

  lemma {:induction false} StmtChunks(top: Item, b: Build)
    requires top.TopStmt? && TopResult(top, b).Some?
    ensures TopResult(top, b).value.chunks == b.chunks
  {
    hide GenStmt;
  }
}
