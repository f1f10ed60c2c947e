/** Whole programs: one chunk for the top-level code and one for each FUN, in source order. */
module ProgramSpec {
  import opened Wrappers
  import opened Bytecode
  import opened Syntax
  import opened Parser
  import opened Scoping
  import opened Codegen
  import opened CompileSpec
  import opened CompileStmtSpec
  import opened CompileSteps

  /** The top-level tables, the top-level code so far and the chunks so far; chunk 0 is kept for the
      top-level code. */
  datatype Build = Build(sc: Scope, code: Code, chunks: seq<Chunk>)

  const NO_SCOPE := Scope([], [], [], false, 0, 0, [])

  /** Top-level code starts with the RESERVE that is patched at the end. */
  const START := Build(NO_SCOPE, [Op(OpReserve)], [Chunk([], [])])

  /** compiler_record_function: the first declaration of a name keeps it. */
  function RecordFunc(sc: Scope, name: string, id: nat): Scope {
    if Lookup(sc.funcs, name, Func).Some? then sc else sc.(funcs := sc.funcs + [Symbol(name, id, Func)])
  }

  /** A fresh scope inside a function, before its parameters. */
  function Inside(sc: Scope): Scope { sc.(locals := [], inFun := true, nLoc := 0, consts := []) }

  function FunScope(sc: Scope, name: string, id: nat, ps: seq<string>): Scope {
    DeclParams(ps, Inside(RecordFunc(sc, name, id)))
  }

  function FunResult(name: string, ps: seq<string>, body: Stmt, b: Build): Option<Build> {
    match DeclStmt(body, FunScope(b.sc, name, |b.chunks|, ps), false)
    case None => None
    case Some(sc) =>
      Some(b.(sc := RecordFunc(b.sc, name, |b.chunks|),
              chunks := b.chunks + [Chunk(FunCode(|ps|, body, sc), sc.consts)]))
  }

  function TopResult(top: Item, b: Build): Option<Build> {
    match top
    case TopFun(name, ps, body) => FunResult(name, ps, body, b)
    case TopStmt(s) =>
      match DeclStmt(s, b.sc, false)
      case None => None
      case Some(sc) => Some(b.(sc := sc, code := b.code + GenStmt(s, sc, |b.code|, Open)))
  }

  function TopsResult(tops: Tops, b: Build): Option<Build> {
    match tops
    case TNil => Some(b)
    case TCons(top, tail) =>
      match TopResult(top, b)
      case None => None
      case Some(b1) => TopsResult(tail, b1)
  }

  /** The finished top-level chunk. */
  function MainChunk(b: Build): Chunk
    requires b.code != []
  {
    Chunk((b.code + [LAST_RET])[0 := OpWide(OpReserve, b.sc.nGlob)], b.sc.consts)
  }

  function Finish(b: Build): seq<Chunk> {
    if b.chunks != [] && b.code != [] then b.chunks[0 := MainChunk(b)] else b.chunks
  }

  function TreeChunks(tops: Tops): Option<seq<Chunk>> {
    match TopsResult(tops, START)
    case None => None
    case Some(b) => Some(Finish(b))
  }

  /** The compiled program of a token sequence. */
  function SourceChunks(t: Toks): Option<seq<Chunk>> {
    match ParseProgram(t)
    case None => None
    case Some(tops) => TreeChunks(tops)
  }

  // ----- one pass over the tokens -----

  function TopStep(t: Toks, b: Build): Option<(Build, Toks)> {
    match ParseTop(t)
    case None => None
    case Some((top, rest)) =>
      match TopResult(top, b)
      case None => None
      case Some(b1) => Some((b1, rest))
  }

  /** What is left to do from `t` on. */
  function Remaining(t: Toks, b: Build): Option<seq<Chunk>> {
    match ParseProgram(t)
    case None => None
    case Some(tops) =>
      match TopsResult(tops, b)
      case None => None
      case Some(b1) => Some(Finish(b1))
  }

  lemma {:induction false} TopPass(t: Toks, b: Build)
    requires t != []
    ensures var r := TopStep(t, b);
      Remaining(t, b) == if r.None? then None else Remaining(r.value.1, r.value.0)
  {
    var p := ParseTop(t);
    if p.Some? {
      var q := ParseProgram(p.value.1);
      if q.Some? { assert ParseProgram(t).value == TCons(p.value.0, q.value); }
    }
  }

  /** A statement at the top level, in terms of the buffers. */
  lemma {:induction false} TopStmtPass(p: Option<(Stmt, Toks)>, m: Snap, chunks: seq<Chunk>)
    requires m.loops == [] && Sound(m.sc)
    ensures var r := StmtResult(p, m);
      if p.None? then r.None?
      else
        var b := TopResult(TopStmt(p.value.0), Build(m.sc, m.code, chunks));
        if r.None? then b.None?
        else r.value.loops == [] && r.value.rest == p.value.1 && b == Some(Build(r.value.sc, r.value.code, chunks))
  {
  }

  lemma {:induction false} TopStmtParse(t: Toks)
    requires t != [] && !t[0].TkFun?
    ensures var p := ParseNestable(t);
      ParseTop(t) ==
      if t[0].TkBreak? || t[0].TkContinue? || t[0].TkColon? || p.None? then None else Some((TopStmt(p.value.0),
          p.value.1))
    ensures t[0].TkBreak? || t[0].TkContinue? || t[0].TkColon? ==> ParseExprStmt(t).None?
  {
    if t[0].TkBreak? || t[0].TkContinue? || t[0].TkColon? {
      assert ParseLiteral(t).None?;
      assert ParseUnary(t).None?;
      LevelNone(8, t);
      assert ParseAnd(t).None?;
    }
  }

  lemma {:induction false} LevelNone(k: nat, t: Toks)
    requires k <= 8 && ParseUnary(t).None?
    ensures ParseLevel(k, t).None?
    decreases k
  {
    if k > 0 { LevelNone(k - 1, t); } else { assert ParseLevel(k, t) == ParseCoal(t); }
  }

  // ----- parameters -----

  /** The parameter loop: what is left to do from here is what is left to do in all. */
  ghost predicate ParamsInv(start: Toks, sc0: Scope, t: Toks, sc: Scope, argc: nat) {
    match ParseParams(t)
    case None => ParseParams(start).None?
    case Some((ps, rest)) =>
      ParseParams(start).Some? &&
      var (all, rest0) := ParseParams(start).value;
      rest0 == rest && DeclParams(all, sc0) == DeclParams(ps, sc) && |all| == argc + |ps|
  }

  lemma {:induction false} ParamStep(start: Toks, sc0: Scope, t: Toks, sc: Scope, argc: nat)
    requires ParamsInv(start, sc0, t, sc, argc) && t != [] && t[0].TkIdent?
    ensures ParamsInv(start, sc0, EatIf(t[1..], TkComma), RecordLocal(sc, t[0].name), argc + 1)
  {
    var p := ParseParams(EatIf(t[1..], TkComma));
    if p.Some? {
      var ps := [t[0].name] + p.value.0;
      assert ParseParams(t) == Some((ps, p.value.1));
      assert ps[1..] == p.value.0;
    }
  }

  lemma {:induction false} ParamsEnd(start: Toks, sc0: Scope, t: Toks, sc: Scope, argc: nat)
    requires ParamsInv(start, sc0, t, sc, argc) && (t == [] || At(t, TkRParen))
    ensures ParseParams(start).Some? && ParseParams(start).value.1 == Eat(t)
    ensures DeclParams(ParseParams(start).value.0, sc0) == sc && |ParseParams(start).value.0| == argc
  {
  }

  lemma {:induction false} ParamsSound(ps: seq<string>, sc: Scope)
    requires sc.inFun
    ensures DeclParams(ps, sc).inFun && DeclParams(ps, sc).funcs == sc.funcs && DeclParams(ps, sc).mains == sc.mains
    decreases |ps|
  {
    if ps != [] { ParamsSound(ps[1..], RecordLocal(sc, ps[0])); }
  }

  /** The function's chunk out of the block compiled behind its RESERVE. */
  lemma {:induction false} FunPass(argc: nat, p: Option<(Stmt, Toks)>, m: Snap)
    requires m.loops == [] && m.code == [Op(OpReserve)] && p.Some? && m.sc.inFun
    ensures var r := StmtResult(p, m);
      r.None? <==> DeclStmt(p.value.0, m.sc, false).None?
    ensures var r := StmtResult(p, m);
      r.Some? ==>
        && DeclStmt(p.value.0, m.sc, false) == Some(r.value.sc) && r.value.rest == p.value.1 && r.value.loops == []
        && |r.value.code| >= 1
        && var all := r.value.code + [LAST_RET];
           all[0 := all[0].(wide := Wide(r.value.sc.nLoc - argc))] == FunCode(argc, p.value.0, r.value.sc)
  {
    var r := StmtResult(p, m);
    if r.Some? {
      var g := GenStmt(p.value.0, r.value.sc, 1, Open);
      assert r.value.code == [Op(OpReserve)] + g;
      assert ([Op(OpReserve)] + g + [LAST_RET])[0 := OpWide(OpReserve, r.value.sc.nLoc - argc)]
        == [OpWide(OpReserve, r.value.sc.nLoc - argc)] + g + [LAST_RET];
    }
  }

  lemma {:induction false} StaysTop(p: Option<(Stmt, Toks)>, was: Snap, now: Snap)
    requires !was.sc.inFun && Sound(was.sc) && StmtResult(p, was) == Some(now)
    ensures !now.sc.inFun
  {
    DeclStmtExtends(p.value.0, was.sc, was.loops != []);
  }

  lemma {:induction false} SourceRemaining(t: Toks)
    ensures Remaining(t, START) == SourceChunks(t)
  {
  }

  lemma SourceEnd(b: Build)
    requires Shaped(b)
    ensures Remaining([], b) == Some(Finish(b))
  {
  }

  /** The top-level code keeps its RESERVE in front. */
  predicate Shaped(b: Build) {
    b.code != [] && b.code[0] == Op(OpReserve) && b.chunks != []
  }

  lemma {:induction false} TopShape(t: Toks, b: Build)
    requires Shaped(b)
    ensures TopStep(t, b).Some? ==> Shaped(TopStep(t, b).value.0)
  {
  }

  /** Parameters, RESERVE, body and closing RET of a function whose scope is `sc0`. */
  function BodySteps(t: Toks, sc0: Scope): Option<(Chunk, Toks)> {
    match ParseParams(t)
    case None => None
    case Some((ps, t1)) =>
      match ParseBlock(t1)
      case None => None
      case Some((body, t2)) =>
        match DeclStmt(body, DeclParams(ps, sc0), false)
        case None => None
        case Some(sc) => Some((Chunk(FunCode(|ps|, body, sc), sc.consts), t2))
  }

  lemma {:induction false} FunIs(t: Toks, b: Build)
    requires t != [] && t[0].TkFun?
    ensures |t| < 3 || !t[1].TkIdent? || t[2] != TkLParen ==> TopStep(t, b).None?
    ensures |t| >= 3 && t[1].TkIdent? && t[2] == TkLParen ==>
      var sc := RecordFunc(b.sc, t[1].name, |b.chunks|);
      var r := BodySteps(t[3..], Inside(sc));
      TopStep(t, b) == if r.None? then None else Some((b.(sc := sc, chunks := b.chunks + [r.value.0]), r.value.1))
  {
  }

  lemma {:induction false} BodyIs(t: Toks, sc0: Scope, m: Snap, argc: nat)
    requires ParseParams(t).Some? && m.loops == [] && m.code == [Op(OpReserve)] && m.sc.inFun
    requires var (ps, t1) := ParseParams(t).value; m.rest == t1 && m.sc == DeclParams(ps, sc0) && argc == |ps|
    ensures var r := StmtResult(ParseBlock(m.rest), m);
      if r.None? then BodySteps(t, sc0).None?
      else
        && r.value.code != [] && r.value.loops == []
        && var all := r.value.code + [LAST_RET];
           BodySteps(t, sc0) == Some((Chunk(all[0 := all[0].(wide := Wide(r.value.sc.nLoc - argc))],
               r.value.sc.consts), r.value.rest))
  {
    hide StmtResult, FunCode, DeclStmt, DeclParams, ParseParams, ParseBlock;
    var p := ParseBlock(m.rest);
    if p.Some? { FunPass(argc, p, m); } else { NoStmt(m); }
  }

  lemma {:induction false} NoParams(t: Toks, sc0: Scope)
    ensures ParseParams(t).None? ==> BodySteps(t, sc0).None?
  {
  }
}
