/** One equation for each statement form: compiling it is compiling its parts in token order, with
    the emissions and patches between them. The equations follow the methods of the compiler; their
    left sides are the parse, the declarations and the finished code of the whole statement. */
module CompileSteps {
  import opened Wrappers
  import opened Bytecode
  import opened Syntax
  import opened Parser
  import opened Scoping
  import opened Codegen
  import opened Backpatch
  import opened CompileSpec
  import opened CompileStmtSpec
  import opened LadderSpec

  /** What a statement method does to the buffers, given the parse of what it read. */
  ghost predicate StmtPost(p: Option<(Stmt, Toks)>, was: Snap, now: Snap, ok: bool) {
    && ok == StmtResult(p, was).Some?
    && (ok ==> now == StmtResult(p, was).value && Sound(now.sc) && |now.rest| < |was.rest|)
  }

  /** The semicolon that closes a statement. */
  function Semi(m: Snap): Option<Snap> {
    if At(m.rest, TkSemi) then Some(m.(rest := m.rest[1..])) else None
  }

  lemma {:induction false} StmtDone(p: Option<(Stmt, Toks)>, was: Snap, now: Snap)
    requires Sound(was.sc) && StmtResult(p, was) == Some(now) && |now.rest| < |was.rest|
    ensures StmtPost(p, was, now, true)
  {
    StmtSound(p.value.0, was.sc, was.loops != []);
  }

  lemma {:induction false} StmtDead(p: Option<(Stmt, Toks)>, was: Snap, now: Snap)
    requires StmtResult(p, was).None?
    ensures StmtPost(p, was, now, false)
  {
  }

  lemma {:induction false} StmtIs(p: Option<(Stmt, Toks)>, was: Snap, now: Snap, ok: bool)
    requires StmtPost(p, was, now, ok)
    ensures ok ==> StmtResult(p, was) == Some(now) && Sound(now.sc) && |now.rest| < |was.rest|
    ensures !ok ==> StmtResult(p, was).None?
  {
  }

  // ----- statements made of one expression -----

  function UseSteps(t: Toks, i: Instr, was: Snap): Option<Snap> {
    match ExprResult(ParseOr(t), was)
    case None => None
    case Some(r) => Semi(Emit(r, i))
  }

  function RetParse(t: Toks): Option<(Stmt, Toks)> {
    match ParseOr(t)
    case None => None
    case Some((e, rest)) => if At(rest, TkSemi) then Some((Ret(e), rest[1..])) else None
  }

  function ThrowParse(t: Toks): Option<(Stmt, Toks)> {
    match ParseOr(t)
    case None => None
    case Some((e, rest)) => if At(rest, TkSemi) then Some((Throw(e), rest[1..])) else None
  }

  lemma {:induction false} RetPass(t: Toks, was: Snap)
    ensures StmtResult(RetParse(t), was) == UseSteps(t, Op(OpRet), was)
  {
    var p := ParseOr(t);
    if p.Some? { UseResult(Ret(p.value.0), was, p.value.1, Eat(p.value.1)); }
  }

  lemma {:induction false} ThrowPass(t: Toks, was: Snap)
    ensures StmtResult(ThrowParse(t), was) == UseSteps(t, Op(OpRaiseErr), was)
  {
    var p := ParseOr(t);
    if p.Some? { UseResult(Throw(p.value.0), was, p.value.1, Eat(p.value.1)); }
  }

  function ExprStmtSteps(t: Toks, was: Snap): Option<Snap> {
    if !NameTarget(t) then UseSteps(t, POP, was)
    else if !Assignable(was.sc, t[0].name) then None
    else UseSteps(t[2..], StoreRef(Resolve(was.sc, t[0].name)), was)
  }

  lemma {:induction false} ExprStmtPass(t: Toks, was: Snap)
    requires Sound(was.sc)
    ensures StmtResult(ParseExprStmt(t), was) == ExprStmtSteps(t, was)
  {
    if NameTarget(t) {
      var p := ParseOr(t[2..]);
      if p.Some? { AssignResult(t[0].name, p.value.0, was, p.value.1, Eat(p.value.1)); }
    } else if IsTarget(t) {
      TargetFails(t);
    } else {
      var p := ParseOr(t);
      if p.Some? { UseResult(ExprStmt(p.value.0), was, p.value.1, Eat(p.value.1)); }
    }
  }

  // ----- conditionals -----

  function IfSteps(t: Toks, was: Snap): Option<Snap> {
    match ExprResult(ParseOr(t), was)
    case None => None
    case Some(r) =>
      match StmtResult(ParseBlock(r.rest), Emit(r, Op(OpJmpFalse)))
      case None => None
      case Some(q) => ElseSteps(r, q)
  }

  function ElseSteps(r: Snap, q: Snap): Option<Snap> {
    if !At(q.rest, TkElse) then Some(IfDone(r, q))
    else match StmtResult(ParseNestable(q.rest[1..]), ElseStart(q))
      case None => None
      case Some(p) => Some(IfElseDone(r, q, p))
  }

  function ElseStart(q: Snap): Snap { Emit(q, Op(OpJmp)).(rest := Eat(q.rest)) }

  lemma {:induction false} IfPass(t: Toks, was: Snap)
    requires Sound(was.sc)
    ensures StmtResult(ParseIf(t), was) == IfSteps(t, was)
  {
    hide DeclExpr, GenExpr, GenStmt, Breaks, Conts, ParseOr, ParseBlock, ParseNestable, IfDone, IfElseDone;
    var c := ParseOr(t);
    if c.Some? {
      var b := ParseBlock(c.value.1);
      if b.Some? {
        if !At(b.value.1, TkElse) {
          IfResult(c.value.0, b.value.0, was, c.value.1, b.value.1);
        } else {
          var e := ParseNestable(b.value.1[1..]);
          if e.Some? {
            IfElseResult(c.value.0, b.value.0, e.value.0, was, c.value.1, b.value.1, b.value.1[1..], e.value.1);
          }
        }
      }
    }
  }

  // ----- loops -----

  function WhileSteps(t: Toks, was: Snap): Option<Snap> {
    match ExprResult(ParseOr(t), Enter(was))
    case None => None
    case Some(r) =>
      match StmtResult(ParseBlock(r.rest), Emit(r, Op(OpJmpFalse)))
      case None => None
      case Some(q) => Some(WhileDone(was, r, q))
  }

  lemma {:induction false} WhilePass(t: Toks, was: Snap)
    requires Sound(was.sc)
    ensures StmtResult(ParseWhile(t), was) == WhileSteps(t, was)
  {
    hide DeclExpr, GenExpr, GenStmt, Breaks, Conts, ParseOr, ParseBlock, WhileDone;
    var c := ParseOr(t);
    if c.Some? {
      var b := ParseBlock(c.value.1);
      if b.Some? { WhileResult(c.value.0, b.value.0, was, c.value.1, b.value.1); }
    }
  }

  function ForSteps(t: Toks, was: Snap): Option<Snap> {
    if t == [] || !t[0].TkIdent? || !At(t[1..], TkColon) then None
    else match ExprResult(ParseOr(t[2..]), Enter(was))
      case None => None
      case Some(r) =>
        if !IsCounter(was.sc, t[0].name) || !At(r.rest, TkComma) then None
        else ForTestSteps(|r.code| + 1, ForStart(r, t[0].name, was.sc, r.rest[1..]))
  }

  function ForTestSteps(begin: nat, s: Snap): Option<Snap> {
    match ExprResult(ParseOr(s.rest), s)
    case None => None
    case Some(q) =>
      if !At(q.rest, TkComma) then None
      else match StmtResult(ParseExprStmt(q.rest[1..]), ForHead(q, q.rest[1..]))
        case None => None
        case Some(u) => ForBodySteps(q, ForMiddle(begin, q, u))
  }

  function ForBodySteps(q: Snap, m: Snap): Option<Snap> {
    match StmtResult(ParseBlock(m.rest), m)
    case None => None
    case Some(b) => Some(ForDone(q, b))
  }

  lemma {:induction false} ForPass(t: Toks, was: Snap)
    requires Sound(was.sc)
    ensures StmtResult(ParseFor(t), was) == ForSteps(t, was)
  {
    hide ParseOr, ParseBlock, ParseExprStmt, IsCounter, ForDone, GenExpr, GenStmt, Breaks, Conts, DeclExpr,
         ForMiddle;
    if t != [] && t[0].TkIdent? && At(t[1..], TkColon) {
      var i := ParseOr(t[2..]);
      if i.Some? && At(i.value.1, TkComma) {
        var c := ParseOr(i.value.1[1..]);
        if c.Some? && At(c.value.1, TkComma) {
          var u := ParseExprStmt(c.value.1[1..]);
          if u.Some? {
            var b := ParseBlock(u.value.1);
            MiddleRest();
            if b.Some? {
              ForResult(t[0].name, i.value.0, c.value.0, u.value.0, b.value.0, was,
                        i.value.1, i.value.1[1..], c.value.1, c.value.1[1..], u.value.1, b.value.1);
            }
          }
        }
      }
    }
  }

  /** The patch in the middle of a FOR moves no tokens. */
  lemma MiddleRest()
    ensures forall begin, q, m :: ForMiddle(begin, q, m).rest == m.rest
  {
  }

  function TrySteps(t: Toks, was: Snap): Option<Snap> {
    match StmtResult(ParseBlock(t), Emit(was, Op(OpTry)))
    case None => None
    case Some(r) => CatchSteps(r)
  }

  function CatchSteps(r: Snap): Option<Snap> {
    if !At(r.rest, TkCatch) then None
    else match StmtResult(ParseBlock(r.rest[1..]), CatchStart(r))
      case None => None
      case Some(q) => Some(TryDone(r, q))
  }

  function CatchStart(r: Snap): Snap { Emit(Emit(r, Op(OpJmp)), Op(OpCatchErr)).(rest := Eat(r.rest)) }

  lemma {:induction false} TryPass(t: Toks, was: Snap)
    requires Sound(was.sc)
    ensures StmtResult(ParseTry(t), was) == TrySteps(t, was)
  {
    hide GenStmt, Breaks, Conts, ParseBlock, TryDone;
    var b := ParseBlock(t);
    if b.Some? && At(b.value.1, TkCatch) {
      var h := ParseBlock(b.value.1[1..]);
      if h.Some? {
        TryResult(b.value.0, h.value.0, was, b.value.1, b.value.1[1..], h.value.1);
      }
    }
  }

  /** The positions a loop's body has recorded lie in the code. */
  lemma {:induction false} LoopPositions(p: Option<(Stmt, Toks)>, was: Snap, now: Snap, m: Snap)
    requires m.loops == was.loops + [OpenLoop([], [])] && StmtResult(p, m) == Some(now)
    ensures |now.loops| == |was.loops| + 1 && now.loops[..|was.loops|] == was.loops
    ensures var lp := now.loops[|was.loops|];
      (forall k :: k in lp.breaks ==> k < |now.code|) && (forall k :: k in lp.conts ==> k < |now.code|)
    ensures |m.code| <= |now.code| && now.code[..|m.code|] == m.code
  {
    var s := p.value.0;
    TrackFresh(was.loops, s, |m.code|);
    ClosingPatches(s, now.sc, |m.code|, 0, 0);
  }

  /** A BREAK or CONTINUE inside a loop records where it is. */
  function JumpSteps(brk: bool, rest: Toks, was: Snap): Option<Snap> {
    if was.loops == [] then None
    else
      var n, pc := |was.loops| - 1, |was.code|;
      var lp := was.loops[n];
      var lp' := if brk then lp.(breaks := lp.breaks + [pc]) else lp.(conts := lp.conts + [pc]);
      Some(Emit(was, Op(OpJmp)).(rest := rest, loops := was.loops[..n] + [lp']))
  }

  lemma {:induction false} JumpPass(brk: bool, rest: Toks, was: Snap)
    ensures StmtResult(Some((if brk then Break else Continue, rest)), was) == JumpSteps(brk, rest, was)
  {
    if was.loops != [] {
      var lp := was.loops[|was.loops| - 1];
      assert lp.conts + [] == lp.conts && lp.breaks + [] == lp.breaks;
    }
  }

  // ----- small facts the methods use -----

  lemma {:induction false} AnyRest(p: Option<(Stmt, Toks)>, a: Snap, b: Snap)
    requires b == a.(rest := b.rest)
    ensures StmtResult(p, a) == StmtResult(p, b)
  {
  }

  lemma {:induction false} CodeGrows(p: Option<(Stmt, Toks)>, was: Snap, now: Snap)
    requires StmtResult(p, was) == Some(now)
    ensures |was.code| <= |now.code| && now.code[..|was.code|] == was.code
  {
  }

  lemma NoStmt(was: Snap)
    ensures StmtResult(None, was).None?
  {
  }

  /** One declaration of a LET. */
  function VarSteps(m: Snap): Option<Snap> {
    if m.rest == [] || !m.rest[0].TkIdent? || !At(m.rest[1..], TkColon) then None
    else
      var sc := RecordVar(m.sc, m.rest[0].name);
      match ExprResult(ParseOr(m.rest[2..]), m.(sc := sc))
      case None => None
      case Some(r) => Some(Emit(r, StoreRef(VarRef(sc, m.rest[0].name))).(rest := EatIf(r.rest, TkComma)))
  }

  lemma {:induction false} VarsPass(m: Snap)
    requires Sound(m.sc) && m.rest != [] && !At(m.rest, TkSemi)
    ensures var q := VarSteps(m);
      StmtResult(ParseVars(m.rest), m) == if q.None? then None else StmtResult(ParseVars(q.value.rest), q.value)
  {
    if m.rest[0].TkIdent? && At(m.rest[1..], TkColon) { VarsStep(m.rest, m); }
  }

  lemma VarsEnd(m: Snap)
    requires m.rest == [] || At(m.rest, TkSemi)
    ensures StmtResult(ParseVars(m.rest), m) == Some(m.(rest := Eat(m.rest)))
  {
    SkipResult(Eat(m.rest), m);
  }

  lemma {:induction false} JumpParse(brk: bool, t: Toks)
    requires At(t, if brk then TkBreak else TkContinue)
    ensures ParseNestable(t) == if At(t[1..], TkSemi) then Some((if brk then Break else Continue, t[2..])) else None
  {
  }

  lemma {:induction false} NoJump(p: Option<(Stmt, Toks)>, was: Snap)
    requires was.loops == [] && (p.Some? ==> p.value.0.Break? || p.value.0.Continue?)
    ensures StmtResult(p, was).None?
  {
  }

  lemma {:induction false} IfDoneIs(r: Snap, q: Snap, code: Code)
    requires |r.code| < |q.code| && q.code[..|r.code| + 1] == r.code + [Op(OpJmpFalse)]
    requires var all := q.code + [Op(OpNop)];
      code == all[|r.code| := all[|r.code|].(wide := Wide(|q.code| - |r.code|))]
    ensures IfDone(r, q) == q.(code := code)
  {
    assert q.code[|r.code|] == q.code[..|r.code| + 1][|r.code|];
  }

  lemma {:induction false} IfElseDoneIs(r: Snap, q: Snap, p: Snap, code: Code)
    requires |r.code| < |q.code| < |p.code| && q.code[..|r.code| + 1] == r.code + [Op(OpJmpFalse)]
    requires p.code[..|q.code| + 1] == q.code + [Op(OpJmp)]
    requires var all := p.code + [Op(OpNop)];
      var mid := all[|r.code| := all[|r.code|].(wide := Wide(|q.code| + 1 - |r.code|))];
      code == mid[|q.code| := mid[|q.code|].(wide := Wide(|p.code| - |q.code|))]
    ensures IfElseDone(r, q, p) == p.(code := code)
  {
    assert p.code[|q.code|] == p.code[..|q.code| + 1][|q.code|];
    assert p.code[|r.code|] == p.code[..|q.code| + 1][|r.code|] == q.code[|r.code|];
    assert q.code[|r.code|] == q.code[..|r.code| + 1][|r.code|];
  }

  lemma {:induction false} TryDoneIs(r: Snap, q: Snap, code: Code)
    requires |r.code| + 2 <= |q.code| && q.code[..|r.code| + 2] == r.code + [Op(OpJmp)] + [Op(OpCatchErr)]
    requires code == q.code[|r.code| := q.code[|r.code|].(wide := Wide(|q.code| - |r.code|))]
    ensures TryDone(r, q) == q.(code := code)
  {
    assert q.code[|r.code|] == q.code[..|r.code| + 2][|r.code|];
  }

  lemma {:induction false} ForMiddleIs(begin: nat, q: Snap, u: Snap, code: Code)
    requires |q.code| + 3 <= |u.code| && u.code[..|q.code| + 3] == q.code + [Op(OpJmpFalse)] + [Op(OpJmp)] + [Op(OpNop)]
    requires var all, skip := u.code + [Instr(OpJmp, 1, Wide(|u.code| - begin))], |q.code| + 1;
      code == all[skip := all[skip].(wide := Wide(|u.code| + 1 - skip))]
    ensures ForMiddle(begin, q, u) == u.(code := code) && code[|q.code|] == Op(OpJmpFalse)
  {
    assert u.code[|q.code| + 1] == u.code[..|q.code| + 3][|q.code| + 1];
    assert u.code[|q.code|] == u.code[..|q.code| + 3][|q.code|];
  }

  lemma {:induction false} UpdateKeepsLoops(h: Snap, u: Snap)
    requires StmtResult(ParseExprStmt(h.rest), h) == Some(u)
    ensures u.loops == h.loops
  {
    var s := ParseExprStmt(h.rest).value.0;
    NoJumps(s, |h.code|);
    TrackNone(h.loops, s, |h.code|);
  }

  lemma {:induction false} BodyEnd(m: Snap, first: bool)
    requires m.rest == [] || At(m.rest, TkEnd)
    ensures StmtResult(ParseBody(m.rest, first), m) ==
      Some((if m.rest != [] && first then Emit(m, Op(OpNop)) else m).(rest := Eat(m.rest)))
  {
    SkipResult(Eat(m.rest), m);
    NopResult(Eat(m.rest), m);
  }
}
