/** The result of a statement, split into the results of its parts and the patches that follow. */
module CompileStmtSpec {
  import opened Wrappers
  import opened Bytecode
  import opened Syntax
  import opened Parser
  import opened Scoping
  import opened Codegen
  import opened Backpatch
  import opened CompileSpec

  /** The innermost open loop records the jumps that `s`, placed at `pc`, leaves unpatched. */
  function Tracked(loops: seq<OpenLoop>, s: Stmt, pc: nat): seq<OpenLoop> {
    if loops == [] then []
    else
      var n := |loops| - 1;
      loops[..n] + [OpenLoop(loops[n].breaks + Breaks(s, pc), loops[n].conts + Conts(s, pc))]
  }

  function StmtResult(p: Option<(Stmt, Toks)>, was: Snap): Option<Snap> {
    match p
    case None => None
    case Some((s, rest)) =>
      match DeclStmt(s, was.sc, was.loops != [])
      case None => None
      case Some(sc) =>
        Some(Snap(rest, was.code + GenStmt(s, sc, |was.code|, Open), sc, Tracked(was.loops, s, |was.code|)))
  }

  function Emit(m: Snap, i: Instr): Snap { m.(code := m.code + [i]) }

  lemma {:induction false} StmtOf(s: Stmt, rest: Toks, was: Snap, sc: Scope)
    requires DeclStmt(s, was.sc, was.loops != []) == Some(sc)
    ensures StmtResult(Some((s, rest)), was) ==
            Some(Snap(rest, was.code + GenStmt(s, sc, |was.code|, Open), sc, Tracked(was.loops, s, |was.code|)))
  {
  }

  lemma {:induction false} ExprOf(e: Expr, rest: Toks, was: Snap, sc: Scope)
    requires DeclExpr(e, was.sc) == Some(sc)
    ensures ExprResult(Some((e, rest)), was) == Some(Snap(rest, was.code + GenExpr(e, sc), sc, was.loops))
  {
  }

  lemma {:induction false} TrackedNonempty(loops: seq<OpenLoop>, s: Stmt, pc: nat)
    ensures Tracked(loops, s, pc) != [] <==> loops != []
  {
  }

  // ----- stability between neighbours -----

  lemma {:induction false} StmtSound(s: Stmt, sc: Scope, inLoop: bool)
    requires Sound(sc) && DeclStmt(s, sc, inLoop).Some?
    ensures Sound(DeclStmt(s, sc, inLoop).value)
  {
    DeclStmtExtends(s, sc, inLoop);
    ExtendsTop(sc, DeclStmt(s, sc, inLoop).value);
  }

  lemma {:induction false} ExprThenStmt(e: Expr, s: Stmt, sc: Scope, inLoop: bool)
    requires Sound(sc) && DeclExpr(e, sc).Some? && DeclStmt(s, DeclExpr(e, sc).value, inLoop).Some?
    ensures var s1 := DeclExpr(e, sc).value; var s2 := DeclStmt(s, s1, inLoop).value;
      Sound(s1) && Sound(s2) && Extends(s1, s2) && GenExpr(e, s2) == GenExpr(e, s1)
  {
    var s1 := DeclExpr(e, sc).value;
    DeclSound(e, sc);
    DeclExprKnown(e, sc);
    DeclStmtExtends(s, s1, inLoop);
    ExtendsTop(s1, DeclStmt(s, s1, inLoop).value);
    GenExprStable(e, s1, DeclStmt(s, s1, inLoop).value);
  }

  lemma {:induction false} StmtThenStmt(a: Stmt, b: Stmt, sc: Scope, inLoop: bool, pc: nat, lp: Loop)
    requires Sound(sc) && DeclStmt(a, sc, inLoop).Some? && DeclStmt(b, DeclStmt(a, sc, inLoop).value, inLoop).Some?
    ensures var s1 := DeclStmt(a, sc, inLoop).value; var s2 := DeclStmt(b, s1, inLoop).value;
      Sound(s1) && Sound(s2) && Extends(s1, s2) && KnownStmt(a, s1) && GenStmt(a, s2, pc, lp) == GenStmt(a, s1, pc, lp)
  {
    var s1 := DeclStmt(a, sc, inLoop).value;
    StmtSound(a, sc, inLoop);
    DeclStmtKnown(a, sc, inLoop);
    DeclStmtExtends(b, s1, inLoop);
    ExtendsTop(s1, DeclStmt(b, s1, inLoop).value);
    GenStmtStable(a, s1, DeclStmt(b, s1, inLoop).value, pc, lp);
  }

  /** Recording the jumps of one statement and then of another. */
  lemma {:induction false} TrackTwo(loops: seq<OpenLoop>, a: Stmt, pa: nat, b: Stmt, pb: nat, s: Stmt, pc: nat)
    requires Breaks(s, pc) == Breaks(a, pa) + Breaks(b, pb) && Conts(s, pc) == Conts(a, pa) + Conts(b, pb)
    ensures Tracked(Tracked(loops, a, pa), b, pb) == Tracked(loops, s, pc)
  {
    hide Breaks, Conts;
    if loops != [] {
      var n := |loops| - 1;
      assert loops[n].breaks + Breaks(a, pa) + Breaks(b, pb) == loops[n].breaks + Breaks(s, pc);
      assert loops[n].conts + Conts(a, pa) + Conts(b, pb) == loops[n].conts + Conts(s, pc);
    }
  }

  lemma {:induction false} TrackNone(loops: seq<OpenLoop>, s: Stmt, pc: nat)
    requires Breaks(s, pc) == [] && Conts(s, pc) == []
    ensures Tracked(loops, s, pc) == loops
  {
    if loops != [] {
      var n := |loops| - 1;
      assert loops[n].breaks + [] == loops[n].breaks && loops[n].conts + [] == loops[n].conts;
    }
  }

  // ----- blocks -----

  lemma {:induction false} SeqJumps(a: Stmt, b: Stmt, pc: nat)
    ensures Breaks(Seq(a, b), pc) == Breaks(a, pc) + Breaks(b, pc + StmtSize(a))
    ensures Conts(Seq(a, b), pc) == Conts(a, pc) + Conts(b, pc + StmtSize(a))
  {
  }

  lemma {:induction false} SeqParts(a: Stmt, b: Stmt, sc: Scope, inLoop: bool, pc: nat, fin: Scope)
    ensures GenStmt(Seq(a, b), fin, pc, Open) == GenStmt(a, fin, pc, Open) + GenStmt(b, fin, pc + StmtSize(a), Open)
    ensures DeclStmt(Seq(a, b), sc, inLoop) ==
      if DeclStmt(a, sc, inLoop).None? then None else DeclStmt(b, DeclStmt(a, sc, inLoop).value, inLoop)
  {
    hide DeclExpr, GenExpr, IfCode, IfElseCode, WhileCode, ForCode, TryCode, Resolve, VarRef, StoreRef, Wide;
  }

  lemma {:induction false} SeqResult(a: Stmt, b: Stmt, was: Snap, t1: Toks, t2: Toks)
    requires Sound(was.sc)
    ensures StmtResult(Some((Seq(a, b), t2)), was) ==
      var r := StmtResult(Some((a, t1)), was);
      if r.None? then None else StmtResult(Some((b, t2)), r.value)
  {
    hide DeclStmt, GenStmt, StmtSize, Breaks, Conts;
    var inLoop := was.loops != [];
    if DeclStmt(a, was.sc, inLoop).Some? && DeclStmt(b, DeclStmt(a, was.sc, inLoop).value, inLoop).Some? {
      SeqJumps(a, b, |was.code|);
      SeqParts(a, b, was.sc, inLoop, |was.code|, DeclStmt(b, DeclStmt(a, was.sc, inLoop).value, inLoop).value);
    } else {
      SeqParts(a, b, was.sc, inLoop, |was.code|, was.sc);
    }
    if DeclStmt(a, was.sc, inLoop).Some? && DeclStmt(b, DeclStmt(a, was.sc, inLoop).value, inLoop).Some? {
      var pc := |was.code|;
      var s1 := DeclStmt(a, was.sc, inLoop).value;
      var s2 := DeclStmt(b, s1, inLoop).value;
      StmtThenStmt(a, b, was.sc, inLoop, pc, Open);
      TrackTwo(was.loops, a, pc, b, pc + StmtSize(a), Seq(a, b), pc);
      var ga, gb := GenStmt(a, s1, pc, Open), GenStmt(b, s2, pc + StmtSize(a), Open);
      assert was.code + ga + gb == was.code + (ga + gb);
    }
  }

  lemma {:induction false} BodyStep(t: Toks, first: bool, m: Snap)
    requires Sound(m.sc) && t != [] && !At(t, TkEnd)
    ensures var r := StmtResult(ParseNestable(t), m);
      StmtResult(ParseBody(t, first), m) ==
      if r.None? then None else StmtResult(ParseBody(r.value.rest, false), r.value)
  {
    var p := ParseNestable(t);
    if p.Some? {
      var (s, rest) := p.value;
      var q := ParseBody(rest, false);
      if q.Some? {
        SeqResult(s, q.value.0, m, rest, q.value.1);
      }
    }
  }

  lemma {:induction false} SkipResult(rest: Toks, m: Snap)
    ensures StmtResult(Some((Skip, rest)), m) == Some(m.(rest := rest))
  {
    TrackNone(m.loops, Skip, |m.code|);
    assert m.code + [] == m.code;
  }

  lemma {:induction false} NopResult(rest: Toks, m: Snap)
    ensures StmtResult(Some((Nop, rest)), m) == Some(Emit(m, Op(OpNop)).(rest := rest))
  {
    TrackNone(m.loops, Nop, |m.code|);
  }

  // ----- statements made of one expression -----

  /** An expression and the instruction that uses its value. */
  lemma {:induction false} ExprStep(s: Stmt, e: Expr, i: Instr, was: Snap, t1: Toks, t2: Toks)
    requires Breaks(s, |was.code|) == [] && Conts(s, |was.code|) == []
    requires DeclStmt(s, was.sc, was.loops != []) == DeclExpr(e, was.sc)
    requires DeclExpr(e, was.sc).Some? ==>
      GenStmt(s, DeclExpr(e, was.sc).value, |was.code|, Open) == GenExpr(e, DeclExpr(e, was.sc).value) + [i]
    ensures StmtResult(Some((s, t2)), was) ==
      var r := ExprResult(Some((e, t1)), was);
      if r.None? then None else Some(Emit(r.value, i).(rest := t2))
  {
    if DeclExpr(e, was.sc).Some? {
      var sc := DeclExpr(e, was.sc).value;
      TrackNone(was.loops, s, |was.code|);
      assert was.code + GenExpr(e, sc) + [i] == was.code + (GenExpr(e, sc) + [i]);
    }
  }

  lemma {:induction false} UseResult(s: Stmt, was: Snap, t1: Toks, t2: Toks)
    requires s.ExprStmt? || s.Ret? || s.Throw?
    ensures var e := if s.ExprStmt? then s.e else s.value;
      var i := if s.ExprStmt? then POP else if s.Ret? then Op(OpRet) else Op(OpRaiseErr);
      var r := ExprResult(Some((e, t1)), was);
      StmtResult(Some((s, t2)), was) == if r.None? then None else Some(Emit(r.value, i).(rest := t2))
  {
    var e := if s.ExprStmt? then s.e else s.value;
    var i := if s.ExprStmt? then POP else if s.Ret? then Op(OpRet) else Op(OpRaiseErr);
    ExprStep(s, e, i, was, t1, t2);
  }

  lemma {:induction false} AssignResult(x: string, e: Expr, was: Snap, t1: Toks, t2: Toks)
    requires Sound(was.sc)
    ensures StmtResult(Some((Assign(x, e), t2)), was) ==
      if !Assignable(was.sc, x) then None
      else
        var r := ExprResult(Some((e, t1)), was);
        if r.None? then None else Some(Emit(r.value, StoreRef(Resolve(was.sc, x))).(rest := t2))
  {
    if Assignable(was.sc, x) {
      if DeclExpr(e, was.sc).Some? {
        DeclExprExtends(e, was.sc);
        ExtendsResolve(was.sc, DeclExpr(e, was.sc).value, x);
      }
      ExprStep(Assign(x, e), e, StoreRef(Resolve(was.sc, x)), was, t1, t2);
    }
  }

  lemma {:induction false} LetResult(x: string, e: Expr, was: Snap, t1: Toks, t2: Toks)
    requires Sound(was.sc)
    ensures StmtResult(Some((Let(x, e), t2)), was) ==
      var sc := RecordVar(was.sc, x);
      var r := ExprResult(Some((e, t1)), was.(sc := sc));
      if r.None? then None else Some(Emit(r.value, StoreRef(VarRef(sc, x))).(rest := t2))
  {
    var sc := RecordVar(was.sc, x);
    RecordVarExtends(was.sc, x);
    ExtendsTop(was.sc, sc);
    if DeclExpr(e, sc).Some? {
      var s2 := DeclExpr(e, sc).value;
      DeclExprExtends(e, sc);
      ExtendsVarRef(sc, s2, x);
      TrackNone(was.loops, Let(x, e), |was.code|);
      var i := StoreRef(VarRef(sc, x));
      assert was.code + GenExpr(e, s2) + [i] == was.code + (GenExpr(e, s2) + [i]);
    }
  }

  lemma {:induction false} VarsStep(t: Toks, m: Snap)
    requires Sound(m.sc) && t != [] && !At(t, TkSemi) && t[0].TkIdent? && At(t[1..], TkColon)
    ensures var sc := RecordVar(m.sc, t[0].name);
      var r := ExprResult(ParseOr(t[2..]), m.(sc := sc));
      StmtResult(ParseVars(t), m) ==
      if r.None? then None
      else
        var m2 := Emit(r.value, StoreRef(VarRef(sc, t[0].name)));
        StmtResult(ParseVars(EatIf(m2.rest, TkComma)), m2)
  {
    var p := ParseOr(t[2..]);
    if p.Some? {
      var (e, rest) := p.value;
      var q := ParseVars(EatIf(rest, TkComma));
      LetResult(t[0].name, e, m, rest, rest);
      if q.Some? {
        SeqResult(Let(t[0].name, e), q.value.0, m, rest, q.value.1);
      }
    }
  }

  // ----- conditionals -----

  lemma {:induction false} Patch(a: Code, i: Instr, b: Code, j: Instr)
    ensures (a + [i] + b)[|a| := j] == a + [j] + b
  {
  }

  function IfDone(r: Snap, q: Snap): Snap {
    var jump, end := |r.code|, |q.code|;
    if jump <= end then q.(code := (q.code + [Op(OpNop)])[jump := OpWide(OpJmpFalse, end - jump)]) else q
  }

  lemma {:induction false} IfResult(c: Expr, t: Stmt, was: Snap, t1: Toks, t2: Toks)
    requires Sound(was.sc)
    ensures StmtResult(Some((If(c, t), t2)), was) ==
      var r := ExprResult(Some((c, t1)), was);
      if r.None? then None
      else
        var q := StmtResult(Some((t, t2)), Emit(r.value, Op(OpJmpFalse)));
        if q.None? then None else Some(IfDone(r.value, q.value))
  {
    var inLoop := was.loops != [];
    if DeclExpr(c, was.sc).Some? && DeclStmt(t, DeclExpr(c, was.sc).value, inLoop).Some? {
      IfOk(c, t, was, t1, t2, DeclExpr(c, was.sc).value, DeclStmt(t, DeclExpr(c, was.sc).value, inLoop).value);
    }
  }

  lemma {:induction false} IfParts(c: Expr, t: Stmt, sc: Scope, inLoop: bool, s1: Scope, s2: Scope, pc: nat)
    requires DeclExpr(c, sc) == Some(s1) && DeclStmt(t, s1, inLoop) == Some(s2)
    ensures DeclStmt(If(c, t), sc, inLoop) == Some(s2)
    ensures var body := pc + |GenExpr(c, s2)| + 1;
      && GenStmt(If(c, t), s2, pc, Open) == IfCode(GenExpr(c, s2), GenStmt(t, s2, body, Open))
      && forall loops :: Tracked(loops, If(c, t), pc) == Tracked(loops, t, body)
  {
    hide DeclExpr, GenExpr, IfCode, Wide, VarRef, Resolve, StoreRef, ForCode, WhileCode, IfElseCode, TryCode;
  }

  lemma {:induction false} IfOk(c: Expr, t: Stmt, was: Snap, t1: Toks, t2: Toks, s1: Scope, s2: Scope)
    requires Sound(was.sc)
    requires DeclExpr(c, was.sc) == Some(s1) && DeclStmt(t, s1, was.loops != []) == Some(s2)
    ensures var r := ExprResult(Some((c, t1)), was);
      r.Some? &&
      var q := StmtResult(Some((t, t2)), Emit(r.value, Op(OpJmpFalse)));
      q.Some? && StmtResult(Some((If(c, t), t2)), was) == Some(IfDone(r.value, q.value))
  {
    hide DeclExpr, DeclStmt, GenExpr, GenStmt, ExprSize, StmtSize, Breaks, Conts, Tracked, Extends, KnownExpr,
         KnownStmt, Sound, StmtResult, ExprResult;
    ExprThenStmt(c, t, was.sc, was.loops != []);
    IfParts(c, t, was.sc, was.loops != [], s1, s2, |was.code|);
    ExprOf(c, t1, was, s1);
    var r := ExprResult(Some((c, t1)), was).value;
    StmtOf(t, t2, Emit(r, Op(OpJmpFalse)), s2);
    StmtOf(If(c, t), t2, was, s2);
    var b, gc := was.code, GenExpr(c, s2);
    var gt := GenStmt(t, s2, |b| + |gc| + 1, Open);
    Patch(b + gc, Op(OpJmpFalse), gt + [Op(OpNop)], OpWide(OpJmpFalse, |gt| + 1));
    assert b + gc + [Op(OpJmpFalse)] + gt + [Op(OpNop)] == b + gc + [Op(OpJmpFalse)] + (gt + [Op(OpNop)]);
    assert b + gc + [OpWide(OpJmpFalse, |gt| + 1)] + (gt + [Op(OpNop)]) == b + IfCode(gc, gt);
  }

  lemma {:induction false} IfElseCodePatch(b: Code, gc: Code, gt: Code, ge: Code)
    ensures var code := b + gc + [Op(OpJmpFalse)] + gt + [Op(OpJmp)] + ge + [Op(OpNop)];
      var jump, skip := |b + gc|, |b + gc| + 1 + |gt|;
      code[jump := OpWide(OpJmpFalse, skip + 1 - jump)][skip := OpWide(OpJmp, |code| - 1 - skip)] ==
          b + IfElseCode(gc, gt, ge)
  {
    var jf, j := OpWide(OpJmpFalse, |gt| + 2), OpWide(OpJmp, |ge| + 1);
    var nop := [Op(OpNop)];
    assert b + gc + [Op(OpJmpFalse)] + gt + [Op(OpJmp)] + ge + nop ==
        b + gc + [Op(OpJmpFalse)] + (gt + [Op(OpJmp)] + ge + nop);
    Patch(b + gc, Op(OpJmpFalse), gt + [Op(OpJmp)] + ge + nop, jf);
    assert b + gc + [jf] + (gt + [Op(OpJmp)] + ge + nop) == (b + gc + [jf] + gt) + [Op(OpJmp)] + (ge + nop);
    Patch(b + gc + [jf] + gt, Op(OpJmp), ge + nop, j);
    assert (b + gc + [jf] + gt) + [j] + (ge + nop) == b + (gc + [jf] + gt + [j] + ge + nop);
  }

  function IfElseDone(r: Snap, q: Snap, p: Snap): Snap {
    var jump, skip, end := |r.code|, |q.code|, |p.code|;
    if jump < skip < end then
      p.(code := (p.code + [Op(OpNop)])[jump := OpWide(OpJmpFalse, skip + 1 - jump)][skip := OpWide(OpJmp, end - skip)])
    else p
  }

  lemma {:induction false} IfElseResult(c: Expr, t: Stmt, e: Stmt, was: Snap, t1: Toks, t2: Toks, t3: Toks, t4: Toks)
    requires Sound(was.sc)
    ensures StmtResult(Some((IfElse(c, t, e), t4)), was) ==
      var r := ExprResult(Some((c, t1)), was);
      if r.None? then None
      else
        var q := StmtResult(Some((t, t2)), Emit(r.value, Op(OpJmpFalse)));
        if q.None? then None
        else
          var p := StmtResult(Some((e, t4)), Emit(q.value, Op(OpJmp)).(rest := t3));
          if p.None? then None else Some(IfElseDone(r.value, q.value, p.value))
  {
    var inLoop := was.loops != [];
    if DeclExpr(c, was.sc).Some? && DeclStmt(t, DeclExpr(c, was.sc).value, inLoop).Some? {
      var s1 := DeclExpr(c, was.sc).value;
      var s2 := DeclStmt(t, s1, inLoop).value;
      var m := Emit(Snap(t1, was.code + GenExpr(c, s1), s1, was.loops), Op(OpJmpFalse));
      TrackedNonempty(was.loops, t, |m.code|);
      if DeclStmt(e, s2, inLoop).Some? {
        IfElseOk(c, t, e, was, t1, t2, t3, t4, s1, s2, DeclStmt(e, s2, inLoop).value);
      } else {
        StmtOf(t, t2, m, s2);
      }
    }
  }

  lemma {:induction false} IfElseParts(c: Expr, t: Stmt, e: Stmt, sc: Scope, inLoop: bool, s1: Scope, s2: Scope,
      s3: Scope, pc: nat)
    requires DeclExpr(c, sc) == Some(s1) && DeclStmt(t, s1, inLoop) == Some(s2) && DeclStmt(e, s2, inLoop) == Some(s3)
    ensures var s := IfElse(c, t, e);
      var pt := pc + |GenExpr(c, s3)| + 1;
      var pe := pt + |GenStmt(t, s3, pt, Open)| + 1;
      && DeclStmt(s, sc, inLoop) == Some(s3)
      && GenStmt(s, s3, pc, Open) == IfElseCode(GenExpr(c, s3), GenStmt(t, s3, pt, Open), GenStmt(e, s3, pe, Open))
  {
    IfElseCodeOf(c, t, e, s3, pc, Open);
    hide GenStmt, GenExpr, DeclExpr, IfElseCode, ExprSize, Resolve, VarRef;
  }

  lemma {:induction false} IfElseJumps(c: Expr, t: Stmt, e: Stmt, pc: nat)
    ensures var s := IfElse(c, t, e);
      var pt := pc + ExprSize(c) + 1;
      var pe := pt + StmtSize(t) + 1;
      Breaks(s, pc) == Breaks(t, pt) + Breaks(e, pe) && Conts(s, pc) == Conts(t, pt) + Conts(e, pe)
  {
  }

  lemma {:induction false} CondStable(c: Expr, t: Stmt, e: Stmt, sc: Scope, inLoop: bool, s1: Scope, s2: Scope,
      s3: Scope, pc: nat)
    requires Sound(sc)
    requires DeclExpr(c, sc) == Some(s1) && DeclStmt(t, s1, inLoop) == Some(s2) && DeclStmt(e, s2, inLoop) == Some(s3)
    ensures GenExpr(c, s3) == GenExpr(c, s1) && GenStmt(t, s3, pc, Open) == GenStmt(t, s2, pc, Open)
  {
    hide DeclExpr, DeclStmt, GenExpr, GenStmt, Extends;
    ExprThenStmt(c, t, sc, inLoop);
    StmtThenStmt(t, e, s1, inLoop, pc, Open);
    DeclExprKnown(c, sc);
    KnownExprGrows(c, s1, s2);
    GenExprStable(c, s2, s3);
  }

  lemma {:induction false} IfElseOk(c: Expr, t: Stmt, e: Stmt, was: Snap, t1: Toks, t2: Toks, t3: Toks, t4: Toks,
      s1: Scope, s2: Scope, s3: Scope)
    requires Sound(was.sc)
    requires var inLoop := was.loops != [];
      DeclExpr(c, was.sc) == Some(s1) && DeclStmt(t, s1, inLoop) == Some(s2) && DeclStmt(e, s2, inLoop) == Some(s3)
    ensures var r := ExprResult(Some((c, t1)), was);
      r.Some? &&
      var q := StmtResult(Some((t, t2)), Emit(r.value, Op(OpJmpFalse)));
      q.Some? &&
      var p := StmtResult(Some((e, t4)), Emit(q.value, Op(OpJmp)).(rest := t3));
      p.Some? && StmtResult(Some((IfElse(c, t, e), t4)), was) == Some(IfElseDone(r.value, q.value, p.value))
  {
    hide DeclExpr, DeclStmt, GenExpr, GenStmt, ExprSize, StmtSize, Breaks, Conts, Tracked, Extends, KnownExpr,
         KnownStmt, Sound, StmtResult, ExprResult;
    var inLoop := was.loops != [];
    var s, pc := IfElse(c, t, e), |was.code|;
    IfElseParts(c, t, e, was.sc, inLoop, s1, s2, s3, pc);
    IfElseJumps(c, t, e, pc);
    var gc := GenExpr(c, s3);
    var pt := pc + |gc| + 1;
    CondStable(c, t, e, was.sc, inLoop, s1, s2, s3, pt);
    ExprOf(c, t1, was, s1);
    var r := ExprResult(Some((c, t1)), was).value;
    StmtOf(t, t2, Emit(r, Op(OpJmpFalse)), s2);
    var q := StmtResult(Some((t, t2)), Emit(r, Op(OpJmpFalse))).value;
    TrackedNonempty(was.loops, t, pt);
    var gt := GenStmt(t, s3, pt, Open);
    var pe := pt + |gt| + 1;
    StmtOf(e, t4, Emit(q, Op(OpJmp)).(rest := t3), s3);
    StmtOf(s, t4, was, s3);
    TrackTwo(was.loops, t, pt, e, pe, s, pc);
    IfElseCodePatch(was.code, gc, gt, GenStmt(e, s3, pe, Open));
  }

  lemma {:induction false} TryCodePatch(b: Code, gb: Code, gh: Code)
    ensures var code := b + [Op(OpTry)] + gb + [Op(OpJmp)] + [Op(OpCatchErr)] + gh;
      var skip := |b| + 1 + |gb|;
      code[skip := OpWide(OpJmp, |code| - skip)] == b + TryCode(gb, gh)
  {
    var j := OpWide(OpJmp, |gh| + 2);
    var tail := [Op(OpCatchErr)] + gh;
    assert b + [Op(OpTry)] + gb + [Op(OpJmp)] + [Op(OpCatchErr)] + gh == (b + [Op(OpTry)] + gb) + [Op(OpJmp)] + tail;
    Patch(b + [Op(OpTry)] + gb, Op(OpJmp), tail, j);
    assert (b + [Op(OpTry)] + gb) + [j] + tail == b + ([Op(OpTry)] + gb + [j, Op(OpCatchErr)] + gh);
  }

  function TryDone(r: Snap, q: Snap): Snap {
    var skip, end := |r.code|, |q.code|;
    if skip < end then q.(code := q.code[skip := OpWide(OpJmp, end - skip)]) else q
  }

  lemma {:induction false} TryResult(b: Stmt, h: Stmt, was: Snap, t1: Toks, t2: Toks, t3: Toks)
    requires Sound(was.sc)
    ensures StmtResult(Some((Try(b, h), t3)), was) ==
      var r := StmtResult(Some((b, t1)), Emit(was, Op(OpTry)));
      if r.None? then None
      else
        var q := StmtResult(Some((h, t3)), Emit(Emit(r.value, Op(OpJmp)), Op(OpCatchErr)).(rest := t2));
        if q.None? then None else Some(TryDone(r.value, q.value))
  {
    hide GenStmt, DeclExpr, TryDone, Sound, Breaks, Conts, StmtSize;
    var inLoop := was.loops != [];
    if DeclStmt(b, was.sc, inLoop).Some? {
      var s1 := DeclStmt(b, was.sc, inLoop).value;
      TrackedNonempty(was.loops, b, |was.code| + 1);
      if DeclStmt(h, s1, inLoop).Some? {
        TryOk(b, h, was, t1, t2, t3, s1, DeclStmt(h, s1, inLoop).value);
      } else {
        StmtOf(b, t1, Emit(was, Op(OpTry)), s1);
      }
    }
  }

  lemma {:induction false} TryParts(b: Stmt, h: Stmt, sc: Scope, inLoop: bool, s1: Scope, s2: Scope, pc: nat)
    requires DeclStmt(b, sc, inLoop) == Some(s1) && DeclStmt(h, s1, inLoop) == Some(s2)
    ensures var s := Try(b, h);
      var ph := pc + 1 + |GenStmt(b, s2, pc + 1, Open)| + 2;
      && DeclStmt(s, sc, inLoop) == Some(s2)
      && GenStmt(s, s2, pc, Open) == TryCode(GenStmt(b, s2, pc + 1, Open), GenStmt(h, s2, ph, Open))
  {
    TryCodeOf(b, h, s2, pc, Open);
    hide GenStmt, GenExpr, DeclExpr, TryCode, ExprSize, Resolve, VarRef;
  }

  lemma {:induction false} TryJumps(b: Stmt, h: Stmt, pc: nat)
    ensures var s := Try(b, h);
      var ph := pc + 1 + StmtSize(b) + 2;
      Breaks(s, pc) == Breaks(b, pc + 1) + Breaks(h, ph) && Conts(s, pc) == Conts(b, pc + 1) + Conts(h, ph)
  {
  }

  lemma {:induction false} TryOk(b: Stmt, h: Stmt, was: Snap, t1: Toks, t2: Toks, t3: Toks, s1: Scope, s2: Scope)
    requires Sound(was.sc)
    requires DeclStmt(b, was.sc, was.loops != []) == Some(s1) && DeclStmt(h, s1, was.loops != []) == Some(s2)
    ensures var r := StmtResult(Some((b, t1)), Emit(was, Op(OpTry)));
      r.Some? &&
      var q := StmtResult(Some((h, t3)), Emit(Emit(r.value, Op(OpJmp)), Op(OpCatchErr)).(rest := t2));
      q.Some? && StmtResult(Some((Try(b, h), t3)), was) == Some(TryDone(r.value, q.value))
  {
    hide DeclExpr, DeclStmt, GenExpr, GenStmt, ExprSize, StmtSize, Breaks, Conts, Tracked, Extends, KnownExpr,
         KnownStmt, Sound, StmtResult, ExprResult;
    var inLoop := was.loops != [];
    var s, pc := Try(b, h), |was.code|;
    TryParts(b, h, was.sc, inLoop, s1, s2, pc);
    TryJumps(b, h, pc);
    StmtThenStmt(b, h, was.sc, inLoop, pc + 1, Open);
    StmtOf(b, t1, Emit(was, Op(OpTry)), s1);
    var r := StmtResult(Some((b, t1)), Emit(was, Op(OpTry))).value;
    TrackedNonempty(was.loops, b, pc + 1);
    var gb := GenStmt(b, s2, pc + 1, Open);
    var ph := pc + 1 + |gb| + 2;
    StmtOf(h, t3, Emit(Emit(r, Op(OpJmp)), Op(OpCatchErr)).(rest := t2), s2);
    StmtOf(s, t3, was, s2);
    TrackTwo(was.loops, b, pc + 1, h, ph, s, pc);
    TryCodePatch(was.code, gb, GenStmt(h, s2, ph, Open));
  }

  // ----- loops -----

  /** compiler_enter_loop. */
  function Enter(m: Snap): Snap { m.(loops := m.loops + [OpenLoop([], [])]) }

  /** The patch loops at the end of WHILE and FOR. */
  function PatchAll(code: Code, lp: OpenLoop, brk: int, cont: int): (out: Code)
    ensures |out| == |code| && forall i :: 0 <= i < |code| ==>
      out[i] == PatchAt(code[i], i, lp.breaks, lp.conts, brk, cont)
  {
    seq(|code|, i requires 0 <= i < |code| => PatchAt(code[i], i, lp.breaks, lp.conts, brk, cont))
  }

  /** Only the loop's body changes, and it becomes the closed body. */
  lemma {:induction false} PatchBody(pre: Code, s: Stmt, sc: Scope, post: Code, brk: int, cont: int)
    ensures PatchAll(pre + GenStmt(s, sc, |pre|, Open) + post, OpenLoop(Breaks(s, |pre|), Conts(s, |pre|)), brk, cont)
         == pre + GenStmt(s, sc, |pre|, Closed(brk, cont)) + post
  {
    ClosingPatches(s, sc, |pre|, brk, cont);
    var o, cl := GenStmt(s, sc, |pre|, Open), GenStmt(s, sc, |pre|, Closed(brk, cont));
    var lp := OpenLoop(Breaks(s, |pre|), Conts(s, |pre|));
    hide GenStmt, StmtSize, Breaks, Conts;
    var code := pre + o + post;
    forall i | 0 <= i < |code|
      ensures PatchAt(code[i], i, lp.breaks, lp.conts, brk, cont) == (pre + cl + post)[i]
    {
      if |pre| <= i < |pre| + |o| { assert cl[i - |pre|] == PatchAt(o[i - |pre|], i, lp.breaks, lp.conts, brk, cont); }
    }
  }

  /** The body of a fresh loop is the only one to record positions. */
  lemma {:induction false} TrackFresh(loops: seq<OpenLoop>, s: Stmt, pc: nat)
    ensures Tracked(loops + [OpenLoop([], [])], s, pc) == loops + [OpenLoop(Breaks(s, pc), Conts(s, pc))]
  {
    var all := loops + [OpenLoop([], [])];
    assert all[..|all| - 1] == loops && [] + Breaks(s, pc) == Breaks(s, pc) && [] + Conts(s, pc) == Conts(s, pc);
  }

  lemma {:induction false} WhileCodePatch(b: Code, gc: Code, gb: Code)
    ensures var code := b + gc + [Op(OpJmpFalse)] + gb + [Instr(OpJmp, 1, 0)];
      var out, back := |b + gc|, |b + gc| + 1 + |gb|;
      code[back := Instr(OpJmp, 1, Wide(back - |b|))][out := OpWide(OpJmpFalse, |code| - out)] == b + WhileCode(gc, gb)
  {
    var jf, j := OpWide(OpJmpFalse, |gb| + 2), Instr(OpJmp, 1, Wide(|gc| + 1 + |gb|));
    Patch(b + gc + [Op(OpJmpFalse)] + gb, Instr(OpJmp, 1, 0), [], j);
    var code := b + gc + [Op(OpJmpFalse)] + gb + [Instr(OpJmp, 1, 0)];
    assert code + [] == code;
    assert b + gc + [Op(OpJmpFalse)] + gb + [j] + [] == b + gc + [Op(OpJmpFalse)] + (gb + [j]);
    Patch(b + gc, Op(OpJmpFalse), gb + [j], jf);
    assert b + gc + [jf] + (gb + [j]) == b + (gc + [jf] + gb + [j]);
  }

  /** What compiler_do_while does to the code of the test `r` and the body `q`. */
  function WhileDone(was: Snap, r: Snap, q: Snap): Snap {
    var check, out, back := |was.code|, |r.code|, |q.code|;
    if check <= out < back && q.loops != [] then
      var code := (q.code + [Instr(OpJmp, 1, 0)])
        [back := Instr(OpJmp, 1, Wide(back - check))][out := OpWide(OpJmpFalse, back + 1 - out)];
      q.(code := PatchAll(code, q.loops[|q.loops| - 1], back + 1, check), loops := q.loops[..|q.loops| - 1])
    else q
  }

  lemma {:induction false} WhileResult(c: Expr, b: Stmt, was: Snap, t1: Toks, t2: Toks)
    requires Sound(was.sc)
    ensures StmtResult(Some((While(c, b), t2)), was) ==
      var r := ExprResult(Some((c, t1)), Enter(was));
      if r.None? then None
      else
        var q := StmtResult(Some((b, t2)), Emit(r.value, Op(OpJmpFalse)));
        if q.None? then None else Some(WhileDone(was, r.value, q.value))
  {
    if DeclExpr(c, was.sc).Some? && DeclStmt(b, DeclExpr(c, was.sc).value, true).Some? {
      WhileOk(c, b, was, t1, t2, DeclExpr(c, was.sc).value, DeclStmt(b, DeclExpr(c, was.sc).value, true).value);
    }
  }

  lemma {:induction false} WhileParts(c: Expr, b: Stmt, sc: Scope, inLoop: bool, s1: Scope, s2: Scope, pc: nat)
    requires DeclExpr(c, sc) == Some(s1) && DeclStmt(b, s1, true) == Some(s2)
    ensures var s := While(c, b);
      var pb := pc + |GenExpr(c, s2)| + 1;
      var brk := pb + |GenStmt(b, s2, pb, Open)| + 1;
      && DeclStmt(s, sc, inLoop) == Some(s2)
      && GenStmt(s, s2, pc, Open) == WhileCode(GenExpr(c, s2), GenStmt(b, s2, pb, Closed(brk, pc)))
      && Breaks(s, pc) == [] && Conts(s, pc) == []
  {
    WhileCodeOf(c, b, s2, pc, Open);
    hide GenStmt, GenExpr, DeclExpr, WhileCode, ExprSize, Resolve, VarRef;
  }

  lemma {:induction false} WhileOk(c: Expr, b: Stmt, was: Snap, t1: Toks, t2: Toks, s1: Scope, s2: Scope)
    requires Sound(was.sc)
    requires DeclExpr(c, was.sc) == Some(s1) && DeclStmt(b, s1, true) == Some(s2)
    ensures var r := ExprResult(Some((c, t1)), Enter(was));
      r.Some? &&
      var q := StmtResult(Some((b, t2)), Emit(r.value, Op(OpJmpFalse)));
      q.Some? && StmtResult(Some((While(c, b), t2)), was) == Some(WhileDone(was, r.value, q.value))
  {
    hide DeclExpr, DeclStmt, GenExpr, GenStmt, ExprSize, StmtSize, Breaks, Conts, Tracked, Extends, KnownExpr,
         KnownStmt, Sound, StmtResult, ExprResult, WhileCode, PatchAll, Wide;
    var s, pc := While(c, b), |was.code|;
    ExprThenStmt(c, b, was.sc, true);
    WhileParts(c, b, was.sc, was.loops != [], s1, s2, pc);
    ExprOf(c, t1, Enter(was), s1);
    var r := ExprResult(Some((c, t1)), Enter(was)).value;
    StmtOf(b, t2, Emit(r, Op(OpJmpFalse)), s2);
    StmtOf(s, t2, was, s2);
    var gc := GenExpr(c, s2);
    var pb := pc + |gc| + 1;
    var gb := GenStmt(b, s2, pb, Open);
    TrackNone(was.loops, s, pc);
    TrackFresh(was.loops, b, pb);
    WhileCodePatch(was.code, gc, gb);
    WhileClose(was.code, gc, b, s2, pb, pb + |gb| + 1);
  }

  lemma {:induction false} WhileClose(base: Code, gc: Code, b: Stmt, sc: Scope, pb: nat, brk: int)
    requires pb == |base| + |gc| + 1
    ensures PatchAll(base + WhileCode(gc, GenStmt(b, sc, pb, Open)), OpenLoop(Breaks(b, pb), Conts(b, pb)), brk, |base|)
         == base + WhileCode(gc, GenStmt(b, sc, pb, Closed(brk, |base|)))
  {
    hide GenStmt, PatchAll, Wide, StmtSize, Breaks, Conts;
    var n := StmtSize(b);
    var jf, j := OpWide(OpJmpFalse, n + 2), Instr(OpJmp, 1, Wide(|gc| + 1 + n));
    var o, cl := GenStmt(b, sc, pb, Open), GenStmt(b, sc, pb, Closed(brk, |base|));
    assert base + WhileCode(gc, o) == (base + gc + [jf]) + o + [j];
    assert base + WhileCode(gc, cl) == (base + gc + [jf]) + cl + [j];
    PatchBody(base + gc + [jf], b, sc, [j], brk, |base|);
  }

  // ----- FOR -----

  /** The store of the counter between the initializer and the test. */
  function ForStart(r: Snap, x: string, sc: Scope, rest: Toks): Snap {
    Emit(r, StoreRef(Resolve(sc, x))).(rest := rest)
  }

  /** The exit jump, the jump over the update and the filler. */
  function ForHead(q: Snap, rest: Toks): Snap {
    Emit(Emit(Emit(q, Op(OpJmpFalse)), Op(OpJmp)), Op(OpNop)).(rest := rest)
  }

  /** The jump back to the test; the jump over the update is patched. */
  function ForMiddle(begin: nat, q: Snap, u: Snap): Snap {
    var skip, repeater := |q.code| + 1, |u.code|;
    if skip < repeater then
      u.(code := (u.code + [Instr(OpJmp, 1, Wide(repeater - begin))])[skip := OpWide(OpJmp, repeater + 1 - skip)])
    else u
  }

  /** The jump back to the update, the closing filler and the remaining patches. */
  function ForDone(q: Snap, b: Snap): Snap {
    var out, update, back := |q.code|, |q.code| + 2, |b.code|;
    if out < back && b.loops != [] then
      var code := (b.code + [Instr(OpJmp, 1, Wide(back - update))]
          + [Op(OpNop)])[out := OpWide(OpJmpFalse, back + 1 - out)];
      b.(code := PatchAll(code, b.loops[|b.loops| - 1], back + 1, update), loops := b.loops[..|b.loops| - 1])
    else b
  }

  lemma {:induction false} ForStable(init: Expr, c: Expr, u: Stmt, b: Stmt, sc: Scope,
      s1: Scope, s2: Scope, s3: Scope, s4: Scope, pu: nat)
    requires Sound(sc) && DeclExpr(init, sc) == Some(s1) && DeclExpr(c, s1) == Some(s2)
    requires DeclStmt(u, s2, true) == Some(s3) && DeclStmt(b, s3, true) == Some(s4)
    ensures GenExpr(init, s4) == GenExpr(init, s1) && GenExpr(c, s4) == GenExpr(c, s2)
    ensures GenStmt(u, s4, pu, Open) == GenStmt(u, s3, pu, Open)
    ensures Extends(sc, s4) && Sound(s1)
  {
    hide DeclExpr, DeclStmt, GenExpr, GenStmt, Extends, KnownExpr;
    DeclSound(init, sc);
    DeclExprExtends(init, sc);
    DeclExprExtends(c, s1);
    DeclExprKnown(init, sc);
    KnownExprGrows(init, s1, s2);
    GenExprStable(init, s1, s2);
    CondStable(c, u, b, s1, true, s2, s3, s4, pu);
    DeclSound(c, s1);
    DeclStmtExtends(u, s2, true);
    StmtSound(u, s2, true);
    DeclStmtExtends(b, s3, true);
    ExtendsTrans(s2, s3, s4);
    GenExprStable(init, s2, s4);
    ExtendsTrans(sc, s1, s2);
    ExtendsTrans(sc, s2, s4);
  }

  lemma {:induction false} ForParts(s: Stmt, sc: Scope, inLoop: bool, s1: Scope, s2: Scope, s3: Scope, s4: Scope,
      pc: nat)
    requires s.For? && IsCounter(sc, s.counter)
    requires DeclExpr(s.init, sc) == Some(s1) && DeclExpr(s.cond, s1) == Some(s2)
    requires DeclStmt(s.update, s2, true) == Some(s3) && DeclStmt(s.body, s3, true) == Some(s4)
    ensures DeclStmt(s, sc, inLoop) == Some(s4) && Breaks(s, pc) == [] && Conts(s, pc) == []
  {
    hide DeclExpr;
    assert DeclTwo(s.init, s.cond, sc) == Some(s2);
  }

  lemma {:induction false} ForGen(s: Stmt, sc: Scope, pc: nat, lp: Loop)
    requires s.For?
    ensures var gi, gc := GenExpr(s.init, sc), GenExpr(s.cond, sc);
      var update := pc + |gi| + 1 + |gc| + 2;
      var gu := GenStmt(s.update, sc, update + 1, Open);
      var body := update + 1 + |gu| + 1;
      var end := body + |GenStmt(s.body, sc, body, Open)| + 1;
      GenStmt(s, sc, pc, lp) ==
      ForCode(gi, StoreRef(Resolve(sc, s.counter)), gc, gu, GenStmt(s.body, sc, body, Closed(end, update)))
  {
    hide GenStmt, GenExpr, ForCode, Wide, Resolve, StoreRef;
    ForCodeIs(s, sc, pc, lp);
  }

  /** The code of a FOR up to its test and the placeholders behind it. */
  function ForFront(a: Code, gi: Code, store: Instr, gc: Code): Code { a + gi + [store] + gc }

  /** The code of a FOR up to its body; the exit jump is still open. */
  function ForOpen(a: Code, gi: Code, store: Instr, gc: Code, gu: Code): Code {
    ForFront(a, gi, store, gc) + [Op(OpJmpFalse)]
    + ([OpWide(OpJmp, |gu| + 3), Op(OpNop)] + gu + [Instr(OpJmp, 1, Wide(|gc| + 3 + |gu|))])
  }

  lemma {:induction false} ForSkipPatch(a: Code, gi: Code, store: Instr, gc: Code, gu: Code)
    ensures var front := ForFront(a, gi, store, gc);
      var q := front + [Op(OpJmpFalse)] + [Op(OpJmp)] + [Op(OpNop)];
      var repeater := |q| + |gu|;
      var code := q + gu + [Instr(OpJmp, 1, Wide(repeater - (|a| + |gi| + 1)))];
      code[|front| + 1 := OpWide(OpJmp, repeater + 1 - (|front| + 1))] == ForOpen(a, gi, store, gc, gu)
  {
    var front := ForFront(a, gi, store, gc);
    var rep := Instr(OpJmp, 1, Wide(|gc| + 3 + |gu|));
    var skip := OpWide(OpJmp, |gu| + 3);
    var tail := [Op(OpNop)] + gu + [rep];
    assert |front| == |a| + |gi| + 1 + |gc|;
    hide ForFront;
    assert front + [Op(OpJmpFalse)] + [Op(OpJmp)] + [Op(OpNop)] + gu + [rep] ==
        (front + [Op(OpJmpFalse)]) + [Op(OpJmp)] + tail;
    Patch(front + [Op(OpJmpFalse)], Op(OpJmp), tail, skip);
    assert front + [Op(OpJmpFalse)] + [skip] + tail == front + [Op(OpJmpFalse)] + ([skip, Op(OpNop)] + gu + [rep]);
  }

  lemma {:induction false} ForExitPatch(a: Code, gi: Code, store: Instr, gc: Code, gu: Code, gb: Code)
    ensures var out := |a| + |gi| + 1 + |gc|;
      var u := ForOpen(a, gi, store, gc, gu);
      var back := |u| + |gb|;
      (u + gb + [Instr(OpJmp, 1, Wide(back - (out + 2)))] + [Op(OpNop)])[out := OpWide(OpJmpFalse, back + 1 - out)]
      == a + ForCode(gi, store, gc, gu, gb)
  {
    hide Wide;
    var front := ForFront(a, gi, store, gc);
    var jf, skip := OpWide(OpJmpFalse, |gu| + |gb| + 5), OpWide(OpJmp, |gu| + 3);
    var rep, back := Instr(OpJmp, 1, Wide(|gc| + 3 + |gu|)), Instr(OpJmp, 1, Wide(|gu| + 2 + |gb|));
    var mid := [skip, Op(OpNop)] + gu + [rep];
    var tail := mid + gb + [back] + [Op(OpNop)];
    assert front + [Op(OpJmpFalse)] + mid + gb + [back] + [Op(OpNop)] == front + [Op(OpJmpFalse)] + tail;
    Patch(front, Op(OpJmpFalse), tail, jf);
    assert front + [jf] + tail == a + ForCode(gi, store, gc, gu, gb);
  }

  lemma {:induction false} ForClose(a: Code, gi: Code, store: Instr, gc: Code, gu: Code, b: Stmt, sc: Scope, pb: nat,
      end: int, update: nat)
    requires pb == |a| + |gi| + |gc| + |gu| + 5
    ensures PatchAll(a + ForCode(gi, store, gc, gu, GenStmt(b, sc, pb, Open)), OpenLoop(Breaks(b, pb), Conts(b, pb)),
        end, update)
         == a + ForCode(gi, store, gc, gu, GenStmt(b, sc, pb, Closed(end, update)))
  {
    var n := |GenStmt(b, sc, pb, Open)|;
    var o, cl := GenStmt(b, sc, pb, Open), GenStmt(b, sc, pb, Closed(end, update));
    hide GenStmt;
    var pre := a + ((gi + [store]) + (gc + [OpWide(OpJmpFalse, |gu| + n + 5), OpWide(OpJmp, |gu| + 3), Op(OpNop)])
      + (gu + [Instr(OpJmp, 1, Wide(|gc| + 3 + |gu|))]));
    var post := [Instr(OpJmp, 1, Wide(|gu| + 2 + n)), Op(OpNop)];
    assert a + ForCode(gi, store, gc, gu, o) == pre + o + post;
    assert a + ForCode(gi, store, gc, gu, cl) == pre + cl + post;
    PatchBody(pre, b, sc, post, end, update);
  }

  /** The length of the code when the exit jump is written, and the buffers when the body is reached. */
  function ForPrefix(x: string, init: Expr, c: Expr, u: Stmt, was: Snap, t1: Toks, t2: Toks, t3: Toks, t4: Toks,
      t5: Toks): Option<(Snap, Snap)> {
    match ExprResult(Some((init, t1)), Enter(was))
    case None => None
    case Some(r) =>
      if !IsCounter(was.sc, x) then None
      else match ExprResult(Some((c, t3)), ForStart(r, x, was.sc, t2))
        case None => None
        case Some(q) =>
          match StmtResult(Some((u, t5)), ForHead(q, t4))
          case None => None
          case Some(m) => Some((q, ForMiddle(|r.code| + 1, q, m)))
  }

  lemma {:induction false} NoJumps(s: Stmt, pc: nat)
    requires s.Assign? || s.ExprStmt?
    ensures Breaks(s, pc) == [] && Conts(s, pc) == []
  {
  }

  lemma {:induction false} ForReachesBody(x: string, init: Expr, c: Expr, u: Stmt, was: Snap,
      t1: Toks, t2: Toks, t3: Toks, t4: Toks, t5: Toks, s1: Scope, s2: Scope, s3: Scope, pu: nat, a: Snap, b: Snap)
    requires (u.Assign? || u.ExprStmt?) && IsCounter(was.sc, x)
    requires DeclExpr(init, was.sc) == Some(s1) && DeclExpr(c, s1) == Some(s2) && DeclStmt(u, s2, true) == Some(s3)
    requires pu == |was.code| + |GenExpr(init, s1)| + 1 + |GenExpr(c, s2)| + 3
    requires a == Snap(t3, ForFront(was.code, GenExpr(init, s1), StoreRef(Resolve(was.sc, x)), GenExpr(c, s2)), s2,
        Enter(was).loops)
    requires b == Snap(t5, ForOpen(was.code, GenExpr(init, s1), StoreRef(Resolve(was.sc, x)), GenExpr(c, s2),
        GenStmt(u, s3, pu, Open)), s3, Enter(was).loops)
    ensures ForPrefix(x, init, c, u, was, t1, t2, t3, t4, t5) == Some((a, b))
  {
    hide DeclExpr, DeclStmt, GenExpr, GenStmt, ExprSize, StmtSize, Breaks, Conts, Tracked, Extends, KnownExpr,
         KnownStmt, Sound, StmtResult, ExprResult, Resolve, IsCounter, ForOpen;
    NoJumps(u, pu);
    ExprOf(init, t1, Enter(was), s1);
    var r := ExprResult(Some((init, t1)), Enter(was)).value;
    var r1 := ForStart(r, x, was.sc, t2);
    ExprOf(c, t3, r1, s2);
    var q1 := ForHead(a, t4);
    assert |q1.code| == pu;
    StmtOf(u, t5, q1, s3);
    TrackNone(q1.loops, u, pu);
    ForSkipPatch(was.code, GenExpr(init, s1), StoreRef(Resolve(was.sc, x)), GenExpr(c, s2), GenStmt(u, s3, pu, Open));
  }

  function ForResultOf(x: string, init: Expr, c: Expr, u: Stmt, body: Stmt, was: Snap,
      t1: Toks, t2: Toks, t3: Toks, t4: Toks, t5: Toks, t6: Toks): Option<Snap>
  {
    match ForPrefix(x, init, c, u, was, t1, t2, t3, t4, t5)
    case None => None
    case Some((q, m)) =>
      match StmtResult(Some((body, t6)), m)
      case None => None
      case Some(b) => Some(ForDone(q, b))
  }

  lemma {:induction false} ForOpenLength(a: Code, gi: Code, store: Instr, gc: Code, gu: Code)
    ensures |ForOpen(a, gi, store, gc, gu)| == |a| + |gi| + |gc| + |gu| + 5
  {
  }

  lemma CounterKnown(sc: Scope, x: string)
    requires IsCounter(sc, x)
    ensures Resolve(sc, x).Some?
  {
  }

  lemma {:induction false} ForEnds(was: Snap, q: Snap, m: Snap, body: Stmt, t6: Toks, s4: Scope,
      gi: Code, store: Instr, gc: Code, gu: Code, update: nat, pb: nat)
    requires DeclStmt(body, m.sc, true) == Some(s4)
    requires |q.code| == |was.code| + |gi| + 1 + |gc| && update == |q.code| + 2 && pb == update + 2 + |gu|
    requires m.code == ForOpen(was.code, gi, store, gc, gu) && m.loops == Enter(was).loops
    ensures var b := StmtResult(Some((body, t6)), m);
      b.Some? && ForDone(q, b.value) ==
      Snap(t6, was.code + ForCode(gi, store, gc, gu,
          GenStmt(body, s4, pb, Closed(pb + |GenStmt(body, s4, pb, Open)| + 1, update))), s4, was.loops)
  {
    hide DeclExpr, DeclStmt, GenExpr, GenStmt, ExprSize, StmtSize, Breaks, Conts, Tracked, Extends, KnownExpr,
         KnownStmt, Sound, StmtResult, ExprResult, ForOpen;
    ForOpenLength(was.code, gi, store, gc, gu);
    StmtOf(body, t6, m, s4);
    TrackFresh(was.loops, body, pb);
    var gb := GenStmt(body, s4, pb, Open);
    ForExitPatch(was.code, gi, store, gc, gu, gb);
    ForClose(was.code, gi, store, gc, gu, body, s4, pb, pb + |gb| + 1, update);
  }

  /** The code of a FOR in its final scope, in terms of the scopes in which its parts were compiled. */
  lemma {:induction false} ForFinal(x: string, init: Expr, c: Expr, u: Stmt, body: Stmt, was: Snap, t6: Toks,
      s1: Scope, s2: Scope, s3: Scope, s4: Scope, gi: Code, gc: Code, gu: Code, update: nat, pb: nat, end: nat)
    requires Sound(was.sc) && IsCounter(was.sc, x)
    requires DeclExpr(init, was.sc) == Some(s1) && DeclExpr(c, s1) == Some(s2)
    requires DeclStmt(u, s2, true) == Some(s3) && DeclStmt(body, s3, true) == Some(s4)
    requires gi == GenExpr(init, s1) && gc == GenExpr(c, s2) && gu == GenStmt(u, s3, update + 1, Open)
    requires update == |was.code| + |gi| + 1 + |gc| + 2 && pb == update + 2 + |gu|
        && end == pb + |GenStmt(body, s4, pb, Open)| + 1
    ensures StmtResult(Some((For(x, init, c, u, body), t6)), was) ==
      Some(Snap(t6, was.code + ForCode(gi, StoreRef(Resolve(was.sc, x)), gc, gu,
          GenStmt(body, s4, pb, Closed(end, update))), s4, was.loops))
  {
    hide DeclExpr, DeclStmt, GenExpr, GenStmt, ExprSize, StmtSize, Breaks, Conts, Tracked, Extends, KnownExpr,
         KnownStmt, Sound, StmtResult, ExprResult, Resolve, IsCounter, ForCode, Lookup, Current;
    var s, pc := For(x, init, c, u, body), |was.code|;
    CounterKnown(was.sc, x);
    ForStable(init, c, u, body, was.sc, s1, s2, s3, s4, update + 1);
    ExtendsResolve(was.sc, s4, x);
    ForParts(s, was.sc, was.loops != [], s1, s2, s3, s4, pc);
    ForGen(s, s4, pc, Open);
    StmtOf(s, t6, was, s4);
    TrackNone(was.loops, s, pc);
  }

  lemma {:induction false} ForOk(x: string, init: Expr, c: Expr, u: Stmt, body: Stmt, was: Snap,
      t1: Toks, t2: Toks, t3: Toks, t4: Toks, t5: Toks, t6: Toks, s1: Scope, s2: Scope, s3: Scope, s4: Scope)
    requires Sound(was.sc) && IsCounter(was.sc, x) && (u.Assign? || u.ExprStmt?)
    requires DeclExpr(init, was.sc) == Some(s1) && DeclExpr(c, s1) == Some(s2)
    requires DeclStmt(u, s2, true) == Some(s3) && DeclStmt(body, s3, true) == Some(s4)
    ensures StmtResult(Some((For(x, init, c, u, body), t6)), was) ==
        ForResultOf(x, init, c, u, body, was, t1, t2, t3, t4, t5, t6)
  {
    hide DeclExpr, DeclStmt, GenExpr, GenStmt, ExprSize, StmtSize, Breaks, Conts, Tracked, Extends, KnownExpr,
         KnownStmt, Sound, StmtResult, ExprResult, Resolve, IsCounter, ForMiddle, ForHead, ForStart, ForDone,
         ForCode, ForOpen, ForPrefix;
    var store := StoreRef(Resolve(was.sc, x));
    var gi, gc := GenExpr(init, s1), GenExpr(c, s2);
    var update := |was.code| + |gi| + 1 + |gc| + 2;
    var gu := GenStmt(u, s3, update + 1, Open);
    var q := Snap(t3, ForFront(was.code, gi, store, gc), s2, Enter(was).loops);
    var m := Snap(t5, ForOpen(was.code, gi, store, gc, gu), s3, Enter(was).loops);
    var pb := update + 2 + |gu|;
    var end := pb + |GenStmt(body, s4, pb, Open)| + 1;
    ForReachesBody(x, init, c, u, was, t1, t2, t3, t4, t5, s1, s2, s3, update + 1, q, m);
    ForEnds(was, q, m, body, t6, s4, gi, store, gc, gu, update, pb);
    ForFinal(x, init, c, u, body, was, t6, s1, s2, s3, s4, gi, gc, gu, update, pb, end);
  }

  lemma {:induction false} ForResult(x: string, init: Expr, c: Expr, u: Stmt, body: Stmt, was: Snap,
      t1: Toks, t2: Toks, t3: Toks, t4: Toks, t5: Toks, t6: Toks)
    requires Sound(was.sc) && (u.Assign? || u.ExprStmt?)
    ensures StmtResult(Some((For(x, init, c, u, body), t6)), was) ==
        ForResultOf(x, init, c, u, body, was, t1, t2, t3, t4, t5, t6)
  {
    var s := For(x, init, c, u, body);
    if IsCounter(was.sc, x) && DeclExpr(init, was.sc).Some? {
      var s1 := DeclExpr(init, was.sc).value;
      if DeclExpr(c, s1).Some? {
        var s2 := DeclExpr(c, s1).value;
        assert DeclTwo(init, c, was.sc) == Some(s2);
        if DeclStmt(u, s2, true).Some? {
          ForBodyResult(x, init, c, u, body, was, t1, t2, t3, t4, t5, t6, s1, s2, DeclStmt(u, s2, true).value);
        }
      }
    }
  }

  lemma {:induction false} ForBodyResult(x: string, init: Expr, c: Expr, u: Stmt, body: Stmt, was: Snap,
      t1: Toks, t2: Toks, t3: Toks, t4: Toks, t5: Toks, t6: Toks, s1: Scope, s2: Scope, s3: Scope)
    requires Sound(was.sc) && (u.Assign? || u.ExprStmt?) && IsCounter(was.sc, x)
    requires DeclExpr(init, was.sc) == Some(s1) && DeclExpr(c, s1) == Some(s2) && DeclStmt(u, s2, true) == Some(s3)
    ensures StmtResult(Some((For(x, init, c, u, body), t6)), was) ==
        ForResultOf(x, init, c, u, body, was, t1, t2, t3, t4, t5, t6)
  {
    if DeclStmt(body, s3, true).Some? {
      ForOk(x, init, c, u, body, was, t1, t2, t3, t4, t5, t6, s1, s2, s3, DeclStmt(body, s3, true).value);
    } else {
      ForFails(x, init, c, u, body, was, t1, t2, t3, t4, t5, t6, s1, s2, s3);
    }
  }

  lemma {:induction false} BodyUndeclared(body: Stmt, t6: Toks, m: Snap)
    requires m.loops != [] && DeclStmt(body, m.sc, true).None?
    ensures StmtResult(Some((body, t6)), m).None?
  {
  }

  lemma {:induction false} ForUndeclared(x: string, init: Expr, c: Expr, u: Stmt, body: Stmt, was: Snap, t6: Toks,
      s1: Scope, s2: Scope,
      s3: Scope)
    requires DeclExpr(init, was.sc) == Some(s1) && DeclExpr(c, s1) == Some(s2) && DeclStmt(u, s2, true) == Some(s3)
    requires DeclStmt(body, s3, true).None? && IsCounter(was.sc, x)
    ensures StmtResult(Some((For(x, init, c, u, body), t6)), was).None?
  {
    hide DeclExpr, GenStmt, IsCounter;
    assert DeclTwo(init, c, was.sc) == Some(s2);
    assert DeclStmt(For(x, init, c, u, body), was.sc, was.loops != []).None?;
  }

  lemma {:induction false} ForFails(x: string, init: Expr, c: Expr, u: Stmt, body: Stmt, was: Snap,
      t1: Toks, t2: Toks, t3: Toks, t4: Toks, t5: Toks, t6: Toks, s1: Scope, s2: Scope, s3: Scope)
    requires Sound(was.sc) && (u.Assign? || u.ExprStmt?) && IsCounter(was.sc, x)
    requires DeclExpr(init, was.sc) == Some(s1) && DeclExpr(c, s1) == Some(s2) && DeclStmt(u, s2, true) == Some(s3)
    requires DeclStmt(body, s3, true).None?
    ensures ForResultOf(x, init, c, u, body, was, t1, t2, t3, t4, t5, t6).None?
    ensures StmtResult(Some((For(x, init, c, u, body), t6)), was).None?
  {
    ForUndeclared(x, init, c, u, body, was, t6, s1, s2, s3);
    hide DeclExpr, DeclStmt, DeclTwo, GenExpr, GenStmt, IsCounter, ExprResult, StmtResult, ForOpen, ForFront, ForPrefix,
         Resolve, StoreRef, Sound, Wide;
    var gi, gc, store := GenExpr(init, s1), GenExpr(c, s2), StoreRef(Resolve(was.sc, x));
    var pu := |was.code| + |gi| + 1 + |gc| + 3;
    var q := Snap(t3, ForFront(was.code, gi, store, gc), s2, Enter(was).loops);
    var m := Snap(t5, ForOpen(was.code, gi, store, gc, GenStmt(u, s3, pu, Open)), s3, Enter(was).loops);
    ForReachesBody(x, init, c, u, was, t1, t2, t3, t4, t5, s1, s2, s3, pu, q, m);
    BodyUndeclared(body, t6, m);
  }
}
