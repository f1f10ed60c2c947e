/** What the methods of the expression ladder promise each other. */
module LadderSpec {
  import opened Wrappers
  import opened Bytecode
  import opened Syntax
  import opened Parser
  import opened Scoping
  import opened Codegen
  import opened CompileSpec

  /** The compile hints that matter here: failure, an emitted value, or an assignment target that was
      consumed without emitting anything. */
  datatype Hint = Dead | Done | Target(ref: Ref)

  predicate NameTarget(t: Toks) { IsTarget(t) && t[0].TkIdent? }

  /** What an expression method does to the buffers, given the parse of what it read. */
  ghost predicate ExprPost(p: Option<(Expr, Toks)>, was: Snap, now: Snap, h: Hint) {
    if NameTarget(was.rest) then
      && h == (if Resolve(was.sc, was.rest[0].name).Some? then Target(Resolve(was.sc,
          was.rest[0].name).value) else Dead)
      && (h.Target? ==> now == was.(rest := was.rest[1..]))
    else
      && !h.Target?
      && h.Done? == ExprResult(p, was).Some?
      && (h.Done? ==> now == ExprResult(p, was).value && Sound(now.sc) && |now.rest| < |was.rest|)
  }

  /** The saved target is the last one met, and only a variable is saved. */
  predicate TargetKept(was: Option<Ref>, now: Option<Ref>, h: Hint) {
    && (h.Done? ==> now == was)
    && (h.Target? && !h.ref.FunRef? ==> now == Some(h.ref))
  }

  lemma {:induction false} ExprPostSound(p: Option<(Expr, Toks)>, was: Snap)
    requires Sound(was.sc) && ExprResult(p, was).Some?
    ensures Sound(ExprResult(p, was).value.sc)
  {
    DeclSound(p.value.0, was.sc);
  }

  lemma {:induction false} PostDone(p: Option<(Expr, Toks)>, was: Snap, out: Snap)
    requires !NameTarget(was.rest) && ExprResult(p, was) == Some(out) && Sound(out.sc) && |out.rest| < |was.rest|
    ensures ExprPost(p, was, out, Done)
  {
  }

  lemma {:induction false} PostDead(p: Option<(Expr, Toks)>, was: Snap, out: Snap)
    requires !NameTarget(was.rest) && ExprResult(p, was).None?
    ensures ExprPost(p, was, out, Dead)
  {
  }

  /** What a finished call of an expression method tells its caller. */
  lemma {:induction false} PostIs(p: Option<(Expr, Toks)>, was: Snap, now: Snap, h: Hint)
    requires ExprPost(p, was, now, h)
    ensures h.Done? ==>
      !NameTarget(was.rest) && ExprResult(p, was) == Some(now) && Sound(now.sc) && |now.rest| < |was.rest|
    ensures !h.Done? ==> NameTarget(was.rest) || ExprResult(p, was).None?
    ensures h.Target? ==> NameTarget(was.rest) && now == was.(rest := was.rest[1..]) && |now.rest| < |was.rest|
  {
  }

  /** A failure on one rung is a failure on the rung above it; so is a target. */
  lemma {:induction false} PostLift(p: Option<(Expr, Toks)>, q: Option<(Expr, Toks)>, was: Snap, now: Snap, h: Hint)
    requires ExprPost(p, was, now, h)
    requires h.Done? ==> q == p
    requires !NameTarget(was.rest) && ExprResult(p, was).None? ==> ExprResult(q, was).None?
    ensures ExprPost(q, was, now, h)
  {
  }

  lemma {:induction false} GroupParse(t: Toks)
    requires At(t, TkLParen)
    ensures !IsTarget(t)
    ensures ParseOr(t[1..]).None? ==> ParseLiteral(t).None?
    ensures var p := ParseOr(t[1..]); p.Some? ==>
      ParseLiteral(t) == if At(p.value.1, TkRParen) then Some((p.value.0, p.value.1[1..])) else None
  {
    hide ParseOr;
  }

  lemma {:induction false} NumberIs(lex: string, t: Toks, sc: Scope)
    requires At(t, TkNum(lex))
    ensures ParseLiteral(t) == if IsTarget(t) then None else Some((Lit(LNum(lex)), t[1..]))
    ensures DeclExpr(Lit(LNum(lex)), sc) == Some(RecordConst(sc, lex))
    ensures ConstId(RecordConst(sc, lex), lex).Some? ==>
      GenExpr(Lit(LNum(lex)), RecordConst(sc, lex)) == [OpWide(OpPutK, ConstId(RecordConst(sc, lex), lex).value)]
  {
    hide RecordConst, ConstId, Wide;
  }

  lemma {:induction false} CallLift(was: Snap, now: Snap, h: Hint)
    requires ExprPost(ParseLiteral(was.rest), was, now, h)
    requires h.Done? ==> !At(now.rest, TkLParen)
    ensures ExprPost(ParseCall(was.rest), was, now, h)
  {
    PostLift(ParseLiteral(was.rest), ParseCall(was.rest), was, now, h);
  }

  lemma {:induction false} CoalLift(was: Snap, now: Snap, h: Hint)
    requires ExprPost(ParseUnary(was.rest), was, now, h)
    requires h.Done? ==> !At(now.rest, TkNullCoal)
    ensures ExprPost(ParseLevel(0, was.rest), was, now, h)
  {
    assert ParseLevel(0, was.rest) == ParseCoal(was.rest);
    PostLift(ParseUnary(was.rest), ParseCoal(was.rest), was, now, h);
  }

  lemma {:induction false} AndLift(was: Snap, now: Snap, h: Hint)
    requires ExprPost(ParseLevel(8, was.rest), was, now, h)
    requires h.Done? ==> !At(now.rest, TkAnd)
    ensures ExprPost(ParseAnd(was.rest), was, now, h)
  {
    PostLift(ParseLevel(8, was.rest), ParseAnd(was.rest), was, now, h);
  }

  lemma {:induction false} OrLift(was: Snap, now: Snap, h: Hint)
    requires ExprPost(ParseAnd(was.rest), was, now, h)
    requires h.Done? ==> !At(now.rest, TkOr)
    ensures ExprPost(ParseOr(was.rest), was, now, h)
  {
    PostLift(ParseAnd(was.rest), ParseOr(was.rest), was, now, h);
  }

  lemma {:induction false} LevelLift(k: nat, was: Snap, now: Snap, h: Hint)
    requires 1 <= k <= 8 && Sound(was.sc) && ExprPost(ParseLevel(k - 1, was.rest), was, now, h) && !h.Done?
    ensures ExprPost(ParseLevel(k, was.rest), was, now, h)
  {
    LevelStart(k, was);
    PostLift(ParseLevel(k - 1, was.rest), ParseLevel(k, was.rest), was, now, h);
  }

  // ----- value lemmas behind the ladder -----

  lemma {:induction false} ArgsEnd(t: Toks, m: Snap)
    requires t == [] || At(t, TkRParen)
    ensures ArgsResult(ParseArgs(t), m) == Some(m.(rest := Eat(t))) && ParseArgs(t) == Some((ENil, Eat(t)))
  {
    assert m.code + [] == m.code;
  }

  lemma {:induction false} ResultParsed(p: Option<(Expr, Toks)>, was: Snap)
    requires ExprResult(p, was).Some?
    ensures p.Some?
  {
  }

  lemma {:induction false} NoResult(p: Option<(Expr, Toks)>, was: Snap)
    requires p.None?
    ensures ExprResult(p, was).None?
  {
  }

  /** The code buffer only grows. */
  lemma {:induction false} ResultExtends(p: Option<(Expr, Toks)>, was: Snap, now: Snap)
    requires ExprResult(p, was) == Some(now)
    ensures |was.code| <= |now.code| && now.code[..|was.code|] == was.code && now.loops == was.loops
  {
  }

  ghost function LeftOf(k: nat, was: Snap): Expr
    requires 1 <= k <= 8
  {
    if ParseLevel(k - 1, was.rest).Some? then ParseLevel(k - 1, was.rest).value.0 else Lit(LNil)
  }

  /** The argument loop: what is left to do from here is what is left to do in all. */
  ghost predicate ArgsInv(start: Snap, now: Snap, count: nat) {
    && ArgsResult(ParseArgs(start.rest), start) == ArgsResult(ParseArgs(now.rest), now)
    && (ParseArgs(start.rest).Some? <==> ParseArgs(now.rest).Some?)
    && (ParseArgs(now.rest).Some? ==>
        ArgCount(ParseArgs(start.rest).value.0) == count + ArgCount(ParseArgs(now.rest).value.0))
  }

  lemma {:induction false} ArgDone(start: Snap, here: Snap, now: Snap, count: nat)
    requires Sound(here.sc) && here.rest != [] && !At(here.rest, TkRParen) && ArgsInv(start, here, count)
    requires ExprResult(ParseLevel(8, here.rest), here) == Some(now)
    ensures ArgsInv(start, now.(rest := EatIf(now.rest, TkComma)), count + 1)
  {
    ArgsStep(here.rest, here);
  }

  lemma {:induction false} ArgFails(was: Snap, callee: Snap, start: Snap, here: Snap, count: nat)
    requires Sound(was.sc) && Sound(here.sc)
    requires ExprResult(ParseLiteral(was.rest), was) == Some(callee) && At(callee.rest, TkLParen)
    requires start == callee.(rest := callee.rest[1..]) && ArgsInv(start, here, count)
    requires here.rest != [] && !At(here.rest, TkRParen)
    requires NameTarget(here.rest) || ExprResult(ParseLevel(8, here.rest), here).None?
    ensures ExprResult(ParseCall(was.rest), was).None?
  {
    if NameTarget(here.rest) { TargetFails(here.rest); }
    ArgsStep(here.rest, here);
    var (f, t1) := ParseLiteral(was.rest).value;
    var p := ParseArgs(start.rest);
    if p.Some? {
      CallResult(f, p.value.0, was, t1, p.value.1);
    }
  }

  lemma {:induction false} CallDone(was: Snap, callee: Snap, start: Snap, last: Snap, count: nat, out: Snap)
    requires Sound(was.sc)
    requires ExprResult(ParseLiteral(was.rest), was) == Some(callee) && At(callee.rest, TkLParen)
    requires start == callee.(rest := callee.rest[1..]) && ArgsInv(start, last, count)
    requires last.rest == [] || At(last.rest, TkRParen)
    requires out == last.(rest := Eat(last.rest), code := last.code + [OpWide(OpCall, count)])
    ensures ExprResult(ParseCall(was.rest), was) == Some(out) && Sound(out.sc)
  {
    ArgsEnd(last.rest, last);
    var (f, t1) := ParseLiteral(was.rest).value;
    var p := ParseArgs(start.rest);
    CallResult(f, p.value.0, was, t1, p.value.1);
    ExprPostSound(ParseCall(was.rest), was);
  }

  lemma {:induction false} PlainUnary(t: Toks)
    requires !At(t, TkNullish) && !At(t, TkBitNot)
    ensures ParseUnary(t) == ParseCall(t)
  {
  }

  lemma {:induction false} PrefixFails(was: Snap, here: Snap)
    requires (At(was.rest, TkNullish) || At(was.rest, TkBitNot)) && here == was.(rest := was.rest[1..])
    requires NameTarget(here.rest) || ExprResult(ParseCall(here.rest), here).None?
    ensures ExprResult(ParseUnary(was.rest), was).None?
  {
    if NameTarget(here.rest) { TargetFails(here.rest); }
  }

  lemma {:induction false} PrefixDone(was: Snap, here: Snap, m: Snap, op: Opcode)
    requires (At(was.rest, TkNullish) && op == OpChkNone) || (At(was.rest, TkBitNot) && op == OpBitNot)
    requires here == was.(rest := was.rest[1..])
    requires ExprResult(ParseCall(here.rest), here) == Some(m)
    ensures ExprResult(ParseUnary(was.rest), was) == Some(m.(code := m.code + [Op(op)]))
  {
    var (e, t) := ParseUnary(was.rest).value;
    UnaryResult(e, was, t);
  }

  lemma {:induction false} CoalFails(was: Snap, left: Snap, mid: Snap)
    requires ExprResult(ParseUnary(was.rest), was) == Some(left) && At(left.rest, TkNullCoal)
    requires mid.rest == left.rest[1..] && mid.sc == left.sc
    requires NameTarget(mid.rest) || ExprResult(ParseUnary(mid.rest), mid).None?
    ensures ExprResult(ParseLevel(0, was.rest), was).None?
  {
    if NameTarget(mid.rest) { TargetFails(mid.rest); }
    assert ParseLevel(0, was.rest) == ParseCoal(was.rest);
    if ParseUnary(mid.rest).Some? {
      PairFails(Coal(ParseUnary(was.rest).value.0, ParseUnary(mid.rest).value.0), was, mid,
          ParseUnary(mid.rest).value.1);
    }
  }

  lemma {:induction false} AndFails(was: Snap, left: Snap, mid: Snap)
    requires ExprResult(ParseLevel(8, was.rest), was) == Some(left) && At(left.rest, TkAnd)
    requires mid.rest == left.rest[1..] && mid.sc == left.sc
    requires NameTarget(mid.rest) || ExprResult(ParseLevel(8, mid.rest), mid).None?
    ensures ExprResult(ParseAnd(was.rest), was).None?
  {
    if NameTarget(mid.rest) { TargetFails(mid.rest); }
    if ParseLevel(8, mid.rest).Some? {
      PairFails(And(ParseLevel(8, was.rest).value.0, ParseLevel(8, mid.rest).value.0), was, mid,
          ParseLevel(8, mid.rest).value.1);
    }
  }

  lemma {:induction false} OrFails(was: Snap, left: Snap, mid: Snap)
    requires ExprResult(ParseAnd(was.rest), was) == Some(left) && At(left.rest, TkOr)
    requires mid.rest == left.rest[1..] && mid.sc == left.sc
    requires NameTarget(mid.rest) || ExprResult(ParseAnd(mid.rest), mid).None?
    ensures ExprResult(ParseOr(was.rest), was).None?
  {
    if NameTarget(mid.rest) { TargetFails(mid.rest); }
    if ParseAnd(mid.rest).Some? {
      PairFails(Or(ParseAnd(was.rest).value.0, ParseAnd(mid.rest).value.0), was, mid, ParseAnd(mid.rest).value.1);
    }
  }

  /** A name or number before `:=` is not an operand on any rung. */
  lemma {:induction false} TargetLevel(k: nat, t: Toks)
    requires IsTarget(t) && k <= 8
    ensures ParseLevel(k, t).None? && ParseUnary(t).None? && ParseCall(t).None?
    decreases k
  {
    assert ParseLiteral(t).None?;
    assert ParseUnary(t) == ParseCall(t);
    if k == 0 {
      assert ParseLevel(k, t) == ParseCoal(t);
    } else {
      TargetLevel(k - 1, t);
    }
  }

  lemma {:induction false} TargetFails(t: Toks)
    requires IsTarget(t)
    ensures ParseCall(t).None? && ParseUnary(t).None? && ParseLevel(8, t).None? && ParseAnd(t).None? && ParseOr(t).None?
  {
    TargetLevel(8, t);
  }

  /** Two operands: the left one at `was`, the right one at `mid`. */
  lemma {:induction false} PairFails(e: Expr, was: Snap, mid: Snap, t2: Toks)
    requires IsPair(e) && DeclExpr(e.l, was.sc) == Some(mid.sc) && ExprResult(Some((e.r, t2)), mid).None?
    ensures ExprResult(Some((e, t2)), was).None?
  {
  }

  lemma {:induction false} PairDone(e: Expr, was: Snap, m1: Snap, mid: Snap, m2: Snap, t2: Toks, hole: Code,
      middle: Code, post: Code, out: Snap)
    requires Sound(was.sc) && IsPair(e) && |hole| == |middle|
    requires ExprResult(Some((e.l, m1.rest)), was) == Some(m1)
    requires mid.sc == m1.sc && mid.loops == m1.loops && mid.code == m1.code + hole
    requires ExprResult(Some((e.r, t2)), mid) == Some(m2)
    requires out == m2.(code := m1.code + middle + m2.code[|mid.code|..] + post)
    requires GenExpr(e, m2.sc) == GenExpr(e.l, m2.sc) + middle + GenExpr(e.r, m2.sc) + post
    ensures ExprResult(Some((e, t2)), was) == Some(out) && Sound(out.sc)
  {
    PairResult(e, was, m1.rest, middle, t2, post);
    DeclSound(e, was.sc);
    assert m2.code[|mid.code|..] == GenExpr(e.r, m2.sc);
  }

  lemma {:induction false} CoalGen(l: Expr, r: Expr, sc: Scope)
    ensures GenExpr(Coal(l, r), sc) == GenExpr(l, sc)
      + [Op(OpChkNone), OpWide(OpJmpFalse, |GenExpr(r, sc)| + 3), POP] + GenExpr(r, sc) + [OpWide(OpJmp, 2), POP]
  {
    var gl, gr := GenExpr(l, sc), GenExpr(r, sc);
    assert gl + [Op(OpChkNone)] + CoalTail(gr) ==
        gl + [Op(OpChkNone), OpWide(OpJmpFalse, |gr| + 3), POP] + gr + [OpWide(OpJmp, 2), POP];
  }

  /** What the two patches of `??` make of the code. */
  lemma {:induction false} CoalPatched(a: Code, gr: Code)
    ensures var code := a + [Op(OpChkNone), Op(OpJmpFalse), POP] + gr;
      var jump, past, all := |a| + 1, |code|, code + [Op(OpJmp)];
      var more := all[jump := all[jump].(wide := Wide(past + 1 - jump))] + [POP];
      more[past := more[past].(wide := Wide(2))]
      == a + [Op(OpChkNone), OpWide(OpJmpFalse, |gr| + 3), POP] + gr + [OpWide(OpJmp, 2), POP]
  {
    hide Wide;
  }

  lemma {:induction false} CoalParses(t: Toks, m: Toks, l: Expr, r: Expr, t2: Toks)
    requires ParseUnary(t) == Some((l, m)) && At(m, TkNullCoal) && ParseUnary(m[1..]) == Some((r, t2))
    ensures ParseLevel(0, t) == Some((Coal(l, r), t2))
  {
    hide ParseUnary;
    assert ParseLevel(0, t) == ParseCoal(t);
  }

  lemma {:induction false} CoalDone(was: Snap, m1: Snap, mid: Snap, m2: Snap, out: Snap)
    requires Sound(was.sc) && ExprResult(ParseUnary(was.rest), was) == Some(m1) && At(m1.rest, TkNullCoal)
    requires mid == m1.(rest := m1.rest[1..], code := m1.code + [Op(OpChkNone), Op(OpJmpFalse), POP])
    requires ExprResult(ParseUnary(mid.rest), mid) == Some(m2)
    requires |m1.code| + 1 < |m2.code|
    requires var jump, past, all := |m1.code| + 1, |m2.code|, m2.code + [Op(OpJmp)];
      var more := all[jump := all[jump].(wide := Wide(past + 1 - jump))] + [POP];
      out == m2.(code := more[past := more[past].(wide := Wide(2))])
    ensures ExprResult(ParseLevel(0, was.rest), was) == Some(out) && Sound(out.sc)
  {
    hide *;
    var e, t2 := CoalRead(was, m1, mid, m2);
    var gr := GenExpr(e.r, m2.sc);
    CoalPatched(m1.code, gr);
    CoalBuilt(e, was, m1, mid, m2, t2, out);
  }

  /** The tree that was read, and what its right side added. */
  lemma CoalRead(was: Snap, m1: Snap, mid: Snap, m2: Snap) returns (e: Expr, t2: Toks)
    requires ExprResult(ParseUnary(was.rest), was) == Some(m1) && At(m1.rest, TkNullCoal)
    requires mid == m1.(rest := m1.rest[1..], code := m1.code + [Op(OpChkNone), Op(OpJmpFalse), POP])
    requires ExprResult(ParseUnary(mid.rest), mid) == Some(m2)
    ensures e.Coal? && ParseLevel(0, was.rest) == Some((e, t2))
    ensures ExprResult(Some((e.l, m1.rest)), was) == Some(m1) && ExprResult(Some((e.r, t2)), mid) == Some(m2)
    ensures m2.code == m1.code + [Op(OpChkNone), Op(OpJmpFalse), POP] + GenExpr(e.r, m2.sc)
  {
    hide ParseUnary, ParseLevel, GenExpr, DeclExpr;
    var l := ParseUnary(was.rest).value.0;
    var r;
    r, t2 := ParseUnary(mid.rest).value.0, ParseUnary(mid.rest).value.1;
    e := Coal(l, r);
    CoalParses(was.rest, m1.rest, l, r, t2);
  }

  lemma {:induction false} CoalBuilt(e: Expr, was: Snap, m1: Snap, mid: Snap, m2: Snap, t2: Toks, out: Snap)
    requires Sound(was.sc) && e.Coal? && ParseLevel(0, was.rest) == Some((e, t2)) && At(m1.rest, TkNullCoal)
    requires ExprResult(Some((e.l, m1.rest)), was) == Some(m1) && ExprResult(Some((e.r, t2)), mid) == Some(m2)
    requires mid == m1.(rest := m1.rest[1..], code := m1.code + [Op(OpChkNone), Op(OpJmpFalse), POP])
    requires m2.code == m1.code + [Op(OpChkNone), Op(OpJmpFalse), POP] + GenExpr(e.r, m2.sc)
    requires var gr := GenExpr(e.r, m2.sc);
      out == m2.(code := m1.code + [Op(OpChkNone), OpWide(OpJmpFalse, |gr| + 3), POP] + gr + [OpWide(OpJmp, 2), POP])
    ensures ExprResult(ParseLevel(0, was.rest), was) == Some(out) && Sound(out.sc)
  {
    hide ExprResult, GenExpr, Wide, ParseLevel;
    var gr := GenExpr(e.r, m2.sc);
    CoalGen(e.l, e.r, m2.sc);
    assert m2.code[|mid.code|..] == gr;
    PairDone(e, was, m1, mid, m2, t2, [Op(OpChkNone), Op(OpJmpFalse), POP],
             [Op(OpChkNone), OpWide(OpJmpFalse, |gr| + 3), POP], [OpWide(OpJmp, 2), POP], out);
  }

  lemma {:induction false} AndDone(was: Snap, m1: Snap, mid: Snap, m2: Snap, out: Snap)
    requires Sound(was.sc) && ExprResult(ParseLevel(8, was.rest), was) == Some(m1) && At(m1.rest, TkAnd)
    requires mid == m1.(rest := m1.rest[1..], code := m1.code + [Op(OpJmpFalse), POP])
    requires ExprResult(ParseLevel(8, mid.rest), mid) == Some(m2)
    requires |m1.code| < |m2.code|
    requires var jump, all := |m1.code|, m2.code + [Op(OpNop)];
      out == m2.(code := all[jump := all[jump].(wide := Wide(|m2.code| - jump))])
    ensures ExprResult(ParseAnd(was.rest), was) == Some(out) && Sound(out.sc)
  {
    var l := ParseLevel(8, was.rest).value.0;
    var (r, t2) := ParseLevel(8, mid.rest).value;
    var gr := GenExpr(r, m2.sc);
    assert m2.code == m1.code + [Op(OpJmpFalse), POP] + gr;
    var middle := [OpWide(OpJmpFalse, |gr| + 2), POP];
    assert out.code == m1.code + middle + gr + [Op(OpNop)];
    assert m2.code[|mid.code|..] == gr;
    PairDone(And(l, r), was, m1, mid, m2, t2, [Op(OpJmpFalse), POP], middle, [Op(OpNop)], out);
  }

  lemma {:induction false} OrDone(was: Snap, m1: Snap, mid: Snap, m2: Snap, out: Snap)
    requires Sound(was.sc) && ExprResult(ParseAnd(was.rest), was) == Some(m1) && At(m1.rest, TkOr)
    requires mid == m1.(rest := m1.rest[1..], code := m1.code + [Op(OpJmpIf), POP])
    requires ExprResult(ParseAnd(mid.rest), mid) == Some(m2)
    requires |m1.code| < |m2.code|
    requires var jump, all := |m1.code|, m2.code + [Op(OpNop)];
      out == m2.(code := all[jump := all[jump].(wide := Wide(|m2.code| - jump))])
    ensures ExprResult(ParseOr(was.rest), was) == Some(out) && Sound(out.sc)
  {
    var l := ParseAnd(was.rest).value.0;
    var (r, t2) := ParseAnd(mid.rest).value;
    var gr := GenExpr(r, m2.sc);
    assert m2.code == m1.code + [Op(OpJmpIf), POP] + gr;
    var middle := [OpWide(OpJmpIf, |gr| + 2), POP];
    assert out.code == m1.code + middle + gr + [Op(OpNop)];
    assert m2.code[|mid.code|..] == gr;
    PairDone(Or(l, r), was, m1, mid, m2, t2, [Op(OpJmpIf), POP], middle, [Op(OpNop)], out);
  }

  /** Results depend on the tokens only through the parse. */
  lemma {:induction false} SameResult(p: Option<(Expr, Toks)>, a: Snap, b: Snap)
    requires b == a.(rest := b.rest)
    ensures ExprResult(p, a) == ExprResult(p, b)
  {
  }

  lemma TargetRef(was: Snap, now: Snap, h: Hint)
    requires ExprPost(ParseOr(was.rest), was, now, h) && h.Target?
    ensures NameTarget(was.rest) && Resolve(was.sc, was.rest[0].name) == Some(h.ref)
    ensures Assignable(was.sc, was.rest[0].name) <==> !h.ref.FunRef?
  {
  }

  lemma DeadTarget(was: Snap, now: Snap, h: Hint)
    requires ExprPost(ParseOr(was.rest), was, now, h) && h.Dead?
    ensures NameTarget(was.rest) ==> !Assignable(was.sc, was.rest[0].name)
  {
  }

  /** What a method that needs a value does to the buffers. */
  ghost predicate ValuePost(p: Option<(Expr, Toks)>, was: Snap, now: Snap, ok: bool) {
    && ok == ExprResult(p, was).Some?
    && (ok ==> now == ExprResult(p, was).value && Sound(now.sc) && |now.rest| < |was.rest|)
  }

  lemma ValueIs(was: Snap, now: Snap, h: Hint)
    requires ExprPost(ParseOr(was.rest), was, now, h)
    ensures ValuePost(ParseOr(was.rest), was, now, h.Done?)
  {
    if NameTarget(was.rest) { TargetFails(was.rest); }
  }
}
