/** What one pass of the compiler over a phrase must do to its buffers: parse it, declare its names
    and append its code. The lemmas split a phrase into its parts, as the pass meets them. */
module CompileSpec {
  import opened Values
  import opened Wrappers
  import opened Bytecode
  import opened Syntax
  import opened Parser
  import opened Scoping
  import opened Codegen

  /** BREAK and CONTINUE positions of a loop whose code is still growing. */
  datatype OpenLoop = OpenLoop(breaks: seq<nat>, conts: seq<nat>)

  /** The tokens left, the code of the current chunk, the tables, the open loops. */
  datatype Snap = Snap(rest: Toks, code: Code, sc: Scope, loops: seq<OpenLoop>)

  /** Top-level code has no locals. */
  predicate Sound(sc: Scope) { !sc.inFun ==> sc.locals == [] }

  function ExprResult(p: Option<(Expr, Toks)>, was: Snap): Option<Snap> {
    match p
    case None => None
    case Some((e, rest)) =>
      match DeclExpr(e, was.sc)
      case None => None
      case Some(sc) => Some(was.(rest := rest, sc := sc, code := was.code + GenExpr(e, sc)))
  }

  function ArgsResult(p: Option<(Exprs, Toks)>, was: Snap): Option<Snap> {
    match p
    case None => None
    case Some((es, rest)) =>
      match DeclArgs(es, was.sc)
      case None => None
      case Some(sc) => Some(was.(rest := rest, sc := sc, code := was.code + GenArgs(es, sc)))
  }

  // ----- expressions -----

  /** Appending behind an already declared prefix leaves the prefix's code alone. */
  lemma {:induction false} PrefixStable(l: Expr, r: Expr, sc: Scope)
    requires Sound(sc) && DeclExpr(l, sc).Some? && DeclExpr(r, DeclExpr(l, sc).value).Some?
    ensures var s1 := DeclExpr(l, sc).value; var s2 := DeclExpr(r, s1).value;
      Sound(s1) && Sound(s2) && GenExpr(l, s2) == GenExpr(l, s1)
  {
    var s1 := DeclExpr(l, sc).value;
    DeclExprExtends(l, sc);
    ExtendsTop(sc, s1);
    DeclExprKnown(l, sc);
    DeclExprExtends(r, s1);
    ExtendsTop(s1, DeclExpr(r, s1).value);
    GenExprStable(l, s1, DeclExpr(r, s1).value);
  }

  lemma {:induction false} DeclSound(e: Expr, sc: Scope)
    requires Sound(sc) && DeclExpr(e, sc).Some?
    ensures Sound(DeclExpr(e, sc).value)
  {
    DeclExprExtends(e, sc);
    ExtendsTop(sc, DeclExpr(e, sc).value);
  }

  /** The result of a pair, built from the result of its left part and of its right part behind the
      instructions `mid`; `shape` says how the parts and `post` make up the node's code. */
  lemma {:induction false} PairResult(e: Expr, was: Snap, t1: Toks, mid: Code, t2: Toks, post: Code)
    requires Sound(was.sc) && IsPair(e)
    requires DeclExpr(e.l, was.sc).Some? && DeclExpr(e.r, DeclExpr(e.l, was.sc).value).Some?
    requires var s2 := DeclExpr(e, was.sc).value; GenExpr(e, s2) == GenExpr(e.l, s2) + mid + GenExpr(e.r, s2) + post
    ensures var m1 := ExprResult(Some((e.l, t1)), was).value;
      var m2 := ExprResult(Some((e.r, t2)), m1.(code := m1.code + mid)).value;
      ExprResult(Some((e, t2)), was) == Some(m2.(code := m2.code + post))
  {
    PrefixStable(e.l, e.r, was.sc);
    var s1 := DeclExpr(e.l, was.sc).value;
    var s2 := DeclExpr(e.r, s1).value;
    assert DeclExpr(e, was.sc) == Some(s2);
    hide DeclExpr, GenExpr, Sound;
    Assoc(was.code, GenExpr(e.l, s2), mid, GenExpr(e.r, s2), post);
  }

  lemma {:induction false} Assoc(a: Code, b: Code, c: Code, d: Code, e: Code)
    ensures a + b + c + d + e == a + (b + c + d + e)
  {
  }

  lemma {:induction false} ArgsStep(t: Toks, m: Snap)
    requires Sound(m.sc) && t != [] && !At(t, TkRParen)
    ensures var r := ExprResult(ParseLevel(8, t), m);
      ArgsResult(ParseArgs(t), m) ==
      if r.None? then None
      else ArgsResult(ParseArgs(EatIf(r.value.rest, TkComma)), r.value)
  {
    hide DeclExpr, GenExpr, ParseLevel, Sound;
    var p := ParseLevel(8, t);
    if p.Some? && DeclExpr(p.value.0, m.sc).Some? {
      var (e, rest) := p.value;
      var s1 := DeclExpr(e, m.sc).value;
      var q := ParseArgs(EatIf(rest, TkComma));
      if q.Some? && DeclArgs(q.value.0, s1).Some? {
        var es := q.value.0;
        var s2 := DeclArgs(es, s1).value;
        ArgsStable(e, es, m.sc);
        assert ParseArgs(t).value.0 == ECons(e, es) && DeclArgs(ECons(e, es), m.sc) == Some(s2);
        assert m.code + GenExpr(e, s1) + GenArgs(es, s2) == m.code + GenArgs(ECons(e, es), s2);
      }
    }
  }

  lemma {:induction false} ArgsStable(e: Expr, es: Exprs, sc: Scope)
    requires Sound(sc) && DeclExpr(e, sc).Some? && DeclArgs(es, DeclExpr(e, sc).value).Some?
    ensures var s1 := DeclExpr(e, sc).value; var s2 := DeclArgs(es, s1).value;
      Sound(s1) && Sound(s2) && GenExpr(e, s2) == GenExpr(e, s1)
  {
    var s1 := DeclExpr(e, sc).value;
    DeclExprExtends(e, sc);
    ExtendsTop(sc, s1);
    DeclExprKnown(e, sc);
    DeclArgsExtends(es, s1);
    ExtendsTop(s1, DeclArgs(es, s1).value);
    GenExprStable(e, s1, DeclArgs(es, s1).value);
  }

  lemma {:induction false} CallGen(f: Expr, args: Exprs, sc: Scope, fin: Scope)
    ensures GenExpr(Call(f, args), fin) == GenExpr(f, fin) + GenArgs(args, fin) + [OpWide(OpCall, ArgCount(args))]
    ensures DeclExpr(f, sc).Some? ==> DeclExpr(Call(f, args), sc) == DeclArgs(args, DeclExpr(f, sc).value)
    ensures DeclExpr(f, sc).None? ==> DeclExpr(Call(f, args), sc).None?
  {
  }

  lemma {:induction false} CallResult(f: Expr, args: Exprs, was: Snap, t1: Toks, t2: Toks)
    requires Sound(was.sc) && DeclExpr(f, was.sc).Some?
    ensures var m1 := ExprResult(Some((f, t1)), was).value;
      var r := ArgsResult(Some((args, t2)), m1);
      ExprResult(Some((Call(f, args), t2)), was) ==
      if r.None? then None else Some(r.value.(code := r.value.code + [OpWide(OpCall, ArgCount(args))]))
  {
    var s1 := DeclExpr(f, was.sc).value;
    if DeclArgs(args, s1).Some? {
      var s2 := DeclArgs(args, s1).value;
      ArgsStable(f, args, was.sc);
      CallGen(f, args, was.sc, s2);
      hide DeclExpr, DeclArgs, GenExpr, GenArgs;
      assert DeclExpr(Call(f, args), was.sc) == Some(s2);
      assert was.code + GenExpr(f, s1) + GenArgs(args, s2) + [OpWide(OpCall, ArgCount(args))]
          == was.code + GenExpr(Call(f, args), s2);
    }
  }

  lemma {:induction false} UnaryResult(e: Expr, was: Snap, t: Toks)
    requires e.BitNot? || e.Nullish?
    ensures var r := ExprResult(Some((e.e, t)), was);
      var op := if e.BitNot? then OpBitNot else OpChkNone;
      ExprResult(Some((e, t)), was) == if r.None? then None else Some(r.value.(code := r.value.code + [Op(op)]))
  {
    if DeclExpr(e.e, was.sc).Some? {
      var s := DeclExpr(e.e, was.sc).value;
      var i := [Op(if e.BitNot? then OpBitNot else OpChkNone)];
      assert was.code + GenExpr(e.e, s) + i == was.code + (GenExpr(e.e, s) + i);
    }
  }

  /** The loop of a level has compiled `lhs` and nothing else. */
  ghost predicate LevelInv(k: nat, was: Snap, lhs: Expr, now: Snap)
    requires 1 <= k <= 8
  {
    && Sound(now.sc)
    && ExprResult(Some((lhs, now.rest)), was) == Some(now)
    && ParseLevel(k, was.rest) == ParseLoop(k, lhs, now.rest)
  }

  lemma {:induction false} LevelStart(k: nat, was: Snap)
    requires 1 <= k <= 8 && Sound(was.sc)
    ensures var r := ExprResult(ParseLevel(k - 1, was.rest), was);
      if r.Some? then LevelInv(k, was, ParseLevel(k - 1, was.rest).value.0, r.value)
      else ExprResult(ParseLevel(k, was.rest), was).None?
  {
    var p := ParseLevel(k - 1, was.rest);
    if p.Some? {
      var (l, rest) := p.value;
      if DeclExpr(l, was.sc).Some? {
        DeclSound(l, was.sc);
      } else {
        LoopFails(k, l, rest, was.sc);
      }
    }
  }

  /** A left operand that cannot be declared dooms the whole level. */
  lemma {:induction false} LoopFails(k: nat, lhs: Expr, t: Toks, sc: Scope)
    requires 1 <= k <= 8 && DeclExpr(lhs, sc).None?
    ensures ParseLoop(k, lhs, t).Some? ==> DeclExpr(ParseLoop(k, lhs, t).value.0, sc).None?
    decreases |t|
  {
    if Continues(t, k) {
      var p := ParseLevel(k - 1, t[1..]);
      if p.Some? {
        LoopFails(k, Bin(t[0].op, lhs, p.value.0), p.value.1, sc);
      }
    }
  }

  lemma {:induction false} LevelStep(k: nat, was: Snap, lhs: Expr, now: Snap)
    requires 1 <= k <= 8 && Sound(was.sc) && LevelInv(k, was, lhs, now) && Continues(now.rest, k)
    ensures var op := now.rest[0].op;
      var r := ExprResult(ParseLevel(k - 1, now.rest[1..]), now.(rest := now.rest[1..]));
      if r.Some? then
        LevelInv(k, was, Bin(op, lhs, ParseLevel(k - 1, now.rest[1..]).value.0),
                 r.value.(code := r.value.code + [Op(BinOpcode(op))]))
      else ExprResult(ParseLevel(k, was.rest), was).None?
  {
    var op := now.rest[0].op;
    var t := now.rest[1..];
    var p := ParseLevel(k - 1, t);
    if p.Some? {
      var (rhs, rest) := p.value;
      var e := Bin(op, lhs, rhs);
      if DeclExpr(rhs, now.sc).Some? {
        PrefixStable(lhs, rhs, was.sc);
        BinGen(op, lhs, rhs, DeclExpr(e, was.sc).value);
        PairResult(e, was, t, [], rest, [Op(BinOpcode(op))]);
        assert now.code + [] == now.code;
      } else {
        LoopFails(k, e, rest, was.sc);
      }
    }
  }

  lemma {:induction false} BinGen(op: BinOp, l: Expr, r: Expr, sc: Scope)
    ensures GenExpr(Bin(op, l, r), sc) == GenExpr(l, sc) + [] + GenExpr(r, sc) + [Op(BinOpcode(op))]
  {
    assert GenExpr(l, sc) + [] == GenExpr(l, sc);
  }

  lemma {:induction false} LevelEnd(k: nat, was: Snap, lhs: Expr, now: Snap)
    requires 1 <= k <= 8 && LevelInv(k, was, lhs, now) && !Continues(now.rest, k)
    ensures ExprResult(ParseLevel(k, was.rest), was) == Some(now)
  {
  }
}
