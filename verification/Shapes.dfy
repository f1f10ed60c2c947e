/** What parsing and declaring guarantee about the jumps of a tree. */
module Shapes {
  import opened Wrappers
  import opened Syntax
  import opened Parser
  import opened Scoping
  import opened ProgramSpec
  import opened Jumps

  /** Every FOR updates with an assignment or an expression. */
  predicate Simple(s: Stmt) {
    match s
    case Seq(a, b) => Simple(a) && Simple(b)
    case Try(a, b) => Simple(a) && Simple(b)
    case If(_, t) => Simple(t)
    case IfElse(_, t, e) => Simple(t) && Simple(e)
    case While(_, b) => Simple(b)
    case For(_, _, _, u, b) => (u.Assign? || u.ExprStmt?) && Simple(b)
    case _ => true
  }

  predicate SimpleParse(p: Option<(Stmt, Toks)>) { p.Some? ==> Simple(p.value.0) }

  lemma {:induction false} VarsSimple(t: Toks)
    ensures SimpleParse(ParseVars(t))
    decreases |t|
  {
    hide ParseOr;
    if t != [] && !At(t, TkSemi) && t[0].TkIdent? && At(t[1..], TkColon) {
      var p := ParseOr(t[2..]);
      if p.Some? {
        var q := ParseVars(EatIf(p.value.1, TkComma));
        VarsSimple(EatIf(p.value.1, TkComma));
        if q.Some? {
          var one := Let(t[0].name, p.value.0);
          assert Simple(one) && ParseVars(t) == Some((Seq(one, q.value.0), q.value.1));
        }
      }
    }
  }

  lemma {:induction false} NestableSimple(t: Toks)
    ensures SimpleParse(ParseNestable(t))
    decreases |t|, 2
  {
    hide ParseOr, ParseVars, ParseExprStmt, ParseIf, ParseWhile, ParseFor, ParseTry, ParseBlock;
    if t != [] {
      match t[0]
      case TkLet => VarsSimple(t[1..]);
      case TkIf => IfSimple(t[1..]);
      case TkWhile => WhileSimple(t[1..]);
      case TkFor => ForSimple(t[1..]);
      case TkTry => TrySimple(t[1..]);
      case TkColon => BlockSimple(t);
      case _ =>
    }
  }

  lemma {:induction false} IfSimple(t: Toks)
    ensures SimpleParse(ParseIf(t))
    decreases |t|, 1
  {
    hide ParseOr, ParseBlock, ParseNestable;
    var c := ParseOr(t);
    if c.Some? {
      BlockSimple(c.value.1);
      var b := ParseBlock(c.value.1);
      if b.Some? && At(b.value.1, TkElse) { NestableSimple(b.value.1[1..]); }
    }
  }

  lemma {:induction false} WhileSimple(t: Toks)
    ensures SimpleParse(ParseWhile(t))
    decreases |t|, 1
  {
    hide ParseOr, ParseBlock;
    var c := ParseOr(t);
    if c.Some? { BlockSimple(c.value.1); }
  }

  lemma {:induction false} ForSimple(t: Toks)
    ensures SimpleParse(ParseFor(t))
    decreases |t|, 1
  {
    hide ParseOr, ParseBlock, ParseExprStmt;
    if t != [] && t[0].TkIdent? && At(t[1..], TkColon) {
      var i := ParseOr(t[2..]);
      if i.Some? && At(i.value.1, TkComma) {
        var c := ParseOr(i.value.1[1..]);
        if c.Some? && At(c.value.1, TkComma) {
          var u := ParseExprStmt(c.value.1[1..]);
          if u.Some? { BlockSimple(u.value.1); }
        }
      }
    }
  }

  lemma {:induction false} TrySimple(t: Toks)
    ensures SimpleParse(ParseTry(t))
    decreases |t|, 1
  {
    hide ParseBlock;
    BlockSimple(t);
    var b := ParseBlock(t);
    if b.Some? && At(b.value.1, TkCatch) { BlockSimple(b.value.1[1..]); }
  }

  lemma {:induction false} BlockSimple(t: Toks)
    ensures SimpleParse(ParseBlock(t))
    decreases |t|, 0
  {
    hide ParseBody;
    if At(t, TkColon) { BodySimple(t[1..], true); }
  }

  lemma {:induction false} BodySimple(t: Toks, first: bool)
    ensures SimpleParse(ParseBody(t, first))
    decreases |t|, 3
  {
    hide ParseNestable;
    if t != [] && !At(t, TkEnd) {
      NestableSimple(t);
      var p := ParseNestable(t);
      if p.Some? { BodySimple(p.value.1, false); }
    }
  }

  /** A simple tree whose declarations succeed has no BREAK or CONTINUE outside a loop. */
  lemma {:induction false} DeclBound(s: Stmt, sc: Scope, inLoop: bool)
    requires Simple(s) && DeclStmt(s, sc, inLoop).Some?
    ensures Bound(s, inLoop)
    decreases s
  {
    hide DeclExpr, IsCounter, Assignable;
    match s
    case Seq(a, b) =>
      DeclBound(a, sc, inLoop);
      DeclBound(b, DeclStmt(a, sc, inLoop).value, inLoop);
    case Try(a, b) =>
      DeclBound(a, sc, inLoop);
      DeclBound(b, DeclStmt(a, sc, inLoop).value, inLoop);
    case If(c, t) => DeclBound(t, DeclExpr(c, sc).value, inLoop);
    case IfElse(c, t, e) =>
      var s1 := DeclExpr(c, sc).value;
      DeclBound(t, s1, inLoop);
      DeclBound(e, DeclStmt(t, s1, inLoop).value, inLoop);
    case While(c, b) => DeclBound(b, DeclExpr(c, sc).value, true);
    case For(_, init, c, u, b) =>
      var s1 := DeclTwo(init, c, sc).value;
      DeclBound(b, DeclStmt(u, s1, true).value, true);
    case _ =>
  }

  predicate TopBound(top: Item) {
    match top
    case TopStmt(s) => Bound(s, false)
    case TopFun(_, _, body) => Bound(body, false)
  }

  predicate TopsBound(tops: Tops) { tops.TCons? ==> TopBound(tops.head) && TopsBound(tops.tail) }

  lemma {:induction false} TopIsBound(t: Toks, b: Build)
    requires ParseTop(t).Some? && TopResult(ParseTop(t).value.0, b).Some?
    ensures TopBound(ParseTop(t).value.0)
  {
    hide ParseNestable, ParseBlock, ParseParams, DeclStmt;
    if t[0].TkFun? {
      var (ps, t1) := ParseParams(t[3..]).value;
      BlockSimple(t1);
      DeclBound(ParseBlock(t1).value.0, FunScope(b.sc, t[1].name, |b.chunks|, ps), false);
    } else {
      NestableSimple(t);
      DeclBound(ParseNestable(t).value.0, b.sc, false);
    }
  }

  /** Every program that compiles is bound. */
  lemma {:induction false} ProgramBound(t: Toks, b: Build)
    requires ParseProgram(t).Some? && TopsResult(ParseProgram(t).value, b).Some?
    ensures TopsBound(ParseProgram(t).value)
    decreases |t|
  {
    hide ParseTop, TopResult, TopBound;
    if t != [] {
      var (top, rest) := ParseTop(t).value;
      TopIsBound(t, b);
      ProgramBound(rest, TopResult(top, b).value);
    }
  }
}
