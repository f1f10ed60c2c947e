/** Slot allocation: the ids a table hands out are consecutive, one for each name. */
module Slots {
  import opened Values
  import opened Wrappers
  import opened Syntax
  import opened Scoping

  function Last(t: seq<Symbol>): Symbol
    requires t != []
  {
    t[|t| - 1]
  }

  function Init(t: seq<Symbol>): seq<Symbol>
    requires t != []
  {
    t[..|t| - 1]
  }

  /** The entries of domain `d` are `n` different names with the ids from `lo` on. */
  predicate Numbered(t: seq<Symbol>, d: Domain, lo: nat, n: nat) {
    if t == [] then n == 0
    else if Last(t).domain != d then Numbered(Init(t), d, lo, n)
    else n >= 1 && Last(t).id == lo + n - 1 && Lookup(Init(t), Last(t).name, d).None? && Numbered(Init(t), d, lo, n - 1)
  }

  lemma {:induction false} NumberedPush(t: seq<Symbol>, s: Symbol, d: Domain, lo: nat, n: nat)
    requires Numbered(t, d, lo, n)
    requires s.domain == d ==> s.id == lo + n && Lookup(t, s.name, d).None?
    ensures Numbered(t + [s], d, lo, if s.domain == d then n + 1 else n)
  {
    assert Init(t + [s]) == t && Last(t + [s]) == s;
  }

  lemma {:induction false} LookupLast(t: seq<Symbol>, x: string, d: Domain)
    requires t != []
    ensures Lookup(t, x, d) ==
            if Lookup(Init(t), x, d).Some? then Lookup(Init(t), x, d)
            else if Last(t).name == x && Last(t).domain == d then Some(Last(t).id) else None
  {
    assert t == Init(t) + [Last(t)];
    LookupPush(Init(t), Last(t), x, d);
  }

  /** Every id lies in the range, */
  lemma {:induction false} IdInRange(t: seq<Symbol>, d: Domain, lo: nat, n: nat, x: string)
    requires Numbered(t, d, lo, n) && Lookup(t, x, d).Some?
    ensures lo <= Lookup(t, x, d).value < lo + n
  {
    LookupLast(t, x, d);
    if Lookup(Init(t), x, d).Some? {
      IdInRange(Init(t), d, lo, if Last(t).domain == d then n - 1 else n, x);
    }
  }

  /** different names have different ids, */
  lemma {:induction false} IdsDiffer(t: seq<Symbol>, d: Domain, lo: nat, n: nat, x: string, y: string)
    requires Numbered(t, d, lo, n) && Lookup(t, x, d).Some? && Lookup(t, y, d).Some? && x != y
    ensures Lookup(t, x, d) != Lookup(t, y, d)
  {
    LookupLast(t, x, d);
    LookupLast(t, y, d);
    var k := if Last(t).domain == d then n - 1 else n;
    var inX, inY := Lookup(Init(t), x, d).Some?, Lookup(Init(t), y, d).Some?;
    if inX { IdInRange(Init(t), d, lo, k, x); }
    if inY { IdInRange(Init(t), d, lo, k, y); }
    if inX && inY { IdsDiffer(Init(t), d, lo, k, x, y); }
  }

  /** and every id of the range belongs to a name. */
  lemma {:induction false} IdIsUsed(t: seq<Symbol>, d: Domain, lo: nat, n: nat, id: nat) returns (x: string)
    requires Numbered(t, d, lo, n) && lo <= id < lo + n
    ensures Lookup(t, x, d) == Some(id)
  {
    if Last(t).domain == d && id == lo + n - 1 {
      x := Last(t).name;
    } else {
      x := IdIsUsed(Init(t), d, lo, if Last(t).domain == d then n - 1 else n, id);
    }
    LookupLast(t, x, d);
  }

  /** The constants recorded so far hold the values of their lexemes. */
  ghost predicate ConstsMatch(t: seq<Symbol>, consts: seq<Value>) {
    forall lex {:trigger Lookup(t, lex, Constant)} :: Lookup(t, lex, Constant).Some? ==>
      var id := Lookup(t, lex, Constant).value;
      id < |consts| && consts[id] == NumValue(lex)
  }

  /** What every scope the compiler builds satisfies. */
  ghost predicate ScopeOk(sc: Scope) {
    && (!sc.inFun ==> sc.locals == [] && sc.nLoc == 0)
    && Numbered(sc.locals, Local, 1, sc.nLoc)
    && Numbered(sc.mains, GlobalVar, 0, sc.nGlob)
    && ConstsMatch(Current(sc), sc.consts)
  }

  lemma {:induction false} RecordConstOk(sc: Scope, lex: string)
    requires ScopeOk(sc)
    ensures ScopeOk(RecordConst(sc, lex))
  {
    if ConstId(sc, lex).None? {
      var s := Symbol(lex, |sc.consts|, Constant);
      if sc.inFun { NumberedPush(sc.locals, s, Local, 1, sc.nLoc); } else { NumberedPush(sc.mains, s, GlobalVar, 0,
          sc.nGlob); }
      ConstsPush(Current(sc), sc.consts, s, NumValue(lex));
    }
  }

  lemma {:induction false} ConstsPush(t: seq<Symbol>, consts: seq<Value>, s: Symbol, v: Value)
    requires ConstsMatch(t, consts) && s == Symbol(s.name, |consts|, Constant) && v == NumValue(s.name)
    ensures ConstsMatch(t + [s], consts + [v])
  {
    forall lex | Lookup(t + [s], lex, Constant).Some?
      ensures var id := Lookup(t + [s], lex, Constant).value; id < |consts| + 1 && (consts + [v])[id] == NumValue(lex)
    {
      LookupPush(t, s, lex, Constant);
    }
  }

  lemma {:induction false} ConstsOther(t: seq<Symbol>, consts: seq<Value>, s: Symbol)
    requires ConstsMatch(t, consts) && s.domain != Constant
    ensures ConstsMatch(t + [s], consts)
  {
    forall lex | Lookup(t + [s], lex, Constant).Some?
      ensures var id := Lookup(t + [s], lex, Constant).value; id < |consts| && consts[id] == NumValue(lex)
    {
      LookupPush(t, s, lex, Constant);
    }
  }

  lemma {:induction false} RecordVarOk(sc: Scope, x: string)
    requires ScopeOk(sc)
    ensures ScopeOk(RecordVar(sc, x))
  {
    if sc.inFun && Lookup(sc.locals, x, Local).None? {
      var s := Symbol(x, sc.nLoc + 1, Local);
      NumberedPush(sc.locals, s, Local, 1, sc.nLoc);
      ConstsOther(sc.locals, sc.consts, s);
    } else if !sc.inFun && Lookup(sc.mains, x, GlobalVar).None? {
      var s := Symbol(x, sc.nGlob, GlobalVar);
      NumberedPush(sc.mains, s, GlobalVar, 0, sc.nGlob);
      ConstsOther(sc.mains, sc.consts, s);
    }
  }

  lemma {:induction false} DeclExprOk(e: Expr, sc: Scope)
    requires ScopeOk(sc) && DeclExpr(e, sc).Some?
    ensures ScopeOk(DeclExpr(e, sc).value)
    decreases e
  {
    hide ScopeOk;
    match e
    case Lit(LNum(s)) => RecordConstOk(sc, s);
    case Lit(_) =>
    case Var(_) =>
    case BitNot(x) => DeclExprOk(x, sc);
    case Nullish(x) => DeclExprOk(x, sc);
    case Call(f, args) =>
      DeclExprOk(f, sc);
      DeclArgsOk(args, DeclExpr(f, sc).value);
    case _ =>
      DeclExprOk(e.l, sc);
      DeclExprOk(e.r, DeclExpr(e.l, sc).value);
  }

  lemma {:induction false} DeclArgsOk(es: Exprs, sc: Scope)
    requires ScopeOk(sc) && DeclArgs(es, sc).Some?
    ensures ScopeOk(DeclArgs(es, sc).value)
    decreases es
  {
    hide ScopeOk;
    if es.ECons? {
      DeclExprOk(es.head, sc);
      DeclArgsOk(es.tail, DeclExpr(es.head, sc).value);
    }
  }

  /** Declaring a whole statement keeps the allocation consecutive and one-to-one. */
  lemma {:induction false} DeclStmtOk(s: Stmt, sc: Scope, inLoop: bool)
    requires ScopeOk(sc) && DeclStmt(s, sc, inLoop).Some?
    ensures ScopeOk(DeclStmt(s, sc, inLoop).value)
    decreases s
  {
    hide ScopeOk, DeclExpr;
    match s
    case Assign(_, e) => DeclExprOk(e, sc);
    case ExprStmt(e) => DeclExprOk(e, sc);
    case Ret(e) => DeclExprOk(e, sc);
    case Throw(e) => DeclExprOk(e, sc);
    case Let(x, e) =>
      RecordVarOk(sc, x);
      DeclExprOk(e, RecordVar(sc, x));
    case Seq(a, b) =>
      DeclStmtOk(a, sc, inLoop);
      DeclStmtOk(b, DeclStmt(a, sc, inLoop).value, inLoop);
    case Try(a, b) =>
      DeclStmtOk(a, sc, inLoop);
      DeclStmtOk(b, DeclStmt(a, sc, inLoop).value, inLoop);
    case If(c, t) =>
      DeclExprOk(c, sc);
      DeclStmtOk(t, DeclExpr(c, sc).value, inLoop);
    case While(c, b) =>
      DeclExprOk(c, sc);
      DeclStmtOk(b, DeclExpr(c, sc).value, true);
    case IfElse(c, t, e) =>
      DeclExprOk(c, sc);
      var s1 := DeclExpr(c, sc).value;
      DeclStmtOk(t, s1, inLoop);
      DeclStmtOk(e, DeclStmt(t, s1, inLoop).value, inLoop);
    case For(_, init, c, u, b) =>
      DeclExprOk(init, sc);
      DeclExprOk(c, DeclExpr(init, sc).value);
      var s1 := DeclTwo(init, c, sc).value;
      DeclStmtOk(u, s1, true);
      DeclStmtOk(b, DeclStmt(u, s1, true).value, true);
    case _ =>
  }

  /** Parameters get the first slots, in order, when their names differ. */
  lemma {:induction false} DeclParamsOk(ps: seq<string>, sc: Scope)
    requires ScopeOk(sc) && sc.inFun
    ensures ScopeOk(DeclParams(ps, sc)) && DeclParams(ps, sc).inFun
    decreases |ps|
  {
    if ps != [] {
      RecordVarOk(sc, ps[0]);
      DeclParamsOk(ps[1..], RecordLocal(sc, ps[0]));
    }
  }

  lemma {:induction false} ParamSlots(ps: seq<string>, sc: Scope)
    requires sc.inFun && DistinctNames(ps) && forall i :: 0 <= i < |ps| ==> Lookup(sc.locals, ps[i], Local).None?
    ensures DeclParams(ps, sc).nLoc == sc.nLoc + |ps|
    ensures forall i :: 0 <= i < |ps| ==> Lookup(DeclParams(ps, sc).locals, ps[i], Local) == Some(sc.nLoc + 1 + i)
    ensures forall x :: Lookup(sc.locals, x, Local).Some? ==>
      Lookup(DeclParams(ps, sc).locals, x, Local) == Lookup(sc.locals, x, Local)
    decreases |ps|
  {
    if ps != [] {
      var s := Symbol(ps[0], sc.nLoc + 1, Local);
      var next := RecordLocal(sc, ps[0]);
      forall x
        ensures Lookup(next.locals, x, Local) ==
          if Lookup(sc.locals, x, Local).Some? then Lookup(sc.locals, x, Local)
          else if s.name == x then Some(s.id) else None
      {
        LookupPush(sc.locals, s, x, Local);
      }
      ParamSlots(ps[1..], next);
      forall i | 0 <= i < |ps|
        ensures Lookup(DeclParams(ps, sc).locals, ps[i], Local) == Some(sc.nLoc + 1 + i)
      {
        if i > 0 { assert ps[i] == ps[1..][i - 1]; }
      }
    }
  }

  lemma {:induction false} ParamCount(ps: seq<string>, sc: Scope)
    requires sc.inFun
    ensures DeclParams(ps, sc).nLoc <= sc.nLoc + |ps|
    ensures (exists i :: 0 <= i < |ps| && Lookup(sc.locals, ps[i], Local).Some?) ==>
      DeclParams(ps, sc).nLoc < sc.nLoc + |ps|
    decreases |ps|
  {
    if ps != [] {
      var next := RecordLocal(sc, ps[0]);
      ParamCount(ps[1..], next);
      if i :| 0 < i < |ps| && Lookup(sc.locals, ps[i], Local).Some? {
        LookupPush(sc.locals, Symbol(ps[0], sc.nLoc + 1, Local), ps[i], Local);
        assert ps[1..][i - 1] == ps[i];
      }
    }
  }

  /** There are as many slots as parameters exactly when no name repeats; a repeated name makes the
      function reserve too little for its locals. */
  lemma {:induction false} ParamCountIff(ps: seq<string>, sc: Scope)
    requires sc.inFun && forall i :: 0 <= i < |ps| ==> Lookup(sc.locals, ps[i], Local).None?
    ensures DeclParams(ps, sc).nLoc == sc.nLoc + |ps| <==> DistinctNames(ps)
    decreases |ps|
  {
    if DistinctNames(ps) {
      ParamSlots(ps, sc);
    } else {
      var s := Symbol(ps[0], sc.nLoc + 1, Local);
      var next := RecordLocal(sc, ps[0]);
      if j :| 1 <= j < |ps| && ps[j] == ps[0] {
        LookupPush(sc.locals, s, ps[0], Local);
        assert ps[1..][j - 1] == ps[0];
        ParamCount(ps[1..], next);
      } else {
        forall i | 0 <= i < |ps[1..]|
          ensures Lookup(next.locals, ps[1..][i], Local).None?
        {
          LookupPush(sc.locals, s, ps[i + 1], Local);
        }
        assert !DistinctNames(ps[1..]) by {
          var i, j :| 0 <= i < j < |ps| && ps[i] == ps[j];
          assert i > 0 && ps[1..][i - 1] == ps[1..][j - 1];
        }
        ParamCountIff(ps[1..], next);
      }
    }
  }
}
