/** Symbol tables, slot allocation and name resolution. */
module Scoping {
  import opened Values
  import opened Wrappers
  import opened Syntax

  datatype Domain = GlobalVar | Constant | Local | Func

  datatype Symbol = Symbol(name: string, id: nat, domain: Domain)

  /** The first entry with a name and a domain. */
  function Lookup(t: seq<Symbol>, name: string, d: Domain): Option<nat> {
    if t == [] then None
    else if t[0].name == name && t[0].domain == d then Some(t[0].id)
    else Lookup(t[1..], name, d)
  }

  /** SymbolTable_find. */
  method Find(t: seq<Symbol>, name: string, d: Domain) returns (r: Option<nat>)
    ensures r == Lookup(t, name, d)
  {
    var i := 0;
    while i < |t|
      invariant 0 <= i <= |t|
      invariant Lookup(t, name, d) == Lookup(t[i..], name, d)
    {
      if t[i].name == name && t[i].domain == d {
        return Some(t[i].id);
      }
      i := i + 1;
    }
    return None;
  }

  lemma {:induction false} LookupPush(t: seq<Symbol>, s: Symbol, name: string, d: Domain)
    ensures Lookup(t + [s], name, d) ==
            if Lookup(t, name, d).Some? then Lookup(t, name, d)
            else if s.name == name && s.domain == d then Some(s.id) else None
  {
    if t != [] {
      assert (t + [s])[1..] == t[1..] + [s];
      LookupPush(t[1..], s, name, d);
    }
  }

  /** What the compiler knows while it is inside one chunk: the function table, the table of the
      top-level code, the table of the current function, the counters behind new slots and the
      chunk's constants. In top-level code the current table is the top-level one and there are no
      locals. */
  datatype Scope = Scope(
    funcs: seq<Symbol>, mains: seq<Symbol>, locals: seq<Symbol>, inFun: bool,
    nGlob: nat, nLoc: nat, consts: seq<Value>)

  function Current(sc: Scope): seq<Symbol> { if sc.inFun then sc.locals else sc.mains }

  datatype Ref = FunRef(id: nat) | GlobRef(id: nat) | LocRef(id: nat)

  /** compiler_resolve_name: functions first, then global variables, then locals. */
  function Resolve(sc: Scope, x: string): Option<Ref> {
    match Lookup(sc.funcs, x, Func)
    case Some(id) => Some(FunRef(id))
    case None =>
      match Lookup(sc.mains, x, GlobalVar)
      case Some(id) => Some(GlobRef(id))
      case None =>
        match Lookup(sc.locals, x, Local)
        case Some(id) => Some(LocRef(id))
        case None => None
  }

  function ConstId(sc: Scope, lex: string): Option<nat> { Lookup(Current(sc), lex, Constant) }

  function PushCurrent(sc: Scope, s: Symbol): Scope {
    if sc.inFun then sc.(locals := sc.locals + [s]) else sc.(mains := sc.mains + [s])
  }

  /** compiler_record_constant: one constant for each lexeme. */
  function RecordConst(sc: Scope, lex: string): Scope {
    if ConstId(sc, lex).Some? then sc
    else PushCurrent(sc, Symbol(lex, |sc.consts|, Constant)).(consts := sc.consts + [NumValue(lex)])
  }

  /** compiler_record_local: slots are numbered from one, above the callee. */
  function RecordLocal(sc: Scope, x: string): Scope {
    if Lookup(sc.locals, x, Local).Some? then sc
    else sc.(locals := sc.locals + [Symbol(x, sc.nLoc + 1, Local)], nLoc := sc.nLoc + 1)
  }

  /** compiler_record_global_var: slots are numbered from zero, from the bottom of the stack. */
  function RecordGlobal(sc: Scope, x: string): Scope {
    if Lookup(sc.mains, x, GlobalVar).Some? then sc
    else sc.(mains := sc.mains + [Symbol(x, sc.nGlob, GlobalVar)], nGlob := sc.nGlob + 1)
  }

  /** The declaration a LET makes: a local inside a function, a global variable outside. */
  function RecordVar(sc: Scope, x: string): Scope {
    if sc.inFun then RecordLocal(sc, x) else RecordGlobal(sc, x)
  }

  function VarRef(sc: Scope, x: string): Option<Ref> {
    if sc.inFun then
      match Lookup(sc.locals, x, Local)
      case Some(id) => Some(LocRef(id))
      case None => None
    else
      match Lookup(sc.mains, x, GlobalVar)
      case Some(id) => Some(GlobRef(id))
      case None => None
  }

  // ----- declarations in a tree, in the order the compiler meets them -----

  function DeclExpr(e: Expr, sc: Scope): Option<Scope> {
    match e
    case Lit(LNum(s)) => Some(RecordConst(sc, s))
    case Lit(_) => Some(sc)
    case Var(x) => if Resolve(sc, x).Some? then Some(sc) else None
    case BitNot(x) => DeclExpr(x, sc)
    case Nullish(x) => DeclExpr(x, sc)
    case Call(f, args) =>
      (match DeclExpr(f, sc)
       case None => None
       case Some(s1) => DeclArgs(args, s1))
    case _ =>
      assert IsPair(e);
      match DeclExpr(e.l, sc)
      case None => None
      case Some(s1) => DeclExpr(e.r, s1)
  }

  function DeclTwo(l: Expr, r: Expr, sc: Scope): Option<Scope> {
    match DeclExpr(l, sc)
    case None => None
    case Some(s1) => DeclExpr(r, s1)
  }

  function DeclArgs(es: Exprs, sc: Scope): Option<Scope> {
    match es
    case ENil => Some(sc)
    case ECons(e, tail) =>
      match DeclExpr(e, sc)
      case None => None
      case Some(s1) => DeclArgs(tail, s1)
  }

  /** Names an assignment may store to. */
  predicate Assignable(sc: Scope, x: string) {
    Resolve(sc, x).Some? && !Resolve(sc, x).value.FunRef?
  }

  /** A FOR counter must already be a local. */
  predicate IsCounter(sc: Scope, x: string) {
    Resolve(sc, x).Some? && Resolve(sc, x).value.LocRef?
  }

  /** None when a name is unknown, a target cannot be stored to, or a BREAK or CONTINUE has no loop. */
  function DeclStmt(s: Stmt, sc: Scope, inLoop: bool): Option<Scope> {
    match s
    case Skip => Some(sc)
    case Nop => Some(sc)
    case Seq(a, b) =>
      (match DeclStmt(a, sc, inLoop)
       case None => None
       case Some(s1) => DeclStmt(b, s1, inLoop))
    case Let(x, e) => DeclExpr(e, RecordVar(sc, x))
    case Assign(x, e) => if Assignable(sc, x) then DeclExpr(e, sc) else None
    case ExprStmt(e) => DeclExpr(e, sc)
    case If(c, t) =>
      (match DeclExpr(c, sc)
       case None => None
       case Some(s1) => DeclStmt(t, s1, inLoop))
    case IfElse(c, t, e) =>
      (match DeclExpr(c, sc)
       case None => None
       case Some(s1) =>
         match DeclStmt(t, s1, inLoop)
         case None => None
         case Some(s2) => DeclStmt(e, s2, inLoop))
    case While(c, b) =>
      (match DeclExpr(c, sc)
       case None => None
       case Some(s1) => DeclStmt(b, s1, true))
    case For(x, init, c, u, b) =>
      if !IsCounter(sc, x) then None
      else
        (match DeclTwo(init, c, sc)
         case None => None
         case Some(s1) =>
           match DeclStmt(u, s1, true)
           case None => None
           case Some(s2) => DeclStmt(b, s2, true))
    case Break => if inLoop then Some(sc) else None
    case Continue => if inLoop then Some(sc) else None
    case Ret(e) => DeclExpr(e, sc)
    case Throw(e) => DeclExpr(e, sc)
    case Try(b, h) =>
      (match DeclStmt(b, sc, inLoop)
       case None => None
       case Some(s1) => DeclStmt(h, s1, inLoop))
  }

  predicate DistinctNames(ps: seq<string>) {
    forall i, j :: 0 <= i < j < |ps| ==> ps[i] != ps[j]
  }

  function DeclParams(ps: seq<string>, sc: Scope): Scope {
    if ps == [] then sc else DeclParams(ps[1..], RecordLocal(sc, ps[0]))
  }

  // ----- growth: what is known stays known -----

  /** `b` knows everything `a` knows, under the same ids. */
  ghost predicate Extends(a: Scope, b: Scope) {
    && a.inFun == b.inFun && a.funcs == b.funcs
    && (a.inFun ==> a.mains == b.mains && a.nGlob == b.nGlob)
    && (!a.inFun ==> a.locals == b.locals == [] && a.nLoc == b.nLoc)
    && (forall x, d :: Lookup(Current(a), x, d).Some? ==> Lookup(Current(b), x, d) == Lookup(Current(a), x, d))
    && |a.consts| <= |b.consts| && b.consts[..|a.consts|] == a.consts
    && a.nLoc <= b.nLoc && a.nGlob <= b.nGlob
  }

  lemma ExtendsRefl(a: Scope)
    requires !a.inFun ==> a.locals == []
    ensures Extends(a, a)
  {
  }

  lemma ExtendsTrans(a: Scope, b: Scope, c: Scope)
    requires Extends(a, b) && Extends(b, c)
    ensures Extends(a, c)
  {
    assert c.consts[..|a.consts|] == c.consts[..|b.consts|][..|a.consts|];
  }

  lemma ExtendsResolve(a: Scope, b: Scope, x: string)
    requires Extends(a, b) && Resolve(a, x).Some?
    ensures Resolve(b, x) == Resolve(a, x)
  {
    assert Lookup(Current(a), x, GlobalVar).Some? ==>
      Lookup(Current(b), x, GlobalVar) == Lookup(Current(a), x, GlobalVar);
    assert Lookup(Current(a), x, Local).Some? ==> Lookup(Current(b), x, Local) == Lookup(Current(a), x, Local);
  }

  lemma {:induction false} RecordConstExtends(sc: Scope, lex: string)
    requires !sc.inFun ==> sc.locals == []
    ensures Extends(sc, RecordConst(sc, lex))
    ensures ConstId(RecordConst(sc, lex), lex).Some?
  {
    var s := Symbol(lex, |sc.consts|, Constant);
    forall x, d
      ensures Lookup(Current(sc) + [s], x, d) ==
              if Lookup(Current(sc), x, d).Some? then Lookup(Current(sc), x, d)
              else if lex == x && d == Constant then Some(s.id) else None
    {
      LookupPush(Current(sc), s, x, d);
    }
  }

  lemma {:induction false} RecordVarExtends(sc: Scope, x: string)
    requires !sc.inFun ==> sc.locals == []
    ensures Extends(sc, RecordVar(sc, x))
    ensures VarRef(RecordVar(sc, x), x).Some?
  {
    var s := if sc.inFun then Symbol(x, sc.nLoc + 1, Local) else Symbol(x, sc.nGlob, GlobalVar);
    forall y, d
      ensures Lookup(Current(sc) + [s], y, d) ==
              if Lookup(Current(sc), y, d).Some? then Lookup(Current(sc), y, d)
              else if s.name == y && d == s.domain then Some(s.id) else None
    {
      LookupPush(Current(sc), s, y, d);
    }
    assert Current(RecordVar(sc, x)) == Current(sc) || Current(RecordVar(sc, x)) == Current(sc) + [s];
    assert Lookup(Current(RecordVar(sc, x)), x, s.domain).Some?;
  }

  lemma {:induction false} DeclExprExtends(e: Expr, sc: Scope)
    requires !sc.inFun ==> sc.locals == []
    requires DeclExpr(e, sc).Some?
    ensures Extends(sc, DeclExpr(e, sc).value)
    decreases e
  {
    hide Extends;
    match e
    case Lit(LNum(s)) => RecordConstExtends(sc, s);
    case Lit(_) => ExtendsRefl(sc);
    case Var(x) => ExtendsRefl(sc);
    case BitNot(x) => DeclExprExtends(x, sc);
    case Nullish(x) => DeclExprExtends(x, sc);
    case Call(f, args) =>
      DeclExprExtends(f, sc);
      var s1 := DeclExpr(f, sc).value;
      ExtendsTop(sc, s1);
      DeclArgsExtends(args, s1);
      ExtendsTrans(sc, s1, DeclArgs(args, s1).value);
    case _ =>
      assert IsPair(e);
      DeclExprExtends(e.l, sc);
      var s1 := DeclExpr(e.l, sc).value;
      ExtendsTop(sc, s1);
      DeclExprExtends(e.r, s1);
      ExtendsTrans(sc, s1, DeclExpr(e.r, s1).value);
  }

  lemma ExtendsTop(a: Scope, b: Scope)
    requires Extends(a, b)
    ensures !b.inFun ==> b.locals == []
  {
  }

  lemma {:induction false} DeclArgsExtends(es: Exprs, sc: Scope)
    requires !sc.inFun ==> sc.locals == []
    requires DeclArgs(es, sc).Some?
    ensures Extends(sc, DeclArgs(es, sc).value)
    decreases es
  {
    hide Extends;
    match es
    case ENil => ExtendsRefl(sc);
    case ECons(e, tail) =>
      DeclExprExtends(e, sc);
      var s1 := DeclExpr(e, sc).value;
      ExtendsTop(sc, s1);
      DeclArgsExtends(tail, s1);
      ExtendsTrans(sc, s1, DeclArgs(tail, s1).value);
  }

  lemma {:induction false} DeclStmtExtends(s: Stmt, sc: Scope, inLoop: bool)
    requires !sc.inFun ==> sc.locals == []
    requires DeclStmt(s, sc, inLoop).Some?
    ensures Extends(sc, DeclStmt(s, sc, inLoop).value)
    decreases s
  {
    hide Extends;
    match s
    case Skip => ExtendsRefl(sc);
    case Nop => ExtendsRefl(sc);
    case Break => ExtendsRefl(sc);
    case Continue => ExtendsRefl(sc);
    case Assign(_, e) => DeclExprExtends(e, sc);
    case ExprStmt(e) => DeclExprExtends(e, sc);
    case Ret(e) => DeclExprExtends(e, sc);
    case Throw(e) => DeclExprExtends(e, sc);
    case Let(x, e) =>
      RecordVarExtends(sc, x);
      var s1 := RecordVar(sc, x);
      ExtendsTop(sc, s1);
      DeclExprExtends(e, s1);
      ExtendsTrans(sc, s1, DeclExpr(e, s1).value);
    case Seq(a, b) =>
      DeclStmtExtends(a, sc, inLoop);
      var s1 := DeclStmt(a, sc, inLoop).value;
      ExtendsTop(sc, s1);
      DeclStmtExtends(b, s1, inLoop);
      ExtendsTrans(sc, s1, DeclStmt(b, s1, inLoop).value);
    case Try(a, b) =>
      DeclStmtExtends(a, sc, inLoop);
      var s1 := DeclStmt(a, sc, inLoop).value;
      ExtendsTop(sc, s1);
      DeclStmtExtends(b, s1, inLoop);
      ExtendsTrans(sc, s1, DeclStmt(b, s1, inLoop).value);
    case If(c, t) =>
      DeclExprExtends(c, sc);
      var s1 := DeclExpr(c, sc).value;
      ExtendsTop(sc, s1);
      DeclStmtExtends(t, s1, inLoop);
      ExtendsTrans(sc, s1, DeclStmt(t, s1, inLoop).value);
    case While(c, b) =>
      DeclExprExtends(c, sc);
      var s1 := DeclExpr(c, sc).value;
      ExtendsTop(sc, s1);
      DeclStmtExtends(b, s1, true);
      ExtendsTrans(sc, s1, DeclStmt(b, s1, true).value);
    case IfElse(c, t, e) =>
      DeclExprExtends(c, sc);
      var s1 := DeclExpr(c, sc).value;
      ExtendsTop(sc, s1);
      DeclStmtExtends(t, s1, inLoop);
      var s2 := DeclStmt(t, s1, inLoop).value;
      ExtendsTop(s1, s2);
      DeclStmtExtends(e, s2, inLoop);
      ExtendsTrans(sc, s1, s2);
      ExtendsTrans(sc, s2, DeclStmt(e, s2, inLoop).value);
    case For(_, init, c, u, b) =>
      DeclTwoExtends(init, c, sc);
      var s1 := DeclTwo(init, c, sc).value;
      ExtendsTop(sc, s1);
      DeclStmtExtends(u, s1, true);
      var s2 := DeclStmt(u, s1, true).value;
      ExtendsTop(s1, s2);
      DeclStmtExtends(b, s2, true);
      ExtendsTrans(sc, s1, s2);
      ExtendsTrans(sc, s2, DeclStmt(b, s2, true).value);
  }

  lemma {:induction false} DeclTwoExtends(l: Expr, r: Expr, sc: Scope)
    requires !sc.inFun ==> sc.locals == []
    requires DeclTwo(l, r, sc).Some?
    ensures Extends(sc, DeclTwo(l, r, sc).value)
  {
    DeclExprExtends(l, sc);
    var s1 := DeclExpr(l, sc).value;
    DeclExprExtends(r, s1);
    ExtendsTrans(sc, s1, DeclExpr(r, s1).value);
  }

  // ----- what a finished scope guarantees -----

  /** Every name and number of an expression has its entry. */
  predicate KnownExpr(e: Expr, sc: Scope) {
    match e
    case Lit(LNum(s)) => ConstId(sc, s).Some?
    case Lit(_) => true
    case Var(x) => Resolve(sc, x).Some?
    case BitNot(x) => KnownExpr(x, sc)
    case Nullish(x) => KnownExpr(x, sc)
    case Call(f, args) => KnownExpr(f, sc) && KnownArgs(args, sc)
    case _ =>
      assert IsPair(e);
      KnownExpr(e.l, sc) && KnownExpr(e.r, sc)
  }

  predicate KnownArgs(es: Exprs, sc: Scope) {
    match es
    case ENil => true
    case ECons(e, tail) => KnownExpr(e, sc) && KnownArgs(tail, sc)
  }

  predicate KnownStmt(s: Stmt, sc: Scope) {
    match s
    case Skip => true
    case Nop => true
    case Break => true
    case Continue => true
    case Seq(a, b) => KnownStmt(a, sc) && KnownStmt(b, sc)
    case Try(a, b) => KnownStmt(a, sc) && KnownStmt(b, sc)
    case Let(x, e) => VarRef(sc, x).Some? && KnownExpr(e, sc)
    case Assign(x, e) => Assignable(sc, x) && KnownExpr(e, sc)
    case ExprStmt(e) => KnownExpr(e, sc)
    case Ret(e) => KnownExpr(e, sc)
    case Throw(e) => KnownExpr(e, sc)
    case If(c, t) => KnownExpr(c, sc) && KnownStmt(t, sc)
    case IfElse(c, t, e) => KnownExpr(c, sc) && KnownStmt(t, sc) && KnownStmt(e, sc)
    case While(c, b) => KnownExpr(c, sc) && KnownStmt(b, sc)
    case For(x, init, c, u, b) =>
      IsCounter(sc, x) && KnownExpr(init, sc) && KnownExpr(c, sc) && KnownStmt(u, sc) && KnownStmt(b, sc)
  }

  lemma {:induction false} ExtendsVarRef(a: Scope, b: Scope, x: string)
    requires Extends(a, b) && VarRef(a, x).Some?
    ensures VarRef(b, x) == VarRef(a, x)
  {
    var d := if a.inFun then Local else GlobalVar;
    assert Lookup(Current(a), x, d).Some?;
  }

  lemma {:induction false} ExtendsConstId(a: Scope, b: Scope, lex: string)
    requires Extends(a, b) && ConstId(a, lex).Some?
    ensures ConstId(b, lex) == ConstId(a, lex)
  {
  }

  lemma {:induction false} KnownExprGrows(e: Expr, a: Scope, b: Scope)
    requires Extends(a, b) && KnownExpr(e, a)
    ensures KnownExpr(e, b)
    decreases e
  {
    hide Extends;
    match e
    case Lit(LNum(s)) => ExtendsConstId(a, b, s);
    case Lit(_) =>
    case Var(x) => ExtendsResolve(a, b, x);
    case BitNot(x) => KnownExprGrows(x, a, b);
    case Nullish(x) => KnownExprGrows(x, a, b);
    case Call(f, args) =>
      KnownExprGrows(f, a, b);
      KnownArgsGrows(args, a, b);
    case _ =>
      KnownExprGrows(e.l, a, b);
      KnownExprGrows(e.r, a, b);
  }

  lemma {:induction false} KnownArgsGrows(es: Exprs, a: Scope, b: Scope)
    requires Extends(a, b) && KnownArgs(es, a)
    ensures KnownArgs(es, b)
    decreases es
  {
    hide Extends;
    match es
    case ENil =>
    case ECons(e, tail) =>
      KnownExprGrows(e, a, b);
      KnownArgsGrows(tail, a, b);
  }

  lemma {:induction false} KnownStmtGrows(s: Stmt, a: Scope, b: Scope)
    requires Extends(a, b) && KnownStmt(s, a)
    ensures KnownStmt(s, b)
    decreases s
  {
    hide Extends;
    match s
    case Skip =>
    case Nop =>
    case Break =>
    case Continue =>
    case Seq(x, y) => KnownStmtGrows(x, a, b); KnownStmtGrows(y, a, b);
    case Try(x, y) => KnownStmtGrows(x, a, b); KnownStmtGrows(y, a, b);
    case Let(x, e) => ExtendsVarRef(a, b, x); KnownExprGrows(e, a, b);
    case Assign(x, e) => ExtendsResolve(a, b, x); KnownExprGrows(e, a, b);
    case ExprStmt(e) => KnownExprGrows(e, a, b);
    case Ret(e) => KnownExprGrows(e, a, b);
    case Throw(e) => KnownExprGrows(e, a, b);
    case If(c, t) => KnownExprGrows(c, a, b); KnownStmtGrows(t, a, b);
    case IfElse(c, t, e) => KnownExprGrows(c, a, b); KnownStmtGrows(t, a, b); KnownStmtGrows(e, a, b);
    case While(c, t) => KnownExprGrows(c, a, b); KnownStmtGrows(t, a, b);
    case For(x, init, c, u, t) =>
      ExtendsResolve(a, b, x);
      KnownExprGrows(init, a, b); KnownExprGrows(c, a, b);
      KnownStmtGrows(u, a, b); KnownStmtGrows(t, a, b);
  }

  /** Declaring a tree makes everything in it known. */
  lemma {:induction false} DeclExprKnown(e: Expr, sc: Scope)
    requires !sc.inFun ==> sc.locals == []
    requires DeclExpr(e, sc).Some?
    ensures KnownExpr(e, DeclExpr(e, sc).value)
    decreases e
  {
    hide Extends;
    match e
    case Lit(LNum(s)) => RecordConstExtends(sc, s);
    case Lit(_) =>
    case Var(x) =>
    case BitNot(x) => DeclExprKnown(x, sc);
    case Nullish(x) => DeclExprKnown(x, sc);
    case Call(f, args) =>
      var s1 := DeclExpr(f, sc).value;
      DeclExprKnown(f, sc);
      DeclExprExtends(f, sc);
      ExtendsTop(sc, s1);
      DeclArgsKnown(args, s1);
      DeclArgsExtends(args, s1);
      KnownExprGrows(f, s1, DeclArgs(args, s1).value);
    case _ =>
      var s1 := DeclExpr(e.l, sc).value;
      DeclExprKnown(e.l, sc);
      DeclExprExtends(e.l, sc);
      ExtendsTop(sc, s1);
      DeclExprKnown(e.r, s1);
      DeclExprExtends(e.r, s1);
      KnownExprGrows(e.l, s1, DeclExpr(e.r, s1).value);
  }

  lemma {:induction false} DeclArgsKnown(es: Exprs, sc: Scope)
    requires !sc.inFun ==> sc.locals == []
    requires DeclArgs(es, sc).Some?
    ensures KnownArgs(es, DeclArgs(es, sc).value)
    decreases es
  {
    hide Extends;
    match es
    case ENil =>
    case ECons(e, tail) =>
      var s1 := DeclExpr(e, sc).value;
      DeclExprKnown(e, sc);
      DeclExprExtends(e, sc);
      ExtendsTop(sc, s1);
      DeclArgsKnown(tail, s1);
      DeclArgsExtends(tail, s1);
      KnownExprGrows(e, s1, DeclArgs(tail, s1).value);
  }

  lemma {:induction false} DeclStmtKnown(s: Stmt, sc: Scope, inLoop: bool)
    requires !sc.inFun ==> sc.locals == []
    requires DeclStmt(s, sc, inLoop).Some?
    ensures KnownStmt(s, DeclStmt(s, sc, inLoop).value)
    decreases Nodes(s), 0
  {
    hide Extends;
    match s
    case Skip =>
    case Nop =>
    case Break =>
    case Continue =>
    case Assign(x, e) =>
      DeclExprKnown(e, sc);
      DeclExprExtends(e, sc);
      ExtendsResolve(sc, DeclExpr(e, sc).value, x);
    case ExprStmt(e) => DeclExprKnown(e, sc);
    case Ret(e) => DeclExprKnown(e, sc);
    case Throw(e) => DeclExprKnown(e, sc);
    case Let(x, e) =>
      var s1 := RecordVar(sc, x);
      RecordVarExtends(sc, x);
      ExtendsTop(sc, s1);
      DeclExprKnown(e, s1);
      DeclExprExtends(e, s1);
      ExtendsVarRef(s1, DeclExpr(e, s1).value, x);
    case Seq(a, b) => DeclSeqKnown(a, b, sc, inLoop);
    case Try(a, b) => DeclSeqKnown(a, b, sc, inLoop);
    case If(c, t) => DeclCondKnown(c, t, sc, inLoop);
    case While(c, t) => DeclCondKnown(c, t, sc, true);
    case IfElse(c, t, e) =>
      DeclCondKnown(c, t, sc, inLoop);
      var s2 := DeclStmt(If(c, t), sc, inLoop).value;
      DeclStmtExtends(If(c, t), sc, inLoop);
      ExtendsTop(sc, s2);
      DeclStmtKnown(e, s2, inLoop);
      DeclStmtExtends(e, s2, inLoop);
      var s3 := DeclStmt(e, s2, inLoop).value;
      KnownExprGrows(c, s2, s3);
      KnownStmtGrows(t, s2, s3);
    case For(x, init, c, u, b) =>
      var s1 := DeclTwo(init, c, sc).value;
      var s0 := DeclExpr(init, sc).value;
      DeclTwoExtends(init, c, sc);
      DeclExprKnown(init, sc);
      DeclExprExtends(init, sc);
      ExtendsTop(sc, s0);
      DeclExprKnown(c, s0);
      DeclExprExtends(c, s0);
      KnownExprGrows(init, s0, s1);
      ExtendsTop(sc, s1);
      DeclSeqKnown(u, b, s1, true);
      var s3 := DeclStmt(Seq(u, b), s1, true).value;
      DeclStmtExtends(Seq(u, b), s1, true);
      KnownExprGrows(init, s1, s3);
      KnownExprGrows(c, s1, s3);
      ExtendsResolve(sc, s1, x);
      ExtendsResolve(s1, s3, x);
  }

  lemma {:induction false} DeclSeqKnown(a: Stmt, b: Stmt, sc: Scope, inLoop: bool)
    requires !sc.inFun ==> sc.locals == []
    requires DeclStmt(Seq(a, b), sc, inLoop).Some?
    ensures KnownStmt(a, DeclStmt(Seq(a, b), sc, inLoop).value) && KnownStmt(b, DeclStmt(Seq(a, b), sc, inLoop).value)
    decreases Nodes(a) + Nodes(b), 1
  {
    hide Extends;
    var s1 := DeclStmt(a, sc, inLoop).value;
    DeclStmtKnown(a, sc, inLoop);
    DeclStmtExtends(a, sc, inLoop);
    ExtendsTop(sc, s1);
    DeclStmtKnown(b, s1, inLoop);
    DeclStmtExtends(b, s1, inLoop);
    KnownStmtGrows(a, s1, DeclStmt(b, s1, inLoop).value);
  }

  lemma {:induction false} DeclCondKnown(c: Expr, t: Stmt, sc: Scope, inLoop: bool)
    requires !sc.inFun ==> sc.locals == []
    requires DeclStmt(If(c, t), sc, inLoop).Some?
    ensures KnownExpr(c, DeclStmt(If(c, t), sc, inLoop).value) && KnownStmt(t, DeclStmt(If(c, t), sc, inLoop).value)
    decreases Nodes(t), 1
  {
    hide Extends;
    var s1 := DeclExpr(c, sc).value;
    DeclExprKnown(c, sc);
    DeclExprExtends(c, sc);
    ExtendsTop(sc, s1);
    DeclStmtKnown(t, s1, inLoop);
    DeclStmtExtends(t, s1, inLoop);
    KnownExprGrows(c, s1, DeclStmt(t, s1, inLoop).value);
  }
}
