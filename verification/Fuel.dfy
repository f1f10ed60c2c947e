/** The fuel of a meaning only bounds its length: a run that finishes means the same with more. */
module Fuel {
  import opened Values
  import opened Syntax
  import opened Scoping
  import opened Semantics
  import opened ProgramSpec
  import opened Programs

  lemma {:induction false} EvalMore(env: Env, n: nat, d: nat, e: Expr, sc: Scope, st: Store)
    requires !Eval(env, n, d, e, sc, st).EStop?
    ensures Eval(env, n + 1, d, e, sc, st) == Eval(env, n, d, e, sc, st)
    decreases n, 1, e
  {
    hide Apply, Binary, Truthy, KeepsForOr;
    match e {
      case Lit(_) =>
      case Var(_) =>
      case BitNot(x) => EvalMore(env, n, d, x, sc, st);
      case Nullish(_) =>
      case Coal(l, r) =>
        EvalMore(env, n, d, l, sc, st);
        var o := Eval(env, n, d, l, sc, st);
        if o.Val? && o.v == VNil { EvalMore(env, n, d, r, sc, o.st); }
      case Bin(op, l, r) =>
        EvalMore(env, n, d, l, sc, st);
        var o := Eval(env, n, d, l, sc, st);
        if o.Val? { EvalMore(env, n, d, r, sc, o.st); }
      case And(l, _) => EvalMore(env, n, d, l, sc, st);
      case Or(l, _) => EvalMore(env, n, d, l, sc, st);
      case Call(f, args) =>
        EvalMore(env, n, d, f, sc, st);
        var o := Eval(env, n, d, f, sc, st);
        if o.Val? {
          ArgsMore(env, n, d, args, sc, o.st);
          var a := EvalArgs(env, n, d, args, sc, o.st);
          if a.Vals? { ApplyMore(env, n - 1, d, o.v, a.vs, a.st); }
        }
    }
  }

  lemma {:induction false} ArgsMore(env: Env, n: nat, d: nat, es: Exprs, sc: Scope, st: Store)
    requires !EvalArgs(env, n, d, es, sc, st).AStop?
    ensures EvalArgs(env, n + 1, d, es, sc, st) == EvalArgs(env, n, d, es, sc, st)
    decreases n, 1, es
  {
    hide Eval;
    if es.ECons? {
      EvalMore(env, n, d, es.head, sc, st);
      var o := Eval(env, n, d, es.head, sc, st);
      if o.Val? { ArgsMore(env, n, d, es.tail, sc, o.st); }
    }
  }

  lemma {:induction false} ApplyMore(env: Env, n: nat, d: nat, callee: Value, vs: seq<Value>, st: Store)
    requires !Apply(env, n, d, callee, vs, st).EStop?
    ensures Apply(env, n + 1, d, callee, vs, st) == Apply(env, n, d, callee, vs, st)
    decreases n, 4
  {
    hide Perform;
    var f := env.funs[callee.i - 1];
    PerformMore(env, n, d + 1, f.body, f.sc, Enter(st, f.params, vs));
  }

  lemma {:induction false} PerformMore(env: Env, n: nat, d: nat, s: Stmt, sc: Scope, st: Store)
    requires !Perform(env, n, d, s, sc, st).SStop?
    ensures Perform(env, n + 1, d, s, sc, st) == Perform(env, n, d, s, sc, st)
    decreases n, 2, s
  {
    hide Eval, Again, ForLoop, Truthy, WriteVar;
    match s {
      case Skip =>
      case Nop =>
      case Break =>
      case Continue =>
      case Seq(a, b) =>
        PerformMore(env, n, d, a, sc, st);
        var o := Perform(env, n, d, a, sc, st);
        if o.Normal? { PerformMore(env, n, d, b, sc, o.st); }
      case Let(_, e) => EvalMore(env, n, d, e, sc, st);
      case Assign(_, e) => EvalMore(env, n, d, e, sc, st);
      case ExprStmt(e) => EvalMore(env, n, d, e, sc, st);
      case Ret(e) => EvalMore(env, n, d, e, sc, st);
      case Throw(e) => EvalMore(env, n, d, e, sc, st);
      case If(c, t) =>
        EvalMore(env, n, d, c, sc, st);
        var o := Eval(env, n, d, c, sc, st);
        if o.Val? && Truthy(o.v, env.objTruth) { PerformMore(env, n, d, t, sc, o.st); }
      case IfElse(c, t, e) =>
        EvalMore(env, n, d, c, sc, st);
        var o := Eval(env, n, d, c, sc, st);
        if o.Val? {
          if Truthy(o.v, env.objTruth) { PerformMore(env, n, d, t, sc, o.st); }
          else { PerformMore(env, n, d, e, sc, o.st); }
        }
      case While(c, b) =>
        EvalMore(env, n, d, c, sc, st);
        var o := Eval(env, n, d, c, sc, st);
        if o.Val? && Truthy(o.v, env.objTruth) {
          var round := Perform(env, n - 1, d, b, sc, o.st);
          AgainLast(env, n - 1, d, s, sc, round);
          PerformMore(env, n - 1, d, b, sc, o.st);
          AgainMore(env, n - 1, d, s, sc, round);
        }
      case For(x, init, _, _, _) =>
        EvalMore(env, n, d, init, sc, st);
        var o := Store1(Eval(env, n, d, init, sc, st), Resolve(sc, x), x);
        if o.Normal? { ForMore(env, n, d, s, sc, o.st); }
      case Try(b, h) =>
        PerformMore(env, n, d, b, sc, st.(trying := true));
        var o := Perform(env, n, d, b, sc, st.(trying := true));
        if o.SThrow? { PerformMore(env, n, d, h, sc, o.st.(trying := false)); }
    }
  }

  lemma {:induction false} AgainLast(env: Env, n: nat, d: nat, s: Stmt, sc: Scope, round: SOut)
    requires !Again(env, n, d, s, sc, round).SStop?
    ensures !round.SStop?
  {
  }

  lemma {:induction false} AgainMore(env: Env, n: nat, d: nat, s: Stmt, sc: Scope, round: SOut)
    requires !Again(env, n, d, s, sc, round).SStop?
    ensures Again(env, n + 1, d, s, sc, round) == Again(env, n, d, s, sc, round)
    decreases n, 3, s
  {
    hide Perform;
    if round.Normal? || round.Cont? { PerformMore(env, n, d, s, sc, round.st); }
  }

  lemma {:induction false} ForMore(env: Env, n: nat, d: nat, s: Stmt, sc: Scope, st: Store)
    requires !ForLoop(env, n, d, s, sc, st).SStop?
    ensures ForLoop(env, n + 1, d, s, sc, st) == ForLoop(env, n, d, s, sc, st)
    decreases n, 1, s
  {
    hide Perform, ForRound, Eval, Truthy;
    EvalMore(env, n, d, s.cond, sc, st);
    var o := Eval(env, n, d, s.cond, sc, st);
    if o.Val? && Truthy(o.v, env.objTruth) {
      var round := Perform(env, n - 1, d, s.body, sc, o.st);
      RoundLast(env, n - 1, d, s, sc, round);
      PerformMore(env, n - 1, d, s.body, sc, o.st);
      RoundMore(env, n - 1, d, s, sc, round);
    }
  }

  lemma {:induction false} RoundLast(env: Env, n: nat, d: nat, s: Stmt, sc: Scope, round: SOut)
    requires s.For? && !ForRound(env, n, d, s, sc, round).SStop?
    ensures !round.SStop?
  {
  }

  lemma {:induction false} RoundMore(env: Env, n: nat, d: nat, s: Stmt, sc: Scope, round: SOut)
    requires s.For? && !ForRound(env, n, d, s, sc, round).SStop?
    ensures ForRound(env, n + 1, d, s, sc, round) == ForRound(env, n, d, s, sc, round)
    decreases n, 3, s
  {
    hide Perform, ForLoop;
    if round.Normal? || round.Cont? {
      var st := round.st;
      PerformMore(env, n, d, s.update, sc, st);
      var o := Perform(env, n, d, s.update, sc, st);
      if o.Normal? { ForMore(env, n, d, s, sc, o.st); }
    }
  }

  lemma {:induction false} UnitsMore(env: Env, n: nat, us: seq<Unit>, st: Store)
    requires !RunUnits(env, n, us, st).SStop?
    ensures RunUnits(env, n + 1, us, st) == RunUnits(env, n, us, st)
    decreases |us|
  {
    hide Perform;
    if us != [] {
      PerformMore(env, n, 1, us[0].stmt, us[0].sc, st);
      var o := Perform(env, n, 1, us[0].stmt, us[0].sc, st);
      if o.Normal? { UnitsMore(env, n, us[1..], o.st); }
    }
  }

  /** A program has at most one meaning. */
  lemma {:induction false} OneMeaning(tops: Tops, objTruth: int -> bool, n: nat, k: nat)
    requires !ProgramMeaning(tops, objTruth, n).SStop?
    ensures ProgramMeaning(tops, objTruth, n + k) == ProgramMeaning(tops, objTruth, n)
    decreases k
  {
    hide Units, Funs, RunUnits;
    if k > 0 {
      OneMeaning(tops, objTruth, n, k - 1);
      UnitsMore(Env(Funs(tops, START), objTruth), n + k - 1, Units(tops, START), EMPTY_STORE);
    }
  }

  /** How deep and how wide calls may be: up to depth 255, with up to 32,767 arguments. */
  lemma {:induction false} CallLimits(env: Env, ps: seq<string>, sc: Scope, n: nat, d: nat, vs: seq<Value>, st: Store)
    requires env.funs == [FunDef(ps, Ret(Lit(LNil)), sc)] && |vs| == |ps| && DistinctNames(ps)
    ensures Apply(env, n, d, VInt(1), vs, st) == if d + 1 <= 255 && |vs| <= 32767 then Val(st, VNil) else EStop
  {
    hide Bind, DistinctNames;
    assert Eval(env, n, d + 1, Lit(LNil), sc, Enter(st, ps, vs)) == Val(Enter(st, ps, vs), VNil);
  }
}
