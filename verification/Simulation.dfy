/** Compiled code does what its tree means: for every expression and statement, from every machine
    state that holds a source state, whenever the tree has a meaning the machine runs to a state that
    holds the meaning's result. */
module Simulation {
  import opened Values
  import opened Wrappers
  import opened Bytecode
  import opened Machine
  import opened Syntax
  import opened Scoping
  import opened Codegen
  import opened Placement
  import opened Layout
  import opened CatchSearch
  import opened Semantics
  import opened Frames
  import opened ExprCases
  import opened CallCases
  import opened StmtCases

  // ----- an expression taken apart: its code, its names, its meaning -----

  /** The code of `e` is at `pc`, everything in it is known, and more code follows. */
  ghost predicate Part(code: Code, pc: nat, e: Expr, sc: Scope) {
    KnownExpr(e, sc) && PlacedExpr(code, pc, e, sc) && pc + ExprSize(e) < |code|
  }

  ghost predicate ArgsPart(code: Code, pc: nat, es: Exprs, sc: Scope) {
    KnownArgs(es, sc) && PlacedArgs(code, pc, es, sc) && pc + ArgsSize(es) < |code|
  }

  lemma {:induction false} PartIs(code: Code, pc: nat, e: Expr, sc: Scope)
    requires Part(code, pc, e, sc)
    ensures KnownExpr(e, sc) && PlacedExpr(code, pc, e, sc) && pc + ExprSize(e) < |code|
    ensures PlainRange(code, pc, pc + ExprSize(e))
  {
    hide KnownExpr, PlacedExpr, PlainRange;
    ExprRange(code, pc, e, sc);
  }

  lemma {:induction false} NotSplit(code: Code, pc: nat, x: Expr, sc: Scope)
    requires Part(code, pc, BitNot(x), sc)
    ensures ExprSize(BitNot(x)) == ExprSize(x) + 1 && Part(code, pc, x, sc) && Is(code, pc + ExprSize(x), Op(OpBitNot))
  {
    hide PlacedExpr;
    UnaryLayout(code, pc, x, sc);
  }

  lemma {:induction false} NotEval(env: Env, n: nat, d: nat, x: Expr, sc: Scope, st: Store)
    ensures var o, r := Eval(env, n, d, x, sc, st), Eval(env, n, d, BitNot(x), sc, st);
      && (!o.Val? ==> r == o)
      && (o.Val? ==> r == if o.v == VUndef then EStop else Val(o.st, Complement(o.v)))
  {
  }

  lemma {:induction false} BinSplit(code: Code, pc: nat, op: BinOp, l: Expr, r: Expr, sc: Scope)
    requires Part(code, pc, Bin(op, l, r), sc)
    ensures ExprSize(Bin(op, l, r)) == ExprSize(l) + ExprSize(r) + 1
    ensures Part(code, pc, l, sc) && Part(code, pc + ExprSize(l), r, sc)
    ensures Is(code, pc + ExprSize(l) + ExprSize(r), Op(BinOpcode(op)))
  {
    hide PlacedExpr;
    BinLayout(code, pc, op, l, r, sc);
  }

  lemma {:induction false} BinEval(env: Env, n: nat, d: nat, op: BinOp, l: Expr, r: Expr, sc: Scope, st: Store)
    ensures var o, all := Eval(env, n, d, l, sc, st), Eval(env, n, d, Bin(op, l, r), sc, st);
      && (!o.Val? ==> all == o)
      && (o.Val? ==>
          var q := Eval(env, n, d, r, sc, o.st);
          && (q.Val? ==> all == if o.v == VUndef || q.v == VUndef then EStop else Val(q.st, Binary(op, o.v, q.v)))
          && (q.EThrow? ==> all == EThrow(q.st, q.left + 1))
          && (q.EStop? ==> all == EStop))
  {
    hide Binary;
  }

  lemma {:induction false} CoalSplit(code: Code, pc: nat, l: Expr, r: Expr, sc: Scope)
    requires Part(code, pc, Coal(l, r), sc)
    ensures ExprSize(Coal(l, r)) == ExprSize(l) + ExprSize(r) + 5
    ensures var p := pc + ExprSize(l);
      && Part(code, pc, l, sc) && Is(code, p, Op(OpChkNone)) && Is(code, p + 1, OpWide(OpJmpFalse, ExprSize(r) + 3))
      && Is(code, p + 2, POP) && Part(code, p + 3, r, sc)
      && Is(code, p + 3 + ExprSize(r), OpWide(OpJmp, 2)) && Is(code, p + 4 + ExprSize(r), POP)
  {
    hide PlacedExpr, Wide;
    CoalLayout(code, pc, l, r, sc);
  }

  lemma {:induction false} CoalEval(env: Env, n: nat, d: nat, l: Expr, r: Expr, sc: Scope, st: Store)
    ensures var o, all := Eval(env, n, d, l, sc, st), Eval(env, n, d, Coal(l, r), sc, st);
      && (!o.Val? ==> all == o)
      && (o.Val? ==>
          all == if o.v == VUndef then EStop else if o.v == VNil then Eval(env, n, d, r, sc, o.st) else Val(o.st, o.v))
  {
  }

  lemma {:induction false} ShortSplit(code: Code, pc: nat, e: Expr, sc: Scope)
    requires (e.And? || e.Or?) && Part(code, pc, e, sc)
    ensures ExprSize(e) == ExprSize(e.l) + ExprSize(e.r) + 3 && Part(code, pc, e.l, sc)
    ensures var p := pc + ExprSize(e.l);
      && Is(code, p, OpWide(if e.And? then OpJmpFalse else OpJmpIf, ExprSize(e.r) + 2))
      && Is(code, p + 2 + ExprSize(e.r), Op(OpNop))
  {
    hide PlacedExpr, Wide;
    if e.And? { AndLayout(code, pc, e.l, e.r, sc); } else { OrLayout(code, pc, e.l, e.r, sc); }
  }

  lemma {:induction false} ShortEval(env: Env, n: nat, d: nat, e: Expr, sc: Scope, st: Store)
    requires e.And? || e.Or?
    ensures var o, all := Eval(env, n, d, e.l, sc, st), Eval(env, n, d, e, sc, st);
      && (!o.Val? ==> all == o)
      && (o.Val? ==>
          var decides := if e.And? then !Truthy(o.v, env.objTruth) else KeepsForOr(o.v, env.objTruth);
          all == if o.v == VUndef || !decides then EStop else o)
  {
    hide Truthy, KeepsForOr;
  }

  lemma {:induction false} CallSplit(code: Code, pc: nat, f: Expr, args: Exprs, sc: Scope)
    requires Part(code, pc, Call(f, args), sc)
    ensures ExprSize(Call(f, args)) == ExprSize(f) + ArgsSize(args) + 1
    ensures Part(code, pc, f, sc) && ArgsPart(code, pc + ExprSize(f), args, sc)
    ensures Is(code, pc + ExprSize(f) + ArgsSize(args), OpWide(OpCall, ArgCount(args)))
  {
    hide PlacedExpr, PlacedArgs, Wide;
    CallLayout(code, pc, f, args, sc);
  }

  lemma {:induction false} CallEval(env: Env, n: nat, d: nat, f: Expr, args: Exprs, sc: Scope, st: Store)
    ensures var o, all := Eval(env, n, d, f, sc, st), Eval(env, n, d, Call(f, args), sc, st);
      && (!o.Val? ==> all == o)
      && (o.Val? ==>
          var q := EvalArgs(env, n, d, args, sc, o.st);
          && (q.Vals? ==> all == if n == 0 then EStop else Apply(env, n - 1, d, o.v, q.vs, q.st))
          && (q.AThrow? ==> all == EThrow(q.st, q.left + 1))
          && (q.AStop? ==> all == EStop))
  {
    hide Apply;
  }

  lemma {:induction false} ArgsSplit(code: Code, pc: nat, e: Expr, tail: Exprs, sc: Scope)
    requires ArgsPart(code, pc, ECons(e, tail), sc)
    ensures ArgsSize(ECons(e, tail)) == ExprSize(e) + ArgsSize(tail) && ArgCount(ECons(e, tail)) == 1 + ArgCount(tail)
    ensures Part(code, pc, e, sc) && ArgsPart(code, pc + ExprSize(e), tail, sc)
    ensures PlainRange(code, pc, pc + ArgsSize(ECons(e, tail)))
  {
    hide PlacedExpr, PlacedArgs, PlainRange;
    ArgsLayout(code, pc, e, tail, sc);
    ArgsRange(code, pc, ECons(e, tail), sc);
  }

  /** A value in front of the remaining arguments. */
  function Listing(v: Value, o: AOut): AOut {
    match o
    case Vals(s2, vs) => Vals(s2, [v] + vs)
    case AThrow(s2, k) => AThrow(s2, k + 1)
    case AStop => AStop
  }

  lemma ListingIs(v: Value, o: AOut)
    ensures o.Vals? ==> Listing(v, o) == Vals(o.st, [v] + o.vs)
    ensures o.AThrow? ==> Listing(v, o) == AThrow(o.st, o.left + 1)
    ensures o.AStop? ==> Listing(v, o) == AStop
  {
  }

  lemma {:induction false} ArgsEval(env: Env, n: nat, d: nat, e: Expr, tail: Exprs, sc: Scope, st: Store)
    ensures var o, all := Eval(env, n, d, e, sc, st), EvalArgs(env, n, d, ECons(e, tail), sc, st);
      && (o.EStop? ==> all == AStop)
      && (o.EThrow? ==> all == AThrow(o.st, o.left))
      && (o.Val? ==> all == if o.v == VUndef then AStop else Listing(o.v, EvalArgs(env, n, d, tail, sc, o.st)))
  {
  }

  lemma {:induction false} LeafEval(env: Env, n: nat, d: nat, e: Expr, sc: Scope, st: Store)
    ensures e.Lit? ==> Eval(env, n, d, e, sc, st) == Val(st, LitValue(e.lit))
    ensures e.Var? ==> Eval(env, n, d, e, sc, st) == ReadVar(Resolve(sc, e.name), e.name, st)
    ensures e.Nullish? ==> Eval(env, n, d, e, sc, st) == EStop
    ensures e.Lit? || e.Var? ==> ExprSize(e) == 1
  {
    hide ReadVar, Resolve, LitValue;
  }

  lemma {:induction false} ReadGives(r: Option<Ref>, x: string, st: Store)
    ensures ReadVar(r, x, st).EStop? || (ReadVar(r, x, st).Val? && ReadVar(r, x, st).st == st)
  {
  }

  lemma PostIs(ctx: Ctx, sc: Scope, d: nat, m: State, b: State, out: EOut, end: nat)
    ensures out.Val? ==> (EvalPost(ctx, sc, d, m, b, out, end) <==> Pushed(ctx, sc, out.st, d, m, b, out.v, end))
    ensures out.EThrow? ==> (EvalPost(ctx, sc, d, m, b, out, end) <==> Threw(ctx, sc, out.st, d, m, b, out.left, end))
    ensures out.EStop? ==> EvalPost(ctx, sc, d, m, b, out, end)
  {
    hide Pushed, Threw;
  }

  lemma ArgsPostIs(ctx: Ctx, sc: Scope, d: nat, m: State, b: State, out: AOut, count: nat, end: nat)
    ensures out.Vals? ==>
      (ArgsPost(ctx, sc, d, m, b, out, count, end) <==>
       Listed(ctx, sc, out.st, d, m, b, out.vs, end) && |out.vs| == count)
    ensures out.AThrow? ==>
      (ArgsPost(ctx, sc, d, m, b, out, count, end) <==> Threw(ctx, sc, out.st, d, m, b, out.left, end))
    ensures out.AStop? ==> ArgsPost(ctx, sc, d, m, b, out, count, end)
  {
    hide Listed, Threw;
  }

  // ----- expressions -----

  lemma {:induction false} SimExpr(ctx: Ctx, n: nat, d: nat, e: Expr, sc: Scope, st: Store, m: State) returns (b: State)
    requires World(ctx) && Ready(ctx, sc, st, d, m) && Part(CodeOf(ctx, m), m.ip, e, sc)
    ensures EvalPost(ctx, sc, d, m, b, Eval(ctx.env, n, d, e, sc, st), m.ip + ExprSize(e))
    decreases n, 1, e, 1
  {
    hide *;
    b := m;
    LeafEval(ctx.env, n, d, e, sc, st);
    match e {
      case Lit(l) =>
        PartIs(CodeOf(ctx, m), m.ip, e, sc);
        b := LitCase(ctx, sc, st, d, m, l);
      case Var(x) =>
        PartIs(CodeOf(ctx, m), m.ip, e, sc);
        var r := ReadVar(Resolve(sc, x), x, st);
        ReadGives(Resolve(sc, x), x, st);
        if r.Val? { b := VarCase(ctx, sc, st, d, m, x, r.v); }
      case BitNot(_) => b := SimNot(ctx, n, d, e, sc, st, m);
      case Nullish(_) =>
      case Coal(_, _) => b := SimCoal(ctx, n, d, e, sc, st, m);
      case Bin(_, _, _) => b := SimBin(ctx, n, d, e, sc, st, m);
      case And(_, _) => b := SimShort(ctx, n, d, e, sc, st, m);
      case Or(_, _) => b := SimShort(ctx, n, d, e, sc, st, m);
      case Call(_, _) => b := SimCallExpr(ctx, n, d, e, sc, st, m);
    }
    PostIs(ctx, sc, d, m, b, Eval(ctx.env, n, d, e, sc, st), m.ip + ExprSize(e));
  }

  lemma {:induction false} SimNot(ctx: Ctx, n: nat, d: nat, e: Expr, sc: Scope, st: Store, m: State) returns (b: State)
    requires e.BitNot? && World(ctx) && Ready(ctx, sc, st, d, m) && Part(CodeOf(ctx, m), m.ip, e, sc)
    ensures EvalPost(ctx, sc, d, m, b, Eval(ctx.env, n, d, e, sc, st), m.ip + ExprSize(e))
    decreases n, 1, e, 0
  {
    hide *;
    var code, x, end := CodeOf(ctx, m), e.e, m.ip + ExprSize(e);
    PartIs(code, m.ip, e, sc);
    NotSplit(code, m.ip, x, sc);
    NotEval(ctx.env, n, d, x, sc, st);
    var o := Eval(ctx.env, n, d, x, sc, st);
    b := SimExpr(ctx, n, d, x, sc, st, m);
    PostIs(ctx, sc, d, m, b, o, end - 1);
    SubRange(code, m.ip, end - 1, end);
    match o {
      case Val(s1, v) => if v != VUndef { b := NotCase(ctx, sc, st, s1, d, m, b, v, end - 1); }
      case EThrow(s1, k) => ThrewPast(ctx, sc, s1, d, m, b, k, end - 1, end);
      case EStop =>
    }
    PostIs(ctx, sc, d, m, b, Eval(ctx.env, n, d, e, sc, st), end);
  }

  lemma {:induction false} SimBin(ctx: Ctx, n: nat, d: nat, e: Expr, sc: Scope, st: Store, m: State) returns (b: State)
    requires e.Bin? && World(ctx) && Ready(ctx, sc, st, d, m) && Part(CodeOf(ctx, m), m.ip, e, sc)
    ensures EvalPost(ctx, sc, d, m, b, Eval(ctx.env, n, d, e, sc, st), m.ip + ExprSize(e))
    decreases n, 1, e, 0
  {
    hide *;
    var code, l, r, end := CodeOf(ctx, m), e.l, e.r, m.ip + ExprSize(e);
    PartIs(code, m.ip, e, sc);
    BinSplit(code, m.ip, e.op, l, r, sc);
    BinEval(ctx.env, n, d, e.op, l, r, sc, st);
    var p := m.ip + ExprSize(l);
    SubRange(code, m.ip, p, end);
    SubRange(code, m.ip, end - 1, end);
    var o := Eval(ctx.env, n, d, l, sc, st);
    var a := SimExpr(ctx, n, d, l, sc, st, m);
    PostIs(ctx, sc, d, m, a, o, p);
    b := a;
    match o {
      case Val(s1, v) =>
        PushedIs(ctx, sc, s1, d, m, a, v, p);
        ReadyAfter(ctx, sc, st, s1, d, m, a, 1, p);
        var q := Eval(ctx.env, n, d, r, sc, s1);
        b := SimExpr(ctx, n, d, r, sc, s1, a);
        PostIs(ctx, sc, d, a, b, q, end - 1);
        match q {
          case Val(s2, w) =>
            if v != VUndef && w != VUndef { b := BinCase(ctx, sc, st, s1, s2, d, m, a, b, e.op, v, w, p, end - 1); }
          case EThrow(s2, k) =>
            ReachThenThrew(ctx, sc, s1, s2, d, m, a, b, 1, k, p, end - 1);
            ThrewPast(ctx, sc, s2, d, m, b, k + 1, end - 1, end);
          case EStop =>
        }
      case EThrow(s1, k) => ThrewPast(ctx, sc, s1, d, m, b, k, p, end);
      case EStop =>
    }
    PostIs(ctx, sc, d, m, b, Eval(ctx.env, n, d, e, sc, st), end);
  }

  lemma {:induction false} SimCoal(ctx: Ctx, n: nat, d: nat, e: Expr, sc: Scope, st: Store, m: State) returns (b: State)
    requires e.Coal? && World(ctx) && Ready(ctx, sc, st, d, m) && Part(CodeOf(ctx, m), m.ip, e, sc)
    ensures EvalPost(ctx, sc, d, m, b, Eval(ctx.env, n, d, e, sc, st), m.ip + ExprSize(e))
    decreases n, 1, e, 0
  {
    hide *;
    var code, l, r, end := CodeOf(ctx, m), e.l, e.r, m.ip + ExprSize(e);
    PartIs(code, m.ip, e, sc);
    CoalSplit(code, m.ip, l, r, sc);
    CoalEval(ctx.env, n, d, l, r, sc, st);
    var p := m.ip + ExprSize(l);
    SubRange(code, m.ip, p, end);
    SubRange(code, m.ip, end - 2, end);
    var o := Eval(ctx.env, n, d, l, sc, st);
    var a := SimExpr(ctx, n, d, l, sc, st, m);
    PostIs(ctx, sc, d, m, a, o, p);
    b := a;
    match o {
      case Val(s1, v) =>
        if v == VNil {
          var c := CoalOpens(ctx, sc, st, s1, d, m, a, r, p);
          RanIs(ctx, sc, s1, d, m, c, 0, p + 3);
          ReadyAfter(ctx, sc, st, s1, d, m, c, 0, p + 3);
          var q := Eval(ctx.env, n, d, r, sc, s1);
          b := SimExpr(ctx, n, d, r, sc, s1, c);
          PostIs(ctx, sc, d, c, b, q, end - 2);
          match q {
            case Val(s2, w) => b := CoalCloses(ctx, sc, st, s1, s2, d, m, c, b, w, p + 3, end - 2);
            case EThrow(s2, k) =>
              ReachThenThrew(ctx, sc, s1, s2, d, m, c, b, 0, k, p + 3, end - 2);
              ThrewPast(ctx, sc, s2, d, m, b, k, end - 2, end);
            case EStop =>
          }
        } else if v != VUndef {
          b := CoalKeeps(ctx, sc, st, s1, d, m, a, v, r, p);
        }
      case EThrow(s1, k) => ThrewPast(ctx, sc, s1, d, m, b, k, p, end);
      case EStop =>
    }
    PostIs(ctx, sc, d, m, b, Eval(ctx.env, n, d, e, sc, st), end);
  }

  lemma {:induction false} SimShort(ctx: Ctx, n: nat, d: nat, e: Expr, sc: Scope, st: Store,
      m: State) returns (b: State)
    requires (e.And? || e.Or?) && World(ctx) && Ready(ctx, sc, st, d, m) && Part(CodeOf(ctx, m), m.ip, e, sc)
    ensures EvalPost(ctx, sc, d, m, b, Eval(ctx.env, n, d, e, sc, st), m.ip + ExprSize(e))
    decreases n, 1, e, 0
  {
    hide *;
    var code, end := CodeOf(ctx, m), m.ip + ExprSize(e);
    PartIs(code, m.ip, e, sc);
    ShortSplit(code, m.ip, e, sc);
    ShortEval(ctx.env, n, d, e, sc, st);
    var p := m.ip + ExprSize(e.l);
    SubRange(code, m.ip, p, end);
    var o := Eval(ctx.env, n, d, e.l, sc, st);
    var a := SimExpr(ctx, n, d, e.l, sc, st, m);
    PostIs(ctx, sc, d, m, a, o, p);
    b := a;
    match o {
      case Val(s1, v) =>
        if v != VUndef && (if e.And? then !Truthy(v, ctx.env.objTruth) else KeepsForOr(v, ctx.env.objTruth)) {
          b := ShortCase(ctx, sc, st, s1, d, m, a, v, if e.And? then OpJmpFalse else OpJmpIf, e.r, p);
        }
      case EThrow(s1, k) => ThrewPast(ctx, sc, s1, d, m, b, k, p, end);
      case EStop =>
    }
    PostIs(ctx, sc, d, m, b, Eval(ctx.env, n, d, e, sc, st), end);
  }

  lemma {:induction false} SimArgs(ctx: Ctx, n: nat, d: nat, es: Exprs, sc: Scope, st: Store,
      m: State) returns (b: State)
    requires World(ctx) && Ready(ctx, sc, st, d, m) && ArgsPart(CodeOf(ctx, m), m.ip, es, sc)
    ensures ArgsPost(ctx, sc, d, m, b, EvalArgs(ctx.env, n, d, es, sc, st), ArgCount(es), m.ip + ArgsSize(es))
    decreases n, 1, es, 1
  {
    hide *;
    b := m;
    match es {
      case ENil =>
        NoArgs(ctx, n, d, sc, st, m);
      case ECons(e, tail) =>
        var code, end := CodeOf(ctx, m), m.ip + ArgsSize(es);
        ArgsSplit(code, m.ip, e, tail, sc);
        ArgsEval(ctx.env, n, d, e, tail, sc, st);
        var p := m.ip + ExprSize(e);
        SubRange(code, m.ip, p, end);
        var o := Eval(ctx.env, n, d, e, sc, st);
        var a := SimExpr(ctx, n, d, e, sc, st, m);
        PostIs(ctx, sc, d, m, a, o, p);
        b := a;
        match o {
          case Val(s1, v) =>
            if v != VUndef {
              PushedIs(ctx, sc, s1, d, m, a, v, p);
              ReadyAfter(ctx, sc, st, s1, d, m, a, 1, p);
              var q := EvalArgs(ctx.env, n, d, tail, sc, s1);
              b := SimArgs(ctx, n, d, tail, sc, s1, a);
              ArgsPostIs(ctx, sc, d, a, b, q, ArgCount(tail), end);
              ListingIs(v, q);
              match q {
                case Vals(s2, vs) => ArgsMore(ctx, sc, st, s1, s2, d, m, a, b, v, vs, p, end);
                case AThrow(s2, k) => ReachThenThrew(ctx, sc, s1, s2, d, m, a, b, 1, k, p, end);
                case AStop =>
              }
            }
          case EThrow(s1, k) => ThrewPast(ctx, sc, s1, d, m, b, k, p, end);
          case EStop =>
        }
        ArgsPostIs(ctx, sc, d, m, b, EvalArgs(ctx.env, n, d, es, sc, st), ArgCount(es), end);
    }
  }

  lemma NoArgs(ctx: Ctx, n: nat, d: nat, sc: Scope, st: Store, m: State)
    requires Ready(ctx, sc, st, d, m)
    ensures ArgsPost(ctx, sc, d, m, m, EvalArgs(ctx.env, n, d, ENil, sc, st), ArgCount(ENil), m.ip + ArgsSize(ENil))
  {
    hide Ready, Listed;
    ArgsNone(ctx, sc, st, d, m);
  }

  lemma {:induction false} SimCallExpr(ctx: Ctx, n: nat, d: nat, e: Expr, sc: Scope, st: Store,
      m: State) returns (b: State)
    requires e.Call? && World(ctx) && Ready(ctx, sc, st, d, m) && Part(CodeOf(ctx, m), m.ip, e, sc)
    ensures EvalPost(ctx, sc, d, m, b, Eval(ctx.env, n, d, e, sc, st), m.ip + ExprSize(e))
    decreases n, 1, e, 0
  {
    hide *;
    var code, f, args, end := CodeOf(ctx, m), e.callee, e.args, m.ip + ExprSize(e);
    PartIs(code, m.ip, e, sc);
    CallSplit(code, m.ip, f, args, sc);
    CallEval(ctx.env, n, d, f, args, sc, st);
    var p := m.ip + ExprSize(f);
    SubRange(code, m.ip, p, end);
    SubRange(code, m.ip, end - 1, end);
    var o := Eval(ctx.env, n, d, f, sc, st);
    var a := SimExpr(ctx, n, d, f, sc, st, m);
    PostIs(ctx, sc, d, m, a, o, p);
    b := a;
    match o {
      case Val(s1, v) =>
        PushedIs(ctx, sc, s1, d, m, a, v, p);
        ReadyAfter(ctx, sc, st, s1, d, m, a, 1, p);
        var q := EvalArgs(ctx.env, n, d, args, sc, s1);
        b := SimArgs(ctx, n, d, args, sc, s1, a);
        ArgsPostIs(ctx, sc, d, a, b, q, ArgCount(args), end - 1);
        match q {
          case Vals(s2, vs) =>
            if n > 0 { b := SimApply(ctx, n - 1, d, v, vs, sc, st, s1, s2, m, a, b, p, end - 1); }
          case AThrow(s2, k) =>
            ReachThenThrew(ctx, sc, s1, s2, d, m, a, b, 1, k, p, end - 1);
            ThrewPast(ctx, sc, s2, d, m, b, k + 1, end - 1, end);
          case AStop =>
        }
      case EThrow(s1, k) => ThrewPast(ctx, sc, s1, d, m, b, k, p, end);
      case EStop =>
    }
    PostIs(ctx, sc, d, m, b, Eval(ctx.env, n, d, e, sc, st), end);
  }

  /** What a call makes of the outcome of the callee's body. */
  function Result(st: Store, o: SOut): EOut {
    match o
    case Retn(s1, w) => Val(Leave(st, s1), w)
    case Normal(s1, _) => Val(Leave(st, s1), VUndef)
    case SThrow(s1, _) => EThrow(Leave(st, s1), 1)
    case _ => EStop
  }

  lemma ResultIs(st: Store, o: SOut)
    ensures o.Retn? ==> Result(st, o) == Val(Leave(st, o.st), o.v)
    ensures o.Normal? ==> Result(st, o) == Val(Leave(st, o.st), VUndef)
    ensures o.SThrow? ==> Result(st, o) == EThrow(Leave(st, o.st), 1)
    ensures !o.Retn? && !o.Normal? && !o.SThrow? ==> Result(st, o) == EStop
  {
  }

  predicate Callable(env: Env, d: nat, v: Value, vs: seq<Value>) {
    && v.VInt? && 1 <= v.i <= |env.funs| && d < MAX_DEPTH
    && |env.funs[v.i - 1].params| == |vs| <= MAX_ARGS && DistinctNames(env.funs[v.i - 1].params)
  }

  lemma {:induction false} ApplyIs(env: Env, n: nat, d: nat, v: Value, vs: seq<Value>, st: Store)
    ensures !Callable(env, d, v, vs) ==> Apply(env, n, d, v, vs, st) == EStop
    ensures Callable(env, d, v, vs) ==>
      && v.VInt? && 1 <= v.i <= |env.funs| && d < MAX_DEPTH
      && var f := env.funs[v.i - 1];
         && |f.params| == |vs| <= MAX_ARGS && DistinctNames(f.params)
         && Apply(env, n, d, v, vs, st) == Result(st, Perform(env, n, d + 1, f.body, f.sc, Enter(st, f.params, vs)))
  {
    hide Perform, DistinctNames, Enter;
  }

  lemma {:induction false} SimApply(ctx: Ctx, n: nat, d: nat, v: Value, vs: seq<Value>, sc: Scope, st: Store,
      s1: Store, s2: Store,
      m: State, a: State, c: State, ip1: nat, ip2: nat) returns (b: State)
    requires World(ctx) && Ready(ctx, sc, st, d, m) && Pushed(ctx, sc, s1, d, m, a, v, ip1)
        && Listed(ctx, sc, s2, d, a, c, vs, ip2)
    requires Is(CodeOf(ctx, m), ip2, OpWide(OpCall, |vs|)) && ip2 + 1 < |CodeOf(ctx, m)|
    ensures EvalPost(ctx, sc, d, m, b, Apply(ctx.env, n, d, v, vs, s2), ip2 + 1)
    decreases n, 4
  {
    hide *;
    b := m;
    ApplyIs(ctx.env, n, d, v, vs, s2);
    if Callable(ctx.env, d, v, vs) {
      var f := ctx.env.funs[v.i - 1];
      FunChunk(ctx, v.i, |vs|);
      var e := CallMove(ctx, sc, st, s1, s2, d, m, a, c, v, vs, ip1, ip2);
      CodeIs(ctx, e);
      ReadyIs(ctx, sc, st, d, m);
      var out := Perform(ctx.env, n, d + 1, f.body, f.sc, Enter(s2, f.params, vs));
      BodyPiece(CodeOf(ctx, e), f.body, f.sc);
      var g := SimStmt(ctx, n, d + 1, f.body, f.sc, Enter(s2, f.params, vs), e, Open);
      ReadyIs(ctx, f.sc, Enter(s2, f.params, vs), d + 1, e);
      ResultIs(s2, out);
      BodyPost(ctx, f.sc, d + 1, e, g, out, 1 + StmtSize(f.body));
      match out {
        case Retn(s3, w) => b := LeaveMove(ctx, sc, s2, f.sc, s3, d, m, c, e, g, 1 + |vs|, ip2, w);
        case Normal(s3, _) => b := LeaveMove(ctx, sc, s2, f.sc, s3, d, m, c, e, g, 1 + |vs|, ip2, VUndef);
        case SThrow(s3, k) =>
          b := LeaveThrow(ctx, sc, s2, f.sc, s3, d, m, c, e, g, 1 + |vs|, ip2, k, 1 + StmtSize(f.body));
        case _ =>
      }
    }
    PostIs(ctx, sc, d, m, b, Apply(ctx.env, n, d, v, vs, s2), ip2 + 1);
  }

  lemma {:induction false} BodyPiece(code: Code, body: Stmt, sc: Scope)
    requires KnownStmt(body, sc) && PlacedStmt(code, 1, body, sc, Open) && |code| == StmtSize(body) + 2
    ensures Piece(code, 1, body, sc, Open)
  {
    hide KnownStmt, PlacedStmt;
  }

  lemma CodeIs(ctx: Ctx, m: State)
    ensures m.chunk < |ctx.img.chunks| ==> CodeOf(ctx, m) == ctx.img.chunks[m.chunk].code
  {
  }

  /** The end of a body is the closing RET. */
  lemma {:induction false} BodyPost(ctx: Ctx, sc: Scope, d: nat, e: State, g: State, out: SOut, end: nat)
    requires StmtPost(ctx, sc, d, e, g, out, end, Open) && Is(CodeOf(ctx, e), end, LAST_RET) && e.floor < |e.stack|
    ensures out.Retn? ==> AtReturn(ctx, sc, out.st, d, e, g, out.v)
    ensures out.Normal? ==> AtReturn(ctx, sc, out.st, d, e, g, VUndef)
    ensures out.SThrow? ==> Threw(ctx, sc, out.st, d, e, g, out.left, end)
  {
    hide Threw, Reach, CodeOf;
    match out
    case Normal(s3, k) => FineOf(ctx, sc, s3, d, e, g, k, end);
    case _ =>
  }

  // ----- a statement taken apart -----

  /** The code of `s` is at `pc`, everything in it is known, more code follows, the loop fits. */
  ghost predicate Piece(code: Code, pc: nat, s: Stmt, sc: Scope, lp: Loop) {
    KnownStmt(s, sc) && PlacedStmt(code, pc, s, sc, lp) && pc + StmtSize(s) < |code| && LoopFits(lp, pc, StmtSize(s))
  }

  /** A search from `p` finds what a search from `q` finds. */
  ghost predicate SameSearch(code: Code, p: nat, q: nat) { Scan(code, p, 1) == Scan(code, q, 1) }

  lemma {:induction false} PieceIs(code: Code, pc: nat, s: Stmt, sc: Scope, lp: Loop)
    requires Piece(code, pc, s, sc, lp)
    ensures KnownStmt(s, sc) && PlacedStmt(code, pc, s, sc, lp) && pc + StmtSize(s) < |code|
    ensures LoopFits(lp, pc, StmtSize(s))
  {
    hide KnownStmt, PlacedStmt, LoopFits;
  }

  /** A statement that is one expression and the instruction `i`. */
  ghost predicate UsePiece(code: Code, pc: nat, e: Expr, i: Instr, sc: Scope) {
    var p := pc + ExprSize(e);
    Part(code, pc, e, sc) && Is(code, p, i) && p + 1 < |code| && SameSearch(code, p, p + 1)
  }

  lemma {:induction false} UseIs(code: Code, pc: nat, e: Expr, i: Instr, sc: Scope)
    requires UsePiece(code, pc, e, i, sc)
    ensures var p := pc + ExprSize(e);
      Part(code, pc, e, sc) && Is(code, p, i) && p + 1 < |code| && Scan(code, p, 1) == Scan(code, p + 1, 1)
  {
    hide Part, Scan;
  }

  lemma {:induction false} UseMake(code: Code, pc: nat, e: Expr, i: Instr, sc: Scope)
    requires UseAt(code, pc, e, i, sc) && KnownExpr(e, sc) && pc + ExprSize(e) + 1 < |code| && Plain(i)
    ensures UsePiece(code, pc, e, i, sc)
  {
    hide PlacedExpr, KnownExpr;
    ScanOne(code, pc + ExprSize(e), 1);
  }

  lemma {:induction false} UseSplit(code: Code, pc: nat, s: Stmt, sc: Scope, lp: Loop)
    requires Piece(code, pc, s, sc, lp)
    ensures s.Let? ==>
      UsePiece(code, pc, s.init, StoreRef(VarRef(sc, s.name)), sc) && StmtSize(s) == ExprSize(s.init) + 1
    ensures s.Assign? ==>
      UsePiece(code, pc, s.value, StoreRef(Resolve(sc, s.name)), sc) && StmtSize(s) == ExprSize(s.value) + 1
    ensures s.ExprStmt? ==> UsePiece(code, pc, s.e, POP, sc) && StmtSize(s) == ExprSize(s.e) + 1
    ensures s.Ret? ==> UsePiece(code, pc, s.value, Op(OpRet), sc) && StmtSize(s) == ExprSize(s.value) + 1
    ensures s.Throw? ==> UsePiece(code, pc, s.value, Op(OpRaiseErr), sc) && StmtSize(s) == ExprSize(s.value) + 1
  {
    hide UsePiece, UseAt, KnownExpr, PlacedStmt, Resolve, VarRef;
    LeafLayout(code, pc, s, sc, lp);
    match s
    case Let(x, e) => UseMake(code, pc, e, StoreRef(VarRef(sc, x)), sc);
    case Assign(x, e) => UseMake(code, pc, e, StoreRef(Resolve(sc, x)), sc);
    case ExprStmt(e) => UseMake(code, pc, e, POP, sc);
    case Ret(e) => UseMake(code, pc, e, Op(OpRet), sc);
    case Throw(e) => UseMake(code, pc, e, Op(OpRaiseErr), sc);
    case _ =>
  }

  lemma {:induction false} SeqPieces(code: Code, pc: nat, s: Stmt, sc: Scope, lp: Loop)
    requires s.Seq? && Piece(code, pc, s, sc, lp)
    ensures StmtSize(s) == StmtSize(s.first) + StmtSize(s.rest)
    ensures Piece(code, pc, s.first, sc, lp) && Piece(code, pc + StmtSize(s.first), s.rest, sc, lp)
    ensures SameSearch(code, pc + StmtSize(s.first), pc + StmtSize(s))
  {
    hide PlacedStmt, Scan;
    SeqParts(code, pc, s, sc, lp);
    ScanBalanced(s.rest, sc, pc + StmtSize(s.first), lp, code, 1);
  }

  lemma {:induction false} SearchIs(code: Code, p: nat, q: nat)
    ensures SameSearch(code, p, q) <==> Scan(code, p, 1) == Scan(code, q, 1)
  {
    hide Scan;
  }

  /** A test, its jump, a statement, the carry to the end. */
  ghost predicate TestPiece(code: Code, pc: nat, c: Expr, jump: nat, t: Stmt, sc: Scope, lp: Loop, end: nat) {
    var p := pc + ExprSize(c);
    && Part(code, pc, c, sc) && Is(code, p, OpWide(OpJmpFalse, jump)) && jump < 0x1_0000
    && Piece(code, p + 1, t, sc, lp) && SameSearch(code, p, end) && SameSearch(code, p + 1 + StmtSize(t), end)
  }

  lemma {:induction false} TestIs(code: Code, pc: nat, c: Expr, jump: nat, t: Stmt, sc: Scope, lp: Loop, end: nat)
    requires TestPiece(code, pc, c, jump, t, sc, lp, end)
    ensures var p := pc + ExprSize(c);
      && Part(code, pc, c, sc) && Is(code, p, OpWide(OpJmpFalse, jump)) && jump < 0x1_0000
      && Piece(code, p + 1, t, sc, lp) && Scan(code, p, 1) == Scan(code, end, 1)
      && Scan(code, p + 1 + StmtSize(t), 1) == Scan(code, end, 1)
  {
    hide Part, Piece, Scan;
  }

  lemma {:induction false} TestSearch(code: Code, pc: nat, c: Expr, t: Stmt, sc: Scope, lp: Loop)
    requires Tested(code, pc, c, t, sc, lp)
    ensures var p := pc + ExprSize(c); var q := p + 1 + StmtSize(t);
      SameSearch(code, p, q + 1) && SameSearch(code, q, q + 1)
  {
    hide *;
    TestedIs(code, pc, c, t, sc, lp);
    var p := pc + ExprSize(c);
    var q := p + 1 + StmtSize(t);
    ScanOne(code, p, 1);
    ScanBalanced(t, sc, p + 1, lp, code, 1);
    ScanOne(code, q, 1);
    SearchIs(code, p, q + 1);
    SearchIs(code, q, q + 1);
  }

  /** The parts of an IF in its chunk. */
  lemma {:induction false} IfSplit(code: Code, pc: nat, s: Stmt, sc: Scope, lp: Loop)
    requires s.If? && PlacedStmt(code, pc, s, sc, lp)
    ensures var p := pc + ExprSize(s.cond);
      && PlacedExpr(code, pc, s.cond, sc) && Is(code, p, OpWide(OpJmpFalse, StmtSize(s.thn) + 1))
      && PlacedStmt(code, p + 1, s.thn, sc, lp) && Is(code, p + 1 + StmtSize(s.thn), Op(OpNop))
  {
    hide PlacedStmt, PlacedExpr, OpWide, Op;
    IfLayout(code, pc, s.cond, s.thn, sc, lp);
  }

  lemma LoopInside(lp: Loop, pc: nat, size: nat, p: nat, n: nat)
    requires LoopFits(lp, pc, size) && pc <= p && p + n <= pc + size
    ensures LoopFits(lp, p, n)
  {
  }

  lemma {:induction false} IfPieces(code: Code, pc: nat, s: Stmt, sc: Scope, lp: Loop)
    requires s.If? && Piece(code, pc, s, sc, lp) && |code| < 0x1_0000
    ensures StmtSize(s) == ExprSize(s.cond) + 1 + StmtSize(s.thn) + 1
    ensures TestPiece(code, pc, s.cond, StmtSize(s.thn) + 1, s.thn, sc, lp, pc + StmtSize(s))
    ensures Is(code, pc + ExprSize(s.cond) + 1 + StmtSize(s.thn), Op(OpNop))
  {
    hide *;
    PieceIs(code, pc, s, sc, lp);
    IfSplit(code, pc, s, sc, lp);
    KnownParts(s, sc);
    IfTested(code, pc, s, sc, lp);
    TestSearch(code, pc, s.cond, s.thn, sc, lp);
    LoopInside(lp, pc, StmtSize(s), pc + ExprSize(s.cond) + 1, StmtSize(s.thn));
    TestMake(code, pc, s.cond, StmtSize(s.thn) + 1, s.thn, sc, lp, pc + StmtSize(s));
  }

  /** The parts of a test make its piece. */
  lemma {:induction false} TestMake(code: Code, pc: nat, c: Expr, jump: nat, t: Stmt, sc: Scope, lp: Loop, end: nat)
    requires KnownExpr(c, sc) && PlacedExpr(code, pc, c, sc) && pc + ExprSize(c) + 1 + StmtSize(t) < |code|
    requires Is(code, pc + ExprSize(c), OpWide(OpJmpFalse, jump)) && jump < 0x1_0000
    requires KnownStmt(t, sc) && PlacedStmt(code, pc + ExprSize(c) + 1, t, sc, lp)
    requires LoopFits(lp, pc + ExprSize(c) + 1, StmtSize(t))
    requires SameSearch(code, pc + ExprSize(c), end) && SameSearch(code, pc + ExprSize(c) + 1 + StmtSize(t), end)
    ensures TestPiece(code, pc, c, jump, t, sc, lp, end)
  {
    hide PlacedStmt, PlacedExpr, KnownExpr, KnownStmt, SameSearch, LoopFits, OpWide;
  }

  /** The parts of a WHILE in its chunk. */
  lemma {:induction false} WhileSplit(code: Code, pc: nat, s: Stmt, sc: Scope, lp: Loop)
    requires s.While? && PlacedStmt(code, pc, s, sc, lp)
    ensures StmtSize(s) == ExprSize(s.cond) + 1 + StmtSize(s.body) + 1
    ensures var p, end := pc + ExprSize(s.cond), pc + StmtSize(s);
      && PlacedExpr(code, pc, s.cond, sc) && Is(code, p, OpWide(OpJmpFalse, StmtSize(s.body) + 2))
      && PlacedStmt(code, p + 1, s.body, sc, Closed(end, pc))
          && Is(code, end - 1, Instr(OpJmp, 1, Wide(StmtSize(s) - 1)))
  {
    hide PlacedStmt, PlacedExpr, OpWide, Wide;
    WhileLayout(code, pc, s.cond, s.body, sc, lp);
  }

  lemma LoopAround(lp: Loop, pc: nat, size: nat)
    requires lp.Closed? && 0 <= lp.cont <= pc && pc + size <= lp.brk < 0x1_0000
    ensures LoopFits(lp, pc, size)
  {
  }

  lemma {:induction false} WhilePieces(code: Code, pc: nat, s: Stmt, sc: Scope, lp: Loop)
    requires s.While? && Piece(code, pc, s, sc, lp) && |code| < 0x1_0000
    ensures StmtSize(s) == ExprSize(s.cond) + 1 + StmtSize(s.body) + 1
    ensures var end := pc + StmtSize(s);
      TestPiece(code, pc, s.cond, StmtSize(s.body) + 2, s.body, sc, Closed(end, pc), end)
    ensures Is(code, pc + StmtSize(s) - 1, Instr(OpJmp, 1, Wide(StmtSize(s) - 1)))
  {
    hide *;
    PieceIs(code, pc, s, sc, lp);
    WhileSplit(code, pc, s, sc, lp);
    KnownParts(s, sc);
    WhileTested(code, pc, s, sc, lp);
    var end := pc + StmtSize(s);
    TestSearch(code, pc, s.cond, s.body, sc, Closed(end, pc));
    LoopAround(Closed(end, pc), pc + ExprSize(s.cond) + 1, StmtSize(s.body));
    TestMake(code, pc, s.cond, StmtSize(s.body) + 2, s.body, sc, Closed(end, pc), end);
  }

  lemma {:induction false} IfElsePieces(code: Code, pc: nat, s: Stmt, sc: Scope, lp: Loop)
    requires s.IfElse? && Piece(code, pc, s, sc, lp) && |code| < 0x1_0000
    ensures StmtSize(s) == ExprSize(s.cond) + StmtSize(s.thn) + StmtSize(s.els) + 3
    ensures TestPiece(code, pc, s.cond, StmtSize(s.thn) + 2, s.thn, sc, lp, pc + StmtSize(s))
    ensures var q := pc + ExprSize(s.cond) + 1 + StmtSize(s.thn);
      && Is(code, q, OpWide(OpJmp, StmtSize(s.els) + 1)) && Piece(code, q + 1, s.els, sc, lp)
      && Is(code, q + 1 + StmtSize(s.els), Op(OpNop)) && SameSearch(code, q + 1 + StmtSize(s.els), pc + StmtSize(s))
  {
    hide PlacedStmt, PlacedExpr, KnownExpr, SameSearch, Wide;
    IfElseSearch(code, pc, s, sc, lp);
    IfElseLayout(code, pc, s.cond, s.thn, s.els, sc, lp);
  }

  lemma {:induction false} IfElseSearch(code: Code, pc: nat, s: Stmt, sc: Scope, lp: Loop)
    requires s.IfElse? && PlacedStmt(code, pc, s, sc, lp)
    ensures var q := pc + ExprSize(s.cond) + 1 + StmtSize(s.thn); var end := pc + StmtSize(s);
      && StmtSize(s) == ExprSize(s.cond) + StmtSize(s.thn) + StmtSize(s.els) + 3
      && SameSearch(code, pc + ExprSize(s.cond), end) && SameSearch(code, q, end)
          && SameSearch(code, q + 1 + StmtSize(s.els), end)
  {
    hide *;
    var q, end := pc + ExprSize(s.cond) + 1 + StmtSize(s.thn), pc + StmtSize(s);
    IfElseTested(code, pc, s, sc, lp);
    TestSearch(code, pc, s.cond, s.thn, sc, lp);
    ScanBalanced(s.els, sc, q + 1, lp, code, 1);
    ScanOne(code, q + 1 + StmtSize(s.els), 1);
    SearchIs(code, pc + ExprSize(s.cond), q + 1);
    SearchIs(code, q, q + 1);
    SearchIs(code, pc + ExprSize(s.cond), end);
    SearchIs(code, q, end);
    SearchIs(code, q + 1 + StmtSize(s.els), end);
  }

  lemma {:induction false} TryPieces(code: Code, pc: nat, s: Stmt, sc: Scope, lp: Loop)
    requires s.Try? && Piece(code, pc, s, sc, lp) && |code| < 0x1_0000
    ensures StmtSize(s) == StmtSize(s.body) + StmtSize(s.handler) + 3
    ensures var ph := pc + StmtSize(s.body) + 3;
      && Is(code, pc, Op(OpTry)) && Piece(code, pc + 1, s.body, sc, lp)
      && Is(code, ph - 2, OpWide(OpJmp, StmtSize(s.handler) + 2)) && Is(code, ph - 1, Op(OpCatchErr))
      && Scan(code, ph - 2, 1) == ph - 1 && Piece(code, ph, s.handler, sc, lp)
  {
    hide PlacedStmt, Wide, Scan;
    TryMarks(code, pc, s, sc, lp);
    TryLayout(code, pc, s.body, s.handler, sc, lp);
    var ph := pc + StmtSize(s.body) + 3;
    ScanOne(code, ph - 2, 1);
    ScanMark(code, ph - 1, 1);
  }

  // ----- what a statement means -----

  lemma {:induction false} PerformLeaf(env: Env, n: nat, d: nat, s: Stmt, sc: Scope, st: Store)
    ensures s.Skip? || s.Nop? ==> Perform(env, n, d, s, sc, st) == Normal(st, 0)
    ensures s.Break? ==> Perform(env, n, d, s, sc, st) == Brk(st, 0)
    ensures s.Continue? ==> Perform(env, n, d, s, sc, st) == Cont(st, 0)
    ensures s.Let? ==>
      Perform(env, n, d, s, sc, st) == Store1(Eval(env, n, d, s.init, sc, st), VarRef(sc, s.name), s.name)
    ensures s.Assign? ==>
      Perform(env, n, d, s, sc, st) == Store1(Eval(env, n, d, s.value, sc, st), Resolve(sc, s.name), s.name)
  {
    hide Eval, Store1, VarRef, Resolve;
  }

  lemma {:induction false} PerformUse(env: Env, n: nat, d: nat, s: Stmt, sc: Scope, st: Store)
    requires s.ExprStmt? || s.Ret? || s.Throw?
    ensures var o := Eval(env, n, d, if s.ExprStmt? then s.e else s.value, sc, st);
      var r := Perform(env, n, d, s, sc, st);
      && (o.EStop? ==> r == SStop) && (o.EThrow? ==> r == SThrow(o.st, o.left))
      && (o.Val? && s.ExprStmt? ==> r == Normal(o.st, 0))
      && (o.Val? && s.Ret? ==> r == Retn(o.st, o.v))
      && (o.Val? && s.Throw? ==> r == if o.v == VUndef || !o.st.trying then SStop else SThrow(o.st.(err := o.v), 0))
  {
    hide Eval;
  }

  lemma {:induction false} PerformSeq(env: Env, n: nat, d: nat, a: Stmt, b: Stmt, sc: Scope, st: Store)
    ensures var o := Perform(env, n, d, a, sc, st);
      Perform(env, n, d, Seq(a, b), sc, st) == if o.Normal? then AddLeft(Perform(env, n, d, b, sc, o.st), o.left) else o
  {
    hide AddLeft;
  }

  lemma {:induction false} PerformIf(env: Env, n: nat, d: nat, s: Stmt, sc: Scope, st: Store)
    requires s.If? || s.IfElse?
    ensures var o, r := Eval(env, n, d, s.cond, sc, st), Perform(env, n, d, s, sc, st);
      && (o.EStop? ==> r == SStop) && (o.EThrow? ==> r == SThrow(o.st, o.left))
      && (o.Val? ==>
          r == if o.v == VUndef then SStop
               else if Truthy(o.v, env.objTruth) then Perform(env, n, d, s.thn, sc, o.st)
               else if s.If? then Normal(o.st, 1)
               else AddLeft(Perform(env, n, d, s.els, sc, o.st), 1))
  {
    hide Eval, AddLeft, Truthy;
  }

  lemma {:induction false} PerformWhile(env: Env, n: nat, d: nat, s: Stmt, sc: Scope, st: Store)
    requires s.While?
    ensures var o, r := Eval(env, n, d, s.cond, sc, st), Perform(env, n, d, s, sc, st);
      && (o.EStop? ==> r == SStop) && (o.EThrow? ==> r == SThrow(o.st, o.left))
      && (o.Val? ==>
          r == if o.v == VUndef then SStop
               else if !Truthy(o.v, env.objTruth) then Normal(o.st, 1)
               else if n == 0 then SStop
               else Again(env, n - 1, d, s, sc, Perform(env, n - 1, d, s.body, sc, o.st)))
  {
    hide Eval, Again, Truthy;
  }

  lemma {:induction false} AgainIs(env: Env, n: nat, d: nat, s: Stmt, sc: Scope, round: SOut)
    ensures var r := Again(env, n, d, s, sc, round);
      && (round.Normal? || round.Cont? ==> r == AddLeft(Perform(env, n, d, s, sc, round.st), round.left))
      && (round.Brk? ==> r == Normal(round.st, round.left))
      && (round.Retn? || round.SThrow? || round.SStop? ==> r == round)
  {
    hide Perform, AddLeft;
  }

  lemma {:induction false} PerformTry(env: Env, n: nat, d: nat, b: Stmt, h: Stmt, sc: Scope, st: Store)
    ensures var o := Perform(env, n, d, b, sc, st.(trying := true));
      Perform(env, n, d, Try(b, h), sc, st) ==
      if o.SThrow? then AddLeft(Perform(env, n, d, h, sc, o.st.(trying := false)), o.left) else o
  {
    hide AddLeft;
  }

  lemma StmtPostIs(ctx: Ctx, sc: Scope, d: nat, m: State, b: State, out: SOut, end: nat, lp: Loop)
    ensures var post := StmtPost(ctx, sc, d, m, b, out, end, lp);
      && (out.Normal? ==> (post <==> Ran(ctx, sc, out.st, d, m, b, out.left, end)))
      && (out.Brk? ==> (post <==> (lp.Closed? ==> Ran(ctx, sc, out.st, d, m, b, out.left, lp.brk))))
      && (out.Cont? ==> (post <==> (lp.Closed? ==> Ran(ctx, sc, out.st, d, m, b, out.left, lp.cont))))
      && (out.Retn? ==> (post <==> AtReturn(ctx, sc, out.st, d, m, b, out.v)))
      && (out.SThrow? ==> (post <==> Threw(ctx, sc, out.st, d, m, b, out.left, end)))
      && (out.SStop? ==> post)
  {
    hide Ran, AtReturn, Threw;
  }

  // ----- statements -----

  lemma {:induction false} SimStmt(ctx: Ctx, n: nat, d: nat, s: Stmt, sc: Scope, st: Store, m: State,
      lp: Loop) returns (b: State)
    requires World(ctx) && Ready(ctx, sc, st, d, m) && Piece(CodeOf(ctx, m), m.ip, s, sc, lp)
    ensures StmtPost(ctx, sc, d, m, b, Perform(ctx.env, n, d, s, sc, st), m.ip + StmtSize(s), lp)
    decreases n, 2, s, 1
  {
    hide *;
    match s
    case Skip => b := SimLeaf(ctx, n, d, s, sc, st, m, lp);
    case Nop => b := SimLeaf(ctx, n, d, s, sc, st, m, lp);
    case Break => b := SimLeaf(ctx, n, d, s, sc, st, m, lp);
    case Continue => b := SimLeaf(ctx, n, d, s, sc, st, m, lp);
    case Let(_, _) => b := SimStore(ctx, n, d, s, sc, st, m, lp);
    case Assign(_, _) => b := SimStore(ctx, n, d, s, sc, st, m, lp);
    case ExprStmt(_) => b := SimUse(ctx, n, d, s, sc, st, m, lp);
    case Ret(_) => b := SimUse(ctx, n, d, s, sc, st, m, lp);
    case Throw(_) => b := SimUse(ctx, n, d, s, sc, st, m, lp);
    case Seq(_, _) => b := SimSeq(ctx, n, d, s, sc, st, m, lp);
    case If(_, _) => b := SimIf(ctx, n, d, s, sc, st, m, lp);
    case IfElse(_, _, _) => b := SimIf(ctx, n, d, s, sc, st, m, lp);
    case While(_, _) => b := SimWhile(ctx, n, d, s, sc, st, m, lp);
    case For(_, _, _, _, _) => b := SimFor(ctx, n, d, s, sc, st, m, lp);
    case Try(_, _) => b := SimTry(ctx, n, d, s, sc, st, m, lp);
  }

  lemma {:induction false} SimLeaf(ctx: Ctx, n: nat, d: nat, s: Stmt, sc: Scope, st: Store, m: State,
      lp: Loop) returns (b: State)
    requires s.Skip? || s.Nop? || s.Break? || s.Continue?
    requires World(ctx) && Ready(ctx, sc, st, d, m) && Piece(CodeOf(ctx, m), m.ip, s, sc, lp)
    ensures StmtPost(ctx, sc, d, m, b, Perform(ctx.env, n, d, s, sc, st), m.ip + StmtSize(s), lp)
  {
    PieceIs(CodeOf(ctx, m), m.ip, s, sc, lp);
    PerformLeaf(ctx.env, n, d, s, sc, st);
    ReadyIs(ctx, sc, st, d, m);
    hide Ready, Reach, Fine, ScopeFits, GlobalsFit, Perform, World, CodeOf, PlacedStmt;
    ReachSelf(ctx, sc, st, d, m);
    LeafLayout(CodeOf(ctx, m), m.ip, s, sc, lp);
    match s {
      case Skip => b := m;
      case Nop => b := NopMove(ctx, sc, st, d, m, m, 0, m.ip);
      case Break =>
        b := m;
        if lp.Closed? { b := JumpMove(ctx, sc, st, d, m, m, 0, m.ip, lp.brk - m.ip); }
      case Continue =>
        b := m;
        if lp.Closed? { b := BackMove(ctx, sc, st, d, m, m, 0, m.ip, m.ip - lp.cont); }
    }
  }

  lemma {:induction false} SimStore(ctx: Ctx, n: nat, d: nat, s: Stmt, sc: Scope, st: Store, m: State,
      lp: Loop) returns (b: State)
    requires (s.Let? || s.Assign?) && World(ctx) && Ready(ctx, sc, st, d, m) && Piece(CodeOf(ctx, m), m.ip, s, sc, lp)
    ensures StmtPost(ctx, sc, d, m, b, Perform(ctx.env, n, d, s, sc, st), m.ip + StmtSize(s), lp)
    decreases n, 2, s, 0
  {
    hide *;
    PerformLeaf(ctx.env, n, d, s, sc, st);
    UseSplit(CodeOf(ctx, m), m.ip, s, sc, lp);
    ReadyIs(ctx, sc, st, d, m);
    RefsOk(ctx, sc, ConstsOf(ctx, m), s.name);
    var e := if s.Let? then s.init else s.value;
    var r := if s.Let? then VarRef(sc, s.name) else Resolve(sc, s.name);
    b := SimStored(ctx, n, d, e, s.name, r, sc, st, m, lp);
  }

  /** An expression whose value goes into the slot of `x`. */
  lemma {:induction false} SimStored(ctx: Ctx, n: nat, d: nat, e: Expr, x: string, r: Option<Ref>, sc: Scope,
      st: Store, m: State, lp: Loop)
    returns (b: State)
    requires World(ctx) && Ready(ctx, sc, st, d, m) && UsePiece(CodeOf(ctx, m), m.ip, e, StoreRef(r), sc)
        && RefOk(ctx, sc, x, r)
    ensures StmtPost(ctx, sc, d, m, b, Store1(Eval(ctx.env, n, d, e, sc, st), r, x), m.ip + ExprSize(e) + 1, lp)
    decreases n, 1, e, 2
  {
    hide *;
    var code, p := CodeOf(ctx, m), m.ip + ExprSize(e);
    UseIs(code, m.ip, e, StoreRef(r), sc);
    ReadyIs(ctx, sc, st, d, m);
    var o := Eval(ctx.env, n, d, e, sc, st);
    Store1Is(o, r, x);
    b := SimExpr(ctx, n, d, e, sc, st, m);
    PostIs(ctx, sc, d, m, b, o, p);
    match o {
      case Val(s1, v) =>
        PushedIs(ctx, sc, s1, d, m, b, v, p);
        FineOf(ctx, sc, s1, d, m, b, 1, p);
        if v != VUndef && WriteVar(r, x, v, s1).Some? {
          b := WriteMove(ctx, sc, ConstsOf(ctx, m), s1, d, m, b, p, x, r, v, WriteVar(r, x, v, s1).value);
        }
      case EThrow(s1, k) => ThrewOn(ctx, sc, s1, d, m, b, k, p, p + 1);
      case EStop =>
    }
    StmtPostIs(ctx, sc, d, m, b, Store1(o, r, x), p + 1, lp);
  }

  lemma {:induction false} Store1Is(o: EOut, r: Option<Ref>, x: string)
    ensures o.EThrow? ==> Store1(o, r, x) == SThrow(o.st, o.left)
    ensures o.EStop? ==> Store1(o, r, x) == SStop
    ensures var w := if o.Val? then WriteVar(r, x, o.v, o.st) else None;
      o.Val? ==> Store1(o, r, x) == (if o.v == VUndef || w.None? then SStop else Normal(w.value, 0))
  {
    hide WriteVar;
  }

  lemma {:induction false} SimUse(ctx: Ctx, n: nat, d: nat, s: Stmt, sc: Scope, st: Store, m: State,
      lp: Loop) returns (b: State)
    requires (s.ExprStmt? || s.Ret? || s.Throw?) && World(ctx) && Ready(ctx, sc, st, d, m)
        && Piece(CodeOf(ctx, m), m.ip, s, sc, lp)
    ensures StmtPost(ctx, sc, d, m, b, Perform(ctx.env, n, d, s, sc, st), m.ip + StmtSize(s), lp)
    decreases n, 2, s, 0
  {
    hide *;
    var e := if s.ExprStmt? then s.e else s.value;
    var i := if s.ExprStmt? then POP else if s.Ret? then Op(OpRet) else Op(OpRaiseErr);
    var code, p := CodeOf(ctx, m), m.ip + ExprSize(e);
    PerformUse(ctx.env, n, d, s, sc, st);
    UseSplit(code, m.ip, s, sc, lp);
    UseIs(code, m.ip, e, i, sc);
    var o := Eval(ctx.env, n, d, e, sc, st);
    b := SimExpr(ctx, n, d, e, sc, st, m);
    PostIs(ctx, sc, d, m, b, o, p);
    match o {
      case Val(s1, v) =>
        if s.ExprStmt? {
          b := UseCase(ctx, sc, st, s1, d, m, b, v, p);
        } else if s.Ret? {
          ReturnCase(ctx, sc, s1, d, m, b, v, p);
        } else if v != VUndef && s1.trying {
          b := RaiseCase(ctx, sc, st, s1, d, m, b, v, p);
        }
      case EThrow(s1, k) => ThrewOn(ctx, sc, s1, d, m, b, k, p, p + 1);
      case EStop =>
    }
    StmtPostIs(ctx, sc, d, m, b, Perform(ctx.env, n, d, s, sc, st), p + 1, lp);
  }

  lemma {:induction false} SimSeq(ctx: Ctx, n: nat, d: nat, s: Stmt, sc: Scope, st: Store, m: State,
      lp: Loop) returns (b: State)
    requires s.Seq? && World(ctx) && Ready(ctx, sc, st, d, m) && Piece(CodeOf(ctx, m), m.ip, s, sc, lp)
    ensures StmtPost(ctx, sc, d, m, b, Perform(ctx.env, n, d, s, sc, st), m.ip + StmtSize(s), lp)
    decreases n, 2, s, 0
  {
    hide *;
    var code, x, y := CodeOf(ctx, m), s.first, s.rest;
    var p, end := m.ip + StmtSize(s.first), m.ip + StmtSize(s);
    SeqPieces(code, m.ip, s, sc, lp);
    SearchIs(code, p, end);
    PerformSeq(ctx.env, n, d, x, y, sc, st);
    var o := Perform(ctx.env, n, d, x, sc, st);
    var a := SimStmt(ctx, n, d, x, sc, st, m, lp);
    StmtPostIs(ctx, sc, d, m, a, o, p, lp);
    b := a;
    match o {
      case Normal(s1, k) =>
        RanIs(ctx, sc, s1, d, m, a, k, p);
        ReadyAfter(ctx, sc, st, s1, d, m, a, k, p);
        b := SimStmt(ctx, n, d, y, sc, s1, a, lp);
        Prefixed(ctx, sc, s1, d, m, a, b, k, p, Perform(ctx.env, n, d, y, sc, s1), end, lp);
      case SThrow(s1, k) =>
        ThrewOn(ctx, sc, s1, d, m, a, k, p, end);
        StmtPostIs(ctx, sc, d, m, b, o, end, lp);
      case _ =>
        StmtPostIs(ctx, sc, d, m, b, o, end, lp);
    }
  }

  lemma {:induction false} CarriesNop(code: Code, p: nat)
    requires Is(code, p, Op(OpNop))
    ensures Carries(code, p, p + 1)
  {
  }

  lemma {:induction false} CarriesJump(code: Code, p: nat, n: nat)
    requires Is(code, p, OpWide(OpJmp, n)) && n < 0x1_0000
    ensures Carries(code, p, p + n)
  {
    hide OpWide;
  }

  lemma {:induction false} SimIf(ctx: Ctx, n: nat, d: nat, s: Stmt, sc: Scope, st: Store, m: State,
      lp: Loop) returns (b: State)
    requires (s.If? || s.IfElse?) && World(ctx) && Ready(ctx, sc, st, d, m) && Piece(CodeOf(ctx, m), m.ip, s, sc, lp)
    ensures StmtPost(ctx, sc, d, m, b, Perform(ctx.env, n, d, s, sc, st), m.ip + StmtSize(s), lp)
    decreases n, 2, s, 0
  {
    hide *;
    var code, c, t, end := CodeOf(ctx, m), s.cond, s.thn, m.ip + StmtSize(s);
    var p, q := m.ip + ExprSize(s.cond), m.ip + ExprSize(s.cond) + 1 + StmtSize(s.thn);
    ReadyIs(ctx, sc, st, d, m);
    PieceIs(code, m.ip, s, sc, lp);
    var jump := if s.If? then StmtSize(t) + 1 else StmtSize(t) + 2;
    if s.If? {
      IfPieces(code, m.ip, s, sc, lp);
      CarriesNop(code, q);
    } else {
      IfElsePieces(code, m.ip, s, sc, lp);
      CarriesJump(code, q, StmtSize(s.els) + 1);
      CarriesNop(code, q + 1 + StmtSize(s.els));
      SearchIs(code, q + 1 + StmtSize(s.els), end);
    }
    TestIs(code, m.ip, c, jump, t, sc, lp, end);
    PerformIf(ctx.env, n, d, s, sc, st);
    var o := Eval(ctx.env, n, d, c, sc, st);
    var a := SimExpr(ctx, n, d, c, sc, st, m);
    PostIs(ctx, sc, d, m, a, o, p);
    b := a;
    match o {
      case Val(s1, v) =>
        if v == VUndef {
        } else if Truthy(v, ctx.env.objTruth) {
          var e := TestHolds(ctx, sc, st, s1, d, m, a, v, p, jump);
          b := SimBranch(ctx, n, d, t, sc, s1, m, e, 0, p + 1, q, if s.If? then end else end - 1, lp);
          NoMore(Perform(ctx.env, n, d, t, sc, s1));
          if s.IfElse? { b := Carry(ctx, sc, d, m, b, Perform(ctx.env, n, d, t, sc, s1), end - 1, end, lp); }
        } else {
          b := TestFails(ctx, sc, st, s1, d, m, a, v, p, jump);
          if s.IfElse? {
            b := SimBranch(ctx, n, d, s.els, sc, s1, m, b, 1, q + 1, q + 1 + StmtSize(s.els), end, lp);
          } else {
            RanIs(ctx, sc, s1, d, m, b, 1, q);
            b := NopAfter(ctx, sc, s1, d, m, b, 1, q);
          }
        }
      case EThrow(s1, k) => ThrewOn(ctx, sc, s1, d, m, b, k, p, end);
      case EStop =>
    }
    StmtPostIs(ctx, sc, d, m, b, Perform(ctx.env, n, d, s, sc, st), end, lp);
  }

  lemma {:induction false} NopAfter(ctx: Ctx, sc: Scope, st: Store, d: nat, m: State, a: State, k: nat,
      ip: nat) returns (b: State)
    requires Ran(ctx, sc, st, d, m, a, k, ip) && m.floor < |m.stack| && Is(CodeOf(ctx, m), ip, Op(OpNop))
    ensures Ran(ctx, sc, st, d, m, b, k, ip + 1)
  {
    hide *;
    RanIs(ctx, sc, st, d, m, a, k, ip);
    b := NopMove(ctx, sc, st, d, m, a, k, ip);
    RanIs(ctx, sc, st, d, m, b, k, ip + 1);
  }

  /** A branch, entered with `j` values left by the test, and the carry to the end of the whole. */
  lemma {:induction false} SimBranch(ctx: Ctx, n: nat, d: nat, t: Stmt, sc: Scope, s1: Store, m: State, e: State,
      j: nat,
      from: nat, q: nat, end: nat, lp: Loop) returns (b: State)
    requires World(ctx) && Ran(ctx, sc, s1, d, m, e, j, from) && Ready(ctx, sc, s1, d, e)
        && CodeOf(ctx, e) == CodeOf(ctx, m) && e.ip == from
    requires Piece(CodeOf(ctx, m), from, t, sc, lp) && q == from + StmtSize(t) && m.floor < |m.stack|
    requires Carries(CodeOf(ctx, m), q, end) && Scan(CodeOf(ctx, m), q, 1) == Scan(CodeOf(ctx, m), end, 1)
    ensures StmtPost(ctx, sc, d, m, b, AddLeft(Perform(ctx.env, n, d, t, sc, s1), j), end, lp)
    decreases n, 2, t, 2
  {
    hide *;
    var out := Perform(ctx.env, n, d, t, sc, s1);
    b := SimStmt(ctx, n, d, t, sc, s1, e, lp);
    Prefixed(ctx, sc, s1, d, m, e, b, j, from, out, q, lp);
    b := Carry(ctx, sc, d, m, b, AddLeft(out, j), q, end, lp);
  }

  // ----- WHILE -----

  lemma {:induction false} SimWhile(ctx: Ctx, n: nat, d: nat, s: Stmt, sc: Scope, st: Store, m: State,
      lp: Loop) returns (b: State)
    requires s.While? && World(ctx) && Ready(ctx, sc, st, d, m) && Piece(CodeOf(ctx, m), m.ip, s, sc, lp)
    ensures StmtPost(ctx, sc, d, m, b, Perform(ctx.env, n, d, s, sc, st), m.ip + StmtSize(s), lp)
    decreases n, 2, s, 0
  {
    hide *;
    var code, c, t, end := CodeOf(ctx, m), s.cond, s.body, m.ip + StmtSize(s);
    var p := m.ip + ExprSize(s.cond);
    ReadyIs(ctx, sc, st, d, m);
    WhilePieces(code, m.ip, s, sc, lp);
    TestIs(code, m.ip, c, StmtSize(t) + 2, t, sc, Closed(end, m.ip), end);
    PerformWhile(ctx.env, n, d, s, sc, st);
    var o := Eval(ctx.env, n, d, c, sc, st);
    var a := SimExpr(ctx, n, d, c, sc, st, m);
    PostIs(ctx, sc, d, m, a, o, p);
    b := a;
    match o {
      case Val(s1, v) =>
        if v == VUndef {
        } else if !Truthy(v, ctx.env.objTruth) {
          b := TestFails(ctx, sc, st, s1, d, m, a, v, p, StmtSize(t) + 2);
        } else if n > 0 {
          var e := TestHolds(ctx, sc, st, s1, d, m, a, v, p, StmtSize(t) + 2);
          var g := SimStmt(ctx, n - 1, d, t, sc, s1, e, Closed(end, m.ip));
          var round := Perform(ctx.env, n - 1, d, t, sc, s1);
          Prefixed(ctx, sc, s1, d, m, e, g, 0, p + 1, round, end - 1, Closed(end, m.ip));
          NoMore(round);
          b := SimAgain(ctx, n - 1, d, s, sc, st, m, g, round, lp);
        }
      case EThrow(s1, k) => ThrewOn(ctx, sc, s1, d, m, b, k, p, end);
      case EStop =>
    }
    StmtPostIs(ctx, sc, d, m, b, Perform(ctx.env, n, d, s, sc, st), end, lp);
  }

  /** Behind one round: back to the test, or out of the loop. */
  lemma {:induction false} SimAgain(ctx: Ctx, n: nat, d: nat, s: Stmt, sc: Scope, st: Store, m: State, g: State,
      round: SOut, lp: Loop) returns (b: State)
    requires s.While? && World(ctx) && Ready(ctx, sc, st, d, m) && Piece(CodeOf(ctx, m), m.ip, s, sc, lp)
    requires StmtPost(ctx, sc, d, m, g, round, m.ip + StmtSize(s) - 1, Closed(m.ip + StmtSize(s), m.ip))
        && StmtSize(s) >= 1
    ensures StmtPost(ctx, sc, d, m, b, Again(ctx.env, n, d, s, sc, round), m.ip + StmtSize(s), lp)
    decreases n, 3, s, 0
  {
    hide *;
    var code, end := CodeOf(ctx, m), m.ip + StmtSize(s);
    ReadyIs(ctx, sc, st, d, m);
    PieceIs(code, m.ip, s, sc, lp);
    WhilePieces(code, m.ip, s, sc, lp);
    TestIs(code, m.ip, s.cond, StmtSize(s.body) + 2, s.body, sc, Closed(end, m.ip), end);
    AgainIs(ctx.env, n, d, s, sc, round);
    StmtPostIs(ctx, sc, d, m, g, round, end - 1, Closed(end, m.ip));
    b := g;
    match round {
      case Normal(s1, k) =>
        var e := BackTo(ctx, sc, s1, d, m, g, k, end - 1, StmtSize(s) - 1);
        b := SimNext(ctx, n, d, s, sc, st, s1, m, e, k, lp);
      case Cont(s1, k) =>
        b := SimNext(ctx, n, d, s, sc, st, s1, m, g, k, lp);
      case SThrow(s1, k) =>
        ThrewOn(ctx, sc, s1, d, m, g, k, end - 1, end);
        StmtPostIs(ctx, sc, d, m, b, round, end, lp);
      case Brk(s1, k) =>
        StmtPostIs(ctx, sc, d, m, b, Normal(s1, k), end, lp);
      case _ =>
        StmtPostIs(ctx, sc, d, m, b, round, end, lp);
    }
  }

  lemma {:induction false} BackTo(ctx: Ctx, sc: Scope, st: Store, d: nat, m: State, a: State, k: nat, ip: nat,
      n: nat) returns (b: State)
    requires Ran(ctx, sc, st, d, m, a, k, ip) && m.floor < |m.stack| && n <= ip && n < 0x1_0000
    requires Is(CodeOf(ctx, m), ip, Instr(OpJmp, 1, Wide(n)))
    ensures Ran(ctx, sc, st, d, m, b, k, ip - n)
  {
    hide *;
    RanIs(ctx, sc, st, d, m, a, k, ip);
    b := BackMove(ctx, sc, st, d, m, a, k, ip, n);
    RanIs(ctx, sc, st, d, m, b, k, ip - n);
  }

  /** The next round starts where the loop started. */
  lemma {:induction false} SimNext(ctx: Ctx, n: nat, d: nat, s: Stmt, sc: Scope, st: Store, s1: Store, m: State,
      e: State, k: nat, lp: Loop) returns (b: State)
    requires World(ctx) && Ready(ctx, sc, st, d, m) && Piece(CodeOf(ctx, m), m.ip, s, sc, lp)
    requires Ran(ctx, sc, s1, d, m, e, k, m.ip)
    ensures StmtPost(ctx, sc, d, m, b, AddLeft(Perform(ctx.env, n, d, s, sc, s1), k), m.ip + StmtSize(s), lp)
    decreases n, 2, s, 2
  {
    hide *;
    RanIs(ctx, sc, s1, d, m, e, k, m.ip);
    ReadyAfter(ctx, sc, st, s1, d, m, e, k, m.ip);
    b := SimStmt(ctx, n, d, s, sc, s1, e, lp);
    Prefixed(ctx, sc, s1, d, m, e, b, k, m.ip, Perform(ctx.env, n, d, s, sc, s1), m.ip + StmtSize(s), lp);
  }

  // ----- TRY -----

  lemma {:induction false} SimTry(ctx: Ctx, n: nat, d: nat, s: Stmt, sc: Scope, st: Store, m: State,
      lp: Loop) returns (b: State)
    requires s.Try? && World(ctx) && Ready(ctx, sc, st, d, m) && Piece(CodeOf(ctx, m), m.ip, s, sc, lp)
    ensures StmtPost(ctx, sc, d, m, b, Perform(ctx.env, n, d, s, sc, st), m.ip + StmtSize(s), lp)
    decreases n, 2, s, 0
  {
    hide *;
    var code, x, h, end := CodeOf(ctx, m), s.body, s.handler, m.ip + StmtSize(s);
    var ph := m.ip + StmtSize(s.body) + 3;
    var s0 := st.(trying := true);
    ReadyIs(ctx, sc, st, d, m);
    PieceIs(code, m.ip, s, sc, lp);
    TryPieces(code, m.ip, s, sc, lp);
    PerformTry(ctx.env, n, d, x, h, sc, st);
    var a := TryMove(ctx, sc, st, d, m);
    RanIs(ctx, sc, s0, d, m, a, 0, m.ip + 1);
    ReadyAfter(ctx, sc, st, s0, d, m, a, 0, m.ip + 1);
    var o := Perform(ctx.env, n, d, x, sc, s0);
    b := SimStmt(ctx, n, d, x, sc, s0, a, lp);
    Prefixed(ctx, sc, s0, d, m, a, b, 0, m.ip + 1, o, ph - 2, lp);
    NoMore(o);
    StmtPostIs(ctx, sc, d, m, b, o, ph - 2, lp);
    match o {
      case Normal(s1, k) =>
        CarriesJump(code, ph - 2, StmtSize(h) + 2);
        b := CarryMove(ctx, sc, s1, d, m, b, k, ph - 2, end);
        StmtPostIs(ctx, sc, d, m, b, o, end, lp);
      case SThrow(s1, k) =>
        var s2 := s1.(trying := false);
        var c := CatchMove(ctx, sc, s1, d, m, b, k, ph - 2, ph - 1);
        RanIs(ctx, sc, s2, d, m, c, k, ph);
        ReadyAfter(ctx, sc, st, s2, d, m, c, k, ph);
        b := SimStmt(ctx, n, d, h, sc, s2, c, lp);
        Prefixed(ctx, sc, s2, d, m, c, b, k, ph, Perform(ctx.env, n, d, h, sc, s2), end, lp);
      case _ =>
        StmtPostIs(ctx, sc, d, m, b, o, end, lp);
    }
  }

  // ----- FOR -----

  /** A FOR in its chunk: where test, filler, body and end are, and what joins them. */
  ghost predicate ForPiece(code: Code, pc: nat, s: Stmt, sc: Scope, test: nat, fill: nat, body: nat, end: nat) {
    && s.For? && test == pc + ExprSize(s.init) + 1 && fill == test + ExprSize(s.cond) + 2
    && body == fill + StmtSize(s.update) + 2 && end == body + StmtSize(s.body) + 1
        && end + 1 == pc + StmtSize(s) < |code| < 0x1_0000
    && UsePiece(code, pc, s.init, StoreRef(Resolve(sc, s.counter)), sc)
    && Part(code, test, s.cond, sc) && Is(code, fill - 2, OpWide(OpJmpFalse, end - (fill - 2)))
    && Is(code, fill - 1, OpWide(OpJmp, body - (fill - 1))) && Is(code, fill, Op(OpNop))
    && Piece(code, fill + 1, s.update, sc, Open) && Is(code, body - 1, Instr(OpJmp, 1, Wide(body - 1 - test)))
    && Piece(code, body, s.body, sc, Closed(end, fill)) && Is(code, end - 1, Instr(OpJmp, 1, Wide(end - 1 - fill)))
    && Is(code, end, Op(OpNop))
    && SameSearch(code, test, end + 1) && SameSearch(code, fill - 2, end + 1)
    && SameSearch(code, body - 1, end + 1) && SameSearch(code, end - 1, end + 1)
  }

  lemma {:induction false} ForSearch(code: Code, pc: nat, s: Stmt, sc: Scope, lp: Loop) returns (test: nat, fill: nat,
      body: nat, end: nat)
    requires s.For? && PlacedStmt(code, pc, s, sc, lp)
    ensures ForParts(code, pc, s, sc, test, fill, body, end) && end + 1 == pc + StmtSize(s)
    ensures SameSearch(code, test, end + 1) && SameSearch(code, fill - 2, end + 1)
    ensures SameSearch(code, body - 1, end + 1) && SameSearch(code, end - 1, end + 1)
  {
    hide *;
    test, fill, body, end := ForGlue(code, pc, s, sc, lp);
    ForPartsAre(code, pc, s, sc, test, fill, body, end);
    ScanExpr(code, test, s.cond, sc, 1);
    ScanOne(code, fill - 2, 1);
    ScanOne(code, fill - 1, 1);
    ScanOne(code, fill, 1);
    ScanBalanced(s.update, sc, fill + 1, Open, code, 1);
    ScanOne(code, body - 1, 1);
    ScanBalanced(s.body, sc, body, Closed(end, fill), code, 1);
    ScanOne(code, end - 1, 1);
    ScanOne(code, end, 1);
    SearchIs(code, test, end + 1);
    SearchIs(code, fill - 2, end + 1);
    SearchIs(code, body - 1, end + 1);
    SearchIs(code, end - 1, end + 1);
  }

  lemma {:induction false} ForKnown(s: Stmt, sc: Scope)
    requires s.For? && KnownStmt(s, sc)
    ensures KnownExpr(s.init, sc) && KnownExpr(s.cond, sc) && KnownStmt(s.update, sc) && KnownStmt(s.body, sc)
  {
    hide KnownExpr, IsCounter;
  }

  lemma {:induction false} ForPieces(code: Code, pc: nat, s: Stmt, sc: Scope, lp: Loop) returns (test: nat, fill: nat,
      body: nat, end: nat)
    requires s.For? && Piece(code, pc, s, sc, lp) && |code| < 0x1_0000
    ensures ForPiece(code, pc, s, sc, test, fill, body, end)
  {
    hide *;
    PieceIs(code, pc, s, sc, lp);
    test, fill, body, end := ForSearch(code, pc, s, sc, lp);
    ForPartsAre(code, pc, s, sc, test, fill, body, end);
    ForKnown(s, sc);
    ForLayout(code, pc, s, sc, lp);
    ForJumps(code, pc, s, sc, test, fill, body, end);
    StorePlain(Resolve(sc, s.counter));
    UseMake(code, pc, s.init, StoreRef(Resolve(sc, s.counter)), sc);
    ForMake(code, pc, s, sc, test, fill, body, end);
  }

  lemma {:induction false} ForMake(code: Code, pc: nat, s: Stmt, sc: Scope, test: nat, fill: nat, body: nat, end: nat)
    requires s.For? && test == pc + ExprSize(s.init) + 1 && fill == test + ExprSize(s.cond) + 2
    requires body == fill + StmtSize(s.update) + 2 && end == body + StmtSize(s.body) + 1
        && end + 1 == pc + StmtSize(s) < |code| < 0x1_0000
    requires KnownExpr(s.cond, sc) && KnownStmt(s.update, sc) && KnownStmt(s.body, sc)
    requires UsePiece(code, pc, s.init, StoreRef(Resolve(sc, s.counter)), sc) && PlacedExpr(code, test, s.cond, sc)
    requires Is(code, fill - 2, OpWide(OpJmpFalse, end - (fill - 2)))
        && Is(code, fill - 1, OpWide(OpJmp, body - (fill - 1)))
    requires Is(code, fill, Op(OpNop)) && PlacedStmt(code, fill + 1, s.update, sc, Open)
    requires Is(code, body - 1, Instr(OpJmp, 1, Wide(body - 1 - test)))
        && PlacedStmt(code, body, s.body, sc, Closed(end, fill))
    requires Is(code, end - 1, Instr(OpJmp, 1, Wide(end - 1 - fill))) && Is(code, end, Op(OpNop))
    requires SameSearch(code, test, end + 1) && SameSearch(code, fill - 2, end + 1)
    requires SameSearch(code, body - 1, end + 1) && SameSearch(code, end - 1, end + 1)
    ensures ForPiece(code, pc, s, sc, test, fill, body, end)
  {
    hide PlacedStmt, PlacedExpr, KnownExpr, KnownStmt, SameSearch, UsePiece, Resolve, OpWide, Wide, Is,
         StmtSize, ExprSize;
  }

  lemma {:induction false} ForPieceIs(code: Code, pc: nat, s: Stmt, sc: Scope, test: nat, fill: nat, body: nat,
      end: nat)
    requires ForPiece(code, pc, s, sc, test, fill, body, end)
    ensures s.For? && test == pc + ExprSize(s.init) + 1 && fill == test + ExprSize(s.cond) + 2
    ensures body == fill + StmtSize(s.update) + 2 && end == body + StmtSize(s.body) + 1
        && end + 1 == pc + StmtSize(s) < |code| < 0x1_0000
    ensures UsePiece(code, pc, s.init, StoreRef(Resolve(sc, s.counter)), sc)
    ensures Part(code, test, s.cond, sc) && Is(code, fill - 2, OpWide(OpJmpFalse, end - (fill - 2)))
    ensures Is(code, fill - 1, OpWide(OpJmp, body - (fill - 1))) && Is(code, fill, Op(OpNop))
    ensures Piece(code, fill + 1, s.update, sc, Open) && Is(code, body - 1, Instr(OpJmp, 1, Wide(body - 1 - test)))
    ensures Piece(code, body, s.body, sc, Closed(end, fill)) && Is(code, end - 1, Instr(OpJmp, 1, Wide(end - 1 - fill)))
    ensures Is(code, end, Op(OpNop))
    ensures Scan(code, test, 1) == Scan(code, fill - 2, 1) == Scan(code, body - 1, 1) == Scan(code, end - 1, 1) ==
        Scan(code, end + 1, 1)
  {
    hide Part, Piece, UsePiece, Scan, Wide, StmtSize, ExprSize, Resolve;
  }

  lemma {:induction false} PerformFor(env: Env, n: nat, d: nat, s: Stmt, sc: Scope, st: Store)
    requires s.For?
    ensures var o := Store1(Eval(env, n, d, s.init, sc, st), Resolve(sc, s.counter), s.counter);
      Perform(env, n, d, s, sc, st) == if o.Normal? then ForLoop(env, n, d, s, sc, o.st) else o
    ensures var o := Store1(Eval(env, n, d, s.init, sc, st), Resolve(sc, s.counter), s.counter);
      o.Normal? ==> o.left == 0
    ensures var o := Store1(Eval(env, n, d, s.init, sc, st), Resolve(sc, s.counter), s.counter);
      !o.Brk? && !o.Cont? && !o.Retn?
  {
    hide Eval, ForLoop, Resolve;
  }

  lemma {:induction false} ForLoopIs(env: Env, n: nat, d: nat, s: Stmt, sc: Scope, st: Store)
    requires s.For?
    ensures var o, r := Eval(env, n, d, s.cond, sc, st), ForLoop(env, n, d, s, sc, st);
      && (o.EStop? ==> r == SStop) && (o.EThrow? ==> r == SThrow(o.st, o.left))
      && (o.Val? ==>
          r == if o.v == VUndef then SStop
               else if !Truthy(o.v, env.objTruth) then Normal(o.st, 1)
               else if n == 0 then SStop
               else ForRound(env, n - 1, d, s, sc, Perform(env, n - 1, d, s.body, sc, o.st)))
  {
    hide Eval, ForRound, Truthy, Perform;
  }

  lemma {:induction false} ForRoundIs(env: Env, n: nat, d: nat, s: Stmt, sc: Scope, round: SOut)
    requires s.For?
    ensures var r := ForRound(env, n, d, s, sc, round);
      && (round.Normal? || round.Cont? ==> r == AddLeft(ForUpdated(env, n, d, s, sc, round.st), round.left))
      && (round.Brk? ==> r == Normal(round.st, round.left))
      && (round.Retn? || round.SThrow? || round.SStop? ==> r == round)
  {
    hide ForUpdated, AddLeft;
  }

  lemma {:induction false} ForUpdatedIs(env: Env, n: nat, d: nat, s: Stmt, sc: Scope, st: Store)
    requires s.For?
    ensures var o := Perform(env, n, d, s.update, sc, st);
      ForUpdated(env, n, d, s, sc, st) ==
      if o.Normal? then AddLeft(ForLoop(env, n, d, s, sc, o.st), o.left) else if o.SThrow? then o else SStop
  {
    hide Perform, ForLoop, AddLeft;
  }

  lemma {:induction false} SimFor(ctx: Ctx, n: nat, d: nat, s: Stmt, sc: Scope, st: Store, m: State,
      lp: Loop) returns (b: State)
    requires s.For? && World(ctx) && Ready(ctx, sc, st, d, m) && Piece(CodeOf(ctx, m), m.ip, s, sc, lp)
    ensures StmtPost(ctx, sc, d, m, b, Perform(ctx.env, n, d, s, sc, st), m.ip + StmtSize(s), lp)
    decreases n, 2, s, 0
  {
    hide *;
    ReadyIs(ctx, sc, st, d, m);
    var code, pc, r := CodeOf(ctx, m), m.ip, Resolve(sc, s.counter);
    var test, fill, body, end := ForPieces(code, pc, s, sc, lp);
    ForPieceIs(code, pc, s, sc, test, fill, body, end);
    RefsOk(ctx, sc, ConstsOf(ctx, m), s.counter);
    PerformFor(ctx.env, n, d, s, sc, st);
    var o := Store1(Eval(ctx.env, n, d, s.init, sc, st), r, s.counter);
    b := SimStored(ctx, n, d, s.init, s.counter, r, sc, st, m, lp);
    StmtPostIs(ctx, sc, d, m, b, o, test, lp);
    if o.Normal? {
      var s1, e := o.st, b;
      RanIs(ctx, sc, s1, d, m, e, 0, test);
      ReadyAfter(ctx, sc, st, s1, d, m, e, 0, test);
      b := SimForLoop(ctx, n, d, s, sc, s1, e, pc, test, fill, body, end, lp);
      Prefixed(ctx, sc, s1, d, m, e, b, 0, test, ForLoop(ctx.env, n, d, s, sc, s1), end + 1, lp);
      NoMore(ForLoop(ctx.env, n, d, s, sc, s1));
    } else {
      if o.SThrow? { ThrewOn(ctx, sc, o.st, d, m, b, o.left, test, end + 1); }
      StmtPostIs(ctx, sc, d, m, b, o, end + 1, lp);
    }
  }

  /** A FOR behind its initializer, from the test on. */
  lemma {:induction false} SimForLoop(ctx: Ctx, n: nat, d: nat, s: Stmt, sc: Scope, st: Store, m: State,
      pc: nat, test: nat, fill: nat, body: nat, end: nat, lp: Loop) returns (b: State)
    requires s.For? && World(ctx) && Ready(ctx, sc, st, d, m)
        && ForPiece(CodeOf(ctx, m), pc, s, sc, test, fill, body, end) && m.ip == test
    ensures StmtPost(ctx, sc, d, m, b, ForLoop(ctx.env, n, d, s, sc, st), end + 1, lp)
    decreases n, 1, s, 0
  {
    hide *;
    var code, c := CodeOf(ctx, m), s.cond;
    ReadyIs(ctx, sc, st, d, m);
    ForPieceIs(code, pc, s, sc, test, fill, body, end);
    ForLoopIs(ctx.env, n, d, s, sc, st);
    var o := Eval(ctx.env, n, d, c, sc, st);
    var a := SimExpr(ctx, n, d, c, sc, st, m);
    PostIs(ctx, sc, d, m, a, o, fill - 2);
    b := a;
    match o {
      case Val(s1, v) =>
        if v == VUndef {
        } else if !Truthy(v, ctx.env.objTruth) {
          b := TestFails(ctx, sc, st, s1, d, m, a, v, fill - 2, end - (fill - 2));
          b := NopAfter(ctx, sc, s1, d, m, b, 1, end);
        } else if n > 0 {
          var e := TestHolds(ctx, sc, st, s1, d, m, a, v, fill - 2, end - (fill - 2));
          CarriesJump(code, fill - 1, body - (fill - 1));
          e := CarryMove(ctx, sc, s1, d, m, e, 0, fill - 1, body);
          RanIs(ctx, sc, s1, d, m, e, 0, body);
          ReadyAfter(ctx, sc, st, s1, d, m, e, 0, body);
          var round := Perform(ctx.env, n - 1, d, s.body, sc, s1);
          var g := SimStmt(ctx, n - 1, d, s.body, sc, s1, e, Closed(end, fill));
          Prefixed(ctx, sc, s1, d, m, e, g, 0, body, round, end - 1, Closed(end, fill));
          NoMore(round);
          b := SimForRound(ctx, n - 1, d, s, sc, st, m, g, round, pc, test, fill, body, end, lp);
        }
      case EThrow(s1, k) => ThrewOn(ctx, sc, s1, d, m, b, k, fill - 2, end + 1);
      case EStop =>
    }
    StmtPostIs(ctx, sc, d, m, b, ForLoop(ctx.env, n, d, s, sc, st), end + 1, lp);
  }

  /** Behind one round of the body. */
  lemma {:induction false} SimForRound(ctx: Ctx, n: nat, d: nat, s: Stmt, sc: Scope, st: Store, m: State, g: State,
      round: SOut,
      pc: nat, test: nat, fill: nat, body: nat, end: nat, lp: Loop) returns (b: State)
    requires s.For? && World(ctx) && Ready(ctx, sc, st, d, m)
        && ForPiece(CodeOf(ctx, m), pc, s, sc, test, fill, body, end) && end >= 1
    requires StmtPost(ctx, sc, d, m, g, round, end - 1, Closed(end, fill))
    ensures StmtPost(ctx, sc, d, m, b, ForRound(ctx.env, n, d, s, sc, round), end + 1, lp)
    decreases n, 3, s, 0
  {
    hide *;
    var code := CodeOf(ctx, m);
    ReadyIs(ctx, sc, st, d, m);
    ForPieceIs(code, pc, s, sc, test, fill, body, end);
    ForRoundIs(ctx.env, n, d, s, sc, round);
    StmtPostIs(ctx, sc, d, m, g, round, end - 1, Closed(end, fill));
    b := g;
    match round {
      case Normal(s1, k) =>
        var e := BackTo(ctx, sc, s1, d, m, g, k, end - 1, end - 1 - fill);
        b := SimForUpdated(ctx, n, d, s, sc, st, s1, m, e, k, pc, test, fill, body, end, lp);
      case Cont(s1, k) =>
        b := SimForUpdated(ctx, n, d, s, sc, st, s1, m, g, k, pc, test, fill, body, end, lp);
      case Brk(s1, k) =>
        b := NopAfter(ctx, sc, s1, d, m, g, k, end);
        StmtPostIs(ctx, sc, d, m, b, Normal(s1, k), end + 1, lp);
      case SThrow(s1, k) =>
        ThrewOn(ctx, sc, s1, d, m, g, k, end - 1, end + 1);
        StmtPostIs(ctx, sc, d, m, b, round, end + 1, lp);
      case _ =>
        StmtPostIs(ctx, sc, d, m, b, round, end + 1, lp);
    }
  }

  /** The filler, the update, the jump to the test, the next round. */
  lemma {:induction false} SimForUpdated(ctx: Ctx, n: nat, d: nat, s: Stmt, sc: Scope, st: Store, s1: Store, m: State,
      e: State, k: nat,
      pc: nat, test: nat, fill: nat, body: nat, end: nat, lp: Loop) returns (b: State)
    requires s.For? && World(ctx) && Ready(ctx, sc, st, d, m)
        && ForPiece(CodeOf(ctx, m), pc, s, sc, test, fill, body, end)
    requires Ran(ctx, sc, s1, d, m, e, k, fill)
    ensures StmtPost(ctx, sc, d, m, b, AddLeft(ForUpdated(ctx.env, n, d, s, sc, s1), k), end + 1, lp)
    decreases n, 2, s, 0
  {
    hide *;
    var code := CodeOf(ctx, m);
    ReadyIs(ctx, sc, st, d, m);
    ForPieceIs(code, pc, s, sc, test, fill, body, end);
    ForUpdatedIs(ctx.env, n, d, s, sc, s1);
    var a := NopAfter(ctx, sc, s1, d, m, e, k, fill);
    RanIs(ctx, sc, s1, d, m, a, k, fill + 1);
    ReadyAfter(ctx, sc, st, s1, d, m, a, k, fill + 1);
    ReadyIs(ctx, sc, s1, d, a);
    var o := Perform(ctx.env, n, d, s.update, sc, s1);
    var g := SimStmt(ctx, n, d, s.update, sc, s1, a, Open);
    StmtPostIs(ctx, sc, d, a, g, o, body - 1, Open);
    b := g;
    match o {
      case Normal(s2, j) =>
        var t := BackTo(ctx, sc, s2, d, a, g, j, body - 1, body - 1 - test);
        RanIs(ctx, sc, s2, d, a, t, j, test);
        ReadyAfter(ctx, sc, s1, s2, d, a, t, j, test);
        b := SimForLoop(ctx, n, d, s, sc, s2, t, pc, test, fill, body, end, lp);
        Prefixed(ctx, sc, s2, d, a, t, b, j, test, ForLoop(ctx.env, n, d, s, sc, s2), end + 1, lp);
      case SThrow(s2, j) =>
        ThrewOn(ctx, sc, s2, d, a, g, j, body - 1, end + 1);
        StmtPostIs(ctx, sc, d, a, g, o, end + 1, lp);
      case _ =>
        StmtPostIs(ctx, sc, d, a, g, SStop, end + 1, lp);
    }
    Prefixed(ctx, sc, s1, d, m, a, b, k, fill + 1, ForUpdated(ctx.env, n, d, s, sc, s1), end + 1, lp);
  }
}
