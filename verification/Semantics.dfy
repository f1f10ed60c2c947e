/** What a program means, on trees and names, without a stack.

    The one machine notion that appears is a count: how many values a statement leaves behind. IF,
    WHILE and FOR leave the value of every test that came out falsy, and an exception leaves the
    operands of the expression it interrupts. `EStop` and `SStop` are the runs that say nothing: the
    fuel ran out, a name without a value was read, a call does not fit its function, or a construct
    was used where the compiled code does not keep to one value (see `Shortcuts`). */
module Semantics {
  import opened Values
  import opened Wrappers
  import opened Syntax
  import opened Scoping

  /** A function: its parameters, its body and the names visible in it. Function ids are chunk ids;
      chunk 0 is the top-level code, so function `k` is entry `k - 1`. */
  datatype FunDef = FunDef(params: seq<string>, body: Stmt, sc: Scope)

  datatype Env = Env(funs: seq<FunDef>, objTruth: int -> bool)

  /** Global variables, the variables of the current call, whether a TRY was entered since the last
      CATCH, the last thrown value. */
  datatype Store = Store(g: map<string, Value>, l: map<string, Value>, trying: bool, err: Value)

  datatype EOut = Val(st: Store, v: Value) | EThrow(st: Store, left: nat) | EStop

  datatype AOut = Vals(st: Store, vs: seq<Value>) | AThrow(st: Store, left: nat) | AStop

  datatype SOut =
    | Normal(st: Store, left: nat) | Brk(st: Store, left: nat) | Cont(st: Store, left: nat)
    | Retn(st: Store, v: Value) | SThrow(st: Store, left: nat) | SStop

  /** The call depth is counted in a byte; deeper calls have no meaning here. */
  const MAX_DEPTH := 255

  function ReadVar(r: Option<Ref>, x: string, st: Store): EOut {
    match r
    case Some(FunRef(id)) => if id < 0x1_0000 then Val(st, VInt(id)) else EStop
    case Some(GlobRef(_)) => if x in st.g then Val(st, st.g[x]) else EStop
    case Some(LocRef(_)) => if x in st.l then Val(st, st.l[x]) else EStop
    case None => EStop
  }

  /** Assigns to the variable a reference stands for. */
  function WriteVar(r: Option<Ref>, x: string, v: Value, st: Store): Option<Store> {
    match r
    case Some(GlobRef(_)) => Some(st.(g := st.g[x := v]))
    case Some(LocRef(_)) => Some(st.(l := st.l[x := v]))
    case _ => None
  }

  function Bind(ps: seq<string>, vs: seq<Value>): map<string, Value>
    requires |ps| == |vs|
  {
    if ps == [] then map[] else Bind(ps[..|ps| - 1], vs[..|vs| - 1])[ps[|ps| - 1] := vs[|vs| - 1]]
  }

  /** The store a called function starts with. */
  function Enter(st: Store, ps: seq<string>, vs: seq<Value>): Store
    requires |ps| == |vs|
  {
    st.(l := Bind(ps, vs))
  }

  function Leave(st: Store, inner: Store): Store { inner.(l := st.l) }

  function AddLeft(o: SOut, k: nat): SOut {
    match o
    case Normal(st, r) => Normal(st, k + r)
    case Brk(st, r) => Brk(st, k + r)
    case Cont(st, r) => Cont(st, k + r)
    case SThrow(st, r) => SThrow(st, k + r)
    case _ => o
  }

  // ----- expressions -----

  function Eval(env: Env, n: nat, d: nat, e: Expr, sc: Scope, st: Store): EOut
    decreases n, 1, e
  {
    match e
    case Lit(l) => Val(st, LitValue(l))
    case Var(x) => ReadVar(Resolve(sc, x), x, st)
    case BitNot(x) =>
      (match Eval(env, n, d, x, sc, st)
       case Val(s1, v) => if v == VUndef then EStop else Val(s1, Complement(v))
       case o => o)
    case Nullish(_) => EStop
    case Coal(l, r) =>
      (match Eval(env, n, d, l, sc, st)
       case Val(s1, v) => if v == VUndef then EStop else if v == VNil then Eval(env, n, d, r, sc, s1) else Val(s1, v)
       case o => o)
    case Bin(op, l, r) =>
      (match Eval(env, n, d, l, sc, st)
       case Val(s1, v) =>
         (match Eval(env, n, d, r, sc, s1)
          case Val(s2, w) => if v == VUndef || w == VUndef then EStop else Val(s2, Binary(op, v, w))
          case EThrow(s2, k) => EThrow(s2, k + 1)
          case o => o)
       case o => o)
    case And(l, _) =>
      (match Eval(env, n, d, l, sc, st)
       case Val(s1, v) => if v == VUndef || Truthy(v, env.objTruth) then EStop else Val(s1, v)
       case o => o)
    case Or(l, _) =>
      (match Eval(env, n, d, l, sc, st)
       case Val(s1, v) => if v == VUndef || !KeepsForOr(v, env.objTruth) then EStop else Val(s1, v)
       case o => o)
    case Call(f, args) =>
      match Eval(env, n, d, f, sc, st)
      case Val(s1, v) =>
        (match EvalArgs(env, n, d, args, sc, s1)
         case Vals(s2, vs) => if n == 0 then EStop else Apply(env, n - 1, d, v, vs, s2)
         case AThrow(s2, k) => EThrow(s2, k + 1)
         case AStop => EStop)
      case o => o
  }

  function EvalArgs(env: Env, n: nat, d: nat, es: Exprs, sc: Scope, st: Store): AOut
    decreases n, 1, es
  {
    match es
    case ENil => Vals(st, [])
    case ECons(e, tail) =>
      match Eval(env, n, d, e, sc, st)
      case EStop => AStop
      case EThrow(s1, k) => AThrow(s1, k)
      case Val(s1, v) =>
        if v == VUndef then AStop
        else match EvalArgs(env, n, d, tail, sc, s1)
          case Vals(s2, vs) => Vals(s2, [v] + vs)
          case AThrow(s2, k) => AThrow(s2, k + 1)
          case AStop => AStop
  }

  /** A call. A body that ends without RET gives no particular value; an exception that leaves the
      callee leaves one value in its place. */
  function Apply(env: Env, n: nat, d: nat, callee: Value, vs: seq<Value>, st: Store): EOut
    decreases n, 4
  {
    if !callee.VInt? || !(1 <= callee.i <= |env.funs|) || d >= MAX_DEPTH then EStop
    else
      var f := env.funs[callee.i - 1];
      if |f.params| != |vs| || !DistinctNames(f.params) || |vs| > MAX_ARGS then EStop
      else match Perform(env, n, d + 1, f.body, f.sc, Enter(st, f.params, vs))
        case Retn(s1, v) => Val(Leave(st, s1), v)
        case Normal(s1, _) => Val(Leave(st, s1), VUndef)
        case SThrow(s1, _) => EThrow(Leave(st, s1), 1)
        case _ => EStop
  }

  // ----- statements -----

  function Perform(env: Env, n: nat, d: nat, s: Stmt, sc: Scope, st: Store): SOut
    decreases n, 2, s
  {
    match s
    case Skip => Normal(st, 0)
    case Nop => Normal(st, 0)
    case Seq(a, b) =>
      (match Perform(env, n, d, a, sc, st)
       case Normal(s1, k) => AddLeft(Perform(env, n, d, b, sc, s1), k)
       case o => o)
    case Let(x, e) => Store1(Eval(env, n, d, e, sc, st), VarRef(sc, x), x)
    case Assign(x, e) => Store1(Eval(env, n, d, e, sc, st), Resolve(sc, x), x)
    case ExprStmt(e) =>
      (match Eval(env, n, d, e, sc, st)
       case Val(s1, _) => Normal(s1, 0)
       case EThrow(s1, k) => SThrow(s1, k)
       case EStop => SStop)
    case If(c, t) =>
      (match Eval(env, n, d, c, sc, st)
       case Val(s1, v) =>
         if v == VUndef then SStop
         else if Truthy(v, env.objTruth) then Perform(env, n, d, t, sc, s1)
         else Normal(s1, 1)
       case EThrow(s1, k) => SThrow(s1, k)
       case EStop => SStop)
    case IfElse(c, t, e) =>
      (match Eval(env, n, d, c, sc, st)
       case Val(s1, v) =>
         if v == VUndef then SStop
         else if Truthy(v, env.objTruth) then Perform(env, n, d, t, sc, s1)
         else AddLeft(Perform(env, n, d, e, sc, s1), 1)
       case EThrow(s1, k) => SThrow(s1, k)
       case EStop => SStop)
    case While(c, b) =>
      (match Eval(env, n, d, c, sc, st)
       case Val(s1, v) =>
         if v == VUndef then SStop
         else if !Truthy(v, env.objTruth) then Normal(s1, 1)
         else if n == 0 then SStop
         else Again(env, n - 1, d, s, sc, Perform(env, n - 1, d, b, sc, s1))
       case EThrow(s1, k) => SThrow(s1, k)
       case EStop => SStop)
    case For(x, init, _, _, _) =>
      (match Store1(Eval(env, n, d, init, sc, st), Resolve(sc, x), x)
       case Normal(s1, _) => ForLoop(env, n, d, s, sc, s1)
       case o => o)
    case Break => Brk(st, 0)
    case Continue => Cont(st, 0)
    case Ret(e) =>
      (match Eval(env, n, d, e, sc, st)
       case Val(s1, v) => Retn(s1, v)
       case EThrow(s1, k) => SThrow(s1, k)
       case EStop => SStop)
    case Throw(e) =>
      (match Eval(env, n, d, e, sc, st)
       case Val(s1, v) => if v == VUndef || !s1.trying then SStop else SThrow(s1.(err := v), 0)
       case EThrow(s1, k) => SThrow(s1, k)
       case EStop => SStop)
    case Try(b, h) =>
      match Perform(env, n, d, b, sc, st.(trying := true))
      case SThrow(s1, k) => AddLeft(Perform(env, n, d, h, sc, s1.(trying := false)), k)
      case o => o
  }

  /** The end of LET, `:=` and a FOR's initializer. */
  function Store1(o: EOut, r: Option<Ref>, x: string): SOut {
    match o
    case EThrow(s1, k) => SThrow(s1, k)
    case EStop => SStop
    case Val(s1, v) =>
      if v == VUndef then SStop
      else match WriteVar(r, x, v, s1)
        case Some(s2) => Normal(s2, 0)
        case None => SStop
  }

  /** What follows one round of a WHILE's body. */
  function Again(env: Env, n: nat, d: nat, s: Stmt, sc: Scope, round: SOut): SOut
    decreases n, 3, s
  {
    match round
    case Normal(s1, k) => AddLeft(Perform(env, n, d, s, sc, s1), k)
    case Cont(s1, k) => AddLeft(Perform(env, n, d, s, sc, s1), k)
    case Brk(s1, k) => Normal(s1, k)
    case o => o
  }

  /** A FOR behind its initializer. */
  function ForLoop(env: Env, n: nat, d: nat, s: Stmt, sc: Scope, st: Store): SOut
    decreases n, 1, s
  {
    if !s.For? then SStop
    else match Eval(env, n, d, s.cond, sc, st)
      case Val(s1, v) =>
        if v == VUndef then SStop
        else if !Truthy(v, env.objTruth) then Normal(s1, 1)
        else if n == 0 then SStop
        else ForRound(env, n - 1, d, s, sc, Perform(env, n - 1, d, s.body, sc, s1))
      case EThrow(s1, k) => SThrow(s1, k)
      case EStop => SStop
  }

  /** The update and the next round. */
  function ForRound(env: Env, n: nat, d: nat, s: Stmt, sc: Scope, round: SOut): SOut
    requires s.For?
    decreases n, 3, s
  {
    match round
    case Normal(s1, k) => AddLeft(ForUpdated(env, n, d, s, sc, s1), k)
    case Cont(s1, k) => AddLeft(ForUpdated(env, n, d, s, sc, s1), k)
    case Brk(s1, k) => Normal(s1, k)
    case o => o
  }

  function ForUpdated(env: Env, n: nat, d: nat, s: Stmt, sc: Scope, st: Store): SOut
    requires s.For?
    decreases n, 2, s
  {
    match Perform(env, n, d, s.update, sc, st)
    case Normal(s1, k) => AddLeft(ForLoop(env, n, d, s, sc, s1), k)
    case SThrow(s1, k) => SThrow(s1, k)
    case _ => SStop
  }
}
