/** The relation between a store of names and a machine state, and how single steps keep it. */
module Frames {
  import opened Values
  import opened Wrappers
  import opened Bytecode
  import opened Machine
  import opened Scoping
  import opened Slots
  import opened Codegen
  import opened Semantics
  import opened Handlers
  import opened Layout

  /** A compiled program beside its meaning: `mains` is the finished table of global variables, `ng`
      their number. */
  datatype Ctx = Ctx(img: Image, env: Env, mains: seq<Symbol>, ng: nat)

  /** A table that knows some of the finished globals, under the same ids. */
  ghost predicate SeesGlobals(t: seq<Symbol>, mains: seq<Symbol>) {
    forall x {:trigger Lookup(t, x, GlobalVar)} :: Lookup(t, x, GlobalVar).Some? ==>
      Lookup(mains, x, GlobalVar) == Lookup(t, x, GlobalVar)
  }

  /** A scope whose ids fit their operands and whose constants are in the chunk. */
  ghost predicate ScopeFits(ctx: Ctx, sc: Scope, consts: seq<Value>) {
    && ScopeOk(sc) && SeesGlobals(sc.mains, ctx.mains)
    && |sc.consts| <= |consts| && consts[..|sc.consts|] == sc.consts
    && |sc.consts| <= 0x1_0000 && sc.nLoc < 0x1_0000
  }

  ghost predicate GlobalsFit(ctx: Ctx) {
    Numbered(ctx.mains, GlobalVar, 0, ctx.ng) && ctx.ng < 0x1_0000
  }

  /** `vs` are in their slots, and none of them is unwritten. */
  ghost predicate Held(vs: map<string, Value>, t: seq<Symbol>, d: Domain, base: nat, top: nat, stack: seq<Value>) {
    forall x :: x in vs ==>
      && vs[x] != VUndef && Lookup(t, x, d).Some?
      && base + Lookup(t, x, d).value <= top < |stack| && stack[base + Lookup(t, x, d).value] == vs[x]
  }

  /** The current frame: globals at the bottom of the stack, then the callers, then the callee's slot,
      its locals and, above `floor`, the temporaries. */
  ghost predicate FrameFits(ctx: Ctx, sc: Scope, st: Store, m: State) {
    && m.bp <= m.floor < |m.stack| && ctx.ng <= m.floor
    && (if sc.inFun then ctx.ng <= m.bp && m.bp + sc.nLoc <= m.floor
        else m.bp == 0 && m.floor == ctx.ng && st.l == map[])
  }

  /** The machine is in the source state `st` at call depth `d`. */
  ghost predicate Fine(ctx: Ctx, sc: Scope, st: Store, d: nat, m: State) {
    && m.mode.Running? && m.chunk < |ctx.img.chunks| && m.depth == d
    && m.trying == st.trying && m.err == st.err
    && FrameFits(ctx, sc, st, m)
    && Held(st.g, ctx.mains, GlobalVar, 0, m.floor, m.stack)
    && Held(st.l, sc.locals, Local, m.bp, m.floor, m.stack)
  }

  /** Slots that a run inside the current frame may write: globals and the frame's variables. */
  predicate Writable(ctx: Ctx, m: State, i: int) { i < ctx.ng || m.bp < i <= m.floor }

  ghost predicate Kept(ctx: Ctx, m: State, n: State) {
    forall i :: 0 <= i < |m.stack| && !Writable(ctx, m, i) ==> i < |n.stack| && n.stack[i] == m.stack[i]
  }

  /** Same frame, `k` more temporaries, everything else in place. */
  ghost predicate Grew(ctx: Ctx, m: State, n: State, k: int) {
    && n.chunk == m.chunk && n.bp == m.bp && n.floor == m.floor && n.frames == m.frames
    && |n.stack| == |m.stack| + k && Kept(ctx, m, n)
  }

  ghost predicate Steps(img: Image, m: State, n: State) { exists k: nat :: Run(img, k, m) == n }

  /** A run from `m` has come to `n`, in source state `st`, with `k` more temporaries, at `ip`. */
  ghost predicate Reach(ctx: Ctx, sc: Scope, st: Store, d: nat, m: State, n: State, k: int, ip: int) {
    Steps(ctx.img, m, n) && Fine(ctx, sc, st, d, n) && Grew(ctx, m, n, k) && n.ip == ip
  }

  predicate Live(m: State) { m.status.StatusPending? }

  // ----- runs -----

  lemma StepsNone(img: Image, m: State)
    ensures Steps(img, m, m)
  {
    assert Run(img, 0, m) == m;
  }

  lemma StepsThen(img: Image, m: State, n: State)
    requires Steps(img, m, n)
    ensures Steps(img, m, Step(img, n))
  {
    hide Step;
    var k: nat :| Run(img, k, m) == n;
    RunAdd(img, k, 1, m);
    assert Run(img, 1, n) == Run(img, 0, Step(img, n));
  }

  lemma StepsTrans(img: Image, a: State, b: State, c: State)
    requires Steps(img, a, b) && Steps(img, b, c)
    ensures Steps(img, a, c)
  {
    hide Run;
    var j: nat :| Run(img, j, a) == b;
    var k: nat :| Run(img, k, b) == c;
    RunAdd(img, j, k, a);
  }

  lemma {:induction false} KeptTrans(ctx: Ctx, a: State, b: State, c: State)
    requires Kept(ctx, a, b) && Kept(ctx, b, c) && a.bp == b.bp && a.floor == b.floor
    ensures Kept(ctx, a, c)
  {
  }

  lemma {:induction false} ReachTrans(ctx: Ctx, sc: Scope, s1: Store, s2: Store, d: nat, a: State, b: State, c: State,
      j: int, k: int, ip1: int, ip2: int)
    requires Reach(ctx, sc, s1, d, a, b, j, ip1) && Reach(ctx, sc, s2, d, b, c, k, ip2)
    ensures Reach(ctx, sc, s2, d, a, c, j + k, ip2)
  {
    hide Steps, Fine, Kept;
    StepsTrans(ctx.img, a, b, c);
    KeptTrans(ctx, a, b, c);
  }

  lemma ReachSelf(ctx: Ctx, sc: Scope, st: Store, d: nat, m: State)
    requires Fine(ctx, sc, st, d, m)
    ensures Reach(ctx, sc, st, d, m, m, 0, m.ip)
  {
    hide Fine;
    StepsNone(ctx.img, m);
  }

  // ----- steps that rearrange temporaries -----

  /** Only the temporaries, the position and the flag matter to the frame above its floor. */
  lemma {:induction false} HeldBelow(vs: map<string, Value>, t: seq<Symbol>, d: Domain, base: nat, top: nat,
      a: seq<Value>, b: seq<Value>)
    requires Held(vs, t, d, base, top, a) && top < |b| && forall i :: 0 <= i <= top && i < |a| ==> b[i] == a[i]
    ensures Held(vs, t, d, base, top, b)
  {
  }

  /** One step that drops temporaries down to `k` above `m` and pushes `vs`. */
  lemma {:induction false} Settle(ctx: Ctx, sc: Scope, st: Store, d: nat, m: State, a: State, b: State,
      j: int, ip1: int, k: nat, vs: seq<Value>, ip2: int)
    requires Reach(ctx, sc, st, d, m, a, j, ip1) && k <= j && m.floor < |m.stack|
    requires |m.stack| + k <= |a.stack| && ip2 >= 0
    requires b == a.(stack := a.stack[..|m.stack| + k] + vs, ip := ip2) && Step(ctx.img, a) == b
    ensures Reach(ctx, sc, st, d, m, b, k + |vs|, ip2)
  {
    hide Steps, Step, Held;
    StepsThen(ctx.img, m, a);
    HeldBelow(st.g, ctx.mains, GlobalVar, 0, m.floor, a.stack, b.stack);
    HeldBelow(st.l, sc.locals, Local, m.bp, m.floor, a.stack, b.stack);
  }

  // ----- what a phrase does -----

  function CodeOf(ctx: Ctx, m: State): Code {
    if m.chunk < |ctx.img.chunks| then ctx.img.chunks[m.chunk].code else []
  }

  /** An expression has been evaluated: one value more; which one, unless its value is unspecified. */
  ghost predicate Pushed(ctx: Ctx, sc: Scope, st: Store, d: nat, m: State, n: State, v: Value, ip: int) {
    Reach(ctx, sc, st, d, m, n, 1, ip) && Live(n) && n.stack != [] && (v != VUndef ==> Top(n) == v)
  }

  /** An exception is under way: `k` values are left behind, and control is where a catch search from
      `end` with the flag set leads. */
  ghost predicate Threw(ctx: Ctx, sc: Scope, st: Store, d: nat, m: State, n: State, k: nat, end: nat) {
    Reach(ctx, sc, st, d, m, n, k, Scan(CodeOf(ctx, m), end, 1)) && n.status.StatusErrThrow? && st.trying
  }

  /** A statement has finished; `k` values are left behind. */
  ghost predicate Ran(ctx: Ctx, sc: Scope, st: Store, d: nat, m: State, n: State, k: nat, ip: int) {
    Reach(ctx, sc, st, d, m, n, k, ip) && Live(n)
  }

  lemma {:induction false} Here(ctx: Ctx, sc: Scope, st: Store, d: nat, m: State, a: State, k: int, ip: int, i: Instr)
    requires Reach(ctx, sc, st, d, m, a, k, ip) && ip >= 0 && Is(CodeOf(ctx, m), ip, i)
    ensures AtInstr(ctx.img, a, i)
  {
    hide Steps, Held;
  }

  // ----- composing -----

  lemma {:induction false} RanThenRan(ctx: Ctx, sc: Scope, s1: Store, s2: Store, d: nat, a: State, b: State, c: State,
      j: nat, k: nat, ip1: int, ip2: int)
    requires Ran(ctx, sc, s1, d, a, b, j, ip1) && Ran(ctx, sc, s2, d, b, c, k, ip2)
    ensures Ran(ctx, sc, s2, d, a, c, j + k, ip2)
  {
    hide Reach;
    ReachTrans(ctx, sc, s1, s2, d, a, b, c, j, k, ip1, ip2);
  }

  lemma {:induction false} RanThenPushed(ctx: Ctx, sc: Scope, s1: Store, s2: Store, d: nat, a: State, b: State,
      c: State, v: Value, ip1: int, ip2: int)
    requires Ran(ctx, sc, s1, d, a, b, 0, ip1) && Pushed(ctx, sc, s2, d, b, c, v, ip2)
    ensures Pushed(ctx, sc, s2, d, a, c, v, ip2)
  {
    hide Reach;
    ReachTrans(ctx, sc, s1, s2, d, a, b, c, 0, 1, ip1, ip2);
  }

  lemma SameChunk(ctx: Ctx, sc: Scope, st: Store, d: nat, a: State, b: State, k: int, ip: int)
    requires Reach(ctx, sc, st, d, a, b, k, ip)
    ensures CodeOf(ctx, b) == CodeOf(ctx, a) && b.chunk == a.chunk
  {
    hide Steps, Fine, Kept;
  }

  /** `j` values are on the stack already when the exception comes. */
  lemma {:induction false} ReachThenThrew(ctx: Ctx, sc: Scope, s1: Store, s2: Store, d: nat, a: State, b: State,
      c: State,
      j: nat, k: nat, ip1: int, end: nat)
    requires Reach(ctx, sc, s1, d, a, b, j, ip1) && Threw(ctx, sc, s2, d, b, c, k, end)
    ensures Threw(ctx, sc, s2, d, a, c, j + k, end)
  {
    SameChunk(ctx, sc, s1, d, a, b, j, ip1);
    hide Reach, Scan, CodeOf;
    ReachTrans(ctx, sc, s1, s2, d, a, b, c, j, k, ip1, Scan(CodeOf(ctx, b), end, 1));
  }

  lemma ThrewOn(ctx: Ctx, sc: Scope, st: Store, d: nat, m: State, n: State, k: nat, a: nat, b: nat)
    requires Threw(ctx, sc, st, d, m, n, k, a) && Scan(CodeOf(ctx, m), a, 1) == Scan(CodeOf(ctx, m), b, 1)
    ensures Threw(ctx, sc, st, d, m, n, k, b)
  {
    hide Reach, Scan, CodeOf;
  }

  lemma FineOf(ctx: Ctx, sc: Scope, st: Store, d: nat, m: State, n: State, k: int, ip: int)
    requires Reach(ctx, sc, st, d, m, n, k, ip)
    ensures Fine(ctx, sc, st, d, n) && n.ip == ip && n.chunk == m.chunk && n.mode.Running? && n.floor < |n.stack|
    ensures n.bp == m.bp && n.floor == m.floor && |n.stack| == |m.stack| + k && n.frames == m.frames
    ensures n.trying == st.trying && n.depth == d && n.err == st.err
  {
    hide Steps, Held;
  }

  lemma FineBounds(ctx: Ctx, sc: Scope, st: Store, d: nat, m: State)
    requires Fine(ctx, sc, st, d, m)
    ensures m.bp <= m.floor < |m.stack| && ctx.ng <= m.floor && m.mode.Running?
  {
    hide Held;
  }

  // ----- moves: one instruction behind a phrase -----

  /** A push, on top of whatever is there. */
  lemma {:induction false} PushMove(ctx: Ctx, sc: Scope, st: Store, d: nat, m: State, a: State, j: nat, ip: nat,
      v: Value) returns (b: State)
    requires m.floor < |m.stack| && Reach(ctx, sc, st, d, m, a, j, ip) && Live(a) && Step(ctx.img, a) == Push(a, v)
    ensures Reach(ctx, sc, st, d, m, b, j + 1, ip + 1) && Live(b) && b == Push(a, v) && Top(b) == v
  {
    b := Push(a, v);
    FineOf(ctx, sc, st, d, m, a, j, ip);
    hide Step, Reach, Fine;
    assert a.stack[..|m.stack| + j] == a.stack;
    Settle(ctx, sc, st, d, m, a, b, j, ip, j, [v], ip + 1);
  }

  /** A leaf: a value is pushed onto the stack of `m`. */
  lemma {:induction false} LeafMove(ctx: Ctx, sc: Scope, st: Store, d: nat, m: State, v: Value) returns (b: State)
    requires Fine(ctx, sc, st, d, m) && Live(m) && Step(ctx.img, m) == Push(m, v)
    ensures Pushed(ctx, sc, st, d, m, b, v, m.ip + 1)
  {
    hide Step, Reach, Fine;
    FineBounds(ctx, sc, st, d, m);
    ReachSelf(ctx, sc, st, d, m);
    b := PushMove(ctx, sc, st, d, m, m, 0, m.ip, v);
  }

  /** Temporaries above `m` are dropped and `vs` pushed, by one instruction. */
  lemma {:induction false} ReplaceMove(ctx: Ctx, sc: Scope, st: Store, d: nat, m: State, a: State, j: nat, ip: nat,
      vs: seq<Value>, b: State, to: nat)
    requires m.floor < |m.stack| && Reach(ctx, sc, st, d, m, a, j, ip) && Live(a)
    requires b == a.(stack := a.stack[..|a.stack| - j] + vs, ip := to) && Step(ctx.img, a) == b
    ensures Reach(ctx, sc, st, d, m, b, |vs|, to) && Live(b)
  {
    hide Step, Reach, Fine;
    FineOf(ctx, sc, st, d, m, a, j, ip);
    Settle(ctx, sc, st, d, m, a, b, j, ip, 0, vs, to);
  }

  /** Only the position changes. */
  lemma {:induction false} IpMove(ctx: Ctx, sc: Scope, st: Store, d: nat, m: State, a: State, j: nat, ip: nat,
      to: nat) returns (b: State)
    requires m.floor < |m.stack| && Reach(ctx, sc, st, d, m, a, j, ip) && Step(ctx.img, a) == a.(ip := to)
    ensures b == a.(ip := to) && Reach(ctx, sc, st, d, m, b, j, to)
  {
    b := a.(ip := to);
    FineOf(ctx, sc, st, d, m, a, j, ip);
    hide Step, Reach, Fine;
    assert a.stack[..|m.stack| + j] + [] == a.stack;
    Settle(ctx, sc, st, d, m, a, b, j, ip, j, [], to);
  }

  // ----- variables -----

  /** A reference that names the slot of `x`. */
  ghost predicate RefOk(ctx: Ctx, sc: Scope, x: string, r: Option<Ref>) {
    match r
    case Some(GlobRef(id)) => Lookup(ctx.mains, x, GlobalVar) == Some(id)
    case Some(LocRef(id)) => sc.inFun && Lookup(sc.locals, x, Local) == Some(id)
    case _ => true
  }

  lemma {:induction false} RefsOk(ctx: Ctx, sc: Scope, consts: seq<Value>, x: string)
    requires ScopeFits(ctx, sc, consts)
    ensures RefOk(ctx, sc, x, Resolve(sc, x)) && RefOk(ctx, sc, x, VarRef(sc, x))
  {
    assert Lookup(sc.mains, x, GlobalVar).Some? ==> Lookup(ctx.mains, x, GlobalVar) == Lookup(sc.mains, x, GlobalVar);
  }

  /** Slots and operands of references. */
  lemma {:induction false} RefSlot(ctx: Ctx, sc: Scope, consts: seq<Value>, x: string, r: Option<Ref>)
    requires ScopeFits(ctx, sc, consts) && GlobalsFit(ctx) && RefOk(ctx, sc, x, r)
    ensures r.Some? && r.value.GlobRef? ==> r.value.id < ctx.ng && Wide(r.value.id) == r.value.id
    ensures r.Some? && r.value.LocRef? ==> 1 <= r.value.id <= sc.nLoc && Wide(r.value.id) == r.value.id
    ensures r.Some? && r.value.id < 0x1_0000 ==> Wide(r.value.id) == r.value.id
  {
    match r
    case Some(GlobRef(id)) => IdInRange(ctx.mains, GlobalVar, 0, ctx.ng, x);
    case Some(LocRef(id)) => IdInRange(sc.locals, Local, 1, sc.nLoc, x);
    case _ =>
  }

  /** Reading a variable that has a value pushes it. */
  lemma {:induction false} ReadMove(ctx: Ctx, sc: Scope, consts: seq<Value>, st: Store, d: nat, m: State, x: string,
      v: Value) returns (b: State)
    requires ScopeFits(ctx, sc, consts) && GlobalsFit(ctx) && Fine(ctx, sc, st, d, m) && Live(m)
    requires Resolve(sc, x).Some? && Is(CodeOf(ctx, m), m.ip, LoadRef(Resolve(sc, x).value))
    requires ReadVar(Resolve(sc, x), x, st) == Val(st, v)
    ensures Pushed(ctx, sc, st, d, m, b, v, m.ip + 1)
  {
    hide Resolve, ScopeFits, Step, Pushed;
    var r := Resolve(sc, x);
    RefsOk(ctx, sc, consts, x);
    RefSlot(ctx, sc, consts, x, r);
    ReadStep(ctx, sc, st, d, m, x, r.value, v);
    b := LeafMove(ctx, sc, st, d, m, v);
  }

  lemma {:induction false} ReadStep(ctx: Ctx, sc: Scope, st: Store, d: nat, m: State, x: string, r: Ref, v: Value)
    requires Fine(ctx, sc, st, d, m) && Is(CodeOf(ctx, m), m.ip, LoadRef(r)) && RefOk(ctx, sc, x, Some(r))
    requires ReadVar(Some(r), x, st) == Val(st, v) && Wide(r.id) == r.id
    ensures Step(ctx.img, m) == Push(m, v) && v != VUndef
  {
    hide Step;
    match r
    case FunRef(id) => StepGid(ctx.img, m, LoadRef(r));
    case GlobRef(id) => StepGetGlobal(ctx.img, m, LoadRef(r), v);
    case LocRef(id) => StepGetLocal(ctx.img, m, LoadRef(r), v);
  }

  lemma {:induction false} HeldUpdate(vs: map<string, Value>, t: seq<Symbol>, d: Domain, lo: nat, n: nat,
      base: nat, top: nat, stack: seq<Value>, x: string, v: Value)
    requires Numbered(t, d, lo, n) && Held(vs, t, d, base, top, stack) && v != VUndef
    requires Lookup(t, x, d).Some? && base + Lookup(t, x, d).value <= top < |stack|
    ensures Held(vs[x := v], t, d, base, top, stack[base + Lookup(t, x, d).value := v])
  {
    var slot := base + Lookup(t, x, d).value;
    forall y | y in vs && y != x
      ensures stack[slot := v][base + Lookup(t, y, d).value] == vs[y]
    {
      IdsDiffer(t, d, lo, n, x, y);
    }
  }

  lemma {:induction false} HeldElsewhere(vs: map<string, Value>, t: seq<Symbol>, d: Domain, lo: nat, n: nat,
      base: nat, top: nat, stack: seq<Value>, slot: nat, v: Value)
    requires Numbered(t, d, lo, n) && Held(vs, t, d, base, top, stack)
    requires slot < |stack| && !(base + lo <= slot < base + lo + n)
    ensures Held(vs, t, d, base, top, stack[slot := v])
  {
    forall y | y in vs
      ensures base + Lookup(t, y, d).value != slot
    {
      IdInRange(t, d, lo, n, y);
    }
  }

  function SlotOf(r: Ref, bp: nat): nat { if r.LocRef? then bp + r.id else r.id }

  /** The slot of `x` gets a value, and the store follows. */
  lemma {:induction false} HeldWrite(ctx: Ctx, sc: Scope, consts: seq<Value>, st: Store, m: State, low: seq<Value>,
      x: string, r: Ref, v: Value, st2: Store)
    requires ScopeFits(ctx, sc, consts) && GlobalsFit(ctx) && FrameFits(ctx, sc, st, m) && RefOk(ctx, sc, x, Some(r))
    requires Held(st.g, ctx.mains, GlobalVar, 0, m.floor, low) && Held(st.l, sc.locals, Local, m.bp, m.floor, low)
    requires v != VUndef && WriteVar(Some(r), x, v, st) == Some(st2) && m.floor < |low|
    ensures SlotOf(r, m.bp) <= m.floor
    ensures Held(st2.g, ctx.mains, GlobalVar, 0, m.floor, low[SlotOf(r, m.bp) := v])
    ensures Held(st2.l, sc.locals, Local, m.bp, m.floor, low[SlotOf(r, m.bp) := v])
  {
    hide Held, SeesGlobals;
    RefSlot(ctx, sc, consts, x, Some(r));
    match r
    case GlobRef(id) =>
      HeldUpdate(st.g, ctx.mains, GlobalVar, 0, ctx.ng, 0, m.floor, low, x, v);
      if sc.inFun {
        HeldElsewhere(st.l, sc.locals, Local, 1, sc.nLoc, m.bp, m.floor, low, id, v);
      } else {
        HeldNothing(sc.locals, Local, m.bp, m.floor, low[id := v]);
      }
    case LocRef(id) =>
      HeldUpdate(st.l, sc.locals, Local, 1, sc.nLoc, m.bp, m.floor, low, x, v);
      HeldElsewhere(st.g, ctx.mains, GlobalVar, 0, ctx.ng, 0, m.floor, low, m.bp + id, v);
    case FunRef(_) =>
  }

  lemma {:induction false} HeldNothing(t: seq<Symbol>, d: Domain, base: nat, top: nat, stack: seq<Value>)
    ensures Held(map[], t, d, base, top, stack)
  {
  }

  lemma {:induction false} WriteFine(ctx: Ctx, sc: Scope, consts: seq<Value>, st: Store, d: nat, a: State, b: State,
      x: string, r: Ref, v: Value, st2: Store)
    requires ScopeFits(ctx, sc, consts) && GlobalsFit(ctx) && Fine(ctx, sc, st, d, a) && RefOk(ctx, sc, x, Some(r))
    requires v != VUndef && WriteVar(Some(r), x, v, st) == Some(st2) && |a.stack| >= a.floor + 2
    requires SlotOf(r, a.bp) < |a.stack| - 1
    requires b == a.(stack := a.stack[..|a.stack| - 1][SlotOf(r, a.bp) := v], ip := a.ip + 1)
    ensures Fine(ctx, sc, st2, d, b)
  {
    hide Held, ScopeFits, SlotOf, GlobalsFit;
    var low := a.stack[..|a.stack| - 1];
    HeldBelow(st.g, ctx.mains, GlobalVar, 0, a.floor, a.stack, low);
    HeldBelow(st.l, sc.locals, Local, a.bp, a.floor, a.stack, low);
    HeldWrite(ctx, sc, consts, st, a, low, x, r, v, st2);
  }

  lemma {:induction false} WriteMove(ctx: Ctx, sc: Scope, consts: seq<Value>, st: Store, d: nat, m: State, a: State,
      ip: nat,
      x: string, r: Option<Ref>, v: Value, st2: Store) returns (b: State)
    requires ScopeFits(ctx, sc, consts) && GlobalsFit(ctx) && Fine(ctx, sc, st, d, a) && RefOk(ctx, sc, x, r)
    requires m.floor < |m.stack| && m.bp <= m.floor
    requires Pushed(ctx, sc, st, d, m, a, v, ip) && v != VUndef && WriteVar(r, x, v, st) == Some(st2)
    requires Is(CodeOf(ctx, m), ip, StoreRef(r))
    ensures Ran(ctx, sc, st2, d, m, b, 0, ip + 1)
  {
    hide Step, Held, ScopeFits, Steps, Wide;
    RefSlot(ctx, sc, consts, x, r);
    Here(ctx, sc, st, d, m, a, 1, ip, StoreRef(r));
    var slot := SlotOf(r.value, a.bp);
    b := a.(stack := a.stack[..|a.stack| - 1][slot := v], ip := a.ip + 1);
    if r.value.GlobRef? { StepSetGlobal(ctx.img, a, StoreRef(r)); } else { StepSetLocal(ctx.img, a, StoreRef(r)); }
    WriteFine(ctx, sc, consts, st, d, a, b, x, r.value, v, st2);
    StepsThen(ctx.img, m, a);
  }
}
