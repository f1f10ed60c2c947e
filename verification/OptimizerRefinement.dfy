/** Whole runs of an optimized program are runs of the original one. */
module OptimizerRefinement {
  import opened Values
  import opened Bytecode
  import opened Wrappers
  import opened Machine
  import opened Optimizer

  function OptChunk(c: Chunk): Chunk { Chunk(Opt(c.code), c.consts) }

  function OptImage(img: Image): (out: Image)
    ensures |out.chunks| == |img.chunks| && out.objTruth == img.objTruth
    ensures forall k :: 0 <= k < |img.chunks| ==> out.chunks[k] == OptChunk(img.chunks[k])
  {
    Image(seq(|img.chunks|, k requires 0 <= k < |img.chunks| => OptChunk(img.chunks[k])), img.objTruth)
  }

  // ----- one window -----

  /** The guard under which a fused instruction stands for its window: the id packed into the flag
      byte fits, and subtraction and division do not get a constant before a local. */
  predicate WindowSafe(a: Instr, b: Instr, op: BinOp) {
    && FlagId(a, b) < 0x100
    && !((op.Sub? || op.Div?) && a.op.OpPutK? && b.op.OpLoadLocal?)
  }

  /** The instructions that replace a window. */
  function FusedCode(a: Instr, b: Instr, op: BinOp): seq<Instr>
    requires IsArith(op)
  {
    [Fuse(a, b, op), NOP, NOP]
  }

  function PlainCode(a: Instr, b: Instr, op: BinOp): seq<Instr>
    requires IsArith(op)
  {
    [a, b, Instr(BinOpcode(op), 0, 0)]
  }

  function Exec3(img: Image, m: State, c: Chunk, w: seq<Instr>): State
    requires |w| == 3
  {
    var m1 := Exec(img, m, c, w[0]);
    if m1.mode.Stuck? then m1
    else
      var m2 := Exec(img, m1, c, w[1]);
      if m2.mode.Stuck? then m2 else Exec(img, m2, c, w[2])
  }

  function First(m: State, c: Chunk, a: Instr): Value { Operand(m, c.consts, a.op.OpPutK?, a.wide) }

  /** What a window leaves behind when neither operand is an unwritten slot. */
  function After(m: State, op: BinOp, v: Value, w: Value): State
    requires IsArith(op)
  {
    m.(stack := m.stack + [Arith(op, v, w)], ip := m.ip + 3)
  }

  /** What a plain window computes when it is not stuck. */
  lemma {:induction false} PlainWindow(img: Image, m: State, c: Chunk, a: Instr, b: Instr, op: BinOp, arith: Instr)
    requires IsArith(op) && IsLoad(a) && IsLoad(b) && !m.mode.Stuck? && OpcodeBin(arith.op) == Some(op)
    requires !Exec3(img, m, c, [a, b, arith]).mode.Stuck?
    ensures m.stack != [] && First(m, c, a) != VUndef && First(m, c, b) != VUndef
    ensures Exec3(img, m, c, [a, b, arith]) == After(m, op, First(m, c, a), First(m, c, b))
  {
    assert m.stack != [];
    hide Exec, Arith;
    ExecLoadIs(img, m, c, a);
    var m1 := Exec(img, m, c, a);
    ExecLoadIs(img, m1, c, b);
    var m2 := Exec(img, m1, c, b);
    ExecBinaryIs(img, m2, c, arith, op);
    assert m2.stack[..|m2.stack| - 2] == m.stack;
    assert m.floor < |m.stack|;
  }

  /** The operands a fused instruction uses. */
  function SuperLeft(m: State, c: Chunk, a: Instr, b: Instr): Value {
    var shape := Shape(a, b);
    Operand(m, c.consts, shape.KK?, if shape.KL? then WideId(a, b) else FlagId(a, b) % 0x100)
  }

  function SuperRight(m: State, c: Chunk, a: Instr, b: Instr): Value {
    var shape := Shape(a, b);
    Operand(m, c.consts, !shape.LL?, if shape.KL? then FlagId(a, b) % 0x100 else WideId(a, b))
  }

  lemma {:induction false} SuperWindow(img: Image, m: State, c: Chunk, a: Instr, b: Instr, op: BinOp)
    requires IsArith(op) && IsLoad(a) && IsLoad(b) && !m.mode.Stuck? && m.stack != []
    requires SuperLeft(m, c, a, b) != VUndef && SuperRight(m, c, a, b) != VUndef
    ensures Exec3(img, m, c, FusedCode(a, b, op)) == After(m, op, SuperLeft(m, c, a, b), SuperRight(m, c, a, b))
  {
    var f := Fuse(a, b, op);
    hide Exec, Arith, Operand, FlagId, WideId, Shape;
    ExecSuperIs(img, m, c, f, Shape(a, b), op);
    var m1 := Exec(img, m, c, f);
    assert m1 == Push(m, Arith(op, SuperLeft(m, c, a, b), SuperRight(m, c, a, b)));
    NopStep(img, m1, c);
    NopStep(img, m1.(ip := m1.ip + 1), c);
  }

  lemma {:induction false} SafeOperands(m: State, c: Chunk, a: Instr, b: Instr, op: BinOp)
    requires IsArith(op) && IsLoad(a) && IsLoad(b) && WindowSafe(a, b, op)
    requires First(m, c, a) != VUndef && First(m, c, b) != VUndef
    ensures SuperLeft(m, c, a, b) != VUndef && SuperRight(m, c, a, b) != VUndef
    ensures Arith(op, SuperLeft(m, c, a, b), SuperRight(m, c, a, b)) == Arith(op, First(m, c, a), First(m, c, b))
  {
    if op.Mul? || op.Add? { ArithCommutes(op, First(m, c, a), First(m, c, b)); }
  }

  lemma NopStep(img: Image, m: State, c: Chunk)
    requires m.stack != []
    ensures Exec(img, m, c, NOP) == m.(ip := m.ip + 1)
  {
  }

  /** The fused window does what the plain one does, from every state in which the latter runs. */
  ghost predicate WindowAgrees(a: Instr, b: Instr, op: BinOp)
    requires IsArith(op)
  {
    forall img: Image, m: State, c: Chunk
      {:trigger Exec3(img, m, c, PlainCode(a, b, op))}
      :: !m.mode.Stuck? && !Exec3(img, m, c, PlainCode(a, b, op)).mode.Stuck? ==>
         Exec3(img, m, c, FusedCode(a, b, op)) == Exec3(img, m, c, PlainCode(a, b, op))
  }

  lemma {:induction false} PlainRuns(img: Image, m: State, c: Chunk, a: Instr, b: Instr, op: BinOp)
    requires IsArith(op) && IsLoad(a) && IsLoad(b) && !m.mode.Stuck? && m.floor < |m.stack|
    requires First(m, c, a) != VUndef && First(m, c, b) != VUndef
    ensures Exec3(img, m, c, PlainCode(a, b, op)) == After(m, op, First(m, c, a), First(m, c, b))
  {
    hide Exec, Arith;
    ExecLoadIs(img, m, c, a);
    var m1 := Push(m, First(m, c, a));
    ExecLoadIs(img, m1, c, b);
    var m2 := Push(m1, First(m, c, b));
    ExecBinaryIs(img, m2, c, Instr(BinOpcode(op), 0, 0), op);
    assert m2.stack[..|m2.stack| - 2] == m.stack;
  }

  function Spread(n: nat, id: nat, at: Value, other: Value): (s: seq<Value>)
    ensures |s| == n && forall i :: 0 <= i < n ==> s[i] == if i == id then at else other
  {
    seq(n, i => if i == id then at else other)
  }

  /** A state that tells an unsafe fusion from its window. */
  function Witness(a: Instr, b: Instr): (State, Chunk) {
    var n := a.wide + b.wide + 0x100;
    var id := FlagId(a, b);
    var mixed := Shape(a, b).KL?;
    var slots := if mixed || a.op.OpPutK? then Spread(n, n, VInt(100), VInt(100)) else Spread(n, id, VInt(1),
        VInt(100));
    var consts := if a.op.OpPutK? && id < 0x100 then Spread(n, n, VInt(1), VInt(1)) else Spread(n, id, VInt(1),
        VInt(100));
    (State(0, 0, 0, n - 1, slots, [], 1, StatusPending, false, VNil, Running), Chunk([], consts))
  }

  lemma {:induction false} WitnessOperands(a: Instr, b: Instr, op: BinOp)
    requires IsArith(op) && IsLoad(a) && IsLoad(b) && !WindowSafe(a, b, op)
    ensures var (m, c) := Witness(a, b);
      && First(m, c, a).VInt? && First(m, c, b).VInt? && SuperLeft(m, c, a, b).VInt? && SuperRight(m, c, a, b).VInt?
      && Arith(op, First(m, c, a), First(m, c, b)) != Arith(op, SuperLeft(m, c, a, b), SuperRight(m, c, a, b))
  {
    var (m, c) := Witness(a, b);
    var v, w := First(m, c, a), First(m, c, b);
    var v', w' := SuperLeft(m, c, a, b), SuperRight(m, c, a, b);
    assert v.VInt? && w.VInt? && v'.VInt? && w'.VInt?;
    SmallArith(op, v.i, w.i, v'.i, w'.i);
  }

  lemma {:induction false} UnsafeWindowDiffers(a: Instr, b: Instr, op: BinOp)
    requires IsArith(op) && IsLoad(a) && IsLoad(b) && !WindowSafe(a, b, op)
    ensures !WindowAgrees(a, b, op)
  {
    hide *;
    var (m, c) := Witness(a, b);
    var img := Image([], _ => false);
    WitnessOperands(a, b, op);
    WitnessRuns(a, b);
    PlainRuns(img, m, c, a, b, op);
    SuperWindow(img, m, c, a, b, op);
    AfterDiffers(m, op, First(m, c, a), First(m, c, b), SuperLeft(m, c, a, b), SuperRight(m, c, a, b));
    Disagrees(img, m, c, a, b, op);
  }

  lemma WitnessRuns(a: Instr, b: Instr)
    ensures var (m, c) := Witness(a, b); !m.mode.Stuck? && m.floor < |m.stack| && m.stack != []
  {
  }

  lemma Disagrees(img: Image, m: State, c: Chunk, a: Instr, b: Instr, op: BinOp)
    requires IsArith(op) && !m.mode.Stuck? && !Exec3(img, m, c, PlainCode(a, b, op)).mode.Stuck?
    requires Exec3(img, m, c, PlainCode(a, b, op)) != Exec3(img, m, c, FusedCode(a, b, op))
    ensures !WindowAgrees(a, b, op)
  {
    hide Exec3;
  }

  lemma AfterDiffers(m: State, op: BinOp, v: Value, w: Value, v': Value, w': Value)
    requires IsArith(op) && Arith(op, v, w) != Arith(op, v', w')
    ensures After(m, op, v, w) != After(m, op, v', w') && After(m, op, v, w).mode == m.mode
  {
    hide Arith;
    assert After(m, op, v, w).stack[|m.stack|] != After(m, op, v', w').stack[|m.stack|];
  }

  lemma SmallArith(op: BinOp, x: i32, y: i32, x': i32, y': i32)
    requires IsArith(op)
    requires x in {1, 100} && y in {1, 100} && x' in {1, 100} && y' in {1, 100}
    requires (x != x' && y == y') || (x == 1 && y == 100 && x' == 100 && y' == 1 && (op.Sub? || op.Div?))
          || (x == x' && y != y') || (x == y' && y != x' && (op.Mul? || op.Add?)) || (y == x' && x != y'
              && (op.Mul? || op.Add?))
    ensures Arith(op, VInt(x), VInt(y)) != Arith(op, VInt(x'), VInt(y'))
  {
  }

  /** A fusion keeps the meaning of its window exactly when the guard holds. */
  lemma {:induction false} FusionExact(a: Instr, b: Instr, op: BinOp)
    requires IsArith(op) && IsLoad(a) && IsLoad(b)
    ensures WindowAgrees(a, b, op) <==> WindowSafe(a, b, op)
  {
    if WindowSafe(a, b, op) {
      forall img: Image, m: State, c: Chunk
        | !m.mode.Stuck? && !Exec3(img, m, c, PlainCode(a, b, op)).mode.Stuck?
        ensures Exec3(img, m, c, FusedCode(a, b, op)) == Exec3(img, m, c, PlainCode(a, b, op))
      {
        var arith := Instr(BinOpcode(op), 0, 0);
        PlainWindow(img, m, c, a, b, op, arith);
        SafeOperands(m, c, a, b, op);
        SuperWindow(img, m, c, a, b, op);
      }
    } else {
      UnsafeWindowDiffers(a, b, op);
    }
  }

  // ----- whole runs -----

  /** The guard, for every fused window of a chunk. */
  ghost predicate WindowsSafe(code: seq<Instr>) {
    forall i: nat :: Fused(code, i) ==>
      WindowAt(code, i) && WindowSafe(code[i], code[i + 1], FusableOp(code[i + 2].op).value)
  }

  /** No jump lands inside a fused window. */
  ghost predicate NoInteriorJumps(code: seq<Instr>) {
    forall i :: 0 <= i < |code| && IsJump(code[i]) ==> !Interior(code, JumpTarget(i, code[i]))
  }

  ghost predicate Optimizable(img: Image) {
    forall k :: 0 <= k < |img.chunks| ==> WindowsSafe(img.chunks[k].code) && NoInteriorJumps(img.chunks[k].code)
  }

  ghost predicate BoundaryAt(img: Image, chunk: nat, ip: nat) {
    chunk < |img.chunks| ==> !Interior(img.chunks[chunk].code, ip)
  }

  /** Execution stands between windows, here and in every caller. */
  ghost predicate AtBoundary(img: Image, m: State) {
    && BoundaryAt(img, m.chunk, m.ip)
    && forall k :: 0 <= k < |m.frames| ==> BoundaryAt(img, m.frames[k].chunk, m.frames[k].retIp)
  }

  /** A window that the pass fuses is next. */
  ghost predicate AtWindow(img: Image, m: State) {
    m.mode.Running? && m.chunk < |img.chunks| && Fused(img.chunks[m.chunk].code, m.ip)
  }

  /** The pass keeps every instruction a catch search looks at. */
  lemma {:induction false} OptKeepsMarks(code: seq<Instr>, ip: nat)
    requires ip < |code|
    ensures var o := Opt(code)[ip];
      o.op.OpTry? == code[ip].op.OpTry? && o.op.OpCatchErr? == code[ip].op.OpCatchErr?
          && IsLastRet(o) == IsLastRet(code[ip])
  {
    if Fused(code, ip) { FusedIsWindow(code, 0, ip); }
    if ip >= 1 && Fused(code, ip - 1) { FusedIsWindow(code, 0, ip - 1); }
    if ip >= 2 && Fused(code, ip - 2) { FusedIsWindow(code, 0, ip - 2); }
  }

  lemma {:induction false} ScanOpt(code: seq<Instr>, ip: nat, depth: int)
    ensures Scan(Opt(code), ip, depth) == Scan(code, ip, depth)
    decreases |code| - ip
  {
    hide Opt, IsLastRet;
    if ip < |code| {
      OptKeepsMarks(code, ip);
      ScanOpt(code, ip + 1, depth);
      ScanOpt(code, ip + 1, depth + 1);
      ScanOpt(code, ip + 1, depth - 1);
    }
  }

  /** Inside a window there are only loads and arithmetic, and the instruction before is a load. */
  lemma {:induction false} InteriorContents(code: seq<Instr>, i: int)
    requires Interior(code, i)
    ensures 1 <= i < |code| && IsLoad(code[i - 1])
    ensures IsLoad(code[i]) || FusableOp(code[i].op).Some?
  {
    if i >= 1 && Fused(code, i - 1) { FusedIsWindow(code, 0, i - 1); }
    if i >= 2 && Fused(code, i - 2) { FusedIsWindow(code, 0, i - 2); }
  }

  lemma {:induction false} ScanBoundary(code: seq<Instr>, ip: nat, depth: int)
    ensures !Interior(code, Scan(code, ip, depth))
  {
    var t := Scan(code, ip, depth);
    ScanStops(code, ip, depth);
    if Interior(code, t) { InteriorContents(code, t); }
  }

  lemma {:induction false} NextBoundary(code: seq<Instr>, ip: nat)
    requires !Interior(code, ip) && !Fused(code, ip)
    ensures !Interior(code, ip + 1)
  {
  }

  lemma {:induction false} AfterNonLoad(code: seq<Instr>, ip: nat)
    requires ip < |code| && !IsLoad(code[ip])
    ensures !Interior(code, ip + 1)
  {
    if Interior(code, ip + 1) { InteriorContents(code, ip + 1); }
  }

  /** Where one instruction can lead: on, along a jump, to a scan's stop, into a callee, back. */
  ghost predicate Lands(m: State, c: Chunk, i: Instr, n: State) {
    || (n.chunk == m.chunk && n.frames == m.frames
        && (n.ip == m.ip + 1 || (IsJump(i) && n.ip == JumpTarget(m.ip, i)) || (n.mode.Halted? && n.ip == m.ip)
            || n.ip == Scan(c.code, m.ip, ScanStart(m))))
    || (i.op.OpCall? && n.ip == 0 && n.frames == m.frames + [Frame(m.chunk, m.ip + 1, m.bp, m.floor, n.bp)])
    || (m.frames != [] && n.frames == m.frames[..|m.frames| - 1]
        && n.chunk == m.frames[|m.frames| - 1].chunk && n.ip == m.frames[|m.frames| - 1].retIp)
  }

  lemma {:induction false} DataLands(m: State, consts: seq<Value>, i: Instr)
    requires m.stack != [] && !IsControl(i.op) && !ExecData(m, consts, i).mode.Stuck?
    ensures var n := ExecData(m, consts, i);
      n.chunk == m.chunk && n.frames == m.frames && n.ip == m.ip + 1 && n.mode == m.mode
  {
  }

  lemma {:induction false} ControlLands(img: Image, m: State, c: Chunk, i: Instr)
    requires m.mode.Running? && m.stack != [] && !ExecControl(img, m, c.code, i).mode.Stuck?
    ensures Lands(m, c, i, ExecControl(img, m, c.code, i))
  {
    hide Scan, Truthy, KeepsForOr;
  }

  lemma {:induction false} ExecLands(img: Image, m: State, c: Chunk, i: Instr)
    requires m.mode.Running? && !Exec(img, m, c, i).mode.Stuck?
    ensures Lands(m, c, i, Exec(img, m, c, i))
  {
    hide ExecData, ExecControl, Arith, Binary;
    if OpcodeBin(i.op).None? && SuperParts(i.op).None? {
      if IsControl(i.op) {
        ExecControlIs(img, m, c, i);
        hide Exec;
        ControlLands(img, m, c, i);
      } else {
        ExecDataIs(img, m, c, i);
        hide Exec;
        DataLands(m, c.consts, i);
      }
    }
  }

  lemma {:induction false} PlainStep(img: Image, m: State)
    requires Optimizable(img) && AtBoundary(img, m)
    requires !AtWindow(img, m)
    ensures Step(OptImage(img), m) == Step(img, m)
    ensures !Step(img, m).mode.Stuck? ==> AtBoundary(img, Step(img, m))
  {
    if (m.mode.Running? || m.mode.Seeking?) && m.chunk < |img.chunks| && m.ip < |img.chunks[m.chunk].code| {
      var c := img.chunks[m.chunk];
      var code := c.code;
      ScanOpt(code, m.ip, ScanStart(m));
      ScanBoundary(code, m.ip, ScanStart(m));
      if m.mode.Running? {
        var i := code[m.ip];
        assert Opt(code)[m.ip] == OptAt(code, m.ip) == i;
        ExecSame(img, m, c, i);
        var n := Exec(img, m, c, i);
        if !n.mode.Stuck? {
          ExecLands(img, m, c, i);
          NextBoundary(code, m.ip);
          if i.op.OpCall? { StartBoundary(img, n.chunk); }
        }
      }
    }
  }

  lemma {:induction false} StartBoundary(img: Image, chunk: nat)
    ensures BoundaryAt(img, chunk, 0)
  {
  }

  lemma {:induction false} ExecSame(img: Image, m: State, c: Chunk, i: Instr)
    requires m.mode.Running? && Scan(Opt(c.code), m.ip, ScanStart(m)) == Scan(c.code, m.ip, ScanStart(m))
    ensures Exec(OptImage(img), m, OptChunk(c), i) == Exec(img, m, c, i)
  {
    hide Opt, Scan;
  }

  lemma {:induction false} WindowCode(code: seq<Instr>, i: nat)
    requires Fused(code, i)
    ensures WindowAt(code, i)
    ensures Opt(code)[i] == Fuse(code[i], code[i + 1], FusableOp(code[i + 2].op).value)
    ensures Opt(code)[i + 1] == NOP && Opt(code)[i + 2] == NOP && !Interior(code, i + 3)
  {
    FusedIsWindow(code, 0, i);
    forall k | i < k < i + 3
      ensures OptAt(code, k) == NOP
    {
      assert Interior(code, k);
      if Fused(code, k) { StartNotInterior(code, k); }
    }
    AfterNonLoad(code, i + 2);
  }

  /** The state behind a window whose operands are written slots. */
  function WindowEnd(c: Chunk, m: State): State
    requires WindowAt(c.code, m.ip)
  {
    After(m, FusableOp(c.code[m.ip + 2].op).value, First(m, c, c.code[m.ip]), First(m, c, c.code[m.ip + 1]))
  }

  lemma {:induction false} PlainThree(img: Image, n: nat, m: State, c: Chunk)
    requires n == 3
    requires m.mode.Running? && m.chunk < |img.chunks| && c == img.chunks[m.chunk] && WindowAt(c.code, m.ip)
    requires !Run(img, n, m).mode.Stuck?
    ensures m.stack != [] && First(m, c, c.code[m.ip]) != VUndef && First(m, c, c.code[m.ip + 1]) != VUndef
    ensures Run(img, n, m) == WindowEnd(c, m)
  {
    hide *;
    WindowOps(c.code, m.ip);
    WindowEndIs(c, m);
    var a, b, arith := c.code[m.ip], c.code[m.ip + 1], c.code[m.ip + 2];
    RunWindow(img, n, m, a, b, arith);
    PlainWindow(img, m, c, a, b, FusableOp(arith.op).value, arith);
  }

  lemma WindowEndIs(c: Chunk, m: State)
    requires WindowAt(c.code, m.ip)
    ensures WindowEnd(c, m) == After(m, FusableOp(c.code[m.ip + 2].op).value, First(m, c, c.code[m.ip]),
        First(m, c, c.code[m.ip + 1]))
  {
  }

  lemma {:induction false} WindowOps(code: seq<Instr>, i: nat)
    requires WindowAt(code, i)
    ensures i + 2 < |code| && IsLoad(code[i]) && IsLoad(code[i + 1]) && FusableOp(code[i + 2].op).Some?
    ensures IsArith(FusableOp(code[i + 2].op).value) && OpcodeBin(code[i + 2].op) == FusableOp(code[i + 2].op)
  {
  }

  /** The instructions of an optimized window. */
  lemma {:induction false} OptWindow(img: Image, k: nat, ip: nat)
    requires k < |img.chunks| && Fused(img.chunks[k].code, ip) && WindowAt(img.chunks[k].code, ip)
    ensures var code, o := img.chunks[k].code, OptImage(img).chunks[k];
      && o == OptChunk(img.chunks[k]) && ip + 2 < |o.code|
      && o.code[ip] == Fuse(code[ip], code[ip + 1], FusableOp(code[ip + 2].op).value)
      && o.code[ip + 1] == NOP && o.code[ip + 2] == NOP
  {
    WindowCode(img.chunks[k].code, ip);
    hide Opt, Fuse, FusableOp;
  }

  lemma {:induction false} FusedResult(m: State, c: Chunk, a: Instr, b: Instr, op: BinOp)
    requires IsArith(op) && IsLoad(a) && IsLoad(b) && WindowSafe(a, b, op)
    requires First(m, c, a) != VUndef && First(m, c, b) != VUndef
    ensures var oc := OptChunk(c);
      && SuperLeft(m, oc, a, b) != VUndef && SuperRight(m, oc, a, b) != VUndef
      && After(m, op, SuperLeft(m, oc, a, b), SuperRight(m, oc, a, b)) == After(m, op, First(m, c, a), First(m, c, b))
  {
    hide Opt, Arith;
    assert First(m, OptChunk(c), a) == First(m, c, a) && First(m, OptChunk(c), b) == First(m, c, b);
    SafeOperands(m, OptChunk(c), a, b, op);
  }

  lemma {:induction false} FusedThree(img: Image, n: nat, m: State, c: Chunk)
    requires n == 3
    requires m.mode.Running? && m.chunk < |img.chunks| && c == img.chunks[m.chunk] && m.stack != []
    requires Fused(c.code, m.ip) && WindowAt(c.code, m.ip)
    requires WindowSafe(c.code[m.ip], c.code[m.ip + 1], FusableOp(c.code[m.ip + 2].op).value)
    requires First(m, c, c.code[m.ip]) != VUndef && First(m, c, c.code[m.ip + 1]) != VUndef
    ensures Run(OptImage(img), n, m) == WindowEnd(c, m)
  {
    hide Exec, Exec3, Run, Arith, Operand, First, After, SuperLeft, SuperRight, Fused, Opt, Fuse, WindowSafe;
    var a, b, op := c.code[m.ip], c.code[m.ip + 1], FusableOp(c.code[m.ip + 2].op).value;
    OptWindow(img, m.chunk, m.ip);
    FusedResult(m, c, a, b, op);
    FuseIsSuper(a, b, op);
    SuperWindow(OptImage(img), m, OptChunk(c), a, b, op);
    RunWindow(OptImage(img), n, m, Fuse(a, b, op), NOP, NOP);
  }

  lemma FuseIsSuper(a: Instr, b: Instr, op: BinOp)
    requires IsArith(op)
    ensures SuperParts(Fuse(a, b, op).op).Some?
  {
  }

  lemma {:induction false} WindowSteps(img: Image, n: nat, m: State)
    requires n == 3
    requires Optimizable(img) && AtBoundary(img, m)
    requires AtWindow(img, m)
    requires !Run(img, n, m).mode.Stuck?
    ensures Run(OptImage(img), n, m) == Run(img, n, m) && AtBoundary(img, Run(img, n, m))
  {
    var c := img.chunks[m.chunk];
    WindowCode(c.code, m.ip);
    hide Run, Operand, Arith, FusableOp;
    PlainThree(img, n, m, c);
    FusedThree(img, n, m, c);
  }

  /** Three steps that stay in the chunk are three handler calls. */
  lemma {:induction false} RunWindow(img: Image, n: nat, m: State, a: Instr, b: Instr, d: Instr)
    requires n == 3
    requires m.mode.Running? && m.chunk < |img.chunks| && m.ip + 2 < |img.chunks[m.chunk].code|
    requires var code := img.chunks[m.chunk].code; code[m.ip] == a && code[m.ip + 1] == b && code[m.ip + 2] == d
    requires (IsLoad(a) && IsLoad(b)) || (SuperParts(a.op).Some? && b == NOP)
    ensures Run(img, n, m) == Exec3(img, m, img.chunks[m.chunk], [a, b, d])
  {
    hide *;
    var c := img.chunks[m.chunk];
    var m1 := Exec(img, m, c, a);
    var m2 := Exec(img, m1, c, b);
    Exec3Is(img, m, c, a, b, d);
    StraightLine(img, m, c, a);
    StepRunning(img, m);
    RunOnce(img, n, m);
    if m1.mode.Stuck? {
      RunStuck(img, n - 1, m1);
    } else {
      StraightLine(img, m1, c, b);
      StepRunning(img, m1);
      RunOnce(img, n - 1, m1);
      if m2.mode.Stuck? {
        RunStuck(img, n - 2, m2);
      } else {
        StepRunning(img, m2);
        RunOnce(img, n - 2, m2);
        RunZero(img, Step(img, m2));
      }
    }
  }

  lemma Exec3Is(img: Image, m: State, c: Chunk, a: Instr, b: Instr, d: Instr)
    ensures var m1 := Exec(img, m, c, a);
      var m2 := Exec(img, m1, c, b);
      Exec3(img, m, c, [a, b, d]) == if m1.mode.Stuck? then m1 else if m2.mode.Stuck? then m2 else Exec(img, m2, c, d)
  {
    hide Exec;
  }

  lemma {:induction false} StraightLine(img: Image, m: State, c: Chunk, i: Instr)
    requires m.mode.Running? && (IsLoad(i) || SuperParts(i.op).Some? || i == NOP)
    ensures var n := Exec(img, m, c, i);
      n.mode.Stuck? || (n.mode.Running? && n.chunk == m.chunk && n.ip == m.ip + 1)
  {
    hide Arith;
  }

  /** Optimized and original code run in lockstep: after any number of steps at which the original
      run stands between windows, the optimized run is in the very same state. */
  lemma {:induction false} Lockstep(img: Image, n: nat, m: State)
    requires Optimizable(img) && AtBoundary(img, m)
    requires !Run(img, n, m).mode.Stuck? && AtBoundary(img, Run(img, n, m))
    ensures Run(OptImage(img), n, m) == Run(img, n, m)
    decreases n
  {
    hide *;
    var fused := AtWindow(img, m);
    if !fused { PlainStep(img, m); }
    RunZero(img, m);
    if n > 0 { RunSplit(img, 1, n, m); }
    RunZero(OptImage(img), m);
    if n > 0 { RunSplit(OptImage(img), 1, n, m); }
    if n > 0 {
      if fused && n >= 3 {
        RunSplit(img, 3, n, m);
        RunSplit(OptImage(img), 3, n, m);
        WindowSteps(img, 3, m);
        Lockstep(img, n - 3, Run(img, 3, m));
      } else if fused {
        InsideWindow(img, n, m);
      } else {
        Lockstep(img, n - 1, Step(img, m));
      }
    }
  }

  /** A prefix of a run that does not get stuck is not stuck. */
  lemma {:induction false} RunSplit(img: Image, k: nat, n: nat, m: State)
    requires 1 <= k <= n
    ensures Run(img, n, m) == Run(img, n - k, Run(img, k, m))
    ensures !Run(img, n, m).mode.Stuck? ==> !Run(img, k, m).mode.Stuck?
    ensures k == 1 ==> Run(img, k, m) == Step(img, m)
  {
    hide *;
    RunAdd(img, k, n - k, m);
    if Run(img, k, m).mode.Stuck? { RunStuck(img, n - k, Run(img, k, m)); }
    RunOnce(img, k, m);
    RunZero(img, Step(img, m));
  }

  /** One or two steps into a window the original run is not between windows. */
  lemma {:induction false} InsideWindow(img: Image, n: nat, m: State)
    requires AtWindow(img, m) && 1 <= n <= 2
    requires !Run(img, n, m).mode.Stuck?
    ensures !AtBoundary(img, Run(img, n, m))
  {
    hide *;
    var c := WindowStarts(img, m);
    var m1 := Step(img, m);
    StepRunning(img, m);
    StraightLine(img, m, c, c.code[m.ip]);
    RunOnce(img, n, m);
    RunZero(img, m1);
    if n == 2 {
      if m1.mode.Stuck? { RunStuck(img, 1, m1); }
      StepRunning(img, m1);
      StraightLine(img, m1, c, c.code[m1.ip]);
      RunOnce(img, 1, m1);
      RunZero(img, Step(img, m1));
    }
    OffBoundary(img, m, Run(img, n, m));
  }

  lemma {:induction false} WindowStarts(img: Image, m: State) returns (c: Chunk)
    requires AtWindow(img, m)
    ensures m.mode.Running? && m.chunk < |img.chunks| && c == img.chunks[m.chunk] && m.ip + 2 < |c.code|
    ensures IsLoad(c.code[m.ip]) && IsLoad(c.code[m.ip + 1])
  {
    c := img.chunks[m.chunk];
    FusedIsWindow(c.code, 0, m.ip);
  }

  lemma OffBoundary(img: Image, m: State, n: State)
    requires AtWindow(img, m) && n.chunk == m.chunk && m.ip < n.ip <= m.ip + 2
    ensures !AtBoundary(img, n)
  {
    assert Interior(img.chunks[m.chunk].code, n.ip);
  }

  /** A run that ends, ends in the same state and after the same number of steps when optimized. */
  lemma {:induction false} OptimizedRunEnds(img: Image, n: nat, entry: nat)
    requires Optimizable(img)
    requires Run(img, n, Initial(entry)).mode.Halted?
    ensures Run(OptImage(img), n, Initial(entry)) == Run(img, n, Initial(entry))
  {
    HaltsAtBoundary(img, n, Initial(entry));
    Lockstep(img, n, Initial(entry));
  }

  lemma {:induction false} HaltsAtBoundary(img: Image, n: nat, m: State)
    requires Optimizable(img) && AtBoundary(img, m) && Run(img, n, m).mode.Halted?
    ensures AtBoundary(img, Run(img, n, m))
    decreases n
  {
    hide *;
    var fused := AtWindow(img, m);
    if !fused { PlainStep(img, m); }
    RunZero(img, m);
    if n > 0 { RunSplit(img, 1, n, m); }
    if n > 0 {
      if fused && n >= 3 {
        RunSplit(img, 3, n, m);
        WindowSteps(img, 3, m);
        HaltsAtBoundary(img, n - 3, Run(img, 3, m));
      } else if fused {
        WindowDoesNotHalt(img, n, m);
      } else {
        HaltsAtBoundary(img, n - 1, Step(img, m));
      }
    }
  }

  lemma {:induction false} WindowDoesNotHalt(img: Image, n: nat, m: State)
    requires AtWindow(img, m) && 1 <= n <= 2
    ensures !Run(img, n, m).mode.Halted?
  {
    hide *;
    var c := WindowStarts(img, m);
    var m1 := Step(img, m);
    StepRunning(img, m);
    StraightLine(img, m, c, c.code[m.ip]);
    RunOnce(img, n, m);
    RunZero(img, m1);
    if m1.mode.Stuck? {
      RunStuck(img, n - 1, m1);
    } else if n == 2 {
      StepRunning(img, m1);
      StraightLine(img, m1, c, c.code[m1.ip]);
      RunOnce(img, 1, m1);
      RunZero(img, Step(img, m1));
    }
  }
}
