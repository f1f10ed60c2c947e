/** The virtual machine itself: one array for the stack, a cell for each register, and calls that
    recurse on the native stack. It makes exactly the steps of the step function, on an array that
    holds whatever it holds wherever the step function says a slot was never written. */
module Vm {
  import opened Values
  import opened Wrappers
  import opened Bytecode
  import opened Machine
  import opened Handlers

  const SIZE_MAX: int := 0xFFFF_FFFF_FFFF_FFFF

  /** Two stacks that agree wherever the first one is written. */
  ghost predicate Agree(a: seq<Value>, b: seq<Value>) {
    |a| == |b| && forall i :: 0 <= i < |a| && a[i] != VUndef ==> a[i] == b[i]
  }

  lemma {:induction false} AgreeTop(a: seq<Value>, b: seq<Value>, n: nat)
    requires Agree(a, b) && n < |a|
    ensures Agree(a[..n], b[..n]) && (a[|a| - 1] != VUndef ==> a[|a| - 1] == b[|a| - 1])
  {
  }

  /** The run from `m` halts within `n` steps. */
  ghost predicate Alive(img: Image, n: nat, m: State) { Run(img, n, m).mode.Halted? }

  /** The run from `m` stays below `capacity` slots, with one to spare. */
  ghost predicate Fits(img: Image, n: nat, m: State, capacity: nat) {
    forall j: nat :: j <= n ==> |Run(img, j, m).stack| < capacity
  }

  predicate Going(m: State) { m.mode.Running? || m.mode.Seeking? }

  lemma {:induction false} AliveStep(img: Image, n: nat, m: State)
    requires Alive(img, n, m) && Going(m)
    ensures n > 0 && Alive(img, n - 1, Step(img, m)) && !Step(img, m).mode.Stuck?
    ensures m.chunk < |img.chunks| && m.ip < |img.chunks[m.chunk].code|
  {
    hide Exec;
    if n > 0 && Step(img, m).mode.Stuck? { RunStuck(img, n - 1, Step(img, m)); }
  }

  lemma {:induction false} FitsStep(img: Image, n: nat, m: State, capacity: nat)
    requires Fits(img, n, m, capacity) && n > 0
    ensures Fits(img, n - 1, Step(img, m), capacity) && |m.stack| < capacity && |Step(img, m).stack| < capacity
  {
    hide Step;
    assert Run(img, 0, m) == m;
    assert Run(img, 1, m) == Run(img, 0, Step(img, m));
    forall j: nat | j <= n - 1
      ensures |Run(img, j, Step(img, m)).stack| < capacity
    {
      assert Run(img, j + 1, m) == Run(img, j, Step(img, m));
    }
  }

  lemma {:induction false} FitsLater(img: Image, n: nat, k: nat, m: State, capacity: nat)
    requires Alive(img, n, m) && Fits(img, n, m, capacity) && k <= n
    ensures Alive(img, n - k, Run(img, k, m)) && Fits(img, n - k, Run(img, k, m), capacity)
  {
    hide Run;
    RunAdd(img, k, n - k, m);
    forall j: nat | j <= n - k
      ensures |Run(img, j, Run(img, k, m)).stack| < capacity
    {
      RunAdd(img, k, j, m);
    }
  }

  lemma RunNext(img: Image, k: nat, m: State)
    ensures Run(img, k + 1, m) == Step(img, Run(img, k, m))
  {
    hide Step;
    RunAdd(img, k, 1, m);
    RunOnce(img, 1, Run(img, k, m));
    RunZero(img, Step(img, Run(img, k, m)));
  }

  predicate Puts(op: Opcode) {
    op.OpPutNone? || op.OpPutBool? || op.OpLoadImmGid? || op.OpPutK? || op.OpLoadStringK? || op.OpDup?
  }

  predicate Loads(op: Opcode) { op.OpGetGvar? || op.OpLoadLocal? || op.OpPutCallee? }

  predicate Stores(op: Opcode) { op.OpSetGvar? || op.OpStoreLocal? }

  predicate Adjusts(op: Opcode) { op.OpNop? || op.OpReserve? || op.OpPop? }

  class Vm {
    const img: Image
    const stack: array<Value>
    var sp: int
    var bp: nat
    var chunkId: nat
    var depth: u8
    var status: Status
    var trying: bool
    var err: Value
    /** Whether the next dispatch looks for a CATCH. */
    var seeking: bool

    constructor (img: Image, entry: nat, capacity: nat)
      requires capacity > 0
      ensures this.img == img && stack.Length == capacity && fresh(stack)
      ensures Shows(Initial(entry))
    {
      this.img := img;
      stack := new Value[capacity](_ => VNil);
      sp, bp, chunkId, depth := 0, 0, entry, 1;
      status, trying, err, seeking := StatusPending, false, VNil, false;
    }

    /** The registers and the array are those of `m`. */
    ghost predicate Shows(m: State)
      reads this, stack
    {
      && m.stack != [] && sp == |m.stack| - 1 && sp < stack.Length && Agree(m.stack, stack[..|m.stack|])
      && Registers(m) && bp == m.bp && chunkId == m.chunk
      && m.mode == if seeking then Seeking else Running
    }

    ghost predicate Registers(m: State)
      reads this
    {
      depth == m.depth && status == m.status && trying == m.trying && err == m.err
    }

    /** `m` stands at `ip`, and its run halts without filling the array. */
    ghost predicate At(m: State, n: nat, ip: nat)
      reads this, stack
    {
      Shows(m) && m.ip == ip && Alive(img, n, m) && Fits(img, n, m, stack.Length)
    }

    ghost predicate Fetched(m: State, n: nat, i: Instr, ip: nat)
      reads this, stack
    {
      && At(m, n, ip) && !seeking
      && m.chunk < |img.chunks| && m.ip < |img.chunks[m.chunk].code| && img.chunks[m.chunk].code[m.ip] == i
    }

    /** The handler made the step. */
    ghost predicate Made(m: State, next: nat)
      reads this, stack
    {
      var a := Step(img, m);
      Shows(a) && a.ip == next && a.frames == m.frames
    }

    // ----- handlers that only move values -----

    method Push(v: Value)
      requires 0 <= sp + 1 < stack.Length
      modifies this`sp, stack
      ensures sp == old(sp) + 1 && stack[..sp + 1] == old(stack[..sp + 1]) + [v]
    {
      sp := sp + 1;
      stack[sp] := v;
    }

    /** Handlers that push a constant, an operand, the function's own id or a copy of the top. */
    method Put(ghost m: State, ghost n: nat, i: Instr, ip: nat) returns (next: nat)
      requires Fetched(m, n, i, ip)
      requires Puts(i.op)
      modifies this`sp, stack
      ensures Made(m, next)
    {
      hide Exec, Step, Run, Fits;
      AliveStep(img, n, m);
      FitsStep(img, n, m, stack.Length);
      PutMade(img, m, i);
      var v := VNil;
      if i.op.OpPutBool? { v := VBool(i.flag % 2 == 1); }
      else if i.op.OpLoadImmGid? { v := VInt(i.wide); }
      else if i.op.OpPutK? { v := img.chunks[chunkId].consts[i.wide]; }
      else if i.op.OpLoadStringK? { v := VStr(i.wide); }
      else if i.op.OpDup? { v := stack[sp]; }
      Push(v);
      next := ip + 1;
    }

    function SlotOf(i: Instr): nat
      reads this
    {
      if i.op.OpLoadLocal? || i.op.OpStoreLocal? then bp + i.wide
      else if i.op.OpPutCallee? then bp
      else i.wide
    }

    /** Handlers that push the contents of a slot. */
    method Load(ghost m: State, ghost n: nat, i: Instr, ip: nat) returns (next: nat)
      requires Fetched(m, n, i, ip) && Loads(i.op)
      modifies this`sp, stack
      ensures Made(m, next)
    {
      hide Exec, Step, Run, Fits;
      AliveStep(img, n, m);
      FitsStep(img, n, m, stack.Length);
      LoadMade(img, m, i, SlotOf(i));
      Push(stack[SlotOf(i)]);
      next := ip + 1;
    }

    /** Handlers that move the top into a slot. */
    method Store(ghost m: State, ghost n: nat, i: Instr, ip: nat) returns (next: nat)
      requires Fetched(m, n, i, ip) && Stores(i.op)
      modifies this`sp, stack
      ensures Made(m, next)
    {
      hide Exec, Step, Run, Fits;
      AliveStep(img, n, m);
      FitsStep(img, n, m, stack.Length);
      StoreMade(img, m, i, SlotOf(i));
      stack[SlotOf(i)] := stack[sp];
      sp := sp - 1;
      next := ip + 1;
    }

    /** Handlers that move the stack pointer over slots nobody wrote, or off slots nobody needs. */
    method Adjust(ghost m: State, ghost n: nat, i: Instr, ip: nat) returns (next: nat)
      requires Fetched(m, n, i, ip) && Adjusts(i.op)
      modifies this`sp
      ensures Made(m, next)
    {
      hide Exec, Step, Run, Fits;
      AliveStep(img, n, m);
      FitsStep(img, n, m, stack.Length);
      DataMade(img, m, i);
      if i.op.OpReserve? { sp := sp + i.wide; }
      else if i.op.OpPop? { sp := sp - i.flag; }
      next := ip + 1;
    }

    /** Handlers that look at the top only. */
    method Unary(ghost m: State, ghost n: nat, i: Instr, ip: nat) returns (next: nat)
      requires Fetched(m, n, i, ip) && (i.op.OpBitNot? || i.op.OpChkNone?)
      modifies this`sp, stack
      ensures Made(m, next)
    {
      hide Exec, Step, Run, Fits, Complement;
      AliveStep(img, n, m);
      FitsStep(img, n, m, stack.Length);
      UnaryMade(img, m, i);
      if i.op.OpBitNot? { stack[sp] := Complement(stack[sp]); }
      else { Push(VBool(stack[sp] == VNil)); }
      next := ip + 1;
    }

    // ----- arithmetic -----

    method BinaryOp(ghost m: State, ghost n: nat, i: Instr, ip: nat, op: BinOp) returns (next: nat)
      requires Fetched(m, n, i, ip) && OpcodeBin(i.op) == Some(op)
      modifies this`sp, stack
      ensures Made(m, next)
    {
      hide Binary, Exec, Step;
      AliveStep(img, n, m);
      FitsStep(img, n, m, stack.Length);
      ExecBinaryIs(img, m, img.chunks[m.chunk], i, op);
      StepRunning(img, m);
      stack[sp - 1] := Binary(op, stack[sp - 1], stack[sp]);
      sp := sp - 1;
      next := ip + 1;
    }

    method Fetch(ghost m: State, constant: bool, id: nat) returns (v: Value)
      requires Shows(m) && m.chunk < |img.chunks|
      requires Operand(m, img.chunks[m.chunk].consts, constant, id) != VUndef
      ensures v == Operand(m, img.chunks[m.chunk].consts, constant, id)
    {
      if constant { v := img.chunks[chunkId].consts[id]; } else { v := stack[bp + id]; }
    }

    /** The fused handlers: operands straight from their slots. */
    method Fused(ghost m: State, ghost n: nat, i: Instr, ip: nat, shape: Fusion, op: BinOp) returns (next: nat)
      requires Fetched(m, n, i, ip) && OpcodeBin(i.op).None? && SuperParts(i.op) == Some((shape, op))
      modifies this`sp, stack
      ensures Made(m, next)
    {
      hide Arith, Operand, Exec, Step;
      AliveStep(img, n, m);
      FitsStep(img, n, m, stack.Length);
      StepRunning(img, m);
      FusedIs(img, m, img.chunks[m.chunk], i, shape, op);
      var lhs := Fetch(m, shape.KK?, if shape.KL? then i.wide else i.flag);
      var rhs := Fetch(m, !shape.LL?, if shape.KL? then i.flag else i.wide);
      Push(Arith(op, lhs, rhs));
      next := ip + 1;
    }

    // ----- control -----

    /** Walks to the CATCH that ends the nesting or to the closing RET, with an unsigned counter. */
    method LocallyPropagate(code: seq<Instr>, ip: nat) returns (stop: nat)
      requires |code| < SIZE_MAX && Scan(code, ip, if trying then 1 else 0) < |code|
      ensures stop == Scan(code, ip, if trying then 1 else 0)
    {
      hide Size;
      SizeIs(0);
      SizeIs(1);
      var nesting: int := if trying then 1 else 0;
      ghost var d: int := nesting;
      stop := ip;
      while true
        invariant ip <= stop && Scan(code, stop, d) == Scan(code, ip, if trying then 1 else 0) < |code|
        invariant nesting == Size(d) && ip - stop <= d <= 1 + stop - ip
        decreases |code| - stop
      {
        SizeIs(d);
        var i := code[stop];
        if i.op.OpTry? {
          nesting, d := Size(nesting + 1), d + 1;
        } else if i.op.OpCatchErr? {
          nesting, d := Size(nesting - 1), d - 1;
          SizeIs(d);
          if nesting <= 0 { break; }
        } else if i.op.OpRet? && i.flag == RET_MARK_LAST {
          break;
        }
        stop := stop + 1;
      }
    }

    method Jump(ghost m: State, ghost n: nat, i: Instr, ip: nat) returns (next: nat)
      requires Fetched(m, n, i, ip) && i.op.OpJmp?
      ensures Made(m, next)
    {
      hide Exec, Step, Run, Fits;
      AliveStep(img, n, m);
      ControlMade(img, m, i);
      next := if i.flag != 0 then ip - i.wide else ip + i.wide;
    }

    /** A test pops its operand when it falls through and keeps it when it jumps. */
    method Test(ghost m: State, ghost n: nat, i: Instr, ip: nat) returns (next: nat)
      requires Fetched(m, n, i, ip) && (i.op.OpJmpFalse? || i.op.OpJmpIf?)
      modifies this`sp
      ensures Made(m, next)
    {
      hide Truthy, KeepsForOr, Exec, Step, Run, Fits;
      AliveStep(img, n, m);
      TestMade(img, m, i);
      var falls := if i.op.OpJmpFalse? then Truthy(stack[sp], img.objTruth) else !KeepsForOr(stack[sp], img.objTruth);
      if falls {
        sp := sp - 1;
        next := ip + 1;
      } else {
        next := ip + i.wide;
      }
    }

    /** Entering and leaving the part that a CATCH protects. */
    method Protect(ghost m: State, ghost n: nat, i: Instr, ip: nat) returns (next: nat)
      requires Fetched(m, n, i, ip) && (i.op.OpTry? || i.op.OpCatchErr?)
      modifies this`status, this`trying, this`seeking
      ensures Made(m, next)
    {
      hide Exec, Step, Run, Fits;
      ControlMade(img, m, i);
      if i.op.OpTry? {
        trying := true;
      } else {
        status, trying, seeking := StatusPending, false, false;
      }
      next := ip + 1;
    }

    /** Records the error and looks for the place to go on. */
    method Raise(ghost m: State, ghost n: nat, i: Instr, ip: nat) returns (next: nat)
      requires Fetched(m, n, i, ip) && i.op.OpRaiseErr? && |img.chunks[m.chunk].code| < SIZE_MAX
      modifies this`sp, this`status, this`err, this`seeking
      ensures Made(m, next)
    {
      hide Scan, Exec, Step, Run, Fits;
      AliveStep(img, n, m);
      FitsStep(img, n, m, stack.Length);
      RaiseMade(img, n, m, i);
      err := stack[sp];
      status := StatusErrThrow;
      sp := sp - 1;
      next := LocallyPropagate(img.chunks[chunkId].code, ip);
      seeking := false;
    }

    // ----- calls -----

    /** What is left of a frame when its RET has been handled and its caller has not gone on yet. */
    ghost predicate Returned(m: State)
      reads this, stack
    {
      var a := Step(img, m);
      && Registers(a) && a.stack != [] && 0 <= sp < stack.Length
      && (a.stack[|a.stack| - 1] != VUndef ==> stack[sp] == a.stack[|a.stack| - 1])
      && |a.stack| <= stack.Length && Agree(a.stack[..|a.stack| - 1], stack[..|a.stack| - 1])
      && if m.frames == [] then a.mode.Halted? && sp == 0 && bp == 0 && |a.stack| == 1
         else depth > 0 && a.mode == if seeking then Seeking else Running
    }

    /** The RET that ends the run. */
    method Finish(ghost m: State)
      requires Shows(m) && OnRet(img, m) && !Step(img, m).mode.Stuck? && (depth + 0xFF) % 0x100 < 1
      modifies this`sp, this`bp, this`depth, this`status, stack
      ensures Returned(m)
    {
      hide Step;
      FinishMade(img, m);
      depth := (depth + 0xFF) % 0x100;
      if status.StatusPending? { status := StatusOk; }
      stack[0] := stack[sp];
      sp, bp := 0, 0;
    }

    /** The RET of a call: after an exception the result is NIL and the caller looks for a CATCH. */
    method Leave(ghost m: State)
      requires Shows(m) && OnRet(img, m) && !Step(img, m).mode.Stuck? && (depth + 0xFF) % 0x100 >= 1
      requires sp + 1 < stack.Length
      modifies this`sp, this`depth, this`seeking, stack
      ensures Returned(m)
    {
      hide Step, Agree;
      LeaveMade(img, m);
      ghost var a := Step(img, m);
      ghost var kept := |a.stack| - 1;
      ghost var below := stack[..kept];
      AgreeTop(m.stack, stack[..|m.stack|], kept);
      assert stack[..|m.stack|][..kept] == below;
      depth := (depth + 0xFF) % 0x100;
      if status.StatusErrThrow? {
        sp := sp + 1;
        stack[sp] := VNil;
        seeking := true;
      }
      assert stack[..kept] == below;
    }

    method Ret(ghost m: State, ghost n: nat, i: Instr, ip: nat)
      requires Fetched(m, n, i, ip) && i.op.OpRet?
      modifies this`sp, this`bp, this`depth, this`status, this`seeking, stack
      ensures Returned(m)
    {
      hide Step, Run, Fits, Alive, Returned;
      AliveStep(img, n, m);
      FitsStep(img, n, m, stack.Length);
      if (depth + 0xFF) % 0x100 < 1 { Finish(m); } else { Leave(m); }
    }

    /** The result goes where the call began, and the caller's registers come back. */
    method Resume(ghost m: State, base: nat, callerBp: nat, callerCid: nat)
      requires OnRet(img, m) && !Step(img, m).mode.Stuck? && Returned(m) && m.frames != []
      requires var f := m.frames[|m.frames| - 1]; f.calleeBp == base && f.bp == callerBp && f.chunk == callerCid
      modifies this`sp, this`bp, this`chunkId, stack
      ensures Shows(Step(img, m))
    {
      hide Step;
      RetMade(img, m);
      stack[base] := stack[sp];
      sp, bp, chunkId := base, callerBp, callerCid;
    }

    /** Runs the callee on the native stack, then puts its result where the call began. */
    method Call(ghost m: State, ghost n: nat, i: Instr, ip: nat) returns (next: nat, ghost k: nat)
      requires Fetched(m, n, i, ip) && i.op.OpCall? && SmallChunks()
      modifies this, stack
      ensures 0 < k <= n && At(Run(img, k, m), n - k, next)
      ensures Run(img, k, m).frames == m.frames
      decreases n, 0
    {
      hide SmallChunks, Step, Run, Fits;
      AliveStep(img, n, m);
      FitsStep(img, n, m, stack.Length);
      CallMade(img, m, i);
      ghost var entered := Step(img, m);
      var base, callerBp, callerCid, retIp := sp - i.wide, bp, chunkId, ip + 1;
      var callee := stack[base];
      bp := base;
      chunkId := callee.i;
      depth := (depth + 1) % 0x100;
      ghost var last := Dispatch(entered, n - 1, 0);
      CallBack(img, n, m, last, stack.Length);
      RetMade(img, Run(img, last, entered));
      Resume(Run(img, last, entered), base, callerBp, callerCid);
      k := last + 2;
      next := retIp;
    }

    ghost predicate SmallChunks() {
      forall c :: 0 <= c < |img.chunks| ==> |img.chunks[c].code| < SIZE_MAX
    }

    /** One frame, from `start` to its RET. */
    method Dispatch(ghost m: State, ghost n: nat, start: nat) returns (ghost k: nat)
      requires At(m, n, start) && SmallChunks()
      modifies this, stack
      ensures k < n && Returned(Run(img, k, m)) && OnRet(img, Run(img, k, m))
      ensures Run(img, k, m).frames == m.frames
      decreases n, 1
    {
      hide SmallChunks, Step, Run, Fits, Alive, Shows, Made, Returned;
      RunZero(img, m);
      k := 0;
      var ip := start;
      while true
        invariant k <= n && At(Run(img, k, m), n - k, ip) && Run(img, k, m).frames == m.frames
        decreases n - k
      {
        ghost var cur := Run(img, k, m);
        Here(cur, n - k, ip);
        if seeking {
          ip := Seek(cur, n - k, ip);
          NextAt(m, n, k, ip);
          k := k + 1;
        } else {
          var i := img.chunks[chunkId].code[ip];
          if i.op.OpRet? {
            Ret(cur, n - k, i, ip);
            return;
          }
          if i.op.OpCall? {
            ghost var taken;
            ip, taken := Call(cur, n - k, i, ip);
            RunAdd(img, k, taken, m);
            k := k + taken;
          } else {
            ip := Handle(cur, n - k, i, ip);
            NextAt(m, n, k, ip);
            k := k + 1;
          }
        }
      }
    }

    /** A frame that is not done can fetch its next instruction. */
    lemma Here(m: State, n: nat, ip: nat)
      requires At(m, n, ip)
      ensures n > 0 && m.chunk == chunkId < |img.chunks| && ip < |img.chunks[chunkId].code|
      ensures !seeking ==> Fetched(m, n, img.chunks[chunkId].code[ip], ip) && m.mode.Running? && m.ip == ip
    {
      AliveStep(img, n, m);
    }

    lemma NextAt(m: State, n: nat, k: nat, next: nat)
      requires k < n && Alive(img, n, m) && Fits(img, n, m, stack.Length)
      requires Made(Run(img, k, m), next)
      ensures At(Run(img, k + 1, m), n - (k + 1), next) && Run(img, k + 1, m).frames == Run(img, k, m).frames
    {
      RunNext(img, k, m);
      FitsLater(img, n, k + 1, m, stack.Length);
    }

    method Seek(ghost m: State, ghost n: nat, ip: nat) returns (next: nat)
      requires At(m, n, ip) && seeking && SmallChunks()
      modifies this`seeking
      ensures Made(m, next)
    {
      hide Scan, Step, Run, Fits;
      AliveStep(img, n, m);
      SeekMade(img, n, m);
      next := LocallyPropagate(img.chunks[chunkId].code, ip);
      seeking := false;
    }

    /** The handler of an instruction that neither calls nor returns. */
    method Handle(ghost m: State, ghost n: nat, i: Instr, ip: nat) returns (next: nat)
      requires Fetched(m, n, i, ip) && !i.op.OpCall? && !i.op.OpRet? && SmallChunks()
      modifies this, stack
      ensures Made(m, next)
    {
      hide Step, Run, Fits, Alive, Shows, Made;
      var bin, fused := OpcodeBin(i.op), SuperParts(i.op);
      if bin.Some? { next := BinaryOp(m, n, i, ip, bin.value); }
      else if fused.Some? { next := Fused(m, n, i, ip, fused.value.0, fused.value.1); }
      else if Puts(i.op) { next := Put(m, n, i, ip); }
      else if Loads(i.op) { next := Load(m, n, i, ip); }
      else if Stores(i.op) { next := Store(m, n, i, ip); }
      else if Adjusts(i.op) { next := Adjust(m, n, i, ip); }
      else if i.op.OpBitNot? || i.op.OpChkNone? { next := Unary(m, n, i, ip); }
      else if i.op.OpJmp? { next := Jump(m, n, i, ip); }
      else if i.op.OpJmpFalse? || i.op.OpJmpIf? { next := Test(m, n, i, ip); }
      else if i.op.OpTry? || i.op.OpCatchErr? { next := Protect(m, n, i, ip); }
      else {
        Handled(m, n, i, ip);
        next := Raise(m, n, i, ip);
      }
    }

    /** A run that halts meets no instruction without a handler. */
    lemma Handled(m: State, n: nat, i: Instr, ip: nat)
      requires Fetched(m, n, i, ip) && !i.op.OpCall? && !i.op.OpRet?
      requires OpcodeBin(i.op).None? && SuperParts(i.op).None?
      requires !Puts(i.op) && !Loads(i.op) && !Stores(i.op) && !Adjusts(i.op)
      requires !i.op.OpBitNot? && !i.op.OpChkNone? && !i.op.OpJmp? && !i.op.OpJmpFalse? && !i.op.OpJmpIf?
      requires !i.op.OpTry? && !i.op.OpCatchErr?
      ensures i.op.OpRaiseErr?
    {
      AliveStep(img, n, m);
      if !i.op.OpRaiseErr? {
        DataMade(img, m, i);
      }
    }

    /** The machine as it is made runs the program to its end. */
    method Execute(entry: nat, ghost n: nat) returns (result: Value)
      requires Shows(Initial(entry)) && SmallChunks()
      requires Alive(img, n, Initial(entry)) && Fits(img, n, Initial(entry), stack.Length)
      modifies this, stack
      ensures var h := Run(img, n, Initial(entry));
        && status == h.status && err == h.err && |h.stack| == 1
        && (h.stack[0] != VUndef ==> result == h.stack[0])
    {
      hide Step, Run, Fits, Shows;
      ghost var k := Dispatch(Initial(entry), n, 0);
      ghost var last := Run(img, k, Initial(entry));
      RunNext(img, k, Initial(entry));
      RunAdd(img, k + 1, n - (k + 1), Initial(entry));
      RunStuck(img, n - (k + 1), Step(img, last));
      result := stack[0];
    }
  }

  ghost predicate OnRet(img: Image, m: State) {
    && m.mode.Running? && m.chunk < |img.chunks| && m.ip < |img.chunks[m.chunk].code|
    && img.chunks[m.chunk].code[m.ip].op.OpRet?
  }

  /** Unsigned 64-bit arithmetic. */
  function Size(x: int): nat { x % (SIZE_MAX + 1) }

  lemma SizeIs(x: int)
    ensures Size(Size(x) + 1) == Size(x + 1) && Size(Size(x) - 1) == Size(x - 1)
    ensures -SIZE_MAX <= x <= SIZE_MAX ==> (Size(x) == 0 <==> x == 0)
    ensures 0 <= x <= SIZE_MAX ==> Size(x) == x
  {
    var q := x / (SIZE_MAX + 1);
    assert x == q * (SIZE_MAX + 1) + Size(x);
    SizeUnique(x + 1, Size(x) + 1, q);
    SizeUnique(x - 1, Size(x) - 1, q);
    if -SIZE_MAX <= x <= SIZE_MAX && Size(x) == 0 { assert -1 < q < 1; }
  }

  lemma SizeUnique(a: int, b: int, q: int)
    requires a == b + q * (SIZE_MAX + 1)
    ensures Size(a) == Size(b)
  {
    var k := b / (SIZE_MAX + 1);
    assert a == (q + k) * (SIZE_MAX + 1) + Size(b);
    assert a / (SIZE_MAX + 1) == q + k;
  }

  lemma DataMade(img: Image, m: State, i: Instr)
    requires m.mode.Running? && m.chunk < |img.chunks| && m.ip < |img.chunks[m.chunk].code|
    requires img.chunks[m.chunk].code[m.ip] == i && IsData(i.op) && m.stack != []
    ensures Step(img, m) == ExecData(m, img.chunks[m.chunk].consts, i)
  {
    hide ExecData, ExecControl;
    ExecDataIs(img, m, img.chunks[m.chunk], i);
  }

  lemma FusedIs(img: Image, m: State, c: Chunk, i: Instr, shape: Fusion, op: BinOp)
    requires OpcodeBin(i.op).None? && SuperParts(i.op) == Some((shape, op)) && IsArith(op) && m.stack != []
    ensures Exec(img, m, c, i) == ExecSuper(m, c.consts, shape, op, i.flag, i.wide)
  {
  }

  lemma ControlMade(img: Image, m: State, i: Instr)
    requires m.mode.Running? && m.chunk < |img.chunks| && m.ip < |img.chunks[m.chunk].code|
    requires img.chunks[m.chunk].code[m.ip] == i && IsControl(i.op) && m.stack != []
    ensures Step(img, m) == ExecControl(img, m, img.chunks[m.chunk].code, i)
  {
    hide ExecData, ExecControl;
    ExecControlIs(img, m, img.chunks[m.chunk], i);
  }

  lemma PutMade(img: Image, m: State, i: Instr)
    requires m.mode.Running? && m.chunk < |img.chunks| && m.ip < |img.chunks[m.chunk].code|
    requires img.chunks[m.chunk].code[m.ip] == i && m.stack != [] && !Step(img, m).mode.Stuck? && Puts(i.op)
    ensures i.op.OpPutK? ==> i.wide < |img.chunks[m.chunk].consts|
    ensures Step(img, m) == Machine.Push(m,
      if i.op.OpPutBool? then VBool(i.flag % 2 == 1)
      else if i.op.OpLoadImmGid? then VInt(i.wide)
      else if i.op.OpPutK? then img.chunks[m.chunk].consts[i.wide]
      else if i.op.OpLoadStringK? then VStr(i.wide)
      else if i.op.OpDup? then Top(m)
      else VNil)
  {
    DataMade(img, m, i);
    hide Exec, Step;
  }

  lemma UnaryMade(img: Image, m: State, i: Instr)
    requires m.mode.Running? && m.chunk < |img.chunks| && m.ip < |img.chunks[m.chunk].code|
    requires img.chunks[m.chunk].code[m.ip] == i && m.stack != [] && !Step(img, m).mode.Stuck?
    requires i.op.OpBitNot? || i.op.OpChkNone?
    ensures Top(m) != VUndef
    ensures Step(img, m) == if i.op.OpChkNone? then Machine.Push(m, VBool(Top(m) == VNil))
      else m.(stack := m.stack[..|m.stack| - 1] + [Complement(Top(m))], ip := m.ip + 1)
  {
    hide Complement;
    DataMade(img, m, i);
    hide Exec, Step;
  }

  lemma LoadMade(img: Image, m: State, i: Instr, slot: nat)
    requires m.mode.Running? && m.chunk < |img.chunks| && m.ip < |img.chunks[m.chunk].code|
    requires img.chunks[m.chunk].code[m.ip] == i && m.stack != [] && !Step(img, m).mode.Stuck?
    requires Loads(i.op)
    requires slot == if i.op.OpLoadLocal? then m.bp + i.wide else if i.op.OpPutCallee? then m.bp else i.wide
    ensures slot < |m.stack| && m.stack[slot] != VUndef && Step(img, m) == Machine.Push(m, m.stack[slot])
  {
    DataMade(img, m, i);
    hide Exec, Step;
  }

  lemma StoreMade(img: Image, m: State, i: Instr, slot: nat)
    requires m.mode.Running? && m.chunk < |img.chunks| && m.ip < |img.chunks[m.chunk].code|
    requires img.chunks[m.chunk].code[m.ip] == i && m.stack != [] && !Step(img, m).mode.Stuck?
    requires Stores(i.op)
    requires slot == if i.op.OpStoreLocal? then m.bp + i.wide else i.wide
    ensures slot < |m.stack| - 1 && Top(m) != VUndef
    ensures Step(img, m) == m.(stack := m.stack[..|m.stack| - 1][slot := Top(m)], ip := m.ip + 1)
  {
    DataMade(img, m, i);
    hide Exec, Step;
  }

  /** A search that a halting run makes ends inside the chunk. */
  lemma RaiseMade(img: Image, n: nat, m: State, i: Instr)
    requires m.mode.Running? && m.chunk < |img.chunks| && m.ip < |img.chunks[m.chunk].code| && Alive(img, n, m)
    requires img.chunks[m.chunk].code[m.ip] == i && m.stack != [] && i.op.OpRaiseErr?
    ensures var code := img.chunks[m.chunk].code; var stop := Scan(code, m.ip, ScanStart(m));
      && stop < |code| && Temps(m) >= 1 && Top(m) != VUndef
      && Step(img, m) == m.(err := Top(m), status := StatusErrThrow, stack := m.stack[..|m.stack| - 1], ip := stop)
      && |m.stack| > 1
  {
    hide Scan;
    AliveStep(img, n, m);
    ControlMade(img, m, i);
    hide Exec, Step, Run;
    AliveStep(img, n - 1, Step(img, m));
  }

  lemma TestMade(img: Image, m: State, i: Instr)
    requires m.mode.Running? && m.chunk < |img.chunks| && m.ip < |img.chunks[m.chunk].code|
    requires img.chunks[m.chunk].code[m.ip] == i && m.stack != [] && !Step(img, m).mode.Stuck?
    requires i.op.OpJmpFalse? || i.op.OpJmpIf?
    ensures Temps(m) >= 1 && Top(m) != VUndef
    ensures var falls := if i.op.OpJmpFalse? then Truthy(Top(m), img.objTruth) else !KeepsForOr(Top(m), img.objTruth);
      Step(img, m) == if falls then m.(stack := m.stack[..|m.stack| - 1], ip := m.ip + 1) else m.(ip := m.ip + i.wide)
  {
    hide Truthy, KeepsForOr;
    ControlMade(img, m, i);
    hide Exec, Step;
  }

  lemma RetMade(img: Image, m: State)
    requires OnRet(img, m) && !Step(img, m).mode.Stuck?
    ensures m.stack != []
    ensures var a, depth := Step(img, m), (m.depth + 0xFF) % 0x100;
      && a.depth == depth && a.err == m.err && a.trying == m.trying
      && (depth < 1 ==>
        && m.frames == [] && a.mode.Halted? && a.stack == [Top(m)]
        && a.status == if m.status.StatusPending? then StatusOk else m.status)
      && (depth >= 1 ==>
        && m.frames != [] && m.frames[|m.frames| - 1].calleeBp < |m.stack|
        && var f := m.frames[|m.frames| - 1];
           a == m.(depth := depth, frames := m.frames[..|m.frames| - 1],
                   stack := m.stack[..f.calleeBp] + [if m.status.StatusErrThrow? then VNil else Top(m)],
                   bp := f.bp, floor := f.floor, chunk := f.chunk, ip := f.retIp,
                   mode := if m.status.StatusErrThrow? then Seeking else Running))
  {
    assert m.stack != [] by { hide ExecData; hide ExecControl; hide ExecBinary; hide ExecSuper; }
    ControlMade(img, m, img.chunks[m.chunk].code[m.ip]);
    hide Exec, Step;
  }

  /** What the RET of the top-level code leaves. */
  lemma FinishMade(img: Image, m: State)
    requires OnRet(img, m) && !Step(img, m).mode.Stuck? && (m.depth + 0xFF) % 0x100 < 1
    ensures var a := Step(img, m);
      && m.frames == [] && m.stack != [] && a.mode.Halted? && |a.stack| == 1 && a.stack[0] == m.stack[|m.stack| - 1]
      && a.depth == (m.depth + 0xFF) % 0x100 && a.err == m.err && a.trying == m.trying
      && a.status == if m.status.StatusPending? then StatusOk else m.status
  {
    RetMade(img, m);
    hide Step;
  }

  /** What the RET of a call keeps and what it pushes. */
  lemma LeaveMade(img: Image, m: State)
    requires OnRet(img, m) && !Step(img, m).mode.Stuck? && (m.depth + 0xFF) % 0x100 >= 1
    ensures var a := Step(img, m);
      && m.frames != [] && m.stack != [] && 0 < |a.stack| <= |m.stack|
      && a.stack[..|a.stack| - 1] == m.stack[..|a.stack| - 1]
      && a.stack[|a.stack| - 1] == (if m.status.StatusErrThrow? then VNil else Top(m))
      && a.depth == (m.depth + 0xFF) % 0x100 && a.err == m.err && a.trying == m.trying && a.status == m.status
      && a.mode == if m.status.StatusErrThrow? then Seeking else Running
  {
    RetMade(img, m);
    hide Step;
  }

  lemma CallMade(img: Image, m: State, i: Instr)
    requires m.mode.Running? && m.chunk < |img.chunks| && m.ip < |img.chunks[m.chunk].code|
    requires img.chunks[m.chunk].code[m.ip] == i && m.stack != [] && !Step(img, m).mode.Stuck? && i.op.OpCall?
    ensures var base := |m.stack| - 1 - i.wide;
      && 0 <= base && m.stack[base].VInt? && 0 <= m.stack[base].i < |img.chunks|
      && Step(img, m) == m.(frames := m.frames + [Frame(m.chunk, m.ip + 1, m.bp, m.floor, base)],
        bp := base, floor := |m.stack| - 1, chunk := m.stack[base].i, ip := 0, depth := (m.depth + 1) % 0x100)
  {
    ControlMade(img, m, i);
    hide Exec, Step;
  }

  lemma SeekMade(img: Image, n: nat, m: State)
    requires m.mode.Seeking? && Alive(img, n, m)
    ensures m.chunk < |img.chunks| && m.ip < |img.chunks[m.chunk].code|
    ensures var stop := Scan(img.chunks[m.chunk].code, m.ip, ScanStart(m));
      stop < |img.chunks[m.chunk].code| && Step(img, m) == m.(ip := stop, mode := Running)
  {
    hide Scan, Exec, Run;
    AliveStep(img, n, m);
    AliveStep(img, n - 1, Step(img, m));
  }

  /** The steps of a call: into the callee, the callee's own, and its RET. */
  lemma {:induction false} CallBack(img: Image, n: nat, m: State, last: nat, capacity: nat)
    requires Alive(img, n, m) && Fits(img, n, m, capacity) && n > 0 && last < n - 1
    requires var left := Run(img, last, Step(img, m)); OnRet(img, left)
    ensures var left := Run(img, last, Step(img, m));
      && Run(img, last + 2, m) == Step(img, left) && !Step(img, left).mode.Stuck? && |left.stack| < capacity
    ensures Alive(img, n - (last + 2), Run(img, last + 2, m))
        && Fits(img, n - (last + 2), Run(img, last + 2, m), capacity)
  {
    hide Step, Run, Alive, Fits;
    var left := Run(img, last, Step(img, m));
    RunOnce(img, last + 1, m);
    RunNext(img, last + 1, m);
    FitsLater(img, n, last + 1, m, capacity);
    AliveStep(img, n - (last + 1), left);
    FitsStep(img, n - (last + 1), left, capacity);
    FitsLater(img, n, last + 2, m, capacity);
  }
}
