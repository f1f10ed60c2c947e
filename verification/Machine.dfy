/** The stack machine as a step function.

    The stack is its live part, slots 0 to `sp`. A frame's `floor` is its last reserved slot: the
    source keeps no such field, it is here to say which slots hold variables and which hold
    temporaries. An instruction that would read an unwritten slot, take a variable's slot for a
    temporary, leave the chunk or need the object heap makes the model `Stuck`. The native call
    stack that fn_call recurses on is the explicit sequence `frames`. */
module Machine {
  import opened Values
  import opened Bytecode
  import opened Wrappers

  datatype Status = StatusOk | StatusPending | StatusErrThrow

  /** `Seeking` is the dispatcher pointing at vm_seek_catch. */
  datatype Mode = Running | Seeking | Halted | Stuck

  datatype Frame = Frame(chunk: nat, retIp: nat, bp: nat, floor: nat, calleeBp: nat)

  datatype State = State(
    chunk: nat, ip: nat, bp: nat, floor: nat, stack: seq<Value>, frames: seq<Frame>,
    depth: u8, status: Status, trying: bool, err: Value, mode: Mode)

  /** A program with the truth values of its heap objects. */
  datatype Image = Image(chunks: seq<Chunk>, objTruth: int -> bool)

  function Initial(entry: nat): State {
    State(entry, 0, 0, 0, [VNil], [], 1, StatusPending, false, VNil, Running)
  }

  function Temps(m: State): int { |m.stack| - 1 - m.floor }

  function Top(m: State): Value
    requires |m.stack| > 0
  {
    m.stack[|m.stack| - 1]
  }

  function Halt(m: State): State { m.(mode := Stuck) }

  function Push(m: State, v: Value): State {
    m.(stack := m.stack + [v], ip := m.ip + 1)
  }

  /** Reads `slot` onto the stack; an unwritten slot has no modelled value. */
  function PushSlot(m: State, slot: nat, limit: int): State {
    if slot < limit && slot < |m.stack| && m.stack[slot] != VUndef then Push(m, m.stack[slot]) else Halt(m)
  }

  /** Moves the top temporary into `slot`. */
  function StoreSlot(m: State, slot: nat, limit: int): State {
    if Temps(m) >= 1 && slot < limit && slot < |m.stack| - 1 && Top(m) != VUndef then
      m.(stack := m.stack[..|m.stack| - 1][slot := Top(m)], ip := m.ip + 1)
    else
      Halt(m)
  }

  /** vm_locally_propagate_error: walks to the CATCH that ends the nesting, or to the closing RET.
      The counter is a `size_t`; an integer that may go negative stops at the same places, because
      fewer than 2^64 instructions are scanned and the loop stops exactly when it reaches zero. */
  function Scan(code: seq<Instr>, ip: nat, depth: int): nat
    decreases |code| - ip
  {
    if ip >= |code| then |code|
    else if code[ip].op.OpTry? then Scan(code, ip + 1, depth + 1)
    else if code[ip].op.OpCatchErr? then
      if depth - 1 == 0 then ip else Scan(code, ip + 1, depth - 1)
    else if IsLastRet(code[ip]) then ip
    else Scan(code, ip + 1, depth)
  }

  /** A search that stays in the code stops at a CATCH or at the closing RET. */
  lemma {:induction false} ScanStops(code: seq<Instr>, ip: nat, depth: int)
    ensures var stop := Scan(code, ip, depth);
      stop < |code| ==> ip <= stop && (code[stop].op.OpCatchErr? || IsLastRet(code[stop]))
    decreases |code| - ip
  {
    if ip < |code| {
      ScanStops(code, ip + 1, depth);
      ScanStops(code, ip + 1, depth + 1);
      ScanStops(code, ip + 1, depth - 1);
    }
  }

  predicate IsLastRet(i: Instr) { i.op.OpRet? && i.flag == RET_MARK_LAST }

  function ScanStart(m: State): int { if m.trying then 1 else 0 }

  function Undefs(n: nat): (s: seq<Value>)
    ensures |s| == n && forall i :: 0 <= i < n ==> s[i] == VUndef
  {
    seq(n, i => VUndef)
  }

  /** An operand of a fused instruction: a constant or a local slot. */
  function Operand(m: State, consts: seq<Value>, constant: bool, id: nat): Value {
    if constant then
      if id < |consts| then consts[id] else VUndef
    else
      if m.bp + id <= m.floor && m.bp + id < |m.stack| then m.stack[m.bp + id] else VUndef
  }

  function ExecSuper(m: State, consts: seq<Value>, shape: Fusion, op: BinOp, flag: nat, wide: nat): State
    requires IsArith(op)
  {
    var lhs := if shape.KL? then Operand(m, consts, false, wide) else Operand(m, consts, shape.KK?, flag);
    var rhs := if shape.KL? then Operand(m, consts, true, flag) else Operand(m, consts, shape.KK?, wide);
    if lhs == VUndef || rhs == VUndef then Halt(m) else Push(m, Arith(op, lhs, rhs))
  }

  function ExecBinary(m: State, op: BinOp): State {
    if Temps(m) < 2 || m.floor + 2 >= |m.stack| then Halt(m)
    else
      var n := |m.stack|;
      var lhs, rhs := m.stack[n - 2], m.stack[n - 1];
      if lhs == VUndef || rhs == VUndef then Halt(m)
      else m.(stack := m.stack[..n - 2] + [Binary(op, lhs, rhs)], ip := m.ip + 1)
  }

  /** Pops the tested value and falls through, or jumps and keeps it. */
  function ExecBranch(m: State, falls: bool, wide: nat): State
    requires |m.stack| > 0
  {
    if falls then m.(stack := m.stack[..|m.stack| - 1], ip := m.ip + 1) else m.(ip := m.ip + wide)
  }

  function ExecCall(img: Image, m: State, argc: nat): State {
    if argc > MAX_ARGS || Temps(m) < argc + 1 then Halt(m)
    else
      var calleeBp := |m.stack| - 1 - argc;
      match m.stack[calleeBp]
      case VInt(k) =>
        if 0 <= k < |img.chunks| then
          m.(frames := m.frames + [Frame(m.chunk, m.ip + 1, m.bp, m.floor, calleeBp)],
             bp := calleeBp, floor := |m.stack| - 1, chunk := k, ip := 0, depth := (m.depth + 1) % 0x100)
        else Halt(m)
      case _ => Halt(m)
  }

  /** fn_ret, and the part of fn_call that follows the callee. The depth counter is a byte; a run
      that makes it wrap is not modelled beyond the RET that meets it. */
  function ExecRet(m: State): State {
    if m.stack == [] then Halt(m)
    else
      var depth: u8 := (m.depth + 0xFF) % 0x100;
      if depth < 1 then
        if m.frames != [] then Halt(m)
        else
          var status := if m.status.StatusPending? then StatusOk else m.status;
          m.(depth := depth, status := status, stack := [Top(m)], bp := 0, floor := 0, mode := Halted)
      else if m.frames == [] then Halt(m)
      else
        var f := m.frames[|m.frames| - 1];
        if f.calleeBp >= |m.stack| then Halt(m)
        else
          var result := if m.status.StatusErrThrow? then VNil else Top(m);
          m.(depth := depth, frames := m.frames[..|m.frames| - 1],
             stack := m.stack[..f.calleeBp] + [result],
             bp := f.bp, floor := f.floor, chunk := f.chunk, ip := f.retIp,
             mode := if m.status.StatusErrThrow? then Seeking else Running)
  }

  function ExecRaise(m: State, code: seq<Instr>): State {
    if Temps(m) < 1 || m.stack == [] || Top(m) == VUndef then Halt(m)
    else
      m.(err := Top(m), status := StatusErrThrow, stack := m.stack[..|m.stack| - 1],
         ip := Scan(code, m.ip, ScanStart(m)))
  }

  predicate IsControl(op: Opcode) {
    || op.OpJmp? || op.OpJmpFalse? || op.OpJmpIf? || op.OpCall? || op.OpRet?
    || op.OpTry? || op.OpRaiseErr? || op.OpCatchErr?
  }

  /** Handlers that move values and fall through. */
  function ExecData(m: State, consts: seq<Value>, i: Instr): State
    requires |m.stack| > 0
  {
    match i.op
    case OpNop => m.(ip := m.ip + 1)
    case OpPutNone => Push(m, VNil)
    case OpPutBool => Push(m, VBool(i.flag % 2 == 1))
    case OpReserve =>
      if Temps(m) == 0 then m.(stack := m.stack + Undefs(i.wide), floor := m.floor + i.wide, ip := m.ip + 1)
      else Halt(m)
    case OpLoadImmGid => Push(m, VInt(i.wide))
    case OpGetGvar => PushSlot(m, i.wide, |m.stack|)
    case OpSetGvar => StoreSlot(m, i.wide, |m.stack|)
    case OpLoadLocal => PushSlot(m, m.bp + i.wide, m.floor + 1)
    case OpStoreLocal => StoreSlot(m, m.bp + i.wide, m.floor + 1)
    case OpPutK => if i.wide < |consts| && consts[i.wide] != VUndef then Push(m, consts[i.wide]) else Halt(m)
    case OpDup => Push(m, Top(m))
    case OpPop => if i.flag <= Temps(m) then m.(stack := m.stack[..|m.stack| - i.flag], ip := m.ip + 1) else Halt(m)
    case OpLoadStringK => Push(m, VStr(i.wide))
    case OpChkNone => if Temps(m) >= 1 && Top(m) != VUndef then Push(m, VBool(Top(m) == VNil)) else Halt(m)
    case OpBitNot =>
      if Temps(m) >= 1 && Top(m) != VUndef then
        m.(stack := m.stack[..|m.stack| - 1] + [Complement(Top(m))], ip := m.ip + 1)
      else Halt(m)
    case OpPutCallee => PushSlot(m, m.bp, |m.stack|)
    case _ => Halt(m)
  }

  function ExecControl(img: Image, m: State, code: seq<Instr>, i: Instr): State
    requires |m.stack| > 0
  {
    match i.op
    case OpJmp => if JumpTarget(m.ip, i) >= 0 then m.(ip := JumpTarget(m.ip, i)) else Halt(m)
    case OpJmpFalse =>
      if Temps(m) >= 1 && Top(m) != VUndef then ExecBranch(m, Truthy(Top(m), img.objTruth), i.wide) else Halt(m)
    case OpJmpIf =>
      if Temps(m) >= 1 && Top(m) != VUndef then ExecBranch(m, !KeepsForOr(Top(m), img.objTruth), i.wide) else Halt(m)
    case OpCall => ExecCall(img, m, i.wide)
    case OpRet => ExecRet(m)
    case OpTry => m.(trying := true, ip := m.ip + 1)
    case OpRaiseErr => ExecRaise(m, code)
    case OpCatchErr => m.(status := StatusPending, trying := false, ip := m.ip + 1)
    case _ => Halt(m)
  }

  function Exec(img: Image, m: State, c: Chunk, i: Instr): State {
    if m.stack == [] then Halt(m)
    else match OpcodeBin(i.op)
      case Some(op) => ExecBinary(m, op)
      case None =>
        match SuperParts(i.op)
        case Some((shape, op)) => ExecSuper(m, c.consts, shape, op, i.flag, i.wide)
        case None => if IsControl(i.op) then ExecControl(img, m, c.code, i) else ExecData(m, c.consts, i)
  }

  function Step(img: Image, m: State): State {
    if m.mode.Halted? || m.mode.Stuck? then m
    else if m.chunk >= |img.chunks| || m.ip >= |img.chunks[m.chunk].code| then Halt(m)
    else
      var c := img.chunks[m.chunk];
      if m.mode.Seeking? then m.(ip := Scan(c.code, m.ip, ScanStart(m)), mode := Running)
      else Exec(img, m, c, c.code[m.ip])
  }

  // ----- single handlers -----

  lemma ExecLoadIs(img: Image, m: State, c: Chunk, i: Instr)
    requires IsLoad(i) && m.stack != []
    ensures var v := Operand(m, c.consts, i.op.OpPutK?, i.wide);
      Exec(img, m, c, i) == if v != VUndef then Push(m, v) else Halt(m)
  {
  }

  lemma ExecBinaryIs(img: Image, m: State, c: Chunk, i: Instr, op: BinOp)
    requires OpcodeBin(i.op) == Some(op) && m.stack != []
    ensures Exec(img, m, c, i) == ExecBinary(m, op)
  {
  }

  lemma SuperOpcodeParts(shape: Fusion, op: BinOp)
    requires IsArith(op)
    ensures SuperParts(SuperOpcode(shape, op)) == Some((shape, op)) && OpcodeBin(SuperOpcode(shape, op)).None?
  {
  }

  lemma ExecSuperIs(img: Image, m: State, c: Chunk, i: Instr, shape: Fusion, op: BinOp)
    requires IsArith(op) && i.op == SuperOpcode(shape, op) && m.stack != []
    ensures Exec(img, m, c, i) == ExecSuper(m, c.consts, shape, op, i.flag, i.wide)
  {
    SuperOpcodeParts(shape, op);
    hide SuperOpcode, SuperParts, OpcodeBin, ExecSuper;
  }

  lemma ExecDataIs(img: Image, m: State, c: Chunk, i: Instr)
    requires OpcodeBin(i.op).None? && SuperParts(i.op).None? && !IsControl(i.op) && m.stack != []
    ensures Exec(img, m, c, i) == ExecData(m, c.consts, i)
  {
  }

  lemma ExecControlIs(img: Image, m: State, c: Chunk, i: Instr)
    requires IsControl(i.op) && m.stack != []
    ensures Exec(img, m, c, i) == ExecControl(img, m, c.code, i)
  {
  }

  function Run(img: Image, n: nat, m: State): State
    decreases n
  {
    if n == 0 then m else Run(img, n - 1, Step(img, m))
  }

  lemma StepRunning(img: Image, m: State)
    requires m.mode.Running? && m.chunk < |img.chunks| && m.ip < |img.chunks[m.chunk].code|
    ensures Step(img, m) == Exec(img, m, img.chunks[m.chunk], img.chunks[m.chunk].code[m.ip])
  {
    hide Exec;
  }

  lemma RunOnce(img: Image, n: nat, m: State)
    requires n > 0
    ensures Run(img, n, m) == Run(img, n - 1, Step(img, m))
  {
    hide Step;
  }

  lemma RunZero(img: Image, m: State)
    ensures Run(img, 0, m) == m
  {
  }

  lemma {:induction false} RunAdd(img: Image, a: nat, b: nat, m: State)
    ensures Run(img, a + b, m) == Run(img, b, Run(img, a, m))
    decreases a
  {
    hide Step;
    if a > 0 {
      RunAdd(img, a - 1, b, Step(img, m));
    }
  }

  lemma {:induction false} RunStuck(img: Image, n: nat, m: State)
    requires m.mode.Stuck? || m.mode.Halted?
    ensures Run(img, n, m) == m
    decreases n
  {
    hide Exec;
    if n > 0 { RunStuck(img, n - 1, m); }
  }
}
