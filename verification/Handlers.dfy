/** What one step does, one opcode at a time, where the handler has what it needs. */
module Handlers {
  import opened Values
  import opened Wrappers
  import opened Bytecode
  import opened Machine

  /** The machine is about to execute `i`. */
  ghost predicate AtInstr(img: Image, m: State, i: Instr) {
    && m.mode.Running? && m.chunk < |img.chunks| && m.ip < |img.chunks[m.chunk].code|
    && img.chunks[m.chunk].code[m.ip] == i && m.floor < |m.stack|
  }

  predicate IsData(op: Opcode) {
    OpcodeBin(op).None? && SuperParts(op).None? && !IsControl(op)
  }

  lemma DataStep(img: Image, m: State, i: Instr)
    requires AtInstr(img, m, i) && IsData(i.op)
    ensures Step(img, m) == ExecData(m, img.chunks[m.chunk].consts, i)
  {
    hide ExecData, ExecControl;
    ExecDataIs(img, m, img.chunks[m.chunk], i);
  }

  lemma ControlStep(img: Image, m: State, i: Instr)
    requires AtInstr(img, m, i) && IsControl(i.op)
    ensures Step(img, m) == ExecControl(img, m, img.chunks[m.chunk].code, i)
  {
    hide ExecData, ExecControl;
    ExecControlIs(img, m, img.chunks[m.chunk], i);
  }

  // ----- pushes -----

  lemma StepNone(img: Image, m: State, i: Instr)
    requires AtInstr(img, m, i) && i.op.OpPutNone?
    ensures Step(img, m) == Push(m, VNil)
  {
    DataStep(img, m, i);
  }

  lemma StepBool(img: Image, m: State, i: Instr)
    requires AtInstr(img, m, i) && i.op.OpPutBool?
    ensures Step(img, m) == Push(m, VBool(i.flag % 2 == 1))
  {
    DataStep(img, m, i);
  }

  lemma StepGid(img: Image, m: State, i: Instr)
    requires AtInstr(img, m, i) && i.op.OpLoadImmGid?
    ensures Step(img, m) == Push(m, VInt(i.wide))
  {
    DataStep(img, m, i);
  }

  lemma StepConst(img: Image, m: State, i: Instr, v: Value)
    requires AtInstr(img, m, i) && i.op.OpPutK? && v != VUndef
    requires var consts := img.chunks[m.chunk].consts; i.wide < |consts| && consts[i.wide] == v
    ensures Step(img, m) == Push(m, v)
  {
    DataStep(img, m, i);
  }

  lemma StepGetGlobal(img: Image, m: State, i: Instr, v: Value)
    requires AtInstr(img, m, i) && i.op.OpGetGvar? && i.wide < |m.stack| && m.stack[i.wide] == v != VUndef
    ensures Step(img, m) == Push(m, v)
  {
    DataStep(img, m, i);
  }

  lemma StepGetLocal(img: Image, m: State, i: Instr, v: Value)
    requires AtInstr(img, m, i) && i.op.OpLoadLocal? && m.bp + i.wide <= m.floor
        && m.stack[m.bp + i.wide] == v != VUndef
    ensures Step(img, m) == Push(m, v)
  {
    DataStep(img, m, i);
  }

  // ----- operations on the top -----

  lemma StepNot(img: Image, m: State, i: Instr)
    requires AtInstr(img, m, i) && i.op.OpBitNot? && Temps(m) >= 1 && Top(m) != VUndef
    ensures Step(img, m) == m.(stack := m.stack[..|m.stack| - 1] + [Complement(Top(m))], ip := m.ip + 1)
  {
    DataStep(img, m, i);
  }

  lemma StepChkNone(img: Image, m: State, i: Instr)
    requires AtInstr(img, m, i) && i.op.OpChkNone? && Temps(m) >= 1 && Top(m) != VUndef
    ensures Step(img, m) == Push(m, VBool(Top(m) == VNil))
  {
    DataStep(img, m, i);
  }

  lemma StepPop(img: Image, m: State, i: Instr)
    requires AtInstr(img, m, i) && i.op.OpPop? && i.flag <= Temps(m)
    ensures Step(img, m) == m.(stack := m.stack[..|m.stack| - i.flag], ip := m.ip + 1)
  {
    DataStep(img, m, i);
  }

  lemma StepNop(img: Image, m: State, i: Instr)
    requires AtInstr(img, m, i) && i.op.OpNop?
    ensures Step(img, m) == m.(ip := m.ip + 1)
  {
    DataStep(img, m, i);
  }

  lemma StepReserve(img: Image, m: State, i: Instr)
    requires AtInstr(img, m, i) && i.op.OpReserve? && Temps(m) == 0
    ensures Step(img, m) == m.(stack := m.stack + Undefs(i.wide), floor := m.floor + i.wide, ip := m.ip + 1)
  {
    DataStep(img, m, i);
  }

  lemma StepSetGlobal(img: Image, m: State, i: Instr)
    requires AtInstr(img, m, i) && i.op.OpSetGvar? && Temps(m) >= 1 && i.wide < |m.stack| - 1 && Top(m) != VUndef
    ensures Step(img, m) == m.(stack := m.stack[..|m.stack| - 1][i.wide := Top(m)], ip := m.ip + 1)
  {
    DataStep(img, m, i);
  }

  lemma StepSetLocal(img: Image, m: State, i: Instr)
    requires AtInstr(img, m, i) && i.op.OpStoreLocal? && Temps(m) >= 1 && m.bp + i.wide <= m.floor && Top(m) != VUndef
    ensures Step(img, m) == m.(stack := m.stack[..|m.stack| - 1][m.bp + i.wide := Top(m)], ip := m.ip + 1)
  {
    DataStep(img, m, i);
  }

  lemma StepBinary(img: Image, m: State, i: Instr, op: BinOp)
    requires AtInstr(img, m, i) && i.op == BinOpcode(op) && Temps(m) >= 2
    requires m.stack[|m.stack| - 2] != VUndef && m.stack[|m.stack| - 1] != VUndef
    ensures Step(img, m) == m.(
      stack := m.stack[..|m.stack| - 2] + [Binary(op, m.stack[|m.stack| - 2], m.stack[|m.stack| - 1])], ip := m.ip + 1)
  {
    hide Binary;
    BinOpcodeBin(op);
    ExecBinaryIs(img, m, img.chunks[m.chunk], i, op);
    hide Exec;
  }

  lemma BinOpcodeBin(op: BinOp)
    ensures OpcodeBin(BinOpcode(op)) == Some(op)
  {
  }

  // ----- jumps -----

  lemma StepJmp(img: Image, m: State, i: Instr)
    requires AtInstr(img, m, i) && i.op.OpJmp? && JumpTarget(m.ip, i) >= 0
    ensures Step(img, m) == m.(ip := JumpTarget(m.ip, i))
  {
    ControlStep(img, m, i);
  }

  lemma StepJmpFalse(img: Image, m: State, i: Instr)
    requires AtInstr(img, m, i) && i.op.OpJmpFalse? && Temps(m) >= 1 && Top(m) != VUndef
    ensures Step(img, m) == if Truthy(Top(m), img.objTruth)
      then m.(stack := m.stack[..|m.stack| - 1], ip := m.ip + 1) else m.(ip := m.ip + i.wide)
  {
    ControlStep(img, m, i);
  }

  lemma StepJmpIf(img: Image, m: State, i: Instr)
    requires AtInstr(img, m, i) && i.op.OpJmpIf? && Temps(m) >= 1 && Top(m) != VUndef
    ensures Step(img, m) == if KeepsForOr(Top(m), img.objTruth)
      then m.(ip := m.ip + i.wide) else m.(stack := m.stack[..|m.stack| - 1], ip := m.ip + 1)
  {
    ControlStep(img, m, i);
  }

  // ----- calls and exceptions -----

  lemma StepTry(img: Image, m: State, i: Instr)
    requires AtInstr(img, m, i) && i.op.OpTry?
    ensures Step(img, m) == m.(trying := true, ip := m.ip + 1)
  {
    ControlStep(img, m, i);
  }

  lemma StepCatch(img: Image, m: State, i: Instr)
    requires AtInstr(img, m, i) && i.op.OpCatchErr?
    ensures Step(img, m) == m.(status := StatusPending, trying := false, ip := m.ip + 1)
  {
    ControlStep(img, m, i);
  }

  lemma StepRaise(img: Image, m: State, i: Instr)
    requires AtInstr(img, m, i) && i.op.OpRaiseErr? && Temps(m) >= 1 && Top(m) != VUndef && m.trying
    ensures Step(img, m) == m.(err := Top(m), status := StatusErrThrow, stack := m.stack[..|m.stack| - 1],
                               ip := Scan(img.chunks[m.chunk].code, m.ip, 1))
  {
    hide Scan;
    ControlStep(img, m, i);
  }

  lemma StepCall(img: Image, m: State, i: Instr, k: nat)
    requires AtInstr(img, m, i) && i.op.OpCall? && Temps(m) >= i.wide + 1 && i.wide <= MAX_ARGS
    requires m.stack[|m.stack| - 1 - i.wide].VInt? && m.stack[|m.stack| - 1 - i.wide].i == k < |img.chunks|
    ensures var base := |m.stack| - 1 - i.wide;
      Step(img, m) == m.(frames := m.frames + [Frame(m.chunk, m.ip + 1, m.bp, m.floor, base)],
        bp := base, floor := |m.stack| - 1, chunk := k, ip := 0, depth := (m.depth + 1) % 0x100)
  {
    ControlStep(img, m, i);
  }

  lemma StepRet(img: Image, m: State, i: Instr, f: Frame)
    requires AtInstr(img, m, i) && i.op.OpRet? && m.depth >= 2
    requires m.frames != [] && m.frames[|m.frames| - 1] == f && f.calleeBp < |m.stack|
    ensures var result := if m.status.StatusErrThrow? then VNil else Top(m);
      Step(img, m) == m.(depth := m.depth - 1, frames := m.frames[..|m.frames| - 1],
        stack := m.stack[..f.calleeBp] + [result], bp := f.bp, floor := f.floor, chunk := f.chunk, ip := f.retIp,
        mode := if m.status.StatusErrThrow? then Seeking else Running)
  {
    ControlStep(img, m, i);
  }

  /** The RET of the top-level code ends the run. */
  lemma StepHalt(img: Image, m: State, i: Instr)
    requires AtInstr(img, m, i) && i.op.OpRet? && m.depth == 1 && m.frames == []
    ensures Step(img, m) == m.(depth := 0, status := if m.status.StatusPending? then StatusOk else m.status,
      stack := [Top(m)], bp := 0, floor := 0, mode := Halted)
  {
    ControlStep(img, m, i);
  }

  lemma StepSeek(img: Image, m: State)
    requires m.mode.Seeking? && m.chunk < |img.chunks| && m.ip < |img.chunks[m.chunk].code| && m.trying
    ensures Step(img, m) == m.(ip := Scan(img.chunks[m.chunk].code, m.ip, 1), mode := Running)
  {
    hide Scan;
  }
}
