/** Options, as the source's NULL results. */
module Wrappers {
  datatype Option<+T> = None | Some(value: T)
}

/** Instructions and chunks. */
module Bytecode {
  import opened Values
  import opened Wrappers

  type u8 = x: int | 0 <= x < 0x100
  type u16 = x: int | 0 <= x < 0x1_0000

  datatype Opcode =
    | OpNop | OpPutNone | OpPutBool | OpReserve | OpLoadImmGid | OpGetGvar | OpSetGvar
    | OpLoadLocal | OpStoreLocal | OpBindLstmp | OpGbindLstmp | OpPutK | OpDup | OpPop
    | OpLoadStringK | OpLoadErrRef | OpMkList | OpMkDict | OpMkClosure | OpGetIdx | OpSetIdx
    | OpGetUpv | OpSetUpv | OpChkNone | OpBitNot | OpMul | OpDiv | OpAdd | OpSub
    | OpBitAnd | OpBitOr | OpBitXor | OpBitShl | OpBitShr | OpEq | OpNe | OpLt | OpGt
    | OpJmp | OpJmpFalse | OpJmpIf | OpCall | OpNativeCall | OpPutCallee | OpRet | OpTry
    | OpRaiseErr | OpCatchErr | OpAbortElse
    | OpMulKl | OpDivKl | OpAddKl | OpSubKl | OpMulKk | OpDivKk | OpAddKk | OpSubKk
    | OpMulLl | OpDivLl | OpAddLl | OpSubLl

  /** One operation, a byte of flags and a 16-bit operand. */
  datatype Instr = Instr(op: Opcode, flag: u8, wide: u16)

  datatype Chunk = Chunk(code: seq<Instr>, consts: seq<Value>)

  /** The flag that marks the RET closing a chunk. */
  const RET_MARK_LAST: u8 := 15

  /** Positions and operands are stored in 16 bits. */
  function Wide(n: int): u16 { n % 0x1_0000 }

  function BinOpcode(op: BinOp): Opcode {
    match op
    case Mul => OpMul
    case Div => OpDiv
    case Add => OpAdd
    case Sub => OpSub
    case BitAnd => OpBitAnd
    case BitOr => OpBitOr
    case BitXor => OpBitXor
    case Shl => OpBitShl
    case Shr => OpBitShr
    case Eq => OpEq
    case Ne => OpNe
    case Lt => OpLt
    case Gt => OpGt
  }

  function OpcodeBin(op: Opcode): Option<BinOp> {
    match op
    case OpMul => Some(Mul)
    case OpDiv => Some(Div)
    case OpAdd => Some(Add)
    case OpSub => Some(Sub)
    case OpBitAnd => Some(BitAnd)
    case OpBitOr => Some(BitOr)
    case OpBitXor => Some(BitXor)
    case OpBitShl => Some(Shl)
    case OpBitShr => Some(Shr)
    case OpEq => Some(Eq)
    case OpNe => Some(Ne)
    case OpLt => Some(Lt)
    case OpGt => Some(Gt)
    case _ => None
  }

  /** Where the two operands of a fused instruction come from. */
  datatype Fusion = KL | KK | LL

  /** A fused instruction as an operand shape and an arithmetic operation. */
  function SuperParts(op: Opcode): Option<(Fusion, BinOp)> {
    match op
    case OpMulKl => Some((KL, Mul))
    case OpDivKl => Some((KL, Div))
    case OpAddKl => Some((KL, Add))
    case OpSubKl => Some((KL, Sub))
    case OpMulKk => Some((KK, Mul))
    case OpDivKk => Some((KK, Div))
    case OpAddKk => Some((KK, Add))
    case OpSubKk => Some((KK, Sub))
    case OpMulLl => Some((LL, Mul))
    case OpDivLl => Some((LL, Div))
    case OpAddLl => Some((LL, Add))
    case OpSubLl => Some((LL, Sub))
    case _ => None
  }

  function SuperOpcode(shape: Fusion, op: BinOp): Opcode
    requires IsArith(op)
  {
    match (shape, op)
    case (KL, Mul) => OpMulKl
    case (KL, Div) => OpDivKl
    case (KL, Add) => OpAddKl
    case (KL, Sub) => OpSubKl
    case (KK, Mul) => OpMulKk
    case (KK, Div) => OpDivKk
    case (KK, Add) => OpAddKk
    case (KK, Sub) => OpSubKk
    case (LL, Mul) => OpMulLl
    case (LL, Div) => OpDivLl
    case (LL, Add) => OpAddLl
    case (LL, Sub) => OpSubLl
  }

  /** The positions jumped over: a jump's destination relative to the chunk. */
  function JumpTarget(ip: int, i: Instr): int {
    if i.op.OpJmp? && i.flag != 0 then ip - i.wide else ip + i.wide
  }

  predicate IsJump(i: Instr) { i.op.OpJmp? || i.op.OpJmpFalse? || i.op.OpJmpIf? }

  predicate IsLoad(i: Instr) { i.op.OpPutK? || i.op.OpLoadLocal? }
}
