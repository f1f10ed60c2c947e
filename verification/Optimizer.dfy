/** The peephole pass: one left-to-right scan that rewrites `load; load; arithmetic` in place. */
module Optimizer {
  import opened Values
  import opened Bytecode
  import opened Wrappers

  // ----- what the pass computes -----

  const NOP: Instr := Instr(OpNop, 0, 0)

  /** The arithmetic operations that have fused forms. */
  function FusableOp(op: Opcode): (r: Option<BinOp>)
    ensures r.Some? ==> IsArith(r.value) && BinOpcode(r.value) == op
  {
    match op
    case OpMul => Some(Mul)
    case OpDiv => Some(Div)
    case OpAdd => Some(Add)
    case OpSub => Some(Sub)
    case _ => None
  }

  /** Two loads followed by a fusable operation. */
  predicate WindowAt(code: seq<Instr>, i: nat) {
    i + 2 < |code| && IsLoad(code[i]) && IsLoad(code[i + 1]) && FusableOp(code[i + 2].op).Some?
  }

  /** How far the scan moves before it is back in its start state: a load is taken together with
      its successor, and two loads together with theirs, whatever the last instruction is. */
  function BlockLength(code: seq<Instr>, i: nat): (n: nat)
    requires i < |code|
    ensures 1 <= n <= 3
  {
    if !IsLoad(code[i]) then 1
    else if i + 1 < |code| && IsLoad(code[i + 1]) then 3
    else 2
  }

  /** A scan that is in its start state at `from` fuses the window at `i`. */
  predicate FusedFrom(code: seq<Instr>, from: nat, i: nat)
    decreases |code| - from
  {
    if from >= |code| || from > i then false
    else if from == i then WindowAt(code, i)
    else FusedFrom(code, from + BlockLength(code, from), i)
  }

  predicate Fused(code: seq<Instr>, i: nat) { FusedFrom(code, 0, i) }

  /** The second or third instruction of a fused window. */
  predicate Interior(code: seq<Instr>, i: int) {
    (i >= 1 && Fused(code, i - 1)) || (i >= 2 && Fused(code, i - 2))
  }

  function Shape(a: Instr, b: Instr): Fusion {
    if a.op.OpPutK? then (if b.op.OpPutK? then KK else KL)
    else (if b.op.OpPutK? then KL else LL)
  }

  /** The operand packed into the flag byte; for a mixed pair that is the constant. */
  function FlagId(a: Instr, b: Instr): nat {
    if Shape(a, b).KL? && !a.op.OpPutK? then b.wide else a.wide
  }

  function WideId(a: Instr, b: Instr): u16 {
    if Shape(a, b).KL? && !a.op.OpPutK? then a.wide else b.wide
  }

  function Fuse(a: Instr, b: Instr, op: BinOp): Instr
    requires IsArith(op)
  {
    Instr(SuperOpcode(Shape(a, b), op), FlagId(a, b) % 0x100, WideId(a, b))
  }

  lemma FusedIsWindow(code: seq<Instr>, from: nat, i: nat)
    requires FusedFrom(code, from, i)
    ensures from <= i && WindowAt(code, i)
    decreases |code| - from
  {
  }

  function OptAt(code: seq<Instr>, i: nat): Instr
    requires i < |code|
  {
    if Fused(code, i) then
      FusedIsWindow(code, 0, i);
      Fuse(code[i], code[i + 1], FusableOp(code[i + 2].op).value)
    else if Interior(code, i) then NOP
    else code[i]
  }

  function Opt(code: seq<Instr>): (out: seq<Instr>)
    ensures |out| == |code| && forall i :: 0 <= i < |code| ==> out[i] == OptAt(code, i)
  {
    seq(|code|, i requires 0 <= i < |code| => OptAt(code, i))
  }

  // ----- shape of the result -----

  /** Fused windows never overlap. */
  lemma {:induction false} FusedDisjoint(code: seq<Instr>, from: nat, i: nat, j: nat)
    requires FusedFrom(code, from, i) && FusedFrom(code, from, j) && i < j
    ensures i + 3 <= j
    decreases |code| - from
  {
    if from == i {
      FusedIsWindow(code, from + BlockLength(code, from), j);
    } else {
      FusedDisjoint(code, from + BlockLength(code, from), i, j);
    }
  }

  /** No instruction is both the start and the inside of a window. */
  lemma {:induction false} StartNotInterior(code: seq<Instr>, i: nat)
    requires Fused(code, i)
    ensures !Interior(code, i)
  {
    if i >= 1 && Fused(code, i - 1) { FusedDisjoint(code, 0, i - 1, i); }
    if i >= 2 && Fused(code, i - 2) { FusedDisjoint(code, 0, i - 2, i); }
  }

  /** `b` is a position at which the scan of `code` is in its start state. */
  ghost predicate BlockStart(code: seq<Instr>, b: nat) {
    && (forall k: nat :: b <= k ==> Fused(code, k) == FusedFrom(code, b, k))
    && (forall k: nat :: k < b <= k + 2 ==> !Fused(code, k))
  }

  lemma {:induction false} BlockStartNext(code: seq<Instr>, b: nat)
    requires BlockStart(code, b) && b < |code|
    ensures BlockStart(code, b + BlockLength(code, b)) || Fused(code, b)
    ensures Fused(code, b) ==> BlockStart(code, b + 3)
  {
    var c := b + BlockLength(code, b);
    forall k: nat | b < k < c
      ensures !Fused(code, k)
    {
      assert FusedFrom(code, b, k) == FusedFrom(code, c, k);
    }
  }

  lemma {:induction false} SkipNonLoad(code: seq<Instr>, p: nat, i: nat)
    requires p < |code| && !IsLoad(code[p])
    ensures FusedFrom(code, p, i) == FusedFrom(code, p + 1, i)
  {
  }

  /** What the pass makes of a fused window. */
  lemma {:induction false} WindowOut(code: seq<Instr>, b: nat)
    requires Fused(code, b)
    ensures WindowAt(code, b)
    ensures Opt(code)[b] == Fuse(code[b], code[b + 1], FusableOp(code[b + 2].op).value)
    ensures Opt(code)[b + 1] == NOP && Opt(code)[b + 2] == NOP
  {
    FusedIsWindow(code, 0, b);
    FusedAlone(code, b, b + 1);
    FusedAlone(code, b, b + 2);
    hide Fused, Fuse;
  }

  lemma {:induction false} FusedAlone(code: seq<Instr>, b: nat, k: nat)
    requires Fused(code, b) && b < k < b + 3
    ensures !Fused(code, k)
  {
    if Fused(code, k) { FusedDisjoint(code, 0, b, k); }
  }

  lemma FuseNotLoad(a: Instr, b: Instr, op: BinOp)
    requires IsArith(op)
    ensures !IsLoad(Fuse(a, b, op)) && !IsLoad(NOP)
  {
  }

  lemma {:induction false} RescanSkipsFused(code: seq<Instr>, b: nat, i: nat)
    requires Fused(code, b)
    ensures FusedFrom(Opt(code), b, i) == FusedFrom(Opt(code), b + 3, i)
  {
    hide Fused, FusedFrom, OptAt, Fuse;
    var out := Opt(code);
    WindowOut(code, b);
    FuseNotLoad(code[b], code[b + 1], FusableOp(code[b + 2].op).value);
    SkipNonLoad(out, b, i);
    SkipNonLoad(out, b + 1, i);
    SkipNonLoad(out, b + 2, i);
  }

  lemma {:induction false} RescanFindsNothing(code: seq<Instr>, b: nat, i: nat)
    requires BlockStart(code, b)
    ensures !FusedFrom(Opt(code), b, i)
    decreases |code| - b
  {
    var out := Opt(code);
    if b < |code| && b <= i {
      BlockStartNext(code, b);
      if Fused(code, b) {
        RescanSkipsFused(code, b, i);
        RescanFindsNothing(code, b + 3, i);
      } else {
        var c := b + BlockLength(code, b);
        forall k: nat | b <= k < c && k < |code| ensures out[k] == code[k] {
          BlockUntouched(code, b, k);
        }
        assert BlockLength(out, b) == BlockLength(code, b);
        RescanFindsNothing(code, c, i);
      }
    }
  }

  lemma {:induction false} BlockUntouched(code: seq<Instr>, b: nat, k: nat)
    requires BlockStart(code, b) && b < |code| && !Fused(code, b)
    requires b <= k < b + BlockLength(code, b) && k < |code|
    ensures OptAt(code, k) == code[k]
  {
    forall j: nat | b < j < b + BlockLength(code, b)
      ensures !Fused(code, j)
    {
      assert FusedFrom(code, b, j) == FusedFrom(code, b + BlockLength(code, b), j);
    }
  }

  /** Applying the pass twice is applying it once. */
  lemma {:induction false} OptIdempotent(code: seq<Instr>)
    ensures Opt(Opt(code)) == Opt(code)
  {
    var out := Opt(code);
    forall i: nat
      ensures !Fused(out, i)
    {
      RescanFindsNothing(code, 0, i);
    }
    assert forall i :: 0 <= i < |out| ==> OptAt(out, i) == out[i];
  }

  /** Three instructions become one and two fillers. */
  ghost predicate Rewrites(a: Instr, b: Instr, c: Instr, fused: Instr) {
    Opt([a, b, c]) == [fused, Instr(OpNop, 0, 0), Instr(OpNop, 0, 0)]
  }

  lemma {:induction false} WindowAlone(a: Instr, b: Instr, c: Instr)
    requires IsLoad(a) && IsLoad(b) && FusableOp(c.op).Some?
    ensures Rewrites(a, b, c, Fuse(a, b, FusableOp(c.op).value))
  {
    assert FusedFrom([a, b, c], 0, 0);
    WindowOut([a, b, c], 0);
    hide OptAt, Fused, FusedFrom, Fuse;
  }

  /** The twelve windows, spelled out: which loads and which operation give which instruction. The flag
      takes the constant of a mixed pair and otherwise the first id. */
  lemma {:induction false} WindowTable(a: Instr, b: Instr, c: Instr)
    requires (a.op.OpPutK? || a.op.OpLoadLocal?) && (b.op.OpPutK? || b.op.OpLoadLocal?)
    ensures var kk, ll := a.op.OpPutK? && b.op.OpPutK?, a.op.OpLoadLocal? && b.op.OpLoadLocal?;
      var swapped := a.op.OpLoadLocal? && b.op.OpPutK?;
      var flag, wide := (if swapped then b.wide else a.wide) % 0x100, if swapped then a.wide else b.wide;
      && (c.op.OpMul? ==> Rewrites(a, b, c, Instr(if kk then OpMulKk else if ll then OpMulLl else OpMulKl, flag, wide)))
      && (c.op.OpDiv? ==> Rewrites(a, b, c, Instr(if kk then OpDivKk else if ll then OpDivLl else OpDivKl, flag, wide)))
      && (c.op.OpAdd? ==> Rewrites(a, b, c, Instr(if kk then OpAddKk else if ll then OpAddLl else OpAddKl, flag, wide)))
      && (c.op.OpSub? ==> Rewrites(a, b, c, Instr(if kk then OpSubKk else if ll then OpSubLl else OpSubKl, flag, wide)))
  {
    hide Rewrites, Opt;
    if FusableOp(c.op).Some? { WindowAlone(a, b, c); }
  }

  // ----- the scan -----

  /** The states of the transition table; `Accept` stands for the twelve replacing states. */
  datatype OptState = SStart | SK | SL | SKL | SKK | SLL | SAccept(shape: Fusion, op: BinOp)

  function Accept(shape: Fusion, op: Opcode): OptState {
    match FusableOp(op)
    case Some(b) => SAccept(shape, b)
    case None => SStart
  }

  /** optimizer_transit: an operation without an edge falls back to the start state. */
  function Transit(s: OptState, op: Opcode): OptState {
    match s
    case SStart => if op.OpPutK? then SK else if op.OpLoadLocal? then SL else SStart
    case SK => if op.OpLoadLocal? then SKL else if op.OpPutK? then SKK else SStart
    case SL => if op.OpLoadLocal? then SLL else if op.OpPutK? then SKL else SStart
    case SKL => Accept(KL, op)
    case SKK => Accept(KK, op)
    case SLL => Accept(LL, op)
    case SAccept(_, _) => SStart
  }

  /** The state after reading the `n` instructions of a block that starts at `b`. */
  function StateIn(code: seq<Instr>, b: nat, n: nat): OptState
    requires b + n <= |code| && n <= 2
  {
    if n == 0 then SStart
    else if n == 1 then Transit(SStart, code[b].op)
    else Transit(Transit(SStart, code[b].op), code[b + 1].op)
  }

  /** Everything before `b` is rewritten and the rest is untouched. */
  ghost predicate Progress(was: seq<Instr>, now: seq<Instr>, b: nat) {
    && |now| == |was| && b <= |was|
    && (forall k :: 0 <= k < b ==> now[k] == OptAt(was, k))
    && (forall k :: b <= k < |was| ==> now[k] == was[k])
    && (forall k: nat :: b <= k < |was| ==> Fused(was, k) == FusedFrom(was, b, k))
    && (forall k: nat :: k < b <= k + 2 ==> !Fused(was, k) || k + 3 <= b)
  }

  lemma {:induction false} ProgressSkip(was: seq<Instr>, now: seq<Instr>, b: nat)
    requires Progress(was, now, b) && b < |was| && !WindowAt(was, b)
    requires b + BlockLength(was, b) <= |was|
    ensures Progress(was, now, b + BlockLength(was, b))
  {
    var c := b + BlockLength(was, b);
    forall k: nat | b <= k < c
      ensures !FusedFrom(was, b, k) && !Fused(was, k)
    {
      if k > b { assert FusedFrom(was, b, k) == FusedFrom(was, c, k); }
    }
  }

  lemma {:induction false} ProgressFuse(was: seq<Instr>, now: seq<Instr>, b: nat, next: seq<Instr>)
    requires Progress(was, now, b) && WindowAt(was, b) && |next| == |was|
    requires next[b] == Fuse(was[b], was[b + 1], FusableOp(was[b + 2].op).value)
    requires next[b + 1] == NOP && next[b + 2] == NOP
    requires forall k :: 0 <= k < |was| && !(b <= k < b + 3) ==> next[k] == now[k]
    ensures Progress(was, next, b + 3)
  {
    var c := b + 3;
    assert Fused(was, b) == FusedFrom(was, b, b);
    forall k: nat | b < k < c
      ensures !FusedFrom(was, b, k) && !Fused(was, k)
    {
      assert FusedFrom(was, b, k) == FusedFrom(was, c, k);
    }
  }

  /** The tail shorter than a block is left alone. */
  lemma {:induction false} ProgressEnd(was: seq<Instr>, now: seq<Instr>, b: nat)
    requires Progress(was, now, b)
    requires b < |was| ==> b + BlockLength(was, b) > |was|
    ensures now == Opt(was)
  {
    forall k: nat | b <= k < |was|
      ensures !FusedFrom(was, b, k)
    {
    }
    forall k | 0 <= k < |was|
      ensures now[k] == OptAt(was, k)
    {
    }
  }

  lemma {:induction false} ProgressStart(code: seq<Instr>)
    ensures Progress(code, code, 0)
  {
  }

  lemma {:induction false} ProgressIs(was: seq<Instr>, now: seq<Instr>, b: nat)
    requires Progress(was, now, b)
    ensures |now| == |was| && b <= |was| && forall k :: b <= k < |was| ==> now[k] == was[k]
  {
  }

  class Optimizer {
    var sp: OptState
    var ip: nat

    constructor ()
      ensures sp == SStart && ip == 0
    {
      sp := SStart;
      ip := 0;
    }

    /** replace_binary_inst: `current` is the arithmetic instruction of the window. */
    method ReplaceBinary(code: array<Instr>, current: nat, firstOp: Opcode, secondOp: Opcode, super: Opcode)
      requires 2 <= current < code.Length
      modifies code
      ensures code[current] == NOP && code[current - 1] == NOP
      ensures forall k :: 0 <= k < code.Length && !(current - 2 <= k <= current) ==> code[k] == old(code[k])
      ensures code[current - 2] ==
              if old(code[current - 2]).op == firstOp && old(code[current - 1]).op == secondOp then
                Instr(super, old(code[current - 2]).wide % 0x100, old(code[current - 1]).wide)
              else
                Instr(super, old(code[current - 1]).wide % 0x100, old(code[current - 2]).wide)
    {
      var prev0, prev1 := code[current - 1], code[current - 2];
      if prev1.op == firstOp && prev0.op == secondOp {
        code[current - 2] := Instr(super, prev1.wide % 0x100, prev0.wide);
      } else {
        code[current - 2] := Instr(super, prev0.wide % 0x100, prev1.wide);
      }
      code[current - 1] := NOP;
      code[current] := NOP;
    }

    /** The replacer stored in an accepting state. */
    method Replace(code: array<Instr>, current: nat, shape: Fusion, op: BinOp)
      requires IsArith(op) && 2 <= current < code.Length
      requires IsLoad(code[current - 2]) && IsLoad(code[current - 1])
      requires shape == Shape(code[current - 2], code[current - 1])
      modifies code
      ensures code[current] == NOP && code[current - 1] == NOP
      ensures code[current - 2] == Fuse(old(code[current - 2]), old(code[current - 1]), op)
      ensures forall k :: 0 <= k < code.Length && !(current - 2 <= k <= current) ==> code[k] == old(code[k])
    {
      match shape
      case KL => ReplaceBinary(code, current, OpPutK, OpLoadLocal, SuperOpcode(KL, op));
      case KK => ReplaceBinary(code, current, OpPutK, OpPutK, SuperOpcode(KK, op));
      case LL => ReplaceBinary(code, current, OpLoadLocal, OpLoadLocal, SuperOpcode(LL, op));
    }

    /** optimizer_apply. */
    method Apply(code: array<Instr>)
      modifies this, code
      ensures code[..] == Opt(old(code[..]))
    {
      hide Progress, Fused, FusedFrom, OptAt, Opt, Fuse;
      ProgressStart(code[..]);
      ghost var was := code[..];
      ghost var b: nat := 0;
      ip := 0;
      sp := SStart;
      while ip < code.Length
        invariant b <= ip <= code.Length && ip - b <= 2
        invariant Progress(was, code[..], b)
        invariant ip < code.Length ==> ip - b < 3 && sp == StateIn(was, b, ip - b)
        invariant ip > b ==> IsLoad(was[b])
        invariant ip == b + 2 ==> IsLoad(was[b + 1])
        decreases code.Length - ip
      {
        ProgressIs(was, code[..], b);
        sp := Transit(sp, code[ip].op);
        if sp.SAccept? {
          ghost var now := code[..];
          Replace(code, ip, sp.shape, sp.op);
          ProgressFuse(was, now, b, code[..]);
          sp := SStart;
          b := b + 3;
        } else if sp == SStart {
          ProgressSkip(was, code[..], b);
          b := b + BlockLength(was, b);
        }
        ip := ip + 1;
      }
      ProgressEnd(was, code[..], b);
    }
  }
}
