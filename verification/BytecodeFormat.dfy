/** The serialized form of a program, and what reading a byte string as one means. */
module BytecodeFormat {
  import opened Values
  import opened Bytecode
  import opened Wrappers

  // ----- numbers -----

  function Pow256(k: nat): (p: nat)
    ensures p > 0
  {
    if k == 0 then 1 else 256 * Pow256(k - 1)
  }

  /** The low `k` bytes, least significant first. */
  function Bytes(x: nat, k: nat): (s: seq<u8>)
    ensures |s| == k
  {
    if k == 0 then [] else [x % 0x100] + Bytes(x / 0x100, k - 1)
  }

  function Number(s: seq<u8>): nat {
    if s == [] then 0 else s[0] + 0x100 * Number(s[1..])
  }

  lemma {:induction false} NumberOfBytes(x: nat, k: nat)
    requires x < Pow256(k)
    ensures Number(Bytes(x, k)) == x
  {
    if k > 0 { NumberOfBytes(x / 0x100, k - 1); }
  }

  lemma FourBytes()
    ensures Pow256(2) == 0x1_0000 && Pow256(4) == 0x1_0000_0000 && Pow256(8) == 0x1_0000_0000_0000_0000
  {
    assert Pow256(2) == 0x1_0000;
    assert Pow256(4) == 0x1_0000_0000;
    assert Pow256(6) == 0x1_0000_0000_0000;
  }

  /** Two's complement in four bytes. */
  function Signed(s: seq<u8>): i32 { Wrap32(Number(s)) }

  function Unsigned32(x: int): (n: nat)
    ensures n < 0x1_0000_0000
  {
    x % 0x1_0000_0000
  }

  lemma SignedOfBytes(x: i32)
    ensures Signed(Bytes(Unsigned32(x), 4)) == x
  {
    FourBytes();
    NumberOfBytes(Unsigned32(x), 4);
  }

  // ----- programs -----

  /** An instruction as stored: any byte can stand where an opcode is expected. */
  datatype RawInstr = RawInstr(op: u8, flag: u8, wide: u16)

  datatype RawChunk = RawChunk(code: seq<RawInstr>, consts: seq<Value>)

  datatype Prog = Prog(entry: i32, strings: seq<seq<u8>>, chunks: seq<RawChunk>)

  const MAGIC: seq<u8> := [0x54, 0x42, 0x43, 0x46]

  /** A float's four bytes, and the integer the loader makes of them. */
  datatype Floats = Floats(bytes: Float -> seq<u8>, asInt: seq<u8> -> i32)

  ghost predicate FourByteFloats(fl: Floats) { forall f :: |fl.bytes(f)| == 4 }

  function ValueBytes(v: Value, fl: Floats): seq<u8> {
    match v
    case VNil => [0, 0, 0, 0, 0]
    case VBool(b) => [1, if b then 1 else 0, 0, 0, 0]
    case VInt(i) => [2] + Bytes(Unsigned32(i), 4)
    case VReal(f) => [3] + fl.bytes(f)
    case VStr(id) => [4] + Bytes(Unsigned32(id), 4)
    case VObj(id) => [5] + Bytes(Unsigned32(id), 4)
    case VUndef => [0, 0, 0, 0, 0]
  }

  function InstrBytes(i: RawInstr): (s: seq<u8>)
    ensures |s| == 4
  {
    [i.op, i.flag] + Bytes(i.wide, 2)
  }

  function CodeBytes(code: seq<RawInstr>): seq<u8> {
    if code == [] then [] else InstrBytes(code[0]) + CodeBytes(code[1..])
  }

  function ConstBytes(vs: seq<Value>, fl: Floats): seq<u8> {
    if vs == [] then [] else ValueBytes(vs[0], fl) + ConstBytes(vs[1..], fl)
  }

  function ChunkBytes(c: RawChunk, fl: Floats): seq<u8> {
    Bytes(|c.code|, 8) + (CodeBytes(c.code) + (Bytes(|c.consts|, 8) + ConstBytes(c.consts, fl)))
  }

  function StringsBytes(ss: seq<seq<u8>>): seq<u8> {
    if ss == [] then Bytes(0, 4) else Bytes(|ss[0]|, 4) + (ss[0] + StringsBytes(ss[1..]))
  }

  function ChunksBytes(cs: seq<RawChunk>, fl: Floats): seq<u8> {
    if cs == [] then Bytes(0, 8) else ChunkBytes(cs[0], fl) + ChunksBytes(cs[1..], fl)
  }

  /** The file that holds a program. */
  function Image(p: Prog, fl: Floats): seq<u8> {
    MAGIC + (Bytes(Unsigned32(p.entry), 4) + (StringsBytes(p.strings) + ChunksBytes(p.chunks, fl)))
  }

  // ----- reading -----

  function ReadInstr(s: seq<u8>): RawInstr
    requires |s| >= 4
  {
    RawInstr(s[0], s[1], Wide(Number(s[2..4])))
  }

  /** A constant: reals become integers, and unknown tags nil. */
  function ReadValue(s: seq<u8>, fl: Floats): Value
    requires |s| >= 5
  {
    if s[0] == 1 then VBool(s[1] != 0)
    else if s[0] == 2 then VInt(Signed(s[1..5]))
    else if s[0] == 3 then VInt(fl.asInt(s[1..5]))
    else if s[0] == 4 then VStr(Wide(Signed(s[1..5])))
    else VNil
  }

  function ReadCode(acc: seq<RawInstr>, s: seq<u8>, n: nat): Option<(seq<RawInstr>, seq<u8>)>
    decreases n
  {
    if n == 0 then Some((acc, s))
    else if |s| < 4 then None
    else ReadCode(acc + [ReadInstr(s)], s[4..], n - 1)
  }

  function ReadConsts(acc: seq<Value>, s: seq<u8>, n: nat, fl: Floats): Option<(seq<Value>, seq<u8>)>
    decreases n
  {
    if n == 0 then Some((acc, s))
    else if |s| < 5 then None
    else ReadConsts(acc + [ReadValue(s, fl)], s[5..], n - 1, fl)
  }

  /** A chunk and the bytes behind it; a length of zero ends the chunks. */
  function ReadChunk(s: seq<u8>, fl: Floats): Option<(RawChunk, seq<u8>)> {
    if |s| < 8 then None
    else
      var code := ReadCode([], s[8..], Number(s[..8]));
      if code.None? || |code.value.1| < 8 then None
      else
        var t := code.value.1;
        var consts := ReadConsts([], t[8..], Number(t[..8]), fl);
        if consts.None? then None else Some((RawChunk(code.value.0, consts.value.0), consts.value.1))
  }

  datatype LoadState = StPrefix | StMeta | StStr | StChunk | StEnd | StErr

  function Stage(st: LoadState): nat {
    match st
    case StPrefix => 4
    case StMeta => 3
    case StStr => 2
    case StChunk => 1
    case _ => 0
  }

  lemma {:induction false} ReadCodeShorter(acc: seq<RawInstr>, s: seq<u8>, n: nat)
    ensures ReadCode(acc, s, n).Some? ==> |ReadCode(acc, s, n).value.1| <= |s|
    decreases n
  {
    if n > 0 && |s| >= 4 { ReadCodeShorter(acc + [ReadInstr(s)], s[4..], n - 1); }
  }

  lemma {:induction false} ReadConstsShorter(acc: seq<Value>, s: seq<u8>, n: nat, fl: Floats)
    ensures ReadConsts(acc, s, n, fl).Some? ==> |ReadConsts(acc, s, n, fl).value.1| <= |s|
    decreases n
  {
    if n > 0 && |s| >= 5 { ReadConstsShorter(acc + [ReadValue(s, fl)], s[5..], n - 1, fl); }
  }

  lemma {:induction false} ReadChunkShorter(s: seq<u8>, fl: Floats)
    ensures ReadChunk(s, fl).Some? ==> |ReadChunk(s, fl).value.1| <= |s| - 16
  {
    if |s| >= 8 {
      ReadCodeShorter([], s[8..], Number(s[..8]));
      var code := ReadCode([], s[8..], Number(s[..8]));
      if code.Some? && |code.value.1| >= 8 {
        ReadConstsShorter([], code.value.1[8..], Number(code.value.1[..8]), fl);
      }
    }
  }

  /** What a loader in state `st`, with `pg` read so far, makes of the bytes `s`: the program and the
      bytes it did not look at, or nothing. A string length of 2^31 or more is skipped, as a signed
      countdown from it ends at once. */
  function Rest(st: LoadState, pg: Prog, s: seq<u8>, fl: Floats): Option<(Prog, seq<u8>)>
    decreases |s|, Stage(st)
  {
    match st
    case StPrefix => if |s| >= 4 && s[..4] == MAGIC then Rest(StMeta, pg, s[4..], fl) else None
    case StMeta => if |s| >= 4 then Rest(StStr, pg.(entry := Signed(s[..4])), s[4..], fl) else None
    case StStr =>
      if |s| < 4 then None
      else
        var n, t := Number(s[..4]), s[4..];
        if n == 0 then Rest(StChunk, pg, t, fl)
        else if n >= 0x8000_0000 then Rest(StStr, pg, t, fl)
        else if |t| < n then None
        else Rest(StStr, pg.(strings := pg.strings + [t[..n]]), t[n..], fl)
    case StChunk =>
      if |s| >= 8 && Number(s[..8]) == 0 then Some((pg, s[8..]))
      else
        var c := ReadChunk(s, fl);
        ReadChunkShorter(s, fl);
        if c.None? then None else Rest(StChunk, pg.(chunks := pg.chunks + [c.value.0]), c.value.1, fl)
    case StEnd => Some((pg, s))
    case StErr => None
  }

  const NOTHING: Prog := Prog(0, [], [])

  function Load(s: seq<u8>, fl: Floats): Option<(Prog, seq<u8>)> { Rest(StPrefix, NOTHING, s, fl) }

  lemma {:induction false} NumberBound(s: seq<u8>)
    ensures Number(s) < Pow256(|s|)
  {
    if s != [] { NumberBound(s[1..]); }
  }

  lemma {:induction false} RestStr(pg: Prog, s: seq<u8>, fl: Floats)
    ensures |s| < 4 ==> Rest(StStr, pg, s, fl) == None
    ensures |s| >= 4 ==>
      var n, t := Number(s[..4]), s[4..];
      && (n == 0 ==> Rest(StStr, pg, s, fl) == Rest(StChunk, pg, t, fl))
      && (n >= 0x8000_0000 ==> Rest(StStr, pg, s, fl) == Rest(StStr, pg, t, fl))
      && (0 < n < 0x8000_0000 && n <= |t| ==>
        Rest(StStr, pg, s, fl) == Rest(StStr, pg.(strings := pg.strings + [t[..n]]), t[n..], fl))
      && (0 < n < 0x8000_0000 && n > |t| ==> Rest(StStr, pg, s, fl) == None)
  {
    hide ReadChunk;
  }

  lemma {:induction false} RestChunk(pg: Prog, s: seq<u8>, fl: Floats)
    ensures |s| >= 8 && Number(s[..8]) == 0 ==> Rest(StChunk, pg, s, fl) == Some((pg, s[8..]))
    ensures |s| < 8 || Number(s[..8]) != 0 ==>
      var c := ReadChunk(s, fl);
      Rest(StChunk, pg, s, fl) ==
        if c.None? then None else Rest(StChunk, pg.(chunks := pg.chunks + [c.value.0]), c.value.1, fl)
  {
    hide ReadChunk;
  }
}
