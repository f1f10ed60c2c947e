/** Loading gives back what was saved, looks at nothing behind it, and accepts nothing shorter. */
module LoadRoundTrip {
  import opened Values
  import opened Bytecode
  import opened Wrappers
  import opened BytecodeFormat

  // ----- more bytes behind -----

  lemma {:induction false} ReadCodeOn(acc: seq<RawInstr>, s: seq<u8>, n: nat, x: seq<u8>)
    requires ReadCode(acc, s, n).Some?
    ensures var r := ReadCode(acc, s, n).value; ReadCode(acc, s + x, n) == Some((r.0, r.1 + x))
    decreases n
  {
    hide ReadInstr;
    if n > 0 {
      assert (s + x)[2..4] == s[2..4] && (s + x)[4..] == s[4..] + x;
      SameInstr(s, x);
      ReadCodeOn(acc + [ReadInstr(s)], s[4..], n - 1, x);
    }
  }

  lemma {:induction false} SameInstr(s: seq<u8>, x: seq<u8>)
    requires |s| >= 4
    ensures ReadInstr(s + x) == ReadInstr(s)
  {
    assert (s + x)[2..4] == s[2..4];
  }

  lemma {:induction false} SameValue(s: seq<u8>, x: seq<u8>, fl: Floats)
    requires |s| >= 5
    ensures ReadValue(s + x, fl) == ReadValue(s, fl)
  {
    assert (s + x)[1..5] == s[1..5];
  }

  lemma {:induction false} ReadConstsOn(acc: seq<Value>, s: seq<u8>, n: nat, fl: Floats, x: seq<u8>)
    requires ReadConsts(acc, s, n, fl).Some?
    ensures var r := ReadConsts(acc, s, n, fl).value; ReadConsts(acc, s + x, n, fl) == Some((r.0, r.1 + x))
    decreases n
  {
    hide ReadValue;
    if n > 0 {
      assert (s + x)[5..] == s[5..] + x;
      SameValue(s, x, fl);
      ReadConstsOn(acc + [ReadValue(s, fl)], s[5..], n - 1, fl, x);
    }
  }

  lemma {:induction false} ReadChunkOn(s: seq<u8>, fl: Floats, x: seq<u8>)
    requires ReadChunk(s, fl).Some?
    ensures var r := ReadChunk(s, fl).value; ReadChunk(s + x, fl) == Some((r.0, r.1 + x))
  {
    assert (s + x)[..8] == s[..8] && (s + x)[8..] == s[8..] + x;
    ReadCodeOn([], s[8..], Number(s[..8]), x);
    var t := ReadCode([], s[8..], Number(s[..8])).value.1;
    assert (t + x)[..8] == t[..8] && (t + x)[8..] == t[8..] + x;
    ReadConstsOn([], t[8..], Number(t[..8]), fl, x);
  }

  /** A load that succeeds does the same in front of any further bytes, and leaves those alone. */
  lemma {:induction false} LoadsOn(st: LoadState, pg: Prog, s: seq<u8>, fl: Floats, x: seq<u8>)
    requires Rest(st, pg, s, fl).Some?
    ensures var r := Rest(st, pg, s, fl).value; Rest(st, pg, s + x, fl) == Some((r.0, r.1 + x))
    decreases |s|, Stage(st)
  {
    hide ReadChunk, Number, Signed;
    match st {
      case StPrefix =>
        assert (s + x)[..4] == s[..4] && (s + x)[4..] == s[4..] + x;
        LoadsOn(StMeta, pg, s[4..], fl, x);
      case StMeta =>
        assert (s + x)[..4] == s[..4] && (s + x)[4..] == s[4..] + x;
        LoadsOn(StStr, pg.(entry := Signed(s[..4])), s[4..], fl, x);
      case StStr =>
        assert (s + x)[..4] == s[..4] && (s + x)[4..] == s[4..] + x;
        var n, t := Number(s[..4]), s[4..];
        if n == 0 { LoadsOn(StChunk, pg, t, fl, x); }
        else if n >= 0x8000_0000 { LoadsOn(StStr, pg, t, fl, x); }
        else {
          assert (t + x)[..n] == t[..n] && (t + x)[n..] == t[n..] + x;
          LoadsOn(StStr, pg.(strings := pg.strings + [t[..n]]), t[n..], fl, x);
        }
      case StChunk =>
        if |s| >= 8 { assert (s + x)[..8] == s[..8] && (s + x)[8..] == s[8..] + x; }
        if !(|s| >= 8 && Number(s[..8]) == 0) {
          ReadChunkLong(s, fl);
          var c := ReadChunk(s, fl).value;
          ReadChunkOn(s, fl, x);
          LoadsOn(StChunk, pg.(chunks := pg.chunks + [c.0]), c.1, fl, x);
        }
      case StEnd =>
      case StErr =>
    }
  }

  lemma {:induction false} ReadChunkLong(s: seq<u8>, fl: Floats)
    requires ReadChunk(s, fl).Some?
    ensures |s| >= 8 && |ReadChunk(s, fl).value.1| < |s|
  {
    ReadChunkShorter(s, fl);
  }

  /** No proper prefix of a file that is read to its end is accepted. */
  lemma {:induction false} TruncatedRejected(t: seq<u8>, x: seq<u8>, fl: Floats)
    requires Load(t + x, fl).Some? && Load(t + x, fl).value.1 == [] && x != []
    ensures Load(t, fl).None?
  {
    hide Rest;
    if Load(t, fl).Some? { LoadsOn(StPrefix, NOTHING, t, fl, x); }
  }

  // ----- what was saved -----

  /** Lengths that fit their fields. */
  ghost predicate Encodable(p: Prog) {
    && (forall i :: 0 <= i < |p.strings| ==> |p.strings[i]| < 0x8000_0000)
    && forall i :: 0 <= i < |p.chunks| ==>
      |p.chunks[i].code| < 0x1_0000_0000_0000_0000 && |p.chunks[i].consts| < 0x1_0000_0000_0000_0000
  }

  /** Constants that survive: nil, truth values, integers and string ids of 16 bits. */
  predicate Plain(v: Value) { v.VNil? || v.VBool? || v.VInt? || (v.VStr? && v.strId < 0x1_0000) }

  ghost predicate PlainConsts(c: RawChunk) { forall i :: 0 <= i < |c.consts| ==> Plain(c.consts[i]) }

  /** Strings and chunks are not empty, and constants survive. */
  ghost predicate Storable(p: Prog) {
    && (forall i :: 0 <= i < |p.strings| ==> p.strings[i] != [])
    && forall i :: 0 <= i < |p.chunks| ==> p.chunks[i].code != [] && PlainConsts(p.chunks[i])
  }

  /** A constant after saving and loading. */
  function Norm(v: Value, fl: Floats): Value
    requires |fl.bytes(NaN)| == 4 && (v.VReal? ==> |fl.bytes(v.f)| == 4)
  {
    match v
    case VReal(f) => VInt(fl.asInt(fl.bytes(f)))
    case VStr(id) => VStr(id % 0x1_0000)
    case VObj(_) => VNil
    case VUndef => VNil
    case _ => v
  }

  lemma NormIff(v: Value, fl: Floats)
    requires FourByteFloats(fl)
    ensures Norm(v, fl) == v <==> Plain(v)
  {
  }

  lemma {:induction false} ReadValueBack(v: Value, fl: Floats, x: seq<u8>)
    requires FourByteFloats(fl)
    ensures |ValueBytes(v, fl)| == 5 && ReadValue(ValueBytes(v, fl) + x, fl) == Norm(v, fl)
  {
    hide Number, Bytes;
    var s := ValueBytes(v, fl);
    assert (s + x)[1..5] == s[1..];
    if v.VInt? { SignedOfBytes(v.i); }
    if v.VStr? { StringIdBack(v.strId); }
  }

  lemma StringIdBack(id: nat)
    ensures Wide(Signed(Bytes(Unsigned32(id), 4))) == id % 0x1_0000
  {
    FourBytes();
    NumberOfBytes(Unsigned32(id), 4);
    hide Bytes, Number;
    var n := Unsigned32(id);
    assert Signed(Bytes(n, 4)) == Wrap32(n);
    var q := (Wrap32(n) - n) / 0x1_0000_0000;
    assert Wrap32(n) == n + q * 0x1_0000 * 0x1_0000;
    var r := id / 0x1_0000_0000;
    assert id == n + r * 0x1_0000 * 0x1_0000;
    SameLow(Wrap32(n), n, q * 0x1_0000);
    SameLow(id, n, r * 0x1_0000);
  }

  lemma SameLow(a: int, b: int, k: int)
    requires a == b + k * 0x1_0000
    ensures a % 0x1_0000 == b % 0x1_0000
  {
  }

  lemma {:induction false} ReadInstrBack(i: RawInstr, x: seq<u8>)
    ensures ReadInstr(InstrBytes(i) + x) == i
  {
    FourBytes();
    NumberOfBytes(i.wide, 2);
    assert (InstrBytes(i) + x)[2..4] == Bytes(i.wide, 2);
    hide Bytes, Number;
  }

  function Norms(vs: seq<Value>, fl: Floats): (r: seq<Value>)
    requires forall f :: |fl.bytes(f)| == 4
    ensures |r| == |vs|
  {
    if vs == [] then [] else [Norm(vs[0], fl)] + Norms(vs[1..], fl)
  }

  lemma {:induction false} NormsIff(vs: seq<Value>, fl: Floats)
    requires FourByteFloats(fl)
    ensures Norms(vs, fl) == vs <==> forall i :: 0 <= i < |vs| ==> Plain(vs[i])
  {
    hide Norm, Plain;
    if vs != [] {
      NormIff(vs[0], fl);
      NormsIff(vs[1..], fl);
      assert vs == [vs[0]] + vs[1..];
      assert Norms(vs, fl)[0] == Norm(vs[0], fl) && Norms(vs, fl)[1..] == Norms(vs[1..], fl);
      assert forall i :: 0 <= i < |vs| ==> vs[i] == if i == 0 then vs[0] else vs[1..][i - 1];
    }
  }

  lemma {:induction false} ReadCodeBack(acc: seq<RawInstr>, code: seq<RawInstr>, x: seq<u8>)
    ensures ReadCode(acc, CodeBytes(code) + x, |code|) == Some((acc + code, x))
    decreases |code|
  {
    hide InstrBytes, ReadInstr;
    if code == [] {
      assert CodeBytes(code) + x == x && acc + code == acc;
    } else {
      var head, tail := InstrBytes(code[0]), CodeBytes(code[1..]) + x;
      assert CodeBytes(code) + x == head + tail;
      assert (head + tail)[4..] == tail;
      ReadInstrBack(code[0], tail);
      ReadCodeBack(acc + [code[0]], code[1..], x);
      assert acc + [code[0]] + code[1..] == acc + code;
    }
  }

  lemma {:induction false} ReadConstsBack(acc: seq<Value>, vs: seq<Value>, fl: Floats, x: seq<u8>)
    requires FourByteFloats(fl)
    ensures ReadConsts(acc, ConstBytes(vs, fl) + x, |vs|, fl) == Some((acc + Norms(vs, fl), x))
    decreases |vs|
  {
    hide ValueBytes, ReadValue, Norm;
    if vs == [] {
      assert ConstBytes(vs, fl) + x == x && acc + Norms(vs, fl) == acc;
    } else {
      var head, tail := ValueBytes(vs[0], fl), ConstBytes(vs[1..], fl) + x;
      assert ConstBytes(vs, fl) + x == head + tail;
      ReadValueBack(vs[0], fl, tail);
      assert (head + tail)[5..] == tail;
      ReadConstsBack(acc + [Norm(vs[0], fl)], vs[1..], fl, x);
      assert acc + [Norm(vs[0], fl)] + Norms(vs[1..], fl) == acc + Norms(vs, fl);
    }
  }

  function NormChunk(c: RawChunk, fl: Floats): RawChunk
    requires forall f :: |fl.bytes(f)| == 4
  {
    RawChunk(c.code, Norms(c.consts, fl))
  }

  /** A number in front of other bytes. */
  lemma {:induction false} LengthBack(n: nat, k: nat, x: seq<u8>)
    requires n < Pow256(k)
    ensures var s := Bytes(n, k) + x; |s| >= k && Number(s[..k]) == n && s[k..] == x
  {
    NumberOfBytes(n, k);
    assert (Bytes(n, k) + x)[..k] == Bytes(n, k);
  }

  lemma {:induction false} ReadChunkBack(c: RawChunk, fl: Floats, x: seq<u8>)
    requires FourByteFloats(fl) && |c.code| < 0x1_0000_0000_0000_0000 && |c.consts| < 0x1_0000_0000_0000_0000
    ensures ReadChunk(ChunkBytes(c, fl) + x, fl) == Some((NormChunk(c, fl), x))
    ensures var s := ChunkBytes(c, fl) + x; |s| >= 8 && Number(s[..8]) == |c.code|
  {
    hide Bytes, Number, ReadCode, ReadConsts;
    FourBytes();
    var consts := ConstBytes(c.consts, fl) + x;
    var middle := Bytes(|c.consts|, 8) + consts;
    var code := CodeBytes(c.code) + middle;
    assert ChunkBytes(c, fl) + x == Bytes(|c.code|, 8) + code;
    LengthBack(|c.code|, 8, code);
    ReadCodeBack([], c.code, middle);
    LengthBack(|c.consts|, 8, consts);
    ReadConstsBack([], c.consts, fl, x);
    assert [] + c.code == c.code && [] + Norms(c.consts, fl) == Norms(c.consts, fl);
  }

  // ----- the sections -----

  /** The chunks' part of a file leaves the rest of the program alone. */
  lemma {:induction false} ChunksOnly(pg: Prog, s: seq<u8>, fl: Floats)
    requires Rest(StChunk, pg, s, fl).Some?
    ensures var r := Rest(StChunk, pg, s, fl).value.0; r.strings == pg.strings && r.entry == pg.entry
    decreases |s|
  {
    hide ReadChunk;
    if !(|s| >= 8 && Number(s[..8]) == 0) {
      ReadChunkLong(s, fl);
      var c := ReadChunk(s, fl).value;
      ChunksOnly(pg.(chunks := pg.chunks + [c.0]), c.1, fl);
    }
  }

  lemma {:induction false} StringsBack(pg: Prog, ss: seq<seq<u8>>, fl: Floats, x: seq<u8>)
    requires forall i :: 0 <= i < |ss| ==> |ss[i]| < 0x8000_0000
    ensures (forall i :: 0 <= i < |ss| ==> ss[i] != []) ==>
      Rest(StStr, pg, StringsBytes(ss) + x, fl) == Rest(StChunk, pg.(strings := pg.strings + ss), x, fl)
    ensures (exists i :: 0 <= i < |ss| && ss[i] == []) && Rest(StStr, pg, StringsBytes(ss) + x, fl).Some? ==>
      |Rest(StStr, pg, StringsBytes(ss) + x, fl).value.0.strings| < |pg.strings| + |ss|
    decreases |ss|
  {
    hide Bytes, Number, Rest;
    FourBytes();
    var s := StringsBytes(ss) + x;
    if ss == [] {
      LengthBack(0, 4, x);
      RestStr(pg, s, fl);
      assert pg.strings + ss == pg.strings;
    } else {
      var tail := StringsBytes(ss[1..]) + x;
      assert s == Bytes(|ss[0]|, 4) + (ss[0] + tail);
      LengthBack(|ss[0]|, 4, ss[0] + tail);
      RestStr(pg, s, fl);
      if ss[0] == [] {
        if Rest(StStr, pg, s, fl).Some? { ChunksOnly(pg, ss[0] + tail, fl); }
      } else {
        assert (ss[0] + tail)[..|ss[0]|] == ss[0] && (ss[0] + tail)[|ss[0]|..] == tail;
        var next := pg.(strings := pg.strings + [ss[0]]);
        StringsBack(next, ss[1..], fl, x);
        assert pg.strings + [ss[0]] + ss[1..] == pg.strings + ss;
        if i :| 0 <= i < |ss| && ss[i] == [] { assert ss[1..][i - 1] == []; }
        else { assert forall i :: 0 <= i < |ss[1..]| ==> ss[1..][i] == ss[i + 1]; }
      }
    }
  }

  ghost predicate SmallChunk(c: RawChunk) {
    |c.code| < 0x1_0000_0000_0000_0000 && |c.consts| < 0x1_0000_0000_0000_0000
  }

  function NormChunks(cs: seq<RawChunk>, fl: Floats): (r: seq<RawChunk>)
    requires forall f :: |fl.bytes(f)| == 4
    ensures |r| == |cs|
  {
    if cs == [] then [] else [NormChunk(cs[0], fl)] + NormChunks(cs[1..], fl)
  }

  lemma {:induction false} ChunksBack(pg: Prog, cs: seq<RawChunk>, fl: Floats, x: seq<u8>)
    requires FourByteFloats(fl) && forall i :: 0 <= i < |cs| ==> SmallChunk(cs[i])
    ensures (forall i :: 0 <= i < |cs| ==> cs[i].code != []) ==>
      Rest(StChunk, pg, ChunksBytes(cs, fl) + x, fl) == Some((pg.(chunks := pg.chunks + NormChunks(cs, fl)), x))
    ensures (exists i :: 0 <= i < |cs| && cs[i].code == []) && Rest(StChunk, pg, ChunksBytes(cs, fl) + x, fl).Some? ==>
      |Rest(StChunk, pg, ChunksBytes(cs, fl) + x, fl).value.0.chunks| < |pg.chunks| + |cs|
    decreases |cs|
  {
    hide Bytes, Number, Rest, ReadChunk, ChunkBytes, NormChunk;
    FourBytes();
    var s := ChunksBytes(cs, fl) + x;
    if cs == [] {
      LengthBack(0, 8, x);
      RestChunk(pg, s, fl);
      assert pg.chunks + NormChunks(cs, fl) == pg.chunks;
    } else {
      var tail := ChunksBytes(cs[1..], fl) + x;
      assert s == ChunkBytes(cs[0], fl) + tail;
      ReadChunkBack(cs[0], fl, tail);
      RestChunk(pg, s, fl);
      if cs[0].code != [] {
        var c := NormChunk(cs[0], fl);
        ChunksBack(pg.(chunks := pg.chunks + [c]), cs[1..], fl, x);
        assert pg.chunks + [c] + NormChunks(cs[1..], fl) == pg.chunks + NormChunks(cs, fl);
        if i :| 0 <= i < |cs| && cs[i].code == [] { assert cs[1..][i - 1].code == []; }
        else { assert forall i :: 0 <= i < |cs[1..]| ==> cs[1..][i] == cs[i + 1]; }
      }
    }
  }

  lemma {:induction false} NormChunksIff(cs: seq<RawChunk>, fl: Floats)
    requires FourByteFloats(fl)
    ensures NormChunks(cs, fl) == cs <==> forall i :: 0 <= i < |cs| ==> PlainConsts(cs[i])
  {
    hide Norms, PlainConsts;
    if cs != [] {
      PlainIff(cs[0], fl);
      NormChunksIff(cs[1..], fl);
      assert cs == [cs[0]] + cs[1..];
      assert NormChunks(cs, fl)[0] == NormChunk(cs[0], fl) && NormChunks(cs, fl)[1..] == NormChunks(cs[1..], fl);
      assert forall i :: 0 <= i < |cs| ==> cs[i] == if i == 0 then cs[0] else cs[1..][i - 1];
    }
  }

  lemma PlainIff(c: RawChunk, fl: Floats)
    requires FourByteFloats(fl)
    ensures NormChunk(c, fl) == c <==> PlainConsts(c)
  {
    hide Norms;
    NormsIff(c.consts, fl);
  }

  // ----- the theorems -----

  lemma {:induction false} LoadImage(p: Prog, fl: Floats, x: seq<u8>)
    ensures Load(Image(p, fl) + x, fl) ==
      Rest(StStr, NOTHING.(entry := p.entry), StringsBytes(p.strings) + (ChunksBytes(p.chunks, fl) + x), fl)
  {
    hide Bytes, Number, StringsBytes, ChunksBytes;
    var body := StringsBytes(p.strings) + (ChunksBytes(p.chunks, fl) + x);
    var meta := Bytes(Unsigned32(p.entry), 4) + body;
    assert Image(p, fl) + x == MAGIC + meta;
    assert (MAGIC + meta)[..4] == MAGIC && (MAGIC + meta)[4..] == meta;
    FourBytes();
    SignedOfBytes(p.entry);
    assert meta[..4] == Bytes(Unsigned32(p.entry), 4) && meta[4..] == body;
    assert Load(MAGIC + meta, fl) == Rest(StMeta, NOTHING, meta, fl);
    assert Rest(StMeta, NOTHING, meta, fl) == Rest(StStr, NOTHING.(entry := p.entry), body, fl);
  }

  /** Saving and loading a program gives it back, whatever bytes follow, exactly when it is storable. */
  lemma {:induction false} LoadsBackIff(p: Prog, fl: Floats, x: seq<u8>)
    requires FourByteFloats(fl) && Encodable(p)
    ensures Load(Image(p, fl) + x, fl) == Some((p, x)) <==> Storable(p)
  {
    hide Rest, StringsBytes, ChunksBytes, PlainConsts, Load;
    var start := NOTHING.(entry := p.entry);
    var chunks := ChunksBytes(p.chunks, fl) + x;
    LoadImage(p, fl, x);
    StringsBack(start, p.strings, fl, chunks);
    assert [] + p.strings == p.strings;
    var next := start.(strings := p.strings);
    if forall i :: 0 <= i < |p.strings| ==> p.strings[i] != [] {
      ChunksBack(next, p.chunks, fl, x);
      NormChunksIff(p.chunks, fl);
      assert [] + NormChunks(p.chunks, fl) == NormChunks(p.chunks, fl);
    }
  }

  /** A storable program's file is read to its last byte, so every proper prefix of it is rejected. */
  lemma {:induction false} PrefixesRejected(p: Prog, fl: Floats, n: nat)
    requires FourByteFloats(fl) && Encodable(p) && Storable(p) && n < |Image(p, fl)|
    ensures Load(Image(p, fl)[..n], fl).None?
  {
    hide Load, Image, Storable, Encodable;
    var whole := Image(p, fl);
    LoadsBackIff(p, fl, []);
    assert whole + [] == whole && whole[..n] + whole[n..] == whole;
    TruncatedRejected(whole[..n], whole[n..], fl);
  }

  const SMALL_CHUNK: RawChunk := RawChunk([RawInstr(2, 1, 0x0403)], [VInt(7), VBool(true), VStr(3)])
  const SMALL_PROG: Prog := Prog(1, [[0x68, 0x69]], [SMALL_CHUNK])

  lemma SmallValues(fl: Floats)
    ensures ValueBytes(VInt(7), fl) == [2, 7, 0, 0, 0] && ValueBytes(VBool(true), fl) == [1, 1, 0, 0, 0]
    ensures ValueBytes(VStr(3), fl) == [4, 3, 0, 0, 0]
  {
    hide Bytes;
    SmallNumber(7, 4);
    SmallNumber(3, 4);
    assert seq(3, _ => 0) == [0, 0, 0];
  }

  lemma SmallCode()
    ensures CodeBytes(SMALL_CHUNK.code) == [2, 1, 3, 4]
  {
    assert Bytes(4, 1) == [4] + Bytes(0, 0) == [4];
    assert Bytes(0x0403, 2) == [3] + Bytes(4, 1);
    hide Bytes;
    assert SMALL_CHUNK.code[1..] == [] && CodeBytes([]) == [];
  }

  lemma SmallParts(fl: Floats)
    ensures CodeBytes(SMALL_CHUNK.code) == [2, 1, 3, 4]
    ensures ConstBytes(SMALL_CHUNK.consts, fl) == [2, 7, 0, 0, 0, 1, 1, 0, 0, 0, 4, 3, 0, 0, 0]
  {
    hide Bytes, ValueBytes, CodeBytes;
    SmallValues(fl);
    SmallCode();
    var tail := [VBool(true), VStr(3)];
    assert SMALL_CHUNK.consts[1..] == tail && tail[1..] == [VStr(3)] && [VStr(3)][1..] == [];
    assert ConstBytes([], fl) == [];
    assert ConstBytes([VStr(3)], fl) == [4, 3, 0, 0, 0];
    assert ConstBytes(tail, fl) == [1, 1, 0, 0, 0] + [4, 3, 0, 0, 0];
  }

  lemma SmallSections(fl: Floats)
    ensures StringsBytes(SMALL_PROG.strings) == [2, 0, 0, 0, 0x68, 0x69, 0, 0, 0, 0]
    ensures ChunksBytes(SMALL_PROG.chunks, fl) ==
      [1, 0, 0, 0, 0, 0, 0, 0, 2, 1, 3, 4, 3, 0, 0, 0, 0, 0, 0, 0]
      + [2, 7, 0, 0, 0, 1, 1, 0, 0, 0, 4, 3, 0, 0, 0] + [0, 0, 0, 0, 0, 0, 0, 0]
  {
    hide Bytes, CodeBytes, ConstBytes;
    SmallParts(fl);
    SmallNumber(2, 4);
    SmallNumber(0, 4);
    SmallNumber(1, 8);
    SmallNumber(3, 8);
    SmallNumber(0, 8);
    assert SMALL_PROG.strings[1..] == [] && SMALL_PROG.chunks[1..] == [];
    assert StringsBytes([]) == [0, 0, 0, 0] && ChunksBytes([], fl) == [0, 0, 0, 0, 0, 0, 0, 0];
  }

  /** A small file, byte by byte: the prefix, entry 1, the string "hi", one chunk of one instruction and
      the constants 7, TRUE and string 3. Numbers come with their least significant byte first. */
  lemma SmallFile(fl: Floats)
    ensures Image(SMALL_PROG, fl) ==
      [0x54, 0x42, 0x43, 0x46, 1, 0, 0, 0, 2, 0, 0, 0, 0x68, 0x69, 0, 0, 0, 0]
      + ([1, 0, 0, 0, 0, 0, 0, 0, 2, 1, 3, 4, 3, 0, 0, 0, 0, 0, 0, 0]
         + [2, 7, 0, 0, 0, 1, 1, 0, 0, 0, 4, 3, 0, 0, 0] + [0, 0, 0, 0, 0, 0, 0, 0])
  {
    hide Bytes, StringsBytes, ChunksBytes;
    SmallSections(fl);
    SmallNumber(1, 4);
  }

  /** A small number is its first byte and zeros. */
  lemma {:induction false} SmallNumber(n: nat, k: nat)
    requires n < 0x100 && k > 0
    ensures Bytes(n, k) == [n] + seq(k - 1, _ => 0)
  {
    if k > 1 { SmallNumber(0, k - 1); }
  }
}
