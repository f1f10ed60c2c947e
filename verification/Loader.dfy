/** The bytecode loader: a cursor over the input, a small read buffer and a state that a loop drives
    until the program is complete or the input is found wanting. */
module Loader {
  import opened Values
  import opened Bytecode
  import opened Wrappers
  import opened BytecodeFormat

  const CHOMP_SIZE: nat := 8

  class TBLoader {
    const data: seq<u8>
    const floats: Floats
    const chomp: array<u8>
    var pos: nat
    var state: LoadState
    var pg: Prog

    constructor (data: seq<u8>, floats: Floats)
      ensures this.data == data && this.floats == floats && pos == 0 && state == StPrefix && pg == NOTHING
      ensures Valid() && fresh(chomp)
    {
      this.data, this.floats, pos, state, pg := data, floats, 0, StPrefix, NOTHING;
      chomp := new u8[CHOMP_SIZE](_ => 0);
    }

    ghost predicate Valid()
      reads this
    {
      chomp.Length == CHOMP_SIZE && pos <= |data|
    }

    ghost function Ahead(): seq<u8>
      reads this
      requires pos <= |data|
    {
      data[pos..]
    }

    /** What the rest of the input makes of the program read so far. */
    ghost function Outcome(): Option<(Prog, seq<u8>)>
      reads this
      requires pos <= |data|
    {
      Rest(state, pg, Ahead(), floats)
    }

    predicate CanRun()
      reads this
    {
      !state.StEnd? && !state.StErr?
    }

    predicate Eos()
      reads this
    {
      pos >= |data|
    }

    // ----- reading -----

    method EatU8() returns (b: u8)
      requires Valid() && CanRun()
      modifies this`pos, this`state
      ensures Valid()
      ensures if old(pos) < |data| then state == old(state) && pos == old(pos) + 1 && b == data[old(pos)]
              else state == StErr && pos == old(pos)
    {
      if Eos() {
        state := StErr;
        return 0;
      }
      b := data[pos];
      pos := pos + 1;
    }

    /** Fills the buffer with the next `n` bytes, or with as many as there are. */
    method ChompN(n: nat) returns (ok: bool)
      requires Valid() && n <= CHOMP_SIZE
      modifies this`pos, chomp
      ensures Valid() && ok == (|data| - old(pos) >= n)
      ensures ok ==> pos == old(pos) + n && chomp[..n] == data[old(pos)..pos]
      ensures !ok ==> pos == |data|
    {
      for i := 0 to CHOMP_SIZE
        invariant pos == old(pos)
      {
        chomp[i] := 0;
      }
      var rc := 0;
      while rc < n && !Eos()
        invariant rc <= n && pos == old(pos) + rc <= |data| && chomp[..rc] == data[old(pos)..pos]
        decreases n - rc
      {
        chomp[rc] := data[pos];
        rc, pos := rc + 1, pos + 1;
      }
      ok := rc == n;
    }

    /** Reads `size` bytes as an unsigned number. */
    method EatNumber(size: nat) returns (n: nat)
      requires Valid() && CanRun() && size <= CHOMP_SIZE
      modifies this`pos, this`state, chomp
      ensures Valid()
      ensures if |data| - old(pos) >= size then
          state == old(state) && pos == old(pos) + size && n == Number(data[old(pos)..pos])
        else state == StErr && n == 0 && old(pos) <= pos
    {
      var ok := ChompN(size);
      if !ok {
        state := StErr;
        return 0;
      }
      n := Number(chomp[..size]);
    }

    // ----- the sections -----

    method EatPrefix()
      requires Valid() && state == StPrefix
      modifies this`pos, this`state, chomp
      ensures Valid() && Outcome() == old(Outcome()) && Advanced(old(state), old(pos))
    {
      var ok := ChompN(4);
      if !ok {
        state := StErr;
        return;
      }
      var valid := chomp[0] == 'T' as int && chomp[1] == 'B' as int && chomp[2] == 'C' as int
        && chomp[3] == 'F' as int;
      assert chomp[..4] == [chomp[0], chomp[1], chomp[2], chomp[3]];
      assert valid <==> chomp[..4] == MAGIC;
      state := if valid then StMeta else StErr;
    }

    method EatMeta()
      requires Valid() && state == StMeta
      modifies this`pos, this`state, this`pg, chomp
      ensures Valid() && Outcome() == old(Outcome()) && Advanced(old(state), old(pos))
    {
      var entry := EatNumber(4);
      if state.StErr? { return; }
      assert data[old(pos)..pos] == old(Ahead())[..4] && Ahead() == old(Ahead())[4..];
      pg := pg.(entry := Wrap32(entry));
      state := StStr;
    }

    /** The state machine made progress. */
    ghost predicate Advanced(st: LoadState, from: nat)
      reads this
    {
      from <= pos && (from < pos || Stage(state) < Stage(st))
    }

    method EatStr()
      requires Valid() && state == StStr
      modifies this`pos, this`state, this`pg, chomp
      ensures Valid() && Outcome() == old(Outcome()) && Advanced(old(state), old(pos))
    {
      hide Rest, Number;
      ghost var s := Ahead();
      RestStr(pg, s, floats);
      var n := EatNumber(4);
      if state.StErr? {
        RestErr(pg, Ahead(), floats);
        return;
      }
      ghost var from, t := pos, Ahead();
      assert t == s[4..] && data[old(pos)..pos] == s[..4];
      NumberBound(s[..4]);
      FourBytes();
      if n == 0 {
        state := StChunk;
        return;
      }
      var temp: seq<u8> := [];
      var rc: int := Wrap32(n);
      ghost var counts := n < 0x8000_0000;
      assert n - rc == if counts then 0 else 0x1_0000_0000;
      while rc > 0
        invariant Valid() && state == StStr && pg == old(pg)
        invariant if counts then rc >= 0 && |temp| + rc == n && pos == from + |temp| && temp == data[from..pos]
                  else rc < 0 && pos == from
      {
        var c := EatU8();
        if state.StErr? { break; }
        temp := temp + [c];
        rc := rc - 1;
      }
      if rc != 0 {
        RestErr(pg, Ahead(), floats);
        return;
      }
      assert temp == t[..n] && Ahead() == t[n..];
      pg := pg.(strings := pg.strings + [temp]);
      state := StStr;
    }

    method EatCode(n: nat) returns (code: seq<RawInstr>)
      requires Valid() && CanRun()
      modifies this`pos, this`state, chomp
      ensures Valid() && old(pos) <= pos
      ensures var r := ReadCode([], old(Ahead()), n);
        if r.None? then state == StErr else state == old(state) && r.value == (code, Ahead())
    {
      code := [];
      ghost var s := Ahead();
      var rc: nat := n;
      while rc > 0
        invariant Valid() && state == old(state) && old(pos) <= pos && rc <= n
        invariant ReadCode(code, Ahead(), rc) == ReadCode([], s, n)
      {
        ghost var t := Ahead();
        var op := EatU8();
        if state.StErr? { break; }
        var flag := EatU8();
        if state.StErr? { break; }
        ghost var from := pos;
        var arg := EatNumber(2);
        if state.StErr? { break; }
        assert t[2..4] == data[from..pos] && t[4..] == Ahead();
        code := code + [RawInstr(op, flag, Wide(arg))];
        rc := rc - 1;
      }
    }

    method EatConsts(n: nat) returns (consts: seq<Value>)
      requires Valid() && CanRun()
      modifies this`pos, this`state, chomp
      ensures Valid() && old(pos) <= pos
      ensures var r := ReadConsts([], old(Ahead()), n, floats);
        if r.None? then state == StErr else state == old(state) && r.value == (consts, Ahead())
    {
      consts := [];
      ghost var s := Ahead();
      var rc: nat := n;
      while rc > 0
        invariant Valid() && state == old(state) && old(pos) <= pos && rc <= n
        invariant ReadConsts(consts, Ahead(), rc, floats) == ReadConsts([], s, n, floats)
      {
        ghost var t := Ahead();
        var tag := EatU8();
        if state.StErr? { break; }
        ghost var from := pos;
        var ok := ChompN(4);
        if !ok { break; }
        assert t[1..5] == data[from..pos] == chomp[..4] && t[5..] == Ahead();
        var v := VNil;
        match tag {
          case 1 => v := VBool(chomp[0] != 0);
          case 2 => v := VInt(Signed(chomp[..4]));
          case 3 => v := VInt(floats.asInt(chomp[..4]));
          case 4 => v := VStr(Wide(Signed(chomp[..4])));
          case _ =>
        }
        consts := consts + [v];
        rc := rc - 1;
      }
      if rc != 0 { state := StErr; }
    }

    method EatChunk()
      requires Valid() && state == StChunk
      modifies this`pos, this`state, this`pg, chomp
      ensures Valid() && Outcome() == old(Outcome()) && Advanced(old(state), old(pos))
    {
      hide Rest, Number, ReadCode, ReadConsts;
      ghost var s := Ahead();
      RestChunk(pg, s, floats);
      var n := EatNumber(8);
      if state.StErr? {
        RestErr(pg, Ahead(), floats);
        return;
      }
      assert Ahead() == s[8..] && data[old(pos)..pos] == s[..8];
      if n == 0 {
        state := StEnd;
        RestEnd(pg, Ahead(), floats);
        return;
      }
      var code := EatCode(n);
      if state.StErr? {
        RestErr(pg, Ahead(), floats);
        return;
      }
      ghost var from, t := pos, Ahead();
      var k := EatNumber(8);
      if state.StErr? {
        RestErr(pg, Ahead(), floats);
        return;
      }
      assert Ahead() == t[8..] && data[from..pos] == t[..8];
      var consts := EatConsts(k);
      if state.StErr? {
        RestErr(pg, Ahead(), floats);
        return;
      }
      pg := pg.(chunks := pg.chunks + [RawChunk(code, consts)]);
      state := StChunk;
    }

    // ----- the whole input -----

    method Dispatch()
      requires Valid() && state == StPrefix
      modifies this`pos, this`state, this`pg, chomp
      ensures Valid() && !CanRun() && Outcome() == old(Outcome())
    {
      while CanRun()
        invariant Valid() && Outcome() == old(Outcome())
        decreases |data| - pos, Stage(state)
      {
        match state {
          case StPrefix => EatPrefix();
          case StMeta => EatMeta();
          case StStr => EatStr();
          case StChunk => EatChunk();
          case StEnd => break;
          case StErr => break;
        }
      }
    }

    /** Reads a program, or nothing if the input is damaged. */
    method LoadFrom() returns (program: Option<Prog>)
      requires Valid() && state == StPrefix && pos == 0 && pg == NOTHING
      modifies this`pos, this`state, this`pg, chomp
      ensures Valid() && (state.StEnd? || state.StErr?) && (program.Some? <==> state.StEnd?)
      ensures var r := Load(data, floats);
        if r.None? then program == None else program == Some(r.value.0) && r.value.1 == data[pos..]
    {
      assert data[0..] == data;
      Dispatch();
      program := if state.StErr? then None else Some(pg);
    }
  }

  lemma {:induction false} RestErr(pg: Prog, s: seq<u8>, fl: Floats)
    ensures Rest(StErr, pg, s, fl) == None
  {
  }

  lemma {:induction false} RestEnd(pg: Prog, s: seq<u8>, fl: Floats)
    ensures Rest(StEnd, pg, s, fl) == Some((pg, s))
  {
  }
}
