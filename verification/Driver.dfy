/** From source text to result: compile, optimize every chunk, run. */
module Driver {
  import opened Values
  import opened Wrappers
  import opened Bytecode
  import opened Machine
  import opened Scoping
  import opened ProgramSpec
  import opened Semantics
  import opened Programs
  import opened Parser
  import opened OptimizerRefinement
  import opened EndToEnd
  import opened Vm
  import Compiler
  import Optimizer

  /** The machine's stack has room for every state of the run, and one slot more. */
  ghost predicate Roomy(img: Image, capacity: nat) {
    forall j: nat :: |Run(img, j, Initial(0)).stack| < capacity
  }

  /** driver_compile: the chunks of a source without errors, optimized one by one. */
  method Compile(source: Toks) returns (program: Option<seq<Chunk>>)
    ensures program.Some? <==> SourceChunks(source).Some?
    ensures program.Some? ==>
      && |program.value| == |SourceChunks(source).value|
      && forall k :: 0 <= k < |program.value| ==> program.value[k] == OptChunk(SourceChunks(source).value[k])
  {
    hide SourceChunks, Optimizer.Opt, OptChunk;
    var compiler := new Compiler.Compiler(source);
    program := compiler.DoSource();
    if program.None? { return; }
    var chunks := program.value;
    var optimizer := new Optimizer.Optimizer();
    var done: seq<Chunk> := [];
    for k := 0 to |chunks|
      invariant |done| == k && forall j :: 0 <= j < k ==> done[j] == OptChunk(chunks[j])
    {
      var old_code := chunks[k].code;
      var code := new Instr[|old_code|](i requires 0 <= i < |old_code| => old_code[i]);
      assert code[..] == old_code;
      optimizer.Apply(code);
      OptChunkIs(chunks[k]);
      done := done + [Chunk(code[..], chunks[k].consts)];
    }
    program := Some(done);
  }

  lemma OptChunkIs(c: Chunk)
    ensures OptChunk(c) == Chunk(Optimizer.Opt(c.code), c.consts)
  {
    hide Optimizer.Opt;
  }

  /** What the source's text, its meaning and the machine have to satisfy for a run to be promised. */
  ghost predicate Promised(source: Toks, objTruth: int -> bool, n: nat, capacity: nat) {
    && ParseProgram(source).Some? && TopsResult(ParseProgram(source).value, START).Some?
    && (var tops := ParseProgram(source).value;
        && Sized(TreeChunks(tops).value, Funs(tops, START), TopsResult(tops, START).value.sc)
        && Finishes(ProgramMeaning(tops, objTruth, n)))
    && SourceChunks(source).Some?
    && (forall i :: 0 <= i < |SourceChunks(source).value| ==> WindowsSafe(SourceChunks(source).value[i].code))
    && capacity > 0 && Roomy(OptImage(Image(SourceChunks(source).value, objTruth)), capacity)
  }

  /** Compiling, optimizing and running a program that means something gives what it means. */
  method Interpret(source: Toks, objTruth: int -> bool, capacity: nat, ghost n: nat)
      returns (status: Status, result: Value, err: Value)
    requires Promised(source, objTruth, n, capacity)
    ensures var out := ProgramMeaning(ParseProgram(source).value, objTruth, n);
      && (out.Normal? ==> status.StatusOk?)
      && (out.Retn? ==> status.StatusOk? && (out.v != VUndef ==> result == out.v))
      && (out.SThrow? ==> status.StatusErrThrow? && err == out.st.err)
  {
    hide Promised, ProgramMeaning, Run, Fits, Finishes;
    SourceCompiles(source, objTruth, n, capacity);
    var program := Compile(source);
    var img := Image(program.value, objTruth);
    ghost var h, k := PromisedRun(source, objTruth, n, capacity, img);
    var vm := new Vm(img, 0, capacity);
    result := vm.Execute(0, k);
    status, err := vm.status, vm.err;
  }

  lemma {:induction false} SourceCompiles(source: Toks, objTruth: int -> bool, n: nat, capacity: nat)
    requires Promised(source, objTruth, n, capacity)
    ensures SourceChunks(source).Some? && ParseProgram(source).Some? && capacity > 0
  {
    hide SourceChunks, Sized, Finishes, WindowsSafe, Roomy;
  }

  /** The run that the machine is going to make. */
  lemma {:induction false} PromisedRun(source: Toks, objTruth: int -> bool, n: nat, capacity: nat, img: Image)
      returns (h: State, k: nat)
    requires Promised(source, objTruth, n, capacity) && SourceChunks(source).Some? && img.objTruth == objTruth
    requires |img.chunks| == |SourceChunks(source).value|
    requires forall i :: 0 <= i < |img.chunks| ==> img.chunks[i] == OptChunk(SourceChunks(source).value[i])
    ensures Run(img, k, Initial(0)) == h && Ended(h, ProgramMeaning(ParseProgram(source).value, objTruth, n))
    ensures Alive(img, k, Initial(0)) && Fits(img, k, Initial(0), capacity)
    ensures forall i :: 0 <= i < |img.chunks| ==> |img.chunks[i].code| < 0x1_0000
  {
    hide SourceChunks, Run, Sized, Finishes, WindowsSafe, ProgramMeaning, Ended;
    var plain := Image(SourceChunks(source).value, objTruth);
    assert img.chunks == OptImage(plain).chunks;
    h, k := SourceToOptimizedRun(source, objTruth, n);
    SourceIsTree(source);
    ShortChunks(SourceChunks(source).value, Funs(ParseProgram(source).value, START),
        TopsResult(ParseProgram(source).value, START).value.sc);
    EndedHalts(h, ProgramMeaning(ParseProgram(source).value, objTruth, n));
  }

  lemma {:induction false} ShortChunks(chunks: seq<Chunk>, fs: seq<FunDef>, fin: Scope)
    requires Sized(chunks, fs, fin)
    ensures forall i :: 0 <= i < |chunks| ==> |OptChunk(chunks[i]).code| < 0x1_0000
  {
  }
}
