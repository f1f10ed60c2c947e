/** The single-pass compiler: it walks the tokens once, writes instructions as it goes and patches
    jumps when their targets become known. Every method is proved to do to the buffers exactly what
    parsing the phrase, declaring its names and generating its code would do; it reports failure
    exactly when one of these is impossible. */
module Compiler {
  import opened Wrappers
  import opened Bytecode
  import opened Syntax
  import opened Parser
  import opened Scoping
  import opened Codegen
  import opened Backpatch
  import opened CompileSpec
  import opened CompileStmtSpec
  import opened LadderSpec
  import opened CompileSteps
  import opened ProgramSpec

  class Compiler {
    var rest: Toks
    var code: Code
    var scope: Scope
    var loops: seq<OpenLoop>
    var saved: Option<Ref>
    var errors: nat
    var chunks: seq<Chunk>

    constructor (source: Toks)
      ensures rest == source && code == [] && loops == [] && saved == None && errors == 0 && chunks == []
      ensures scope == Scope([], [], [], false, 0, 0, [])
    {
      rest, code, loops, saved, errors, chunks := source, [], [], None, 0, [];
      scope := Scope([], [], [], false, 0, 0, []);
    }

    ghost function Now(): Snap
      reads this
    {
      Snap(rest, code, scope, loops)
    }

    // ----- tokens, tables, instructions -----

    method EatTk()
      modifies `rest
      ensures rest == Eat(old(rest))
    {
      if rest != [] { rest := rest[1..]; }
    }

    method Warn()
      modifies `errors
      ensures errors == old(errors) + 1
    {
      errors := errors + 1;
    }

    method EmitOp(i: Instr)
      modifies `code
      ensures code == old(code) + [i]
    {
      code := code + [i];
    }

    /** Writes a displacement that has become known. */
    method PatchWide(pos: nat, displacement: int)
      requires pos < |code|
      modifies `code
      ensures code == old(code)[pos := old(code)[pos].(wide := Wide(displacement))]
    {
      code := code[pos := code[pos].(wide := Wide(displacement))];
    }

    method ResolveName(x: string) returns (r: Option<Ref>)
      ensures r == Resolve(scope, x)
    {
      var f := Find(scope.funcs, x, Func);
      if f.Some? { return Some(FunRef(f.value)); }
      var g := Find(scope.mains, x, GlobalVar);
      if g.Some? { return Some(GlobRef(g.value)); }
      var l := Find(scope.locals, x, Local);
      if l.Some? { return Some(LocRef(l.value)); }
      return None;
    }

    /** Records a constant and returns its id. */
    method RecordConstant(lex: string) returns (id: nat)
      requires Sound(scope)
      modifies `scope
      ensures scope == RecordConst(old(scope), lex) && Some(id) == ConstId(scope, lex)
    {
      RecordConstExtends(scope, lex);
      var r := Find(if scope.inFun then scope.locals else scope.mains, lex, Constant);
      if r.Some? {
        id := r.value;
      } else {
        id := |scope.consts|;
        var s := Symbol(lex, id, Constant);
        LookupPush(Current(scope), s, lex, Constant);
        if scope.inFun {
          scope := scope.(locals := scope.locals + [s], consts := scope.consts + [NumValue(lex)]);
        } else {
          scope := scope.(mains := scope.mains + [s], consts := scope.consts + [NumValue(lex)]);
        }
      }
    }

    /** Records a variable of the current scope and returns the instruction that stores to it. */
    method RecordVariable(x: string) returns (store: Instr)
      requires Sound(scope)
      modifies `scope
      ensures scope == RecordVar(old(scope), x) && store == StoreRef(VarRef(scope, x)) && Sound(scope)
    {
      if scope.inFun {
        var r := Find(scope.locals, x, Local);
        if r.Some? {
          store := OpWide(OpStoreLocal, r.value);
        } else {
          var id := scope.nLoc + 1;
          LookupPush(scope.locals, Symbol(x, id, Local), x, Local);
          scope := scope.(locals := scope.locals + [Symbol(x, id, Local)], nLoc := id);
          store := OpWide(OpStoreLocal, id);
        }
      } else {
        var r := Find(scope.mains, x, GlobalVar);
        if r.Some? {
          store := OpWide(OpSetGvar, r.value);
        } else {
          var id := scope.nGlob;
          LookupPush(scope.mains, Symbol(x, id, GlobalVar), x, GlobalVar);
          scope := scope.(mains := scope.mains + [Symbol(x, id, GlobalVar)], nGlob := id + 1);
          store := OpWide(OpSetGvar, id);
        }
      }
    }

    // ----- the expression ladder -----

    method DoNumber(lex: string) returns (h: Hint)
      requires Sound(scope) && At(rest, TkNum(lex))
      modifies `rest, `code, `scope, `errors
      ensures ExprPost(ParseLiteral(old(rest)), old(Now()), Now(), h) && TargetKept(old(saved), saved, h)
    {
      hide GenExpr, DeclExpr, RecordConst, Wide, Resolve;
      NumberIs(lex, rest, scope);
      ghost var was := Now();
      var id := RecordConstant(lex);
      EatTk();
      if At(rest, TkBind) {
        Warn();
        return Dead;
      }
      EmitOp(OpWide(OpPutK, id));
      ExprPostSound(ParseLiteral(was.rest), was);
      return Done;
    }

    method DoName(x: string) returns (h: Hint)
      requires Sound(scope) && At(rest, TkIdent(x))
      modifies `rest, `code, `saved, `errors
      ensures ExprPost(ParseLiteral(old(rest)), old(Now()), Now(), h) && TargetKept(old(saved), saved, h)
    {
      var r := ResolveName(x);
      EatTk();
      if r.None? {
        Warn();
        return Dead;
      }
      if At(rest, TkBind) {
        if !r.value.FunRef? { saved := r; }
        return Target(r.value);
      }
      EmitOp(LoadRef(r.value));
      return Done;
    }

    method DoGroup() returns (h: Hint)
      requires Sound(scope) && At(rest, TkLParen)
      modifies `rest, `code, `scope, `saved, `errors
      ensures ExprPost(ParseLiteral(old(rest)), old(Now()), Now(), h) && TargetKept(old(saved), saved, h)
      decreases |rest|, 0, 0
    {
      hide ParseLiteral, ParseOr, DeclExpr, GenExpr, Resolve, Sound, Wide;
      GroupParse(rest);
      EatTk();
      ghost var here := Now();
      var inner := DoOr();
      if !inner.Done? {
        if NameTarget(here.rest) { TargetFails(here.rest); }
        return Dead;
      }
      if !At(rest, TkRParen) {
        Warn();
        return Dead;
      }
      EatTk();
      return Done;
    }

    method DoLiteral() returns (h: Hint)
      requires Sound(scope)
      modifies `rest, `code, `scope, `saved, `errors
      ensures ExprPost(ParseLiteral(old(rest)), old(Now()), Now(), h) && TargetKept(old(saved), saved, h)
      decreases |rest|, 0, 1
    {
      ghost var was := Now();
      if rest == [] {
        Warn();
        return Dead;
      }
      match rest[0]
      case TkNil =>
        EmitOp(Op(OpPutNone));
        EatTk();
        return Done;
      case TkTrue =>
        EmitOp(Instr(OpPutBool, 1, 0));
        EatTk();
        return Done;
      case TkFalse =>
        EmitOp(Instr(OpPutBool, 0, 0));
        EatTk();
        return Done;
      case TkNum(lex) =>
        h := DoNumber(lex);
      case TkIdent(x) =>
        h := DoName(x);
      case TkLParen =>
        h := DoGroup();
      case _ =>
        Warn();
        return Dead;
    }

    method DoCall() returns (h: Hint)
      requires Sound(scope)
      modifies `rest, `code, `scope, `saved, `errors
      ensures ExprPost(ParseCall(old(rest)), old(Now()), Now(), h) && TargetKept(old(saved), saved, h)
      decreases |rest|, 1
    {
      hide ExprPost, ExprResult, ArgsResult, ParseLiteral, ParseArgs, ParseCall, ParseUnary, ParseCoal,
           ParseLevel, ParseAnd, ParseOr, LevelInv, Sound, DeclExpr, GenExpr, Resolve;
      ghost var was := Now();
      h := DoLiteral();
      PostIs(ParseLiteral(was.rest), was, Now(), h);
      if !h.Done? || !At(rest, TkLParen) {
        CallLift(was, Now(), h);
        return;
      }
      ghost var callee := Now();
      EatTk();
      var argCount := 0;
      ghost var start := Now();
      while rest != [] && !At(rest, TkRParen)
        invariant Sound(scope) && saved == old(saved) && |rest| <= |start.rest| < |was.rest|
        invariant ArgsInv(start, Now(), argCount)
        decreases |rest|
      {
        ghost var here := Now();
        var arg := DoLevel(8);
        PostIs(ParseLevel(8, here.rest), here, Now(), arg);
        if !arg.Done? {
          ArgFails(was, callee, start, here, argCount);
          PostDead(ParseCall(was.rest), was, Now());
          return Dead;
        }
        ArgDone(start, here, Now(), argCount);
        argCount := argCount + 1;
        if At(rest, TkComma) {
          EatTk();
        }
      }
      ghost var last := Now();
      EatTk();
      EmitOp(OpWide(OpCall, argCount));
      CallDone(was, callee, start, last, argCount, Now());
      PostDone(ParseCall(was.rest), was, Now());
      return Done;
    }

    method DoUnary() returns (h: Hint)
      requires Sound(scope)
      modifies `rest, `code, `scope, `saved, `errors
      ensures ExprPost(ParseUnary(old(rest)), old(Now()), Now(), h) && TargetKept(old(saved), saved, h)
      decreases |rest|, 2
    {
      hide ExprPost, ExprResult, ArgsResult, ParseLiteral, ParseArgs, ParseCall, ParseUnary, ParseCoal,
           ParseLevel, ParseAnd, ParseOr, LevelInv, Sound, DeclExpr, GenExpr, Resolve;
      ghost var was := Now();
      if At(rest, TkNullish) || At(rest, TkBitNot) {
        var op := if At(rest, TkNullish) then OpChkNone else OpBitNot;
        EatTk();
        ghost var here := Now();
        var inner := DoCall();
        PostIs(ParseCall(here.rest), here, Now(), inner);
        if !inner.Done? {
          PrefixFails(was, here);
          PostDead(ParseUnary(was.rest), was, Now());
          return Dead;
        }
        ghost var m := Now();
        EmitOp(Op(op));
        PrefixDone(was, here, m, op);
        PostDone(ParseUnary(was.rest), was, Now());
        return Done;
      }
      PlainUnary(rest);
      h := DoCall();
    }

    /** The jump past the right side's value, and both displacements of `??`. */
    method CloseCoal(jumpNil: nat)
      requires jumpNil < |code|
      modifies `code
      ensures var past, all := |old(code)|, old(code) + [Op(OpJmp)];
        var more := all[jumpNil := all[jumpNil].(wide := Wide(past + 1 - jumpNil))] + [POP];
        code == more[past := more[past].(wide := Wide(2))]
    {
      hide Wide;
      var jumpPast := |code|;
      EmitOp(Op(OpJmp));
      var nilEnd := |code|;
      PatchWide(jumpNil, nilEnd - jumpNil);
      EmitOp(POP);
      PatchWide(jumpPast, nilEnd + 1 - jumpPast);
    }

    method DoNullCoal() returns (h: Hint)
      requires Sound(scope)
      modifies `rest, `code, `scope, `saved, `errors
      ensures ExprPost(ParseLevel(0, old(rest)), old(Now()), Now(), h) && TargetKept(old(saved), saved, h)
      decreases |rest|, 3
    {
      hide Wide, ExprPost, ExprResult, ArgsResult, ParseLiteral, ParseArgs, ParseCall, ParseUnary, ParseCoal,
           ParseLevel, ParseAnd, ParseOr, LevelInv, Sound, DeclExpr, GenExpr, Resolve;
      ghost var was := Now();
      h := DoUnary();
      PostIs(ParseUnary(was.rest), was, Now(), h);
      if !h.Done? || !At(rest, TkNullCoal) {
        CoalLift(was, Now(), h);
        return;
      }
      ghost var left := Now();
      EatTk();
      EmitOp(Op(OpChkNone));
      var jumpNil := |code|;
      EmitOp(Op(OpJmpFalse));
      EmitOp(POP);
      ghost var mid := Now();
      assert mid.code == left.code + [Op(OpChkNone), Op(OpJmpFalse), POP];
      var right := DoUnary();
      PostIs(ParseUnary(mid.rest), mid, Now(), right);
      if !right.Done? {
        CoalFails(was, left, mid);
        PostDead(ParseLevel(0, was.rest), was, Now());
        return Dead;
      }
      ghost var m2 := Now();
      ResultExtends(ParseUnary(mid.rest), mid, m2);
      CloseCoal(jumpNil);
      CoalDone(was, left, mid, m2, Now());
      PostDone(ParseLevel(0, was.rest), was, Now());
      return Done;
    }

    method DoLevel(k: nat) returns (h: Hint)
      requires Sound(scope) && k <= 8
      modifies `rest, `code, `scope, `saved, `errors
      ensures ExprPost(ParseLevel(k, old(rest)), old(Now()), Now(), h) && TargetKept(old(saved), saved, h)
      decreases |rest|, 4 + 2 * k
    {
      hide ExprPost, ExprResult, ArgsResult, ParseLiteral, ParseArgs, ParseCall, ParseUnary, ParseCoal,
           ParseLevel, ParseAnd, ParseOr, LevelInv, Sound, DeclExpr, GenExpr, Resolve;
      if k == 0 {
        h := DoNullCoal();
        return;
      }
      ghost var was := Now();
      h := DoLevel(k - 1);
      PostIs(ParseLevel(k - 1, was.rest), was, Now(), h);
      if !h.Done? {
        LevelLift(k, was, Now(), h);
        return;
      }
      LevelStart(k, was);
      ResultParsed(ParseLevel(k - 1, was.rest), was);
      ghost var lhs := LeftOf(k, was);
      while Continues(rest, k)
        invariant LevelInv(k, was, lhs, Now()) && Sound(scope) && saved == old(saved)
        invariant |rest| < |was.rest|
        decreases |rest|
      {
        var op := rest[0].op;
        LevelStep(k, was, lhs, Now());
        EatTk();
        ghost var here := Now();
        var rhs := DoLevel(k - 1);
        PostIs(ParseLevel(k - 1, here.rest), here, Now(), rhs);
        if !rhs.Done? {
          if NameTarget(here.rest) { TargetLevel(k - 1, here.rest); NoResult(ParseLevel(k - 1, here.rest), here); }
          PostDead(ParseLevel(k, was.rest), was, Now());
          return Dead;
        }
        ResultParsed(ParseLevel(k - 1, here.rest), here);
        lhs := Bin(op, lhs, LeftOf(k, here));
        EmitOp(Op(BinOpcode(op)));
      }
      LevelEnd(k, was, lhs, Now());
      PostDone(ParseLevel(k, was.rest), was, Now());
      return Done;
    }

    /** The open jump of `&&` or `||` and the pop on its other path. */
    method OpenShortcut(op: Opcode) returns (jump: nat)
      modifies `code
      ensures jump == |old(code)| && code == old(code) + [Op(op), POP]
    {
      jump := |code|;
      EmitOp(Op(op));
      EmitOp(POP);
    }

    method CloseShortcut(jump: nat)
      requires jump < |code|
      modifies `code
      ensures var all := old(code) + [Op(OpNop)];
        code == all[jump := all[jump].(wide := Wide(|old(code)| - jump))]
    {
      var end := |code|;
      EmitOp(Op(OpNop));
      PatchWide(jump, end - jump);
    }

    method DoAnd() returns (h: Hint)
      requires Sound(scope)
      modifies `rest, `code, `scope, `saved, `errors
      ensures ExprPost(ParseAnd(old(rest)), old(Now()), Now(), h) && TargetKept(old(saved), saved, h)
      decreases |rest|, 22
    {
      hide Wide, ExprPost, ExprResult, ArgsResult, ParseLiteral, ParseArgs, ParseCall, ParseUnary, ParseCoal,
           ParseLevel, ParseAnd, ParseOr, LevelInv, Sound, DeclExpr, GenExpr, Resolve;
      ghost var was := Now();
      h := DoLevel(8);
      PostIs(ParseLevel(8, was.rest), was, Now(), h);
      if !h.Done? || !At(rest, TkAnd) {
        AndLift(was, Now(), h);
        return;
      }
      ghost var left := Now();
      EatTk();
      var jump := OpenShortcut(OpJmpFalse);
      ghost var mid := Now();
      var right := DoLevel(8);
      PostIs(ParseLevel(8, mid.rest), mid, Now(), right);
      if !right.Done? {
        AndFails(was, left, mid);
        PostDead(ParseAnd(was.rest), was, Now());
        return Dead;
      }
      ghost var m2 := Now();
      ResultExtends(ParseLevel(8, mid.rest), mid, m2);
      CloseShortcut(jump);
      AndDone(was, left, mid, m2, Now());
      PostDone(ParseAnd(was.rest), was, Now());
      return Done;
    }

    method DoOr() returns (h: Hint)
      requires Sound(scope)
      modifies `rest, `code, `scope, `saved, `errors
      ensures ExprPost(ParseOr(old(rest)), old(Now()), Now(), h) && TargetKept(old(saved), saved, h)
      decreases |rest|, 23
    {
      hide Wide, ExprPost, ExprResult, ArgsResult, ParseLiteral, ParseArgs, ParseCall, ParseUnary, ParseCoal,
           ParseLevel, ParseAnd, ParseOr, LevelInv, Sound, DeclExpr, GenExpr, Resolve;
      ghost var was := Now();
      h := DoAnd();
      PostIs(ParseAnd(was.rest), was, Now(), h);
      if !h.Done? || !At(rest, TkOr) {
        OrLift(was, Now(), h);
        return;
      }
      ghost var left := Now();
      EatTk();
      var jump := OpenShortcut(OpJmpIf);
      ghost var mid := Now();
      var right := DoAnd();
      PostIs(ParseAnd(mid.rest), mid, Now(), right);
      if !right.Done? {
        OrFails(was, left, mid);
        PostDead(ParseOr(was.rest), was, Now());
        return Dead;
      }
      ghost var m2 := Now();
      ResultExtends(ParseAnd(mid.rest), mid, m2);
      CloseShortcut(jump);
      OrDone(was, left, mid, m2, Now());
      PostDone(ParseOr(was.rest), was, Now());
      return Done;
    }

    // ----- statements -----

    /** Runs the two patch loops that close a loop. */
    method PatchLoop(lp: OpenLoop, brk: nat, cont: nat)
      requires forall k :: k in lp.breaks ==> k < |code|
      requires forall k :: k in lp.conts ==> k < |code|
      modifies `code
      ensures code == PatchAll(old(code), lp, brk, cont)
    {
      ghost var was := code;
      for i := 0 to |lp.breaks|
        invariant |code| == |was|
        invariant forall k :: 0 <= k < |was| ==> code[k] == PatchAt(was[k], k, lp.breaks[..i], [], brk, cont)
      {
        var p := lp.breaks[i];
        assert p in lp.breaks && lp.breaks[..i + 1] == lp.breaks[..i] + [p];
        code := code[p := code[p].(wide := Wide(brk - p))];
      }
      assert lp.breaks[..|lp.breaks|] == lp.breaks;
      for i := 0 to |lp.conts|
        invariant |code| == |was|
        invariant forall k :: 0 <= k < |was| ==> code[k] == PatchAt(was[k], k, lp.breaks, lp.conts[..i], brk, cont)
      {
        var p := lp.conts[i];
        assert p in lp.conts && lp.conts[..i + 1] == lp.conts[..i] + [p];
        code := code[p := code[p].(wide := Wide(p - cont))];
        code := code[p := code[p].(flag := 1)];
      }
      assert lp.conts[..|lp.conts|] == lp.conts;
    }

    method EatSemi() returns (ok: bool)
      modifies `rest, `errors
      ensures ok == Semi(old(Now())).Some? && (ok ==> Now() == Semi(old(Now())).value)
    {
      if !At(rest, TkSemi) {
        Warn();
        return false;
      }
      EatTk();
      return true;
    }

    /** An expression whose value is used: a lone assignment target is an error here. */
    method DoExpr() returns (ok: bool)
      requires Sound(scope)
      modifies `rest, `code, `scope, `saved, `errors
      ensures ValuePost(ParseOr(old(rest)), old(Now()), Now(), ok)
      ensures ok ==> saved == old(saved)
      decreases |rest|, 24
    {
      ghost var was := Now();
      var h := DoOr();
      ValueIs(was, Now(), h);
      ok := h.Done?;
    }

    /** A test and the jump that leaves when it fails; the jump is still open. */
    method DoTest() returns (ok: bool, jump: nat)
      requires Sound(scope)
      modifies `rest, `code, `scope, `saved, `errors
      ensures ok == ExprResult(ParseOr(old(rest)), old(Now())).Some?
      ensures ok ==>
        |rest| < |old(rest)| && Sound(scope) && jump == |ExprResult(ParseOr(old(rest)), old(Now())).value.code|
      ensures ok ==> Now() == Emit(ExprResult(ParseOr(old(rest)), old(Now())).value, Op(OpJmpFalse))
      decreases |rest|, 25
    {
      ok := DoExpr();
      jump := |code|;
      if ok {
        EmitOp(Op(OpJmpFalse));
      }
    }

    method DoExprStmt() returns (ok: bool)
      requires Sound(scope)
      modifies `rest, `code, `scope, `saved, `errors
      ensures StmtPost(ParseExprStmt(old(rest)), old(Now()), Now(), ok)
      decreases |rest|, 25
    {
      hide StmtPost, ExprPost, StmtResult, ExprResult, ParseOr, ParseExprStmt, Resolve, Sound, Assignable;
      ghost var was := Now();
      ExprStmtPass(rest, was);
      var h := DoOr();
      PostIs(ParseOr(was.rest), was, Now(), h);
      match h {
        case Dead =>
          DeadTarget(was, Now(), h);
          StmtDead(ParseExprStmt(was.rest), was, Now());
          return false;
        case Done =>
          EmitOp(POP);
        case Target(ref) =>
          TargetRef(was, Now(), h);
          EatTk();
          ghost var here := Now();
          var source := DoExpr();
          if !source {
            SameResult(ParseOr(here.rest), here, was);
            StmtDead(ParseExprStmt(was.rest), was, Now());
            return false;
          }
          SameResult(ParseOr(here.rest), here, was);
          if saved.None? || ref.FunRef? {
            Warn();
            StmtDead(ParseExprStmt(was.rest), was, Now());
            return false;
          }
          EmitOp(if saved.value.LocRef? then OpWide(OpStoreLocal, saved.value.id) else OpWide(OpSetGvar,
              saved.value.id));
      }
      ok := EatSemi();
      if ok {
        StmtDone(ParseExprStmt(was.rest), was, Now());
      } else {
        StmtDead(ParseExprStmt(was.rest), was, Now());
      }
    }

    method DoVars() returns (ok: bool)
      requires Sound(scope) && At(rest, TkLet)
      modifies `rest, `code, `scope, `saved, `errors
      ensures StmtPost(ParseVars(old(rest)[1..]), old(Now()), Now(), ok)
    {
      hide StmtPost, ExprPost, StmtResult, ExprResult, ParseOr, ParseExprStmt, ParseVars, ParseIf, ParseWhile,
           ParseFor, ParseTry, ParseNestable, ParseBlock, ParseBody, RetParse, ThrowParse, Resolve, Sound,
           VarRef, RecordVar, IsCounter, VarSteps;
      ghost var was := Now();
      EatTk();
      ghost var start := Now();
      AnyRest(ParseVars(start.rest), was, start);
      while rest != [] && !At(rest, TkSemi)
        invariant Sound(scope) && |rest| <= |start.rest|
        invariant StmtResult(ParseVars(rest), Now()) == StmtResult(ParseVars(start.rest), was)
        decreases |rest|
      {
        VarsPass(Now());
        var declared := DoVar();
        if !declared {
          StmtDead(ParseVars(start.rest), was, Now());
          return false;
        }
      }
      VarsEnd(Now());
      EatTk();
      StmtDone(ParseVars(start.rest), was, Now());
      return true;
    }

    /** One declaration of a LET and the comma behind it, if any. */
    method DoVar() returns (ok: bool)
      requires Sound(scope) && rest != []
      modifies `rest, `code, `scope, `saved, `errors
      ensures ok == VarSteps(old(Now())).Some?
      ensures ok ==> VarSteps(old(Now())) == Some(Now()) && Sound(scope) && |rest| < |old(rest)|
    {
      hide ExprResult, ParseOr, VarRef, RecordVar;
      ghost var here := Now();
      if !rest[0].TkIdent? {
        Warn();
        return false;
      }
      var name := rest[0].name;
      EatTk();
      var store := RecordVariable(name);
      if !At(rest, TkColon) {
        Warn();
        return false;
      }
      EatTk();
      ghost var m := Now();
      assert m.rest == here.rest[2..];
      SameResult(ParseOr(m.rest), m, here.(sc := m.sc));
      ok := DoExpr();
      if ok {
        EmitOp(store);
        if At(rest, TkComma) {
          EatTk();
        }
      }
    }

    method DoIfs() returns (ok: bool)
      requires Sound(scope) && At(rest, TkIf)
      modifies `rest, `code, `scope, `saved, `errors, `loops
      ensures StmtPost(ParseIf(old(rest)[1..]), old(Now()), Now(), ok)
      decreases |rest|, 0
    {
      hide StmtPost, ExprPost, StmtResult, ExprResult, ParseOr, ParseExprStmt, ParseVars, ParseIf, ParseWhile,
           ParseFor, ParseTry, ParseNestable, ParseBlock, ParseBody, RetParse, ThrowParse, Resolve, Sound,
           VarRef, RecordVar, IsCounter;
      ghost var was := Now();
      EatTk();
      ghost var here := Now();
      IfPass(here.rest, was);
      SameResult(ParseOr(here.rest), here, was);
      var cond, jumpElse := DoTest();
      if !cond {
        StmtDead(ParseIf(here.rest), was, Now());
        return false;
      }
      ghost var m := Now();
      var thn := DoBlock();
      StmtIs(ParseBlock(m.rest), m, Now(), thn);
      if !thn {
        StmtDead(ParseIf(here.rest), was, Now());
        return false;
      }
      ok := DoElse(jumpElse, ExprResult(ParseOr(here.rest), was).value, m);
      if ok {
        StmtDone(ParseIf(here.rest), was, Now());
      } else {
        StmtDead(ParseIf(here.rest), was, Now());
      }
    }

    /** The end of an IF, with or without its ELSE; `r` is the state after the test and `m` the one
        behind the open jump. */
    method DoElse(jumpElse: nat, ghost r: Snap, ghost m: Snap) returns (ok: bool)
      requires Sound(scope) && m == Emit(r, Op(OpJmpFalse)) && jumpElse == |r.code|
      requires StmtResult(ParseBlock(m.rest), m) == Some(Now())
      modifies `rest, `code, `scope, `saved, `errors, `loops
      ensures ok == ElseSteps(r, old(Now())).Some?
      ensures ok ==> ElseSteps(r, old(Now())) == Some(Now()) && |rest| <= |old(rest)|
      decreases |rest|, 27
    {
      hide StmtPost, ExprPost, StmtResult, ExprResult, ParseOr, ParseExprStmt, ParseVars, ParseIf, ParseWhile,
           ParseFor, ParseTry, ParseNestable, ParseBlock, ParseBody, RetParse, ThrowParse, Resolve, Sound,
           VarRef, RecordVar, IsCounter;
      ghost var q := Now();
      CodeGrows(ParseBlock(m.rest), m, q);
      if !At(rest, TkElse) {
        var skipBody := |code|;
        EmitOp(Op(OpNop));
        PatchWide(jumpElse, skipBody - jumpElse);
        IfDoneIs(r, q, code);
        return true;
      }
      EatTk();
      var skipElse := |code|;
      EmitOp(Op(OpJmp));
      var beginElse := skipElse + 1;
      ghost var e := Now();
      ok := DoNestable();
      StmtIs(ParseNestable(e.rest), e, Now(), ok);
      if ok {
        ghost var p := Now();
        CodeGrows(ParseNestable(e.rest), e, p);
        var end := |code|;
        EmitOp(Op(OpNop));
        PatchWide(jumpElse, beginElse - jumpElse);
        PatchWide(skipElse, end - skipElse);
        IfElseDoneIs(r, q, p, code);
      }
    }

    method DoWhile() returns (ok: bool)
      requires Sound(scope) && At(rest, TkWhile)
      modifies `rest, `code, `scope, `saved, `errors, `loops
      ensures StmtPost(ParseWhile(old(rest)[1..]), old(Now()), Now(), ok)
      decreases |rest|, 0
    {
      hide StmtPost, ExprPost, StmtResult, ExprResult, ParseOr, ParseExprStmt, ParseVars, ParseIf, ParseWhile,
           ParseFor, ParseTry, ParseNestable, ParseBlock, ParseBody, RetParse, ThrowParse, Resolve, Sound,
           VarRef, RecordVar, IsCounter;
      ghost var was := Now();
      EatTk();
      WhilePass(rest, was);
      EnterLoop();
      ghost var here := Now();
      SameResult(ParseOr(here.rest), here, Enter(was));
      var check := |code|;
      var cond, jumpOut := DoTest();
      if !cond {
        StmtDead(ParseWhile(here.rest), was, Now());
        return false;
      }
      ghost var r := ExprResult(ParseOr(here.rest), here).value;
      ResultExtends(ParseOr(here.rest), here, r);
      ghost var m := Now();
      var body := DoBlock();
      StmtIs(ParseBlock(m.rest), m, Now(), body);
      if !body {
        StmtDead(ParseWhile(here.rest), was, Now());
        return false;
      }
      LoopPositions(ParseBlock(m.rest), was, Now(), m);
      CloseWhile(check, jumpOut, was, r);
      StmtDone(ParseWhile(here.rest), was, Now());
      return true;
    }

    /** The jump back, the two main patches, the patch loops. */
    method CloseWhile(check: nat, jumpOut: nat, ghost was: Snap, ghost r: Snap)
      requires check == |was.code| <= jumpOut == |r.code| < |code|
      requires code[..|r.code| + 1] == r.code + [Op(OpJmpFalse)]
      requires |loops| == |was.loops| + 1
      requires forall k :: k in loops[|was.loops|].breaks ==> k < |code|
      requires forall k :: k in loops[|was.loops|].conts ==> k < |code|
      modifies `code, `loops
      ensures Now() == WhileDone(was, r, old(Now()))
    {
      var jumpBack := |code|;
      EmitOp(Instr(OpJmp, 1, 0));
      var exit := |code|;
      PatchWide(jumpBack, jumpBack - check);
      assert code[jumpOut] == Op(OpJmpFalse);
      PatchWide(jumpOut, exit - jumpOut);
      PatchLoop(loops[|loops| - 1], exit, check);
      LeaveLoop();
    }

    method EnterLoop()
      modifies `loops
      ensures loops == old(loops) + [OpenLoop([], [])]
    {
      loops := loops + [OpenLoop([], [])];
    }

    method LeaveLoop()
      requires loops != []
      modifies `loops
      ensures loops == old(loops)[..|old(loops)| - 1]
    {
      loops := loops[..|loops| - 1];
    }

    method DoBreak() returns (ok: bool)
      requires Sound(scope) && At(rest, TkBreak)
      modifies `rest, `code, `errors, `loops
      ensures StmtPost(ParseNestable(old(rest)), old(Now()), Now(), ok)
    {
      ok := DoJump(true);
    }

    method DoContinue() returns (ok: bool)
      requires Sound(scope) && At(rest, TkContinue)
      modifies `rest, `code, `errors, `loops
      ensures StmtPost(ParseNestable(old(rest)), old(Now()), Now(), ok)
    {
      ok := DoJump(false);
    }

    /** A jump out of the loop or back to its head: the position is recorded for the patch loops. */
    method DoJump(brk: bool) returns (ok: bool)
      requires Sound(scope) && At(rest, if brk then TkBreak else TkContinue)
      modifies `rest, `code, `errors, `loops
      ensures StmtPost(ParseNestable(old(rest)), old(Now()), Now(), ok)
    {
      hide StmtPost, StmtResult, Sound;
      ghost var was := Now();
      var s := if brk then Break else Continue;
      EatTk();
      JumpPass(brk, Eat(rest), was);
      JumpParse(brk, was.rest);
      if loops == [] {
        Warn();
        NoJump(ParseNestable(was.rest), was);
        StmtDead(ParseNestable(was.rest), was, Now());
        return false;
      }
      if !At(rest, TkSemi) {
        Warn();
        NoStmt(was);
        StmtDead(ParseNestable(was.rest), was, Now());
        return false;
      }
      EatTk();
      var n, pc := |loops| - 1, |code|;
      if brk {
        loops := loops[n := loops[n].(breaks := loops[n].breaks + [pc])];
      } else {
        loops := loops[n := loops[n].(conts := loops[n].conts + [pc])];
      }
      assert loops == was.loops[..n] + [loops[n]];
      EmitOp(Op(OpJmp));
      StmtDone(ParseNestable(was.rest), was, Now());
      return true;
    }

    method DoFor() returns (ok: bool)
      requires Sound(scope) && At(rest, TkFor)
      modifies `rest, `code, `scope, `saved, `errors, `loops
      ensures StmtPost(ParseFor(old(rest)[1..]), old(Now()), Now(), ok)
      decreases |rest|, 0
    {
      hide StmtPost, ExprPost, StmtResult, ExprResult, ParseOr, ParseExprStmt, ParseVars, ParseIf, ParseWhile,
           ParseFor, ParseTry, ParseNestable, ParseBlock, ParseBody, RetParse, ThrowParse, Resolve, Sound,
           VarRef, RecordVar, IsCounter, ForSteps;
      ghost var was := Now();
      EatTk();
      ghost var t := rest;
      ForPass(t, was);
      EnterLoop();
      ok := DoForHead(was);
      if ok {
        StmtDone(ParseFor(t), was, Now());
      } else {
        StmtDead(ParseFor(t), was, Now());
      }
    }

    /** Name, initializer and store; then the rest of the loop. */
    method DoForHead(ghost was: Snap) returns (ok: bool)
      requires Sound(scope) && Now() == Enter(was).(rest := rest)
      modifies `rest, `code, `scope, `saved, `errors, `loops
      ensures ok == ForSteps(old(rest), was).Some?
      ensures ok ==> ForSteps(old(rest), was) == Some(Now()) && |rest| <= |old(rest)|
      decreases |rest|, 30
    {
      hide DeclExpr, GenExpr, Wide, Lookup, ForTestSteps,
           StmtPost, ExprPost, StmtResult, ExprResult, ParseOr, ParseExprStmt, ParseVars, ParseIf, ParseWhile,
           ParseFor, ParseTry, ParseNestable, ParseBlock, ParseBody, RetParse, ThrowParse, Resolve, Sound,
           VarRef, RecordVar;
      ghost var t := rest;
      if rest == [] || !rest[0].TkIdent? {
        Warn();
        return false;
      }
      var counter := rest[0].name;
      EatTk();
      var info := ResolveName(counter);
      if !At(rest, TkColon) {
        Warn();
        return false;
      }
      EatTk();
      ghost var here := Now();
      assert here.rest == t[2..];
      SameResult(ParseOr(t[2..]), here, Enter(was));
      var init := DoExpr();
      if !init {
        return false;
      }
      if info.None? || !info.value.LocRef? {
        Warn();
        return false;
      }
      EmitOp(OpWide(OpStoreLocal, info.value.id));
      if !At(rest, TkComma) {
        Warn();
        return false;
      }
      EatTk();
      ok := DoForTest(was);
    }

    /** Test, placeholders and update; then the body. */
    method DoForTest(ghost was: Snap) returns (ok: bool)
      requires Sound(scope) && loops == was.loops + [OpenLoop([], [])]
      modifies `rest, `code, `scope, `saved, `errors, `loops
      ensures ok == ForTestSteps(|old(code)|, old(Now())).Some?
      ensures ok ==> ForTestSteps(|old(code)|, old(Now())) == Some(Now()) && |rest| <= |old(rest)|
      decreases |rest|, 29
    {
      hide StmtPost, ExprPost, StmtResult, ExprResult, ParseOr, ParseExprStmt, ParseVars, ParseIf, ParseWhile,
           ParseFor, ParseTry, ParseNestable, ParseBlock, ParseBody, RetParse, ThrowParse, Resolve, Sound,
           VarRef, RecordVar, IsCounter, ForMiddle, ForBodySteps;
      ghost var s := Now();
      var begin := |code|;
      var test, jumpOut := DoTest();
      if !test {
        return false;
      }
      ghost var q := ExprResult(ParseOr(s.rest), s).value;
      ResultExtends(ParseOr(s.rest), s, q);
      if !At(rest, TkComma) {
        Warn();
        return false;
      }
      EatTk();
      var skipUpdate := |code|;
      EmitOp(Op(OpJmp));
      var update := |code|;
      EmitOp(Op(OpNop));
      ghost var h := Now();
      ok := DoExprStmt();
      StmtIs(ParseExprStmt(h.rest), h, Now(), ok);
      if !ok {
        return;
      }
      ghost var u := Now();
      CodeGrows(ParseExprStmt(h.rest), h, u);
      UpdateKeepsLoops(h, u);
      var repeater := |code|;
      EmitOp(Instr(OpJmp, 1, Wide(repeater - begin)));
      PatchWide(skipUpdate, repeater + 1 - skipUpdate);
      ForMiddleIs(begin, q, u, code);
      ok := DoForBody(jumpOut, update, was, q);
    }

    /** Body, the jump back to the update, the closing filler, the patches. */
    method DoForBody(jumpOut: nat, update: nat, ghost was: Snap, ghost q: Snap) returns (ok: bool)
      requires Sound(scope) && loops == was.loops + [OpenLoop([], [])]
      requires jumpOut == |q.code| && update == |q.code| + 2 && update < |code|
      requires code[jumpOut] == Op(OpJmpFalse)
      modifies `rest, `code, `scope, `saved, `errors, `loops
      ensures ok == ForBodySteps(q, old(Now())).Some?
      ensures ok ==> ForBodySteps(q, old(Now())) == Some(Now()) && |rest| <= |old(rest)|
      decreases |rest|, 28
    {
      hide StmtPost, ExprPost, StmtResult, ExprResult, ParseOr, ParseExprStmt, ParseVars, ParseIf, ParseWhile,
           ParseFor, ParseTry, ParseNestable, ParseBlock, ParseBody, RetParse, ThrowParse, Resolve, Sound,
           VarRef, RecordVar, IsCounter;
      ghost var m := Now();
      ok := DoBlock();
      StmtIs(ParseBlock(m.rest), m, Now(), ok);
      if !ok {
        return;
      }
      ghost var b := Now();
      LoopPositions(ParseBlock(m.rest), was, b, m);
      assert b.code[jumpOut] == b.code[..|m.code|][jumpOut];
      var back := |code|;
      EmitOp(Instr(OpJmp, 1, Wide(back - update)));
      var end := |code|;
      EmitOp(Op(OpNop));
      PatchWide(jumpOut, end - jumpOut);
      PatchLoop(loops[|loops| - 1], end, update);
      LeaveLoop();
    }

    method DoRet() returns (ok: bool)
      requires Sound(scope) && At(rest, TkRet)
      modifies `rest, `code, `scope, `saved, `errors
      ensures StmtPost(RetParse(old(rest)[1..]), old(Now()), Now(), ok)
    {
      ghost var was := Now();
      RetPass(rest[1..], was);
      EatTk();
      ok := UseValue(Op(OpRet), was);
      if ok { StmtDone(RetParse(was.rest[1..]), was, Now()); }
    }

    method DoThrow() returns (ok: bool)
      requires Sound(scope) && At(rest, TkThrow)
      modifies `rest, `code, `scope, `saved, `errors
      ensures StmtPost(ThrowParse(old(rest)[1..]), old(Now()), Now(), ok)
    {
      ghost var was := Now();
      ThrowPass(rest[1..], was);
      EatTk();
      ok := UseValue(Op(OpRaiseErr), was);
      if ok { StmtDone(ThrowParse(was.rest[1..]), was, Now()); }
    }

    /** An expression, the instruction that takes its value, a semicolon. */
    method UseValue(i: Instr, ghost was: Snap) returns (ok: bool)
      requires Sound(scope) && Now() == was.(rest := rest)
      modifies `rest, `code, `scope, `saved, `errors
      ensures ok == UseSteps(old(rest), i, was).Some?
      ensures ok ==> UseSteps(old(rest), i, was) == Some(Now()) && |rest| < |old(rest)|
    {
      hide ExprResult, ParseOr;
      SameResult(ParseOr(rest), Now(), was);
      ok := DoExpr();
      if ok {
        EmitOp(i);
        ok := EatSemi();
      }
    }

    method DoTryCatch() returns (ok: bool)
      requires Sound(scope) && At(rest, TkTry)
      modifies `rest, `code, `scope, `saved, `errors, `loops
      ensures StmtPost(ParseTry(old(rest)[1..]), old(Now()), Now(), ok)
      decreases |rest|, 0
    {
      hide StmtPost, ExprPost, StmtResult, ExprResult, ParseOr, ParseExprStmt, ParseVars, ParseIf, ParseWhile,
           ParseFor, ParseTry, ParseNestable, ParseBlock, ParseBody, RetParse, ThrowParse, Resolve, Sound,
           VarRef, RecordVar, IsCounter, CatchSteps;
      ghost var was := Now();
      EatTk();
      ghost var t := rest;
      TryPass(t, was);
      EmitOp(Op(OpTry));
      ghost var m := Now();
      AnyRest(ParseBlock(t), Emit(was, Op(OpTry)), m);
      ok := DoBlock();
      StmtIs(ParseBlock(t), m, Now(), ok);
      if ok {
        ok := DoCatch();
      }
      if ok {
        StmtDone(ParseTry(t), was, Now());
      } else {
        StmtDead(ParseTry(t), was, Now());
      }
    }

    /** The jump over the handler, the CATCH, the handler. */
    method DoCatch() returns (ok: bool)
      requires Sound(scope)
      modifies `rest, `code, `scope, `saved, `errors, `loops
      ensures ok == CatchSteps(old(Now())).Some?
      ensures ok ==> CatchSteps(old(Now())) == Some(Now()) && |rest| <= |old(rest)|
      decreases |rest|, 27
    {
      hide StmtPost, ExprPost, StmtResult, ExprResult, ParseOr, ParseExprStmt, ParseVars, ParseIf, ParseWhile,
           ParseFor, ParseTry, ParseNestable, ParseBlock, ParseBody, RetParse, ThrowParse, Resolve, Sound,
           VarRef, RecordVar, IsCounter;
      ghost var r := Now();
      var skipCatch := |code|;
      EmitOp(Op(OpJmp));
      EmitOp(Op(OpCatchErr));
      if !At(rest, TkCatch) {
        Warn();
        return false;
      }
      EatTk();
      ghost var h := Now();
      ok := DoBlock();
      StmtIs(ParseBlock(h.rest), h, Now(), ok);
      if ok {
        ghost var q := Now();
        CodeGrows(ParseBlock(h.rest), h, q);
        PatchWide(skipCatch, |code| - skipCatch);
        TryDoneIs(r, q, code);
      }
    }

    method DoNestable() returns (ok: bool)
      requires Sound(scope)
      modifies `rest, `code, `scope, `saved, `errors, `loops
      ensures StmtPost(ParseNestable(old(rest)), old(Now()), Now(), ok)
      decreases |rest|, 26
    {
      hide StmtPost, StmtResult, ParseOr, ParseExprStmt, ParseVars, ParseIf, ParseWhile, ParseFor, ParseTry,
           ParseBlock, Sound;
      ghost var was := Now();
      if rest == [] {
        Warn();
        NoStmt(was);
        StmtDead(ParseNestable(was.rest), was, Now());
        return false;
      }
      match rest[0]
      case TkLet => ok := DoVars();
      case TkIf => ok := DoIfs();
      case TkWhile => ok := DoWhile();
      case TkFor => ok := DoFor();
      case TkBreak => ok := DoBreak();
      case TkContinue => ok := DoContinue();
      case TkRet => ok := DoRet();
      case TkThrow => ok := DoThrow();
      case TkTry => ok := DoTryCatch();
      case TkColon => ok := DoBlock();
      case _ => ok := DoExprStmt();
    }

    method DoBlock() returns (ok: bool)
      requires Sound(scope)
      modifies `rest, `code, `scope, `saved, `errors, `loops
      ensures StmtPost(ParseBlock(old(rest)), old(Now()), Now(), ok)
      decreases |rest|, 0
    {
      hide StmtPost, ExprPost, StmtResult, ExprResult, ParseOr, ParseExprStmt, ParseVars, ParseIf, ParseWhile,
           ParseFor, ParseTry, ParseNestable, ParseBody, RetParse, ThrowParse, Resolve, Sound, VarRef,
           RecordVar, IsCounter;
      ghost var was := Now();
      if !At(rest, TkColon) {
        Warn();
        NoStmt(was);
        StmtDead(ParseBlock(was.rest), was, Now());
        return false;
      }
      EatTk();
      var count := 0;
      AnyRest(ParseBody(rest, true), was, Now());
      while rest != []
        invariant Sound(scope) && |rest| < |was.rest|
        invariant StmtResult(ParseBody(rest, count == 0), Now()) == StmtResult(ParseBlock(was.rest), was)
        decreases |rest|
      {
        if At(rest, TkEnd) {
          BodyEnd(Now(), count == 0);
          if count == 0 {
            EmitOp(Op(OpNop));
          }
          EatTk();
          StmtDone(ParseBlock(was.rest), was, Now());
          return true;
        }
        ghost var here := Now();
        BodyStep(rest, count == 0, here);
        var stmt := DoNestable();
        StmtIs(ParseNestable(here.rest), here, Now(), stmt);
        if !stmt {
          StmtDead(ParseBlock(was.rest), was, Now());
          return false;
        }
        count := count + 1;
      }
      BodyEnd(Now(), count == 0);
      EatTk();
      StmtDone(ParseBlock(was.rest), was, Now());
      return true;
    }

    // ----- programs -----

    ghost function Built(): Build
      reads this
    {
      Build(scope, code, chunks)
    }

    /** FUN name ( parameters ) block. The new chunk takes the next id; top-level code is set aside
        until the function is done. */
    method DoFunc() returns (ok: bool)
      requires !scope.inFun && Sound(scope) && loops == [] && At(rest, TkFun)
      modifies `rest, `code, `scope, `saved, `errors, `loops, `chunks
      ensures ok == TopStep(old(rest), old(Built())).Some?
      ensures ok ==> TopStep(old(rest), old(Built())) == Some((Built(), rest)) && |rest| < |old(rest)|
      ensures ok ==> !scope.inFun && Sound(scope) && loops == []
    {
      hide TopStep, BodySteps;
      ghost var t, b := rest, Built();
      FunIs(t, b);
      EatTk();
      if rest == [] || !rest[0].TkIdent? {
        Warn();
        return false;
      }
      var name := rest[0].name;
      EatTk();
      var id := |chunks|;
      chunks := chunks + [Chunk([], [])];
      RecordFunction(name, id);
      var mainCode, mainScope := code, scope;
      if !At(rest, TkLParen) {
        Warn();
        return false;
      }
      EatTk();
      scope := Inside(scope);
      code := [];
      assert rest == t[3..];
      ok := DoFuncBody();
      if ok {
        chunks := chunks[id := Chunk(code, scope.consts)];
        assert chunks == b.chunks + [Chunk(code, scope.consts)];
        code, scope := mainCode, mainScope;
      }
    }

    method DoFuncBody() returns (ok: bool)
      requires scope.inFun && code == [] && loops == []
      modifies `rest, `code, `scope, `saved, `errors, `loops
      ensures ok == BodySteps(old(rest), old(scope)).Some?
      ensures ok ==> BodySteps(old(rest), old(scope)) == Some((Chunk(code, scope.consts), rest))
      ensures ok ==> loops == [] && |rest| <= |old(rest)|
    {
      hide BodySteps, ParseParams, ParseBlock, StmtResult, StmtPost, DeclParams;
      ghost var t, sc0 := rest, scope;
      NoParams(t, sc0);
      var params, argc := DoParams();
      if !params {
        return false;
      }
      EmitOp(Op(OpReserve));
      ghost var m := Now();
      BodyIs(t, sc0, m, argc);
      ok := DoBlock();
      StmtIs(ParseBlock(m.rest), m, Now(), ok);
      if ok {
        EmitOp(LAST_RET);
        PatchWide(0, scope.nLoc - argc);
      }
    }

    method RecordFunction(name: string, id: nat)
      modifies `scope
      ensures scope == RecordFunc(old(scope), name, id)
    {
      var known := Find(scope.funcs, name, Func);
      if known.None? {
        scope := scope.(funcs := scope.funcs + [Symbol(name, id, Func)]);
      }
    }

    method DoParams() returns (ok: bool, argc: nat)
      requires scope.inFun
      modifies `rest, `scope, `errors
      ensures ok == ParseParams(old(rest)).Some? && |rest| <= |old(rest)|
      ensures ok ==> rest == ParseParams(old(rest)).value.1 && argc == |ParseParams(old(rest)).value.0|
      ensures ok ==> scope == DeclParams(ParseParams(old(rest)).value.0, old(scope)) && scope.inFun
    {
      hide DeclParams;
      ghost var start, sc0 := rest, scope;
      argc := 0;
      while rest != [] && !At(rest, TkRParen)
        invariant ParamsInv(start, sc0, rest, scope, argc) && |rest| <= |start| && scope.inFun
        decreases |rest|
      {
        if !rest[0].TkIdent? {
          Warn();
          return false, argc;
        }
        ParamStep(start, sc0, rest, scope, argc);
        var name := rest[0].name;
        var store := RecordVariable(name);
        argc := argc + 1;
        EatTk();
        if At(rest, TkComma) {
          EatTk();
        }
      }
      ParamsEnd(start, sc0, rest, scope, argc);
      EatTk();
      ok := true;
    }

    method DoStmt() returns (ok: bool)
      requires !scope.inFun && Sound(scope) && loops == [] && rest != []
      modifies `rest, `code, `scope, `saved, `errors, `loops, `chunks
      ensures ok == TopStep(old(rest), old(Built())).Some?
      ensures ok ==> TopStep(old(rest), old(Built())) == Some((Built(), rest)) && |rest| < |old(rest)|
      ensures ok ==> !scope.inFun && Sound(scope) && loops == []
    {
      hide StmtPost, StmtResult, ParseNestable, ParseExprStmt, TopResult, ParseTop;
      if rest[0].TkFun? {
        ok := DoFunc();
        return;
      }
      ghost var was, before := Now(), chunks;
      TopStmtParse(rest);
      TopStmtPass(ParseNestable(rest), was, chunks);
      if rest[0].TkBreak? || rest[0].TkContinue? || rest[0].TkColon? {
        ok := DoExprStmt();
        StmtIs(ParseExprStmt(was.rest), was, Now(), ok);
        NoStmt(was);
        return;
      }
      ok := DoNestable();
      StmtIs(ParseNestable(was.rest), was, Now(), ok);
      if ok {
        StaysTop(ParseNestable(was.rest), was, Now());
      }
    }

    /** Compiles a whole program; the chunks come out only when there was nothing to report. */
    method DoSource() returns (program: Option<seq<Chunk>>)
      requires code == [] && loops == [] && chunks == [] && scope == NO_SCOPE
      modifies this
      ensures program == SourceChunks(old(rest))
    {
      hide Remaining, TopStep;
      ghost var t := rest;
      chunks := [Chunk([], [])];
      EmitOp(Op(OpReserve));
      assert Built() == START;
      SourceRemaining(t);
      while rest != []
        invariant Remaining(rest, Built()) == SourceChunks(t)
        invariant !scope.inFun && Sound(scope) && loops == [] && Shaped(Built())
        decreases |rest|
      {
        TopPass(rest, Built());
        TopShape(rest, Built());
        var ok := DoStmt();
        if !ok {
          return None;
        }
      }
      SourceEnd(Built());
      EmitOp(LAST_RET);
      PatchWide(0, scope.nGlob);
      chunks := chunks[0 := Chunk(code, scope.consts)];
      return Some(chunks);
    }
  }
}
