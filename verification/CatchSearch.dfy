/** The catch search is bracket matching: it walks the flat code forward and counts, and finds the
    handler that the nesting of the source text gives. */
module CatchSearch {
  import opened Wrappers
  import opened Bytecode
  import opened Machine
  import opened Syntax
  import opened Scoping
  import opened Codegen
  import opened Placement
  import opened Layout

  function Pick(a: Option<nat>, b: Option<nat>): Option<nat> { if a.Some? then a else b }

  /** The CATCH of the innermost TRY of `s`, placed at `pc`, in whose body position `p` lies. */
  function Handler(s: Stmt, pc: nat, p: nat): Option<nat> {
    if p < pc || p >= pc + StmtSize(s) then None
    else match s
      case Seq(a, b) => Pick(Handler(a, pc, p), Handler(b, pc + StmtSize(a), p))
      case If(c, t) => Handler(t, pc + ExprSize(c) + 1, p)
      case IfElse(c, t, e) =>
        Pick(Handler(t, pc + ExprSize(c) + 1, p), Handler(e, pc + ExprSize(c) + StmtSize(t) + 2, p))
      case While(c, b) => Handler(b, pc + ExprSize(c) + 1, p)
      case For(_, _, _, u, b) => Pick(Handler(u, ForUpdate(pc, s) + 1, p), Handler(b, ForBody(pc, s), p))
      case Try(b, h) =>
        var ph := pc + 1 + StmtSize(b) + 2;
        Pick(Handler(b, pc + 1, p), if pc < p < ph then Some(ph - 1) else Handler(h, ph, p))
      case _ => None
  }

  lemma {:induction false} PickIs(a: Option<nat>, b: Option<nat>)
    ensures Pick(a, b) == if a.Some? then a else b
  {
  }

  lemma {:induction false} HandlerOutside(s: Stmt, pc: nat, p: nat)
    requires p < pc || p >= pc + StmtSize(s)
    ensures Handler(s, pc, p).None?
  {
  }

  lemma {:induction false} HandlerSeq(a: Stmt, b: Stmt, pc: nat, p: nat)
    requires pc <= p < pc + StmtSize(Seq(a, b))
    ensures Handler(Seq(a, b), pc, p) == Pick(Handler(a, pc, p), Handler(b, pc + StmtSize(a), p))
  {
    hide StmtSize;
  }

  lemma {:induction false} HandlerIf(c: Expr, t: Stmt, pc: nat, p: nat)
    requires pc <= p < pc + StmtSize(If(c, t))
    ensures Handler(If(c, t), pc, p) == Handler(t, pc + ExprSize(c) + 1, p)
  {
    hide StmtSize;
  }

  lemma {:induction false} HandlerIfElse(c: Expr, t: Stmt, e: Stmt, pc: nat, p: nat)
    requires pc <= p < pc + StmtSize(IfElse(c, t, e))
    ensures Handler(IfElse(c, t, e), pc, p) ==
      Pick(Handler(t, pc + ExprSize(c) + 1, p), Handler(e, pc + ExprSize(c) + StmtSize(t) + 2, p))
  {
    hide StmtSize;
  }

  lemma {:induction false} HandlerWhile(c: Expr, b: Stmt, pc: nat, p: nat)
    requires pc <= p < pc + StmtSize(While(c, b))
    ensures Handler(While(c, b), pc, p) == Handler(b, pc + ExprSize(c) + 1, p)
  {
    hide StmtSize;
  }

  lemma {:induction false} HandlerFor(s: Stmt, pc: nat, p: nat)
    requires s.For? && pc <= p < pc + StmtSize(s)
    ensures Handler(s, pc, p) == Pick(Handler(s.update, ForUpdate(pc, s) + 1, p), Handler(s.body, ForBody(pc, s), p))
  {
    hide StmtSize, ForUpdate, ForBody;
  }

  lemma {:induction false} HandlerTry(b: Stmt, h: Stmt, pc: nat, p: nat)
    requires pc <= p < pc + StmtSize(Try(b, h))
    ensures var ph := pc + 1 + StmtSize(b) + 2;
      Handler(Try(b, h), pc, p) == Pick(Handler(b, pc + 1, p), if pc < p < ph then Some(ph - 1) else Handler(h, ph, p))
  {
    hide StmtSize;
  }

  lemma {:induction false} HandlerLeaf(s: Stmt, pc: nat, p: nat)
    requires IsLeaf(s)
    ensures Handler(s, pc, p).None?
  {
    hide StmtSize;
  }

  // ----- single instructions and expressions -----

  predicate PlainAt(code: Code, p: nat) { p < |code| && Plain(code[p]) }

  lemma {:induction false} ScanOne(code: Code, p: nat, depth: int)
    requires PlainAt(code, p)
    ensures Scan(code, p, depth) == Scan(code, p + 1, depth)
  {
  }

  lemma {:induction false} ScanMark(code: Code, p: nat, depth: int)
    requires p < |code|
    ensures code[p].op.OpTry? ==> Scan(code, p, depth) == Scan(code, p + 1, depth + 1)
    ensures code[p].op.OpCatchErr? && depth != 1 ==> Scan(code, p, depth) == Scan(code, p + 1, depth - 1)
    ensures code[p].op.OpCatchErr? && depth == 1 ==> Scan(code, p, depth) == p
    ensures IsLastRet(code[p]) ==> Scan(code, p, depth) == p
  {
  }

  lemma {:induction false} ScanExpr(code: Code, pc: nat, e: Expr, sc: Scope, depth: int)
    requires PlacedExpr(code, pc, e, sc)
    ensures Scan(code, pc, depth) == Scan(code, pc + ExprSize(e), depth)
  {
    ExprPlain(e, sc);
    ScanPlain(code, pc, GenExpr(e, sc), depth);
  }

  predicate IsLeaf(s: Stmt) { !s.Seq? && !s.If? && !s.IfElse? && !s.While? && !s.For? && !s.Try? }

  lemma {:induction false} LeafCases(s: Stmt)
    ensures IsLeaf(s) || s.Seq? || s.If? || s.IfElse? || s.While? || s.For? || s.Try?
  {
  }

  lemma {:induction false} LeafPlain(s: Stmt, sc: Scope, pc: nat, lp: Loop)
    requires IsLeaf(s)
    ensures AllPlain(GenStmt(s, sc, pc, lp))
  {
    hide Wide, GenExpr;
    match s
    case Let(_, e) => ExprPlain(e, sc);
    case Assign(_, e) => ExprPlain(e, sc);
    case ExprStmt(e) => ExprPlain(e, sc);
    case Ret(e) => ExprPlain(e, sc);
    case Throw(e) => ExprPlain(e, sc);
    case _ =>
  }

  // ----- what joins the parts is plain -----

  /** A test at `pc`, a branch, a statement at `pt`, one more instruction. */
  ghost predicate Tested(code: Code, pc: nat, c: Expr, t: Stmt, sc: Scope, lp: Loop) {
    var pt := pc + ExprSize(c) + 1;
    && PlacedExpr(code, pc, c, sc) && PlainAt(code, pt - 1)
    && PlacedStmt(code, pt, t, sc, lp) && PlainAt(code, pt + StmtSize(t))
  }

  lemma {:induction false} IfTested(code: Code, pc: nat, s: Stmt, sc: Scope, lp: Loop)
    requires s.If? && PlacedStmt(code, pc, s, sc, lp)
    ensures Tested(code, pc, s.cond, s.thn, sc, lp)
    ensures StmtSize(s) == ExprSize(s.cond) + 1 + StmtSize(s.thn) + 1
  {
    hide PlacedStmt, Wide, GenStmt, GenExpr, PlacedExpr;
    IfLayout(code, pc, s.cond, s.thn, sc, lp);
  }

  lemma {:induction false} WhileTested(code: Code, pc: nat, s: Stmt, sc: Scope, lp: Loop)
    requires s.While? && PlacedStmt(code, pc, s, sc, lp)
    ensures Tested(code, pc, s.cond, s.body, sc, Closed(pc + ExprSize(s.cond) + 1 + StmtSize(s.body) + 1, pc))
    ensures StmtSize(s) == ExprSize(s.cond) + 1 + StmtSize(s.body) + 1
  {
    hide PlacedStmt, Wide, GenStmt, GenExpr, PlacedExpr;
    WhileLayout(code, pc, s.cond, s.body, sc, lp);
  }

  lemma {:induction false} IfElseTested(code: Code, pc: nat, s: Stmt, sc: Scope, lp: Loop)
    requires s.IfElse? && PlacedStmt(code, pc, s, sc, lp)
    ensures Tested(code, pc, s.cond, s.thn, sc, lp)
    ensures var pe := pc + ExprSize(s.cond) + StmtSize(s.thn) + 2;
      PlacedStmt(code, pe, s.els, sc, lp) && PlainAt(code, pe + StmtSize(s.els))
    ensures StmtSize(s) == ExprSize(s.cond) + StmtSize(s.thn) + 2 + StmtSize(s.els) + 1
  {
    hide PlacedStmt, Wide, GenStmt, GenExpr, PlacedExpr;
    IfElseLayout(code, pc, s.cond, s.thn, s.els, sc, lp);
  }

  lemma {:induction false} TryMarks(code: Code, pc: nat, s: Stmt, sc: Scope, lp: Loop)
    requires s.Try? && PlacedStmt(code, pc, s, sc, lp)
    ensures var ph := pc + 1 + StmtSize(s.body) + 2;
      && ph <= |code| && code[pc].op.OpTry? && PlainAt(code, ph - 2) && code[ph - 1].op.OpCatchErr?
      && PlacedStmt(code, pc + 1, s.body, sc, lp) && PlacedStmt(code, ph, s.handler, sc, lp)
    ensures StmtSize(s) == 1 + StmtSize(s.body) + 2 + StmtSize(s.handler)
  {
    hide PlacedStmt, Wide, GenStmt, GenExpr;
    TryLayout(code, pc, s.body, s.handler, sc, lp);
  }

  lemma {:induction false} TestedIs(code: Code, pc: nat, c: Expr, t: Stmt, sc: Scope, lp: Loop)
    requires Tested(code, pc, c, t, sc, lp)
    ensures var pt := pc + ExprSize(c) + 1;
      && PlacedExpr(code, pc, c, sc) && PlainAt(code, pt - 1)
      && PlacedStmt(code, pt, t, sc, lp) && PlainAt(code, pt + StmtSize(t))
  {
    hide PlacedStmt, PlacedExpr, PlainAt;
  }

  /** Where the parts of a FOR begin: test, filler, body, end. */
  ghost predicate ForParts(code: Code, pc: nat, s: Stmt, sc: Scope, test: nat, fill: nat, body: nat, end: nat) {
    && s.For? && test == pc + ExprSize(s.init) + 1 && fill == test + ExprSize(s.cond) + 2
    && body == fill + 1 + StmtSize(s.update) + 1 && end == body + StmtSize(s.body) + 1
    && PlacedExpr(code, pc, s.init, sc) && PlainAt(code, test - 1) && PlacedExpr(code, test, s.cond, sc)
    && PlainAt(code, fill - 2) && PlainAt(code, fill - 1) && PlainAt(code, fill)
    && PlacedStmt(code, fill + 1, s.update, sc, Open) && PlainAt(code, body - 1)
    && PlacedStmt(code, body, s.body, sc, Closed(end, fill)) && PlainAt(code, end - 1) && PlainAt(code, end)
  }

  lemma {:induction false} ForPartsAre(code: Code, pc: nat, s: Stmt, sc: Scope, test: nat, fill: nat, body: nat,
      end: nat)
    requires ForParts(code, pc, s, sc, test, fill, body, end)
    ensures s.For? && test == pc + ExprSize(s.init) + 1 && fill == test + ExprSize(s.cond) + 2
    ensures body == fill + 1 + StmtSize(s.update) + 1 && end == body + StmtSize(s.body) + 1
    ensures PlacedExpr(code, pc, s.init, sc) && PlainAt(code, test - 1) && PlacedExpr(code, test, s.cond, sc)
    ensures PlainAt(code, fill - 2) && PlainAt(code, fill - 1) && PlainAt(code, fill)
    ensures PlacedStmt(code, fill + 1, s.update, sc, Open) && PlainAt(code, body - 1)
    ensures PlacedStmt(code, body, s.body, sc, Closed(end, fill)) && PlainAt(code, end - 1) && PlainAt(code, end)
  {
    hide PlacedStmt, PlacedExpr, PlainAt, StmtSize, ExprSize;
  }

  lemma {:induction false} ForSize(s: Stmt)
    requires s.For?
    ensures StmtSize(s) == ExprSize(s.init) + 1 + ExprSize(s.cond) + 3 + StmtSize(s.update) + 1 + StmtSize(s.body) + 2
  {
    hide ExprSize;
  }

  lemma {:induction false} StorePlain(r: Option<Ref>)
    ensures Plain(StoreRef(r))
  {
    hide Wide;
  }

  lemma {:induction false} ForGlue(code: Code, pc: nat, s: Stmt, sc: Scope, lp: Loop)
    returns (test: nat, fill: nat, body: nat, end: nat)
    requires s.For? && PlacedStmt(code, pc, s, sc, lp)
    ensures ForParts(code, pc, s, sc, test, fill, body, end) && end + 1 == pc + StmtSize(s)
    ensures fill == ForUpdate(pc, s) && body == ForBody(pc, s)
  {
    hide PlacedStmt, PlacedExpr, Wide, StmtSize, ExprSize, Resolve;
    ForLayout(code, pc, s, sc, lp);
    ForSize(s);
    StorePlain(Resolve(sc, s.counter));
    test := pc + ExprSize(s.init) + 1;
    fill := test + ExprSize(s.cond) + 2;
    body := fill + 1 + StmtSize(s.update) + 1;
    end := body + StmtSize(s.body) + 1;
  }

  // ----- a whole statement is balanced -----

  /** Seen from inside at least one TRY, a statement opens and closes the same number. */
  lemma {:induction false} ScanBalanced(s: Stmt, sc: Scope, pc: nat, lp: Loop, code: Code, depth: int)
    requires PlacedStmt(code, pc, s, sc, lp) && depth >= 1
    ensures Scan(code, pc, depth) == Scan(code, pc + StmtSize(s), depth)
    decreases s, 4
  {
    LeafCases(s);
    hide *;
    match s
    case Seq(a, b) =>
      SeqParts(code, pc, s, sc, lp);
      ScanBalanced(a, sc, pc, lp, code, depth);
      ScanBalanced(b, sc, pc + StmtSize(a), lp, code, depth);
    case If(c, t) =>
      IfTested(code, pc, s, sc, lp);
      TestedBalanced(c, t, sc, pc, lp, code, depth);
    case IfElse(c, t, e) =>
      IfElseTested(code, pc, s, sc, lp);
      TestedBalanced(c, t, sc, pc, lp, code, depth);
      ScanBalanced(e, sc, pc + ExprSize(c) + StmtSize(t) + 2, lp, code, depth);
      ScanOne(code, pc + ExprSize(c) + StmtSize(t) + 2 + StmtSize(e), depth);
    case While(c, b) =>
      WhileTested(code, pc, s, sc, lp);
      TestedBalanced(c, b, sc, pc, Closed(pc + ExprSize(c) + 1 + StmtSize(b) + 1, pc), code, depth);
    case For(_, _, _, _, _) =>
      ForBalanced(s, sc, pc, lp, code, depth);
    case Try(b, h) =>
      TryBalanced(s, sc, pc, lp, code, depth);
    case _ =>
      LeafBalanced(s, sc, pc, lp, code, depth);
  }

  lemma {:induction false} SeqParts(code: Code, pc: nat, s: Stmt, sc: Scope, lp: Loop)
    requires s.Seq? && PlacedStmt(code, pc, s, sc, lp)
    ensures PlacedStmt(code, pc, s.first, sc, lp) && PlacedStmt(code, pc + StmtSize(s.first), s.rest, sc, lp)
    ensures StmtSize(s) == StmtSize(s.first) + StmtSize(s.rest)
  {
    hide PlacedStmt;
    SeqLayout(code, pc, s.first, s.rest, sc, lp);
  }

  lemma {:induction false} LeafBalanced(s: Stmt, sc: Scope, pc: nat, lp: Loop, code: Code, depth: int)
    requires IsLeaf(s) && PlacedStmt(code, pc, s, sc, lp)
    ensures Scan(code, pc, depth) == Scan(code, pc + StmtSize(s), depth)
  {
    hide Scan;
    LeafPlain(s, sc, pc, lp);
    hide AllPlain;
    ScanPlain(code, pc, GenStmt(s, sc, pc, lp), depth);
  }

  lemma {:induction false} TestedBalanced(c: Expr, t: Stmt, sc: Scope, pc: nat, lp: Loop, code: Code, depth: int)
    requires Tested(code, pc, c, t, sc, lp) && depth >= 1
    ensures Scan(code, pc, depth) == Scan(code, pc + ExprSize(c) + 1 + StmtSize(t) + 1, depth)
    decreases t, 5
  {
    hide *;
    TestedIs(code, pc, c, t, sc, lp);
    ScanExpr(code, pc, c, sc, depth);
    ScanOne(code, pc + ExprSize(c), depth);
    ScanBalanced(t, sc, pc + ExprSize(c) + 1, lp, code, depth);
    ScanOne(code, pc + ExprSize(c) + 1 + StmtSize(t), depth);
  }

  lemma {:induction false} TryBalanced(s: Stmt, sc: Scope, pc: nat, lp: Loop, code: Code, depth: int)
    requires s.Try? && PlacedStmt(code, pc, s, sc, lp) && depth >= 1
    ensures Scan(code, pc, depth) == Scan(code, pc + StmtSize(s), depth)
    decreases s, 3
  {
    hide *;
    TryMarks(code, pc, s, sc, lp);
    var ph := pc + 1 + StmtSize(s.body) + 2;
    ScanMark(code, pc, depth);
    ScanBalanced(s.body, sc, pc + 1, lp, code, depth + 1);
    ScanOne(code, ph - 2, depth + 1);
    ScanMark(code, ph - 1, depth + 1);
    ScanBalanced(s.handler, sc, ph, lp, code, depth);
  }

  lemma {:induction false} ForBalanced(s: Stmt, sc: Scope, pc: nat, lp: Loop, code: Code, depth: int)
    requires s.For? && PlacedStmt(code, pc, s, sc, lp) && depth >= 1
    ensures Scan(code, pc, depth) == Scan(code, pc + StmtSize(s), depth)
    decreases s, 3
  {
    hide *;
    var test, fill, body, end := ForGlue(code, pc, s, sc, lp);
    ForPartsAre(code, pc, s, sc, test, fill, body, end);
    ScanExpr(code, pc, s.init, sc, depth);
    ScanOne(code, test - 1, depth);
    ScanExpr(code, test, s.cond, sc, depth);
    ScanOne(code, fill - 2, depth);
    ScanOne(code, fill - 1, depth);
    ScanOne(code, fill, depth);
    ScanBalanced(s.update, sc, fill + 1, Open, code, depth);
    ScanOne(code, body - 1, depth);
    ScanBalanced(s.body, sc, body, Closed(end, fill), code, depth);
    ScanOne(code, end - 1, depth);
    ScanOne(code, end, depth);
  }

  // ----- searches from inside -----

  lemma {:induction false} RestPlain(code: Code, pc: nat, g: Code, p: nat)
    requires Placed(code, pc, g) && AllPlain(g) && pc <= p <= pc + |g|
    ensures Scan(code, p, 1) == Scan(code, pc + |g|, 1)
  {
    forall i | p <= i < pc + |g| ensures Plain(code[i]) { assert code[pc + (i - pc)] == g[i - pc]; }
    ScanSkips(code, p, pc + |g|, 1);
  }

  lemma {:induction false} RestOfExpr(code: Code, pc: nat, e: Expr, sc: Scope, p: nat)
    requires PlacedExpr(code, pc, e, sc) && pc <= p <= pc + ExprSize(e)
    ensures Scan(code, p, 1) == Scan(code, pc + ExprSize(e), 1)
  {
    ExprPlain(e, sc);
    RestPlain(code, pc, GenExpr(e, sc), p);
  }

  /** What a search should find when the handler is `w`, with `end` behind the statement. */
  function Answer(w: Option<nat>, end: nat, code: Code): nat {
    match w
    case Some(c) => c
    case None => Scan(code, end, 1)
  }

  lemma {:induction false} AnswerNone(w: Option<nat>, end: nat, code: Code)
    ensures Answer(w, end, code) == if w.Some? then w.value else Scan(code, end, 1)
  {
  }

  /** From any position inside a statement the search finds what bracket matching gives: the CATCH of
      the innermost enclosing TRY, or whatever a search behind the statement finds. */
  lemma {:induction false} ScanFinds(s: Stmt, sc: Scope, pc: nat, lp: Loop, code: Code, p: nat)
    requires PlacedStmt(code, pc, s, sc, lp) && pc <= p < pc + StmtSize(s)
    ensures Scan(code, p, 1) == Answer(Handler(s, pc, p), pc + StmtSize(s), code)
    decreases s, 4
  {
    LeafCases(s);
    hide *;
    AnswerNone(Handler(s, pc, p), pc + StmtSize(s), code);
    match s
    case Seq(a, b) =>
      SeqFinds(s, sc, pc, lp, code, p);
    case If(c, t) =>
      IfTested(code, pc, s, sc, lp);
      HandlerIf(c, t, pc, p);
      TestedFinds(c, t, sc, pc, lp, code, p);
    case IfElse(c, t, e) =>
      IfElseFinds(s, sc, pc, lp, code, p);
    case While(c, b) =>
      WhileTested(code, pc, s, sc, lp);
      HandlerWhile(c, b, pc, p);
      TestedFinds(c, b, sc, pc, Closed(pc + ExprSize(c) + 1 + StmtSize(b) + 1, pc), code, p);
    case For(_, _, _, _, _) =>
      ForFinds(s, sc, pc, lp, code, p);
    case Try(b, h) =>
      TryFinds(s, sc, pc, lp, code, p);
    case _ =>
      HandlerLeaf(s, pc, p);
      LeafFinds(s, sc, pc, lp, code, p);
  }

  lemma {:induction false} LeafFinds(s: Stmt, sc: Scope, pc: nat, lp: Loop, code: Code, p: nat)
    requires IsLeaf(s) && PlacedStmt(code, pc, s, sc, lp) && pc <= p < pc + StmtSize(s)
    ensures Scan(code, p, 1) == Scan(code, pc + StmtSize(s), 1)
  {
    hide Scan;
    LeafPlain(s, sc, pc, lp);
    hide AllPlain;
    RestPlain(code, pc, GenStmt(s, sc, pc, lp), p);
  }

  lemma {:induction false} TestedFinds(c: Expr, t: Stmt, sc: Scope, pc: nat, lp: Loop, code: Code, p: nat)
    requires Tested(code, pc, c, t, sc, lp) && pc <= p <= pc + ExprSize(c) + 1 + StmtSize(t)
    ensures Scan(code, p, 1) ==
      Answer(Handler(t, pc + ExprSize(c) + 1, p), pc + ExprSize(c) + 1 + StmtSize(t) + 1, code)
    decreases t, 5
  {
    hide *;
    TestedIs(code, pc, c, t, sc, lp);
    var pt := pc + ExprSize(c) + 1;
    var q := pt + StmtSize(t);
    AnswerNone(Handler(t, pt, p), q + 1, code);
    AnswerNone(Handler(t, pt, p), q, code);
    ScanOne(code, q, 1);
    if pt <= p < q {
      ScanFinds(t, sc, pt, lp, code, p);
    } else {
      HandlerOutside(t, pt, p);
      if p < pt - 1 { RestOfExpr(code, pc, c, sc, p); }
      ScanOne(code, pt - 1, 1);
      ScanBalanced(t, sc, pt, lp, code, 1);
    }
  }

  lemma {:induction false} SeqFinds(s: Stmt, sc: Scope, pc: nat, lp: Loop, code: Code, p: nat)
    requires s.Seq? && PlacedStmt(code, pc, s, sc, lp) && pc <= p < pc + StmtSize(s)
    ensures Scan(code, p, 1) == Answer(Handler(s, pc, p), pc + StmtSize(s), code)
    decreases s, 3
  {
    hide *;
    var q := pc + StmtSize(s.first);
    HandlerSeq(s.first, s.rest, pc, p);
    PickIs(Handler(s.first, pc, p), Handler(s.rest, q, p));
    SeqParts(code, pc, s, sc, lp);
    AnswerNone(Handler(s, pc, p), pc + StmtSize(s), code);
    if p < q {
      HandlerOutside(s.rest, q, p);
      ScanFinds(s.first, sc, pc, lp, code, p);
      AnswerNone(Handler(s.first, pc, p), q, code);
      ScanBalanced(s.rest, sc, q, lp, code, 1);
    } else {
      HandlerOutside(s.first, pc, p);
      ScanFinds(s.rest, sc, q, lp, code, p);
      AnswerNone(Handler(s.rest, q, p), pc + StmtSize(s), code);
    }
  }

  lemma {:induction false} IfElseFinds(s: Stmt, sc: Scope, pc: nat, lp: Loop, code: Code, p: nat)
    requires s.IfElse? && PlacedStmt(code, pc, s, sc, lp) && pc <= p < pc + StmtSize(s)
    ensures Scan(code, p, 1) == Answer(Handler(s, pc, p), pc + StmtSize(s), code)
    decreases s, 3
  {
    hide *;
    AnswerNone(Handler(s, pc, p), pc + StmtSize(s), code);
    PickIs(Handler(s.thn, pc + ExprSize(s.cond) + 1, p),
        Handler(s.els, pc + ExprSize(s.cond) + StmtSize(s.thn) + 2, p));
    var c, t, e := s.cond, s.thn, s.els;
    var pe := pc + ExprSize(c) + StmtSize(t) + 2;
    HandlerIfElse(c, t, e, pc, p);
    IfElseTested(code, pc, s, sc, lp);
    ScanOne(code, pe + StmtSize(e), 1);
    if p < pe || p >= pe + StmtSize(e) { HandlerOutside(e, pe, p); }
    if p >= pe - 1 { HandlerOutside(t, pc + ExprSize(c) + 1, p); }
    if p < pe {
      TestedFinds(c, t, sc, pc, lp, code, p);
      AnswerNone(Handler(t, pc + ExprSize(c) + 1, p), pc + ExprSize(c) + 1 + StmtSize(t) + 1, code);
      ScanBalanced(e, sc, pe, lp, code, 1);
    } else if p < pe + StmtSize(e) {
      ScanFinds(e, sc, pe, lp, code, p);
      AnswerNone(Handler(e, pe, p), pe + StmtSize(e), code);
    }
  }

  lemma {:induction false} TryFinds(s: Stmt, sc: Scope, pc: nat, lp: Loop, code: Code, p: nat)
    requires s.Try? && PlacedStmt(code, pc, s, sc, lp) && pc <= p < pc + StmtSize(s)
    ensures Scan(code, p, 1) == Answer(Handler(s, pc, p), pc + StmtSize(s), code)
    decreases s, 3
  {
    hide *;
    AnswerNone(Handler(s, pc, p), pc + StmtSize(s), code);
    var b, h, ph := s.body, s.handler, pc + 1 + StmtSize(s.body) + 2;
    HandlerTry(b, h, pc, p);
    PickIs(Handler(b, pc + 1, p), if pc < p < ph then Some(ph - 1) else Handler(h, ph, p));
    AnswerNone(Handler(b, pc + 1, p), pc + 1 + StmtSize(b), code);
    AnswerNone(Handler(h, ph, p), ph + StmtSize(h), code);
    TryMarks(code, pc, s, sc, lp);
    if p <= pc || p >= ph - 2 { HandlerOutside(b, pc + 1, p); }
    if p < ph { HandlerOutside(h, ph, p); }
    ScanOne(code, ph - 2, 1);
    ScanMark(code, ph - 1, 1);
    if p == pc {
      TryBalanced(s, sc, pc, lp, code, 1);
    } else if p < ph - 2 {
      ScanFinds(b, sc, pc + 1, lp, code, p);
    } else if p >= ph {
      ScanFinds(h, sc, ph, lp, code, p);
    }
  }

  lemma {:induction false} ForFinds(s: Stmt, sc: Scope, pc: nat, lp: Loop, code: Code, p: nat)
    requires s.For? && PlacedStmt(code, pc, s, sc, lp) && pc <= p < pc + StmtSize(s)
    ensures Scan(code, p, 1) == Answer(Handler(s, pc, p), pc + StmtSize(s), code)
    decreases s, 3
  {
    hide *;
    var test, fill, body, end := ForGlue(code, pc, s, sc, lp);
    ForPartsAre(code, pc, s, sc, test, fill, body, end);
    HandlerFor(s, pc, p);
    var hu, hb := Handler(s.update, fill + 1, p), Handler(s.body, body, p);
    PickIs(hu, hb);
    AnswerNone(Handler(s, pc, p), end + 1, code);
    AnswerNone(hu, body, code);
    AnswerNone(hb, end + 1, code);
    ForTail(s, sc, pc, test, fill, body, end, code, p);
    ForMiddleFinds(s, sc, pc, test, fill, body, end, code, p);
    if p < test - 1 { RestOfExpr(code, pc, s.init, sc, p); }
    ScanOne(code, test - 1, 1);
    if p < body { HandlerOutside(s.body, body, p); }
    if p < fill + 1 || p >= body - 1 { HandlerOutside(s.update, fill + 1, p); }
  }

  /** The body of a FOR and the two instructions behind it. */
  lemma {:induction false} ForTail(s: Stmt, sc: Scope, pc: nat, test: nat, fill: nat, body: nat, end: nat, code: Code,
      p: nat)
    requires ForParts(code, pc, s, sc, test, fill, body, end)
    ensures Scan(code, body, 1) == Scan(code, end + 1, 1)
    ensures body <= p <= end ==> Scan(code, p, 1) == Answer(Handler(s.body, body, p), end + 1, code)
    decreases s, 2
  {
    hide *;
    ForPartsAre(code, pc, s, sc, test, fill, body, end);
    AnswerNone(Handler(s.body, body, p), end + 1, code);
    AnswerNone(Handler(s.body, body, p), end - 1, code);
    if p < body || p >= body + StmtSize(s.body) { HandlerOutside(s.body, body, p); }
    ScanBalanced(s.body, sc, body, Closed(end, fill), code, 1);
    ScanOne(code, end - 1, 1);
    ScanOne(code, end, 1);
    if body <= p < body + StmtSize(s.body) { ScanFinds(s.body, sc, body, Closed(end, fill), code, p); }
  }

  /** The test, the two jumps, the filler, the update and the jump back. */
  lemma {:induction false} ForMiddleFinds(s: Stmt, sc: Scope, pc: nat, test: nat, fill: nat, body: nat, end: nat,
      code: Code, p: nat)
    requires ForParts(code, pc, s, sc, test, fill, body, end)
    ensures Scan(code, test, 1) == Scan(code, body, 1)
    ensures test <= p < body ==> Scan(code, p, 1) == Answer(Handler(s.update, fill + 1, p), body, code)
    decreases s, 2
  {
    hide *;
    ForPartsAre(code, pc, s, sc, test, fill, body, end);
    AnswerNone(Handler(s.update, fill + 1, p), body, code);
    AnswerNone(Handler(s.update, fill + 1, p), body - 1, code);
    if p < fill + 1 || p >= body - 1 { HandlerOutside(s.update, fill + 1, p); }
    RestOfExpr(code, test, s.cond, sc, test);
    if test <= p < fill - 2 { RestOfExpr(code, test, s.cond, sc, p); }
    ScanOne(code, fill - 2, 1);
    ScanOne(code, fill - 1, 1);
    ScanOne(code, fill, 1);
    ScanBalanced(s.update, sc, fill + 1, Open, code, 1);
    ScanOne(code, body - 1, 1);
    if fill + 1 <= p < body - 1 { ScanFinds(s.update, sc, fill + 1, Open, code, p); }
  }

  /** In the chunk of a function, a search from any position of the body with the flag set stops at
      the CATCH of the innermost enclosing TRY or, when there is none, at the closing RET. */
  lemma {:induction false} FunctionScan(argc: nat, body: Stmt, sc: Scope, p: nat)
    requires 1 <= p < 1 + StmtSize(body)
    ensures var stop, catchAt := Scan(FunCode(argc, body, sc), p, 1), Handler(body, 1, p);
      stop == if catchAt.Some? then catchAt.value else 1 + StmtSize(body)
  {
    hide *;
    var code, end := FunCode(argc, body, sc), 1 + StmtSize(body);
    FunLayout(argc, body, sc, code);
    ScanFinds(body, sc, 1, Open, code, p);
    AnswerNone(Handler(body, 1, p), end, code);
    LastIs(code, end);
    ScanMark(code, end, 1);
  }

  lemma {:induction false} LastIs(code: Code, p: nat)
    requires Is(code, p, LAST_RET)
    ensures p < |code| && IsLastRet(code[p])
  {
  }
}
