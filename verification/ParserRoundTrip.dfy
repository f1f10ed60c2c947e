/** Printing a tree with the parentheses it needs and parsing it gives the tree back. */
module ParserRoundTrip {
  import opened Values
  import opened Wrappers
  import opened Syntax
  import opened Parser

  /** The rungs of the ladder: 0 literals, 1 calls, 2 prefixes, 3 `??`, 4 to 11 the binary levels,
      12 `&&`, 13 `||`. */
  function ParseAt(k: nat, t: Toks): Option<(Expr, Toks)>
    requires k <= 13
  {
    if k == 0 then ParseLiteral(t)
    else if k == 1 then ParseCall(t)
    else if k == 2 then ParseUnary(t)
    else if k <= 11 then ParseLevel(k - 3, t)
    else if k == 12 then ParseAnd(t)
    else ParseOr(t)
  }

  /** The rung that builds a node. */
  function Rank(e: Expr): (k: nat)
    ensures k <= 13
  {
    match e
    case Lit(_) => 0
    case Var(_) => 0
    case Call(_, _) => 1
    case BitNot(_) => 2
    case Nullish(_) => 2
    case Coal(_, _) => 3
    case Bin(op, _, _) => 3 + Level(op)
    case And(_, _) => 12
    case Or(_, _) => 13
  }

  function LitToken(l: Literal): Token {
    match l
    case LNil => TkNil
    case LBool(b) => if b then TkTrue else TkFalse
    case LNum(s) => TkNum(s)
  }

  /** A node without outer parentheses; left operands keep their own level, right operands do not. */
  function Bare(e: Expr): Toks
    decreases e, 0
  {
    match e
    case Lit(l) => [LitToken(l)]
    case Var(x) => [TkIdent(x)]
    case Call(f, args) => Print(f, 0) + [TkLParen] + PrintArgs(args)
    case BitNot(x) => [TkBitNot] + Print(x, 1)
    case Nullish(x) => [TkNullish] + Print(x, 1)
    case Coal(l, r) => Print(l, 2) + [TkNullCoal] + Print(r, 2)
    case Bin(op, l, r) => Print(l, 3 + Level(op)) + [TkOp(op)] + Print(r, 2 + Level(op))
    case And(l, r) => Print(l, 11) + [TkAnd] + Print(r, 11)
    case Or(l, r) => Print(l, 12) + [TkOr] + Print(r, 12)
  }

  function Print(e: Expr, k: nat): Toks
    decreases e, 1
  {
    if Rank(e) <= k then Bare(e) else [TkLParen] + Bare(e) + [TkRParen]
  }

  function PrintArgs(es: Exprs): (t: Toks)
    ensures t != []
    decreases es, 0
  {
    match es
    case ENil => [TkRParen]
    case ECons(e, tail) => Print(e, 11) + (if tail.ENil? then PrintArgs(tail) else [TkComma] + PrintArgs(tail))
  }

  /** What follows cannot extend a node of rung `k`. */
  predicate Stops(k: nat, s: Toks) {
    s == [] ||
    (&& s[0] != TkBind
     && (k >= 1 ==> s[0] != TkLParen)
     && (k >= 3 ==> s[0] != TkNullCoal)
     && (s[0].TkOp? ==> Level(s[0].op) > k - 3)
     && (k >= 12 ==> s[0] != TkAnd)
     && (k >= 13 ==> s[0] != TkOr))
  }

  /** A node of a lower rung is also a node of the next one. */
  lemma {:induction false} LiftOne(k: nat, t: Toks, e: Expr, s: Toks)
    requires k < 13 && ParseAt(k, t) == Some((e, s)) && Stops(k + 1, s)
    ensures ParseAt(k + 1, t) == Some((e, s))
  {
    if k == 1 {
      assert ParseLiteral(t).Some? && t != [];
    } else if k == 2 {
      assert ParseLevel(0, t) == ParseCoal(t);
    } else if 3 <= k < 11 {
      assert ParseLevel(k - 3, t) == Some((e, s)) && !Continues(s, k - 2);
      assert ParseLevel(k - 2, t) == ParseLoop(k - 2, e, s);
    }
  }

  lemma {:induction false} Lift(j: nat, k: nat, t: Toks, e: Expr, s: Toks)
    requires j <= k <= 13 && ParseAt(j, t) == Some((e, s)) && Stops(k, s)
    ensures ParseAt(k, t) == Some((e, s))
    decreases k - j
  {
    if j < k {
      LiftOne(j, t, e, s);
      Lift(j + 1, k, t, e, s);
    }
  }

  lemma {:induction false} PrintIs(e: Expr, k: nat)
    ensures Rank(e) <= k ==> Print(e, k) == Bare(e)
    ensures Rank(e) > k ==> Print(e, k) == [TkLParen] + Bare(e) + [TkRParen]
  {
    hide Bare, Rank;
  }

  /** A parenthesized node is a node of the lowest rung. */
  lemma {:induction false} GroupStep(e: Expr, inner: Toks, s: Toks)
    requires ParseAt(13, inner + ([TkRParen] + s)) == Some((e, [TkRParen] + s))
    ensures ParseAt(0, [TkLParen] + inner + [TkRParen] + s) == Some((e, s))
  {
    hide ParseOr;
    var t := [TkLParen] + inner + [TkRParen] + s;
    assert t[1..] == inner + ([TkRParen] + s);
    assert ([TkRParen] + s)[1..] == s;
    if |t| >= 2 { assert !IsTarget(t); }
  }

  lemma {:induction false} ParenStops(k: nat, s: Toks)
    ensures Stops(k, [TkRParen] + s)
  {
  }

  lemma {:induction false} RoundTrip(e: Expr, k: nat, s: Toks)
    requires k <= 13 && Stops(k, s)
    ensures ParseAt(k, Print(e, k) + s) == Some((e, s))
    decreases e, 2
  {
    hide *;
    PrintIs(e, k);
    if Rank(e) <= k {
      LowerStops(Rank(e), k, s);
      RoundTripBare(e, s);
      Lift(Rank(e), k, Bare(e) + s, e, s);
    } else {
      var inner := [TkRParen] + s;
      ParenStops(Rank(e), s);
      ParenStops(13, s);
      RoundTripBare(e, inner);
      Lift(Rank(e), 13, Bare(e) + inner, e, inner);
      GroupStep(e, Bare(e), s);
      Lift(0, k, [TkLParen] + Bare(e) + [TkRParen] + s, e, s);
    }
  }

  /** What stops a rung stops every lower one. */
  lemma {:induction false} LowerStops(j: nat, k: nat, s: Toks)
    requires j <= k && Stops(k, s)
    ensures Stops(j, s)
  {
  }

  lemma {:induction false} CallStep(f: Expr, args: Exprs, t: Toks, after: Toks, s: Toks)
    requires ParseLiteral(t) == Some((f, [TkLParen] + after)) && ParseArgs(after) == Some((args, s))
    ensures ParseCall(t) == Some((Call(f, args), s))
  {
    assert ([TkLParen] + after)[1..] == after;
  }

  lemma {:induction false} CoalStep(l: Expr, r: Expr, t: Toks, after: Toks, s: Toks)
    requires ParseUnary(t) == Some((l, [TkNullCoal] + after)) && ParseUnary(after) == Some((r, s))
    ensures ParseCoal(t) == Some((Coal(l, r), s))
  {
    assert ([TkNullCoal] + after)[1..] == after;
  }

  lemma {:induction false} AndStep(l: Expr, r: Expr, t: Toks, after: Toks, s: Toks)
    requires ParseLevel(8, t) == Some((l, [TkAnd] + after)) && ParseLevel(8, after) == Some((r, s))
    ensures ParseAnd(t) == Some((And(l, r), s))
  {
    assert ([TkAnd] + after)[1..] == after;
  }

  lemma {:induction false} OrStep(l: Expr, r: Expr, t: Toks, after: Toks, s: Toks)
    requires ParseAnd(t) == Some((l, [TkOr] + after)) && ParseAnd(after) == Some((r, s))
    ensures ParseOr(t) == Some((Or(l, r), s))
  {
    assert ([TkOr] + after)[1..] == after;
  }

  lemma {:induction false} LoopStep(op: BinOp, l: Expr, r: Expr, after: Toks, s: Toks)
    requires ParseLevel(Level(op) - 1, after) == Some((r, s))
    ensures ParseLoop(Level(op), l, [TkOp(op)] + after) == ParseLoop(Level(op), Bin(op, l, r), s)
  {
    assert ([TkOp(op)] + after)[1..] == after;
  }

  lemma {:induction false} AtomStep(e: Expr, s: Toks)
    requires (e.Lit? || e.Var?) && Stops(0, s)
    ensures ParseLiteral(Bare(e) + s) == Some((e, s))
  {
    assert (Bare(e) + s)[1..] == s;
  }

  lemma {:induction false} PrefixStep(e: Expr, x: Expr, s: Toks)
    requires e == BitNot(x) || e == Nullish(x)
    requires ParseCall(Print(x, 1) + s) == Some((x, s))
    ensures ParseUnary(Bare(e) + s) == Some((e, s))
  {
    hide ParseCall, Print;
    assert (Bare(e) + s)[1..] == Print(x, 1) + s;
  }

  /** Concatenation of three parts and a tail. */
  lemma {:induction false} Regroup(a: Toks, k: Token, b: Toks, s: Toks)
    ensures a + [k] + b + s == a + ([k] + (b + s))
  {
  }

  lemma {:induction false} RoundTripBare(e: Expr, s: Toks)
    requires Stops(Rank(e), s)
    ensures ParseAt(Rank(e), Bare(e) + s) == Some((e, s))
    decreases e, 1
  {
    hide ParseLiteral, ParseArgs, ParseCall, ParseUnary, ParseCoal, ParseAnd, ParseOr, Print, PrintArgs;
    match e
    case Call(f, args) =>
      Regroup(Print(f, 0), TkLParen, PrintArgs(args), s);
      RoundTrip(f, 0, [TkLParen] + (PrintArgs(args) + s));
      RoundTripArgs(args, s);
      CallStep(f, args, Bare(e) + s, PrintArgs(args) + s, s);
    case BitNot(x) =>
      RoundTrip(x, 1, s);
      PrefixStep(e, x, s);
    case Nullish(x) =>
      RoundTrip(x, 1, s);
      PrefixStep(e, x, s);
    case Coal(l, r) =>
      Regroup(Print(l, 2), TkNullCoal, Print(r, 2), s);
      RoundTrip(l, 2, [TkNullCoal] + (Print(r, 2) + s));
      RoundTrip(r, 2, s);
      CoalStep(l, r, Bare(e) + s, Print(r, 2) + s, s);
      CoalIsLevelZero(Bare(e) + s);
    case Bin(op, l, r) =>
      BinLoop(op, l, r, s);
      LoopEnds(op, e, s);
    case And(l, r) =>
      Regroup(Print(l, 11), TkAnd, Print(r, 11), s);
      RoundTrip(l, 11, [TkAnd] + (Print(r, 11) + s));
      RoundTrip(r, 11, s);
      AndStep(l, r, Bare(e) + s, Print(r, 11) + s, s);
    case Or(l, r) =>
      Regroup(Print(l, 12), TkOr, Print(r, 12), s);
      RoundTrip(l, 12, [TkOr] + (Print(r, 12) + s));
      RoundTrip(r, 12, s);
      OrStep(l, r, Bare(e) + s, Print(r, 12) + s, s);
    case _ =>
      AtomStep(e, s);
  }

  lemma {:induction false} CoalIsLevelZero(t: Toks)
    ensures ParseLevel(0, t) == ParseCoal(t)
  {
  }

  lemma {:induction false} LoopEnds(op: BinOp, e: Expr, s: Toks)
    requires Stops(3 + Level(op), s)
    ensures ParseLoop(Level(op), e, s) == Some((e, s))
  {
  }

  /** A printed operation leads the loop of its level to the whole node. */
  lemma {:induction false} BinLoop(op: BinOp, l: Expr, r: Expr, s: Toks)
    requires Stops(2 + Level(op), s)
    ensures ParseLevel(Level(op), Bare(Bin(op, l, r)) + s) == ParseLoop(Level(op), Bin(op, l, r), s)
    decreases Bin(op, l, r), 0
  {
    var k := Level(op);
    var tail := Print(r, 2 + k) + s;
    BareBin(op, l, r, s);
    StopsAtOperator(op, tail);
    hide ParseCoal, ParseLoop, ParseLevel, Print, Bare, Stops;
    Spine(l, k, [TkOp(op)] + tail);
    RoundTrip(r, 2 + k, s);
    assert ParseAt(2 + k, tail) == ParseLevel(k - 1, tail);
    LoopStep(op, l, r, tail, s);
  }

  lemma {:induction false} BareBin(op: BinOp, l: Expr, r: Expr, s: Toks)
    ensures Bare(Bin(op, l, r)) + s == Print(l, 3 + Level(op)) + ([TkOp(op)] + (Print(r, 2 + Level(op)) + s))
  {
    hide Print;
    Regroup(Print(l, 3 + Level(op)), TkOp(op), Print(r, 2 + Level(op)), s);
  }

  lemma {:induction false} StopsAtOperator(op: BinOp, s: Toks)
    ensures Stops(2 + Level(op), [TkOp(op)] + s)
  {
  }

  /** Left operands of the same level are left to the loop. */
  lemma {:induction false} Spine(e: Expr, k: nat, s: Toks)
    requires 1 <= k <= 8 && Stops(2 + k, s)
    ensures ParseLevel(k, Print(e, 3 + k) + s) == ParseLoop(k, e, s)
    decreases e, 3
  {
    if Rank(e) == 3 + k {
      assert e.Bin?;
      BinLoop(e.op, e.l, e.r, s);
    } else {
      RoundTrip(e, 2 + k, s);
      assert Print(e, 2 + k) == Print(e, 3 + k);
    }
  }

  /** A printed node never starts with what ends an argument list. */
  lemma {:induction false} PrintStart(e: Expr, k: nat)
    ensures Print(e, k) != [] && Print(e, k)[0] != TkRParen
    decreases e, 1
  {
    BareStart(e);
  }

  lemma {:induction false} BareStart(e: Expr)
    ensures Bare(e) != [] && Bare(e)[0] != TkRParen
    decreases e, 0
  {
    match e
    case Call(f, _) => PrintStart(f, 0);
    case Coal(l, _) => PrintStart(l, 2);
    case Bin(op, l, _) => PrintStart(l, 3 + Level(op));
    case And(l, _) => PrintStart(l, 11);
    case Or(l, _) => PrintStart(l, 12);
    case _ =>
  }

  lemma {:induction false} RoundTripArgs(es: Exprs, s: Toks)
    ensures ParseArgs(PrintArgs(es) + s) == Some((es, s))
    decreases es, 0
  {
    match es
    case ENil =>
      assert (PrintArgs(es) + s)[1..] == s;
    case ECons(e, tail) =>
      var rest := PrintArgs(tail) + s;
      var after := if tail.ENil? then rest else [TkComma] + rest;
      assert PrintArgs(es) + s == Print(e, 11) + after;
      PrintStart(e, 11);
      RoundTrip(e, 11, after);
      RoundTripArgs(tail, s);
      assert EatIf(after, TkComma) == rest;
  }

  /** The whole-expression form: the ladder consumes exactly the printed tokens. */
  lemma {:induction false} ParseOfPrint(e: Expr, s: Toks)
    requires Stops(13, s)
    ensures ParseOr(Print(e, 13) + s) == Some((e, s))
  {
    RoundTrip(e, 13, s);
  }

  /** Trees with the same text are the same tree, so the parentheses printed are enough. */
  lemma {:induction false} PrintInjective(a: Expr, b: Expr)
    requires Print(a, 13) == Print(b, 13)
    ensures a == b
  {
    ParseOfPrint(a, []);
    ParseOfPrint(b, []);
  }
}
