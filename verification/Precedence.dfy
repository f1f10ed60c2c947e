/** Which operators bind tighter: how chains of operators are read, stated on the language's own list of
    operator groups. */
module Precedence {
  import opened Values
  import opened Wrappers
  import opened Syntax
  import opened Parser
  import opened ParserRoundTrip

  /** The binary operators, tightest group first. */
  const LADDER: seq<set<BinOp>> := [
    {Mul, Div}, {Add, Sub}, {BitAnd}, {BitOr}, {BitXor}, {Shl, Shr}, {Eq, Ne}, {Lt, Gt}]

  /** `p` stands in the group of `q` or in a tighter one. */
  ghost predicate NotLater(p: BinOp, q: BinOp) {
    exists i, j :: 0 <= i <= j < |LADDER| && p in LADDER[i] && q in LADDER[j]
  }

  /** Names and literals. */
  predicate Atom(e: Expr) { e.Lit? || e.Var? }

  function AtomToken(e: Expr): Token
    requires Atom(e)
  {
    if e.Var? then TkIdent(e.name)
    else if e.lit.LNil? then TkNil
    else if e.lit.LBool? then (if e.lit.b then TkTrue else TkFalse)
    else TkNum(e.lit.lex)
  }

  lemma GroupIs(op: BinOp, i: nat)
    ensures i < |LADDER| && op in LADDER[i] <==> i == Level(op) - 1
  {
  }

  lemma NotLaterIs(p: BinOp, q: BinOp)
    ensures NotLater(p, q) <==> Level(p) <= Level(q)
  {
    GroupIs(p, Level(p) - 1);
    GroupIs(q, Level(q) - 1);
    forall i, j | 0 <= i <= j < |LADDER| && p in LADDER[i] && q in LADDER[j]
      ensures Level(p) <= Level(q)
    {
      GroupIs(p, i);
      GroupIs(q, j);
    }
    hide Level;
    if Level(p) <= Level(q) { assert p in LADDER[Level(p) - 1] && q in LADDER[Level(q) - 1]; }
  }

  lemma {:induction false} BinPrinted(op: BinOp, l: Expr, r: Expr, k: nat)
    ensures Bare(Bin(op, l, r)) == Print(l, 3 + Level(op)) + [TkOp(op)] + Print(r, 2 + Level(op))
    ensures 3 + Level(op) <= k ==> Print(Bin(op, l, r), k) == Bare(Bin(op, l, r))
  {
    hide Level;
  }

  lemma LevelBounds(op: BinOp)
    ensures 3 + Level(op) <= 11
  {
  }

  lemma SemiStops(rest: Toks)
    ensures Stops(13, [TkSemi] + rest)
  {
  }

  lemma {:induction false} Reads(e: Expr, t: Toks, rest: Toks)
    requires Print(e, 13) == t
    ensures ParseOr(t + [TkSemi] + rest) == Some((e, [TkSemi] + rest))
  {
    hide Print, ParseOr;
    SemiStops(rest);
    ParseOfPrint(e, [TkSemi] + rest);
    assert t + [TkSemi] + rest == t + ([TkSemi] + rest);
  }

  lemma {:induction false} LeafPrinted(e: Expr)
    requires Atom(e)
    ensures forall k: nat :: Print(e, k) == [AtomToken(e)]
  {
  }

  lemma {:induction false} ReadsLeft(p: BinOp, q: BinOp, a: Expr, b: Expr, c: Expr, rest: Toks)
    requires Atom(a) && Atom(b) && Atom(c) && Level(p) <= Level(q)
    ensures ParseOr([AtomToken(a), TkOp(p), AtomToken(b), TkOp(q), AtomToken(c)] + [TkSemi] + rest) ==
      Some((Bin(q, Bin(p, a, b), c), [TkSemi] + rest))
  {
    hide Print, Bare, Level, AtomToken, ParseOr, Atom;
    LevelBounds(q);
    LeafPrinted(a);
    LeafPrinted(b);
    LeafPrinted(c);
    BinPrinted(p, a, b, 3 + Level(q));
    BinPrinted(q, Bin(p, a, b), c, 13);
    Reads(Bin(q, Bin(p, a, b), c), [AtomToken(a), TkOp(p), AtomToken(b), TkOp(q), AtomToken(c)], rest);
  }

  lemma {:induction false} ReadsRight(p: BinOp, q: BinOp, a: Expr, b: Expr, c: Expr, rest: Toks)
    requires Atom(a) && Atom(b) && Atom(c) && Level(q) < Level(p)
    ensures ParseOr([AtomToken(a), TkOp(p), AtomToken(b), TkOp(q), AtomToken(c)] + [TkSemi] + rest) ==
      Some((Bin(p, a, Bin(q, b, c)), [TkSemi] + rest))
  {
    hide Print, Bare, Level, AtomToken, ParseOr, Atom;
    LevelBounds(p);
    LeafPrinted(a);
    LeafPrinted(b);
    LeafPrinted(c);
    BinPrinted(q, b, c, 2 + Level(p));
    BinPrinted(p, a, Bin(q, b, c), 13);
    Reads(Bin(p, a, Bin(q, b, c)), [AtomToken(a), TkOp(p), AtomToken(b), TkOp(q), AtomToken(c)], rest);
  }

  /** Two operators in a row: the one of the tighter group takes the middle operand, and within a group
      the one on the left does. */
  lemma {:induction false} ReadsByGroups(p: BinOp, q: BinOp, a: Expr, b: Expr, c: Expr, rest: Toks)
    requires Atom(a) && Atom(b) && Atom(c)
    ensures ParseOr([AtomToken(a), TkOp(p), AtomToken(b), TkOp(q), AtomToken(c), TkSemi] + rest) ==
      Some((if NotLater(p, q) then Bin(q, Bin(p, a, b), c) else Bin(p, a, Bin(q, b, c)), [TkSemi] + rest))
  {
    hide *;
    NotLaterIs(p, q);
    if NotLater(p, q) { ReadsLeft(p, q, a, b, c, rest); } else { ReadsRight(p, q, a, b, c, rest); }
    var t := [AtomToken(a), TkOp(p), AtomToken(b), TkOp(q), AtomToken(c)];
    assert t + [TkSemi] + rest == [AtomToken(a), TkOp(p), AtomToken(b), TkOp(q), AtomToken(c), TkSemi] + rest;
  }

  /** Nodes of the tightest and the loosest operators in print. */
  lemma {:induction false} OthersPrinted(l: Expr, r: Expr, k: nat)
    ensures k >= 3 ==> Print(Coal(l, r), k) == Print(l, 2) + [TkNullCoal] + Print(r, 2)
    ensures k >= 2 ==>
      Print(BitNot(l), k) == [TkBitNot] + Print(l, 1) && Print(Nullish(l), k) == [TkNullish] + Print(l, 1)
    ensures Print(And(l, r), if k < 12 then 12 else k) == Print(l, 11) + [TkAnd] + Print(r, 11)
    ensures Print(Or(l, r), 13) == Print(l, 12) + [TkOr] + Print(r, 12)
  {
    hide Level;
  }

  /** `??` binds tighter than every operator of the groups, and the prefixes tighter still. */
  lemma {:induction false} ReadsTightest(p: BinOp, a: Expr, b: Expr, c: Expr, rest: Toks)
    requires Atom(a) && Atom(b) && Atom(c)
    ensures ParseOr([AtomToken(a), TkNullCoal, AtomToken(b), TkOp(p), AtomToken(c)] + [TkSemi] + rest) ==
      Some((Bin(p, Coal(a, b), c), [TkSemi] + rest))
    ensures ParseOr([AtomToken(a), TkOp(p), AtomToken(b), TkNullCoal, AtomToken(c)] + [TkSemi] + rest) ==
      Some((Bin(p, a, Coal(b, c)), [TkSemi] + rest))
    ensures ParseOr([TkBitNot, AtomToken(a), TkOp(p), AtomToken(b)] + [TkSemi] + rest) ==
      Some((Bin(p, BitNot(a), b), [TkSemi] + rest))
    ensures ParseOr([TkNullish, AtomToken(a), TkOp(p), AtomToken(b)] + [TkSemi] + rest) ==
      Some((Bin(p, Nullish(a), b), [TkSemi] + rest))
    ensures ParseOr([TkBitNot, AtomToken(a), TkNullCoal, AtomToken(b)] + [TkSemi] + rest) ==
      Some((Coal(BitNot(a), b), [TkSemi] + rest))
  {
    hide Print, Bare, Level, AtomToken, ParseOr, Atom;
    LevelBounds(p);
    LeafPrinted(a);
    LeafPrinted(b);
    LeafPrinted(c);
    BinPrinted(p, Coal(a, b), c, 13);
    BinPrinted(p, a, Coal(b, c), 13);
    BinPrinted(p, BitNot(a), b, 13);
    BinPrinted(p, Nullish(a), b, 13);
    OthersPrinted(a, b, 3 + Level(p));
    OthersPrinted(b, c, 2 + Level(p));
    OthersPrinted(a, b, 2);
    OthersPrinted(BitNot(a), b, 13);
    Reads(Bin(p, Coal(a, b), c), [AtomToken(a), TkNullCoal, AtomToken(b), TkOp(p), AtomToken(c)], rest);
    Reads(Bin(p, a, Coal(b, c)), [AtomToken(a), TkOp(p), AtomToken(b), TkNullCoal, AtomToken(c)], rest);
    Reads(Bin(p, BitNot(a), b), [TkBitNot, AtomToken(a), TkOp(p), AtomToken(b)], rest);
    Reads(Bin(p, Nullish(a), b), [TkNullish, AtomToken(a), TkOp(p), AtomToken(b)], rest);
    Reads(Coal(BitNot(a), b), [TkBitNot, AtomToken(a), TkNullCoal, AtomToken(b)], rest);
  }

  /** Short-circuit AND binds looser than every operator of the groups, and OR looser still. */
  lemma {:induction false} ReadsLoosest(p: BinOp, a: Expr, b: Expr, c: Expr, rest: Toks)
    requires Atom(a) && Atom(b) && Atom(c)
    ensures ParseOr([AtomToken(a), TkAnd, AtomToken(b), TkOp(p), AtomToken(c)] + [TkSemi] + rest) ==
      Some((And(a, Bin(p, b, c)), [TkSemi] + rest))
    ensures ParseOr([AtomToken(a), TkOp(p), AtomToken(b), TkAnd, AtomToken(c)] + [TkSemi] + rest) ==
      Some((And(Bin(p, a, b), c), [TkSemi] + rest))
    ensures ParseOr([AtomToken(a), TkOr, AtomToken(b), TkAnd, AtomToken(c)] + [TkSemi] + rest) ==
      Some((Or(a, And(b, c)), [TkSemi] + rest))
    ensures ParseOr([AtomToken(a), TkAnd, AtomToken(b), TkOr, AtomToken(c)] + [TkSemi] + rest) ==
      Some((Or(And(a, b), c), [TkSemi] + rest))
  {
    hide Print, Bare, Level, AtomToken, ParseOr, Atom;
    LevelBounds(p);
    LeafPrinted(a);
    LeafPrinted(b);
    LeafPrinted(c);
    BinPrinted(p, b, c, 11);
    BinPrinted(p, a, b, 11);
    OthersPrinted(a, Bin(p, b, c), 13);
    OthersPrinted(Bin(p, a, b), c, 13);
    OthersPrinted(a, And(b, c), 13);
    OthersPrinted(And(a, b), c, 13);
    OthersPrinted(b, c, 12);
    OthersPrinted(a, b, 12);
    Reads(And(a, Bin(p, b, c)), [AtomToken(a), TkAnd, AtomToken(b), TkOp(p), AtomToken(c)], rest);
    Reads(And(Bin(p, a, b), c), [AtomToken(a), TkOp(p), AtomToken(b), TkAnd, AtomToken(c)], rest);
    Reads(Or(a, And(b, c)), [AtomToken(a), TkOr, AtomToken(b), TkAnd, AtomToken(c)], rest);
    Reads(Or(And(a, b), c), [AtomToken(a), TkAnd, AtomToken(b), TkOr, AtomToken(c)], rest);
  }
}
