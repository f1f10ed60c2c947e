/** Dictionary objects: a pointer tree ordered by the hash of the key, searched and extended by loops. */
module Dict {
  import opened Values
  import opened Bytecode
  import opened Wrappers

  // ----- hashes -----

  /** The byte of a two's complement number at a power of 256. */
  function ByteOf(x: i32, place: nat): (b: u8)
    requires place > 0
  {
    (x % 0x1_0000_0000) / place % 0x100
  }

  /** The 32 bits that are hashed; `bits` gives a float's representation. */
  function Scalar(key: Value, bits: Float -> i32): i32 {
    match key
    case VBool(b) => if b then 3 else 1
    case VInt(i) => i
    case VReal(f) => bits(f)
    case VStr(id) => Wrap32(id)
    case VObj(id) => Wrap32(id)
    case _ => 0
  }

  const HASH_MAX: nat := 39780

  function HashOf(x: i32): (h: nat)
    ensures h <= HASH_MAX
  {
    ByteOf(x, 1) + 5 * ByteOf(x, 0x100) + 25 * ByteOf(x, 0x1_0000) + 125 * ByteOf(x, 0x100_0000)
  }

  function Hash(key: Value, bits: Float -> i32): (h: nat)
    ensures h <= HASH_MAX
  {
    HashOf(Scalar(key, bits))
  }

  // ----- the tree -----

  class Prop {
    const hash: int
    var data: Value
    var l: Prop?
    var r: Prop?
    var flags: u8

    constructor (hash: int, data: Value, flags: u8)
      ensures this.hash == hash && this.data == data && this.flags == flags && l == null && r == null
    {
      this.hash, this.data, this.flags, l, r := hash, data, flags, null, null;
    }
  }

  /** The shape of the pointer tree. */
  datatype Tree = Leaf | Node(p: Prop, l: Tree, r: Tree)

  ghost function Objs(t: Tree): set<Prop> {
    if t.Leaf? then {} else {t.p} + Objs(t.l) + Objs(t.r)
  }

  /** A search tree: smaller hashes to the left, larger ones to the right. */
  ghost predicate Sorted(t: Tree) {
    t.Node? ==>
      && Sorted(t.l) && Sorted(t.r)
      && (forall q :: q in Objs(t.l) ==> q.hash < t.p.hash)
      && (forall q :: q in Objs(t.r) ==> t.p.hash < q.hash)
  }

  datatype Link = Link(l: Prop?, r: Prop?)

  /** The child pointers of some nodes, as they are now. */
  ghost function Links(nodes: set<Prop>): map<Prop, Link>
    reads nodes
  {
    map q | q in nodes :: Link(q.l, q.r)
  }

  /** The pointers from `p` on spell `t`. */
  ghost predicate Linked(t: Tree, p: Prop?, links: map<Prop, Link>) {
    if t.Leaf? then p == null
    else p == t.p && t.p in links && Linked(t.l, links[t.p].l, links) && Linked(t.r, links[t.p].r, links)
  }

  /** Where a search for `h` ends. */
  ghost function Find(t: Tree, h: int): Option<Prop> {
    if t.Leaf? then None
    else if h < t.p.hash then Find(t.l, h)
    else if h > t.p.hash then Find(t.r, h)
    else Some(t.p)
  }

  /** The last node a failing search for `h` visits. */
  ghost function Last(t: Tree, h: int): Prop
    requires t.Node?
  {
    if h < t.p.hash then (if t.l.Leaf? then t.p else Last(t.l, h))
    else (if t.r.Leaf? then t.p else Last(t.r, h))
  }

  ghost function Insert(t: Tree, x: Prop): Tree {
    if t.Leaf? then Node(x, Leaf, Leaf)
    else if x.hash < t.p.hash then Node(t.p, Insert(t.l, x), t.r)
    else Node(t.p, t.l, Insert(t.r, x))
  }

  lemma {:induction false} FindIn(t: Tree, h: int)
    requires Sorted(t)
    ensures Find(t, h).Some? ==> Find(t, h).value in Objs(t) && Find(t, h).value.hash == h
    ensures Find(t, h).None? ==> forall q :: q in Objs(t) ==> q.hash != h
    ensures forall q :: q in Objs(t) && q.hash == h ==> Find(t, h) == Some(q)
  {
    if t.Node? {
      FindIn(t.l, h);
      FindIn(t.r, h);
    }
  }

  lemma {:induction false} LastIn(t: Tree, h: int)
    requires t.Node?
    ensures Last(t, h) in Objs(t)
  {
    if h < t.p.hash { if t.l.Node? { LastIn(t.l, h); } }
    else if t.r.Node? { LastIn(t.r, h); }
  }

  /** Inserting a new hash keeps the order, adds the one node, and changes no other search. */
  lemma {:induction false} Inserted(t: Tree, x: Prop)
    requires Sorted(t) && Find(t, x.hash).None?
    ensures Sorted(Insert(t, x)) && Objs(Insert(t, x)) == Objs(t) + {x}
    ensures forall k :: Find(Insert(t, x), k) == if k == x.hash then Some(x) else Find(t, k)
  {
    if t.Node? {
      if x.hash < t.p.hash { Inserted(t.l, x); } else { Inserted(t.r, x); }
    }
  }

  /** A tree without the changed node is still linked. */
  lemma {:induction false} StillLinked(t: Tree, p: Prop?, a: map<Prop, Link>, b: map<Prop, Link>, changed: Prop)
    requires Linked(t, p, a) && changed !in Objs(t) && forall q :: q in a && q != changed ==> q in b && b[q] == a[q]
    ensures Linked(t, p, b)
  {
    if t.Node? {
      StillLinked(t.l, a[t.p].l, a, b, changed);
      StillLinked(t.r, a[t.p].r, a, b, changed);
    }
  }

  /** Hanging a new node under the last one visited makes the pointers spell the larger tree. */
  lemma {:induction false} Hung(t: Tree, p: Prop?, a: map<Prop, Link>, b: map<Prop, Link>, x: Prop)
    requires t.Node? && Linked(t, p, a) && Sorted(t) && Find(t, x.hash).None?
    requires var last := Last(t, x.hash);
      && last in a && last in b && (forall q :: q in a && q != last ==> q in b && b[q] == a[q])
      && b[last] == if x.hash < last.hash then Link(x, a[last].r) else Link(a[last].l, x)
    requires x in b && b[x] == Link(null, null)
    ensures Linked(Insert(t, x), p, b)
  {
    var last := Last(t, x.hash);
    if x.hash < t.p.hash {
      if t.l.Node? {
        LastIn(t.l, x.hash);
        Hung(t.l, a[t.p].l, a, b, x);
      }
      StillLinked(t.r, a[t.p].r, a, b, last);
    } else {
      if t.r.Node? {
        LastIn(t.r, x.hash);
        Hung(t.r, a[t.p].r, a, b, x);
      }
      StillLinked(t.l, a[t.p].l, a, b, last);
    }
  }

  lemma HungFirst(x: Prop, b: map<Prop, Link>)
    requires x in b && b[x] == Link(null, null)
    ensures Linked(Insert(Leaf, x), x, b)
  {
  }

  /** No more nodes than hashes. */
  lemma {:induction false} FewNodes(t: Tree, lo: int, hi: int)
    requires Sorted(t) && lo <= hi && forall q :: q in Objs(t) ==> lo <= q.hash < hi
    ensures |Objs(t)| <= hi - lo
  {
    if t.Node? {
      assert t.p in Objs(t);
      FewNodes(t.l, lo, t.p.hash);
      FewNodes(t.r, t.p.hash + 1, hi);
    }
  }

  // ----- histories of stores -----

  /** The stores so far, each with its key and value. */
  type History = seq<(Value, Value)>

  ghost function Replay(log: History, bits: Float -> i32): map<int, Value> {
    if log == [] then map[]
    else
      var last := log[|log| - 1];
      Replay(log[..|log| - 1], bits)[Hash(last.0, bits) := last.1]
  }

  /** What was last stored under a key that `same` accepts. */
  ghost function LastStored(log: History, same: Value -> bool): Value {
    if log == [] then VNil
    else if same(log[|log| - 1].0) then log[|log| - 1].1
    else LastStored(log[..|log| - 1], same)
  }

  function At(items: map<int, Value>, h: int): Value { if h in items then items[h] else VNil }

  lemma {:induction false} ReplayLast(log: History, bits: Float -> i32, h: int)
    ensures At(Replay(log, bits), h) == LastStored(log, k => Hash(k, bits) == h)
    decreases |log|
  {
    if log != [] { ReplayLast(log[..|log| - 1], bits, h); }
  }

  /** Keys that hash apart. */
  ghost predicate HashApart(keys: set<Value>, bits: Float -> i32) {
    forall a, b :: a in keys && b in keys && Hash(a, bits) == Hash(b, bits) ==> a == b
  }

  ghost predicate Over(log: History, keys: set<Value>) { forall i :: 0 <= i < |log| ==> log[i].0 in keys }

  /** A dictionary used with these keys only behaves like a map from keys to values. */
  ghost predicate ExactMap(keys: set<Value>, bits: Float -> i32) {
    forall log, key :: Over(log, keys) && key in keys ==>
      At(Replay(log, bits), Hash(key, bits)) == LastStored(log, k => k == key)
  }

  lemma {:induction false} SameLast(log: History, keys: set<Value>, key: Value, bits: Float -> i32)
    requires HashApart(keys, bits) && Over(log, keys) && key in keys
    ensures LastStored(log, k => Hash(k, bits) == Hash(key, bits)) == LastStored(log, k => k == key)
    decreases |log|
  {
    if log != [] { SameLast(log[..|log| - 1], keys, key, bits); }
  }

  /** A dictionary is an exact map on a set of keys exactly when no two of them share a hash. */
  lemma {:induction false} ExactIffApart(keys: set<Value>, bits: Float -> i32)
    ensures ExactMap(keys, bits) <==> HashApart(keys, bits)
  {
    hide Hash, Replay, LastStored;
    if HashApart(keys, bits) {
      forall log, key | Over(log, keys) && key in keys
        ensures At(Replay(log, bits), Hash(key, bits)) == LastStored(log, k => k == key)
      {
        ReplayLast(log, bits, Hash(key, bits));
        SameLast(log, keys, key, bits);
      }
    }
    forall a, b | ExactMap(keys, bits) && a in keys && b in keys && Hash(a, bits) == Hash(b, bits)
      ensures a == b
    {
      OneStore(a, b, keys, bits);
    }
  }

  lemma {:induction false} OneStore(a: Value, b: Value, keys: set<Value>, bits: Float -> i32)
    requires ExactMap(keys, bits) && a in keys && b in keys && Hash(a, bits) == Hash(b, bits)
    ensures a == b
  {
    hide Hash;
    var log := [(a, VBool(true))];
    assert Over(log, keys);
    assert log[..0] == [];
    assert At(Replay(log, bits), Hash(b, bits)) == VBool(true);
    assert LastStored(log, k => k == b) == VBool(true);
    assert LastStored(log[..0], k => k == b) == VNil;
  }

  lemma ByteHash(x: i32)
    requires 0 <= x <= 255
    ensures HashOf(x) == x
  {
    assert ByteOf(x, 1) == x;
    assert ByteOf(x, 0x100) == 0 && ByteOf(x, 0x1_0000) == 0 && ByteOf(x, 0x100_0000) == 0;
    hide ByteOf;
  }

  /** The integers of one byte are their own hashes. */
  lemma {:induction false} ByteKeysExact(keys: set<Value>, bits: Float -> i32)
    requires forall k :: k in keys ==> k.VInt? && 0 <= k.i <= 255
    ensures ExactMap(keys, bits)
  {
    forall k | k in keys
      ensures Hash(k, bits) == k.i
    {
      ByteHash(k.i);
    }
    hide Hash;
    ExactIffApart(keys, bits);
  }

  /** Wider integers collide, and so do keys of different types. */
  lemma {:induction false} SomeKeysCollide(bits: Float -> i32)
    ensures !ExactMap({VInt(5), VInt(256)}, bits) && !ExactMap({VNil, VInt(0)}, bits)
        && !ExactMap({VBool(false), VInt(1)}, bits)
  {
    assert HashOf(256) == 5 by {
      assert ByteOf(256, 1) == 0 && ByteOf(256, 0x100) == 1 && ByteOf(256, 0x1_0000) == 0
          && ByteOf(256, 0x100_0000) == 0;
      hide ByteOf;
    }
    ByteHash(5);
    hide HashOf;
    Collide(VInt(5), VInt(256), bits);
    Collide(VNil, VInt(0), bits);
    Collide(VBool(false), VInt(1), bits);
  }

  lemma Collide(a: Value, b: Value, bits: Float -> i32)
    requires a != b && Hash(a, bits) == Hash(b, bits)
    ensures !ExactMap({a, b}, bits)
  {
    hide Hash, ExactMap;
    ExactIffApart({a, b}, bits);
  }

  // ----- keys of other types -----

  /** Small ids hash to themselves, truth values like 1 and 3, NIL like 0. */
  lemma SmallHashes(id: nat, bits: Float -> i32)
    requires id <= 255
    ensures Hash(VInt(id), bits) == Hash(VStr(id), bits) == Hash(VObj(id), bits) == id
    ensures Hash(VBool(false), bits) == 1 && Hash(VBool(true), bits) == 3 && Hash(VNil, bits) == 0
  {
    hide HashOf;
    assert Wrap32(id) == id;
    ByteHash(id);
    ByteHash(0);
    ByteHash(1);
    ByteHash(3);
  }

  /** String ids of one byte are told apart, */
  lemma {:induction false} StringKeysExact(keys: set<Value>, bits: Float -> i32)
    requires forall k :: k in keys ==> k.VStr? && k.strId <= 255
    ensures ExactMap(keys, bits)
  {
    forall k | k in keys
      ensures Hash(k, bits) == k.strId
    {
      SmallHashes(k.strId, bits);
    }
    hide Hash;
    ExactIffApart(keys, bits);
  }

  /** object ids of one byte too, */
  lemma {:induction false} ObjectKeysExact(keys: set<Value>, bits: Float -> i32)
    requires forall k :: k in keys ==> k.VObj? && 0 <= k.objId <= 255
    ensures ExactMap(keys, bits)
  {
    forall k | k in keys
      ensures Hash(k, bits) == k.objId
    {
      SmallHashes(k.objId, bits);
    }
    hide Hash;
    ExactIffApart(keys, bits);
  }

  /** and so are the truth values, from each other and from NIL. */
  lemma {:induction false} TruthKeysExact(bits: Float -> i32)
    ensures ExactMap({VBool(true), VBool(false), VNil}, bits)
  {
    hide Hash, ExactMap;
    SmallHashes(0, bits);
    ExactIffApart({VBool(true), VBool(false), VNil}, bits);
  }

  /** A dictionary takes a string or an object for the integer with its id, and for nothing else among
      the small ones; TRUE for 3 and FALSE for 1. */
  lemma {:induction false} TypesCollide(i: nat, j: nat, b: bool, bits: Float -> i32)
    requires i <= 255 && j <= 255
    ensures ExactMap({VStr(i), VInt(j)}, bits) <==> i != j
    ensures ExactMap({VObj(i), VInt(j)}, bits) <==> i != j
    ensures ExactMap({VStr(i), VObj(j)}, bits) <==> i != j
    ensures ExactMap({VBool(b), VInt(j)}, bits) <==> j != if b then 3 else 1
    ensures ExactMap({VNil, VInt(j)}, bits) <==> j != 0
  {
    hide Hash, ExactMap;
    SmallHashes(i, bits);
    SmallHashes(j, bits);
    PairExact(VStr(i), VInt(j), bits);
    PairExact(VObj(i), VInt(j), bits);
    PairExact(VStr(i), VObj(j), bits);
    PairExact(VBool(b), VInt(j), bits);
    PairExact(VNil, VInt(j), bits);
  }

  lemma PairExact(a: Value, b: Value, bits: Float -> i32)
    requires a != b
    ensures ExactMap({a, b}, bits) <==> Hash(a, bits) != Hash(b, bits)
  {
    hide Hash, ExactMap;
    ExactIffApart({a, b}, bits);
  }

  /** Of any width, a key hashes like the integer with its 32 bits. */
  lemma SameBitsCollide(i: i32, f: Float, bits: Float -> i32)
    ensures i >= 0 ==> Hash(VStr(i), bits) == Hash(VInt(i), bits)
    ensures Hash(VObj(i), bits) == Hash(VInt(i), bits)
    ensures Hash(VReal(f), bits) == Hash(VInt(bits(f)), bits)
  {
    hide HashOf;
    assert Wrap32(i) == i;
  }

  /** The weights of the upper bytes, by what they confuse and what they do not. */
  lemma {:induction false} WidePlaces(bits: Float -> i32)
    ensures !ExactMap({VInt(25), VInt(0x1_0000)}, bits) && !ExactMap({VInt(125), VInt(0x100_0000)}, bits)
    ensures ExactMap({VInt(25), VInt(0x100_0000)}, bits) && ExactMap({VInt(125), VInt(0x1_0000)}, bits)
    ensures Hash(VInt(-1), bits) == 39780
  {
    hide HashOf, ExactMap;
    PlaceBytes();
    ByteHash(25);
    ByteHash(125);
    IntHash(25, bits);
    IntHash(125, bits);
    IntHash(0x1_0000, bits);
    IntHash(0x100_0000, bits);
    IntHash(-1, bits);
    hide Hash;
    PairExact(VInt(25), VInt(0x1_0000), bits);
    PairExact(VInt(125), VInt(0x100_0000), bits);
    PairExact(VInt(25), VInt(0x100_0000), bits);
    PairExact(VInt(125), VInt(0x1_0000), bits);
  }

  lemma IntHash(i: i32, bits: Float -> i32)
    ensures Hash(VInt(i), bits) == HashOf(i)
  {
    hide HashOf;
  }

  lemma PlaceBytes()
    ensures HashOf(0x1_0000) == 25 && HashOf(0x100_0000) == 125 && HashOf(-1) == 39780
  {
    assert ByteOf(0x1_0000, 1) == 0 && ByteOf(0x1_0000, 0x100) == 0;
    assert ByteOf(0x1_0000, 0x1_0000) == 1 && ByteOf(0x1_0000, 0x100_0000) == 0;
    assert ByteOf(0x100_0000, 1) == 0 && ByteOf(0x100_0000, 0x100) == 0;
    assert ByteOf(0x100_0000, 0x1_0000) == 0 && ByteOf(0x100_0000, 0x100_0000) == 1;
    assert ByteOf(-1, 1) == 0xFF && ByteOf(-1, 0x100) == 0xFF;
    assert ByteOf(-1, 0x1_0000) == 0xFF && ByteOf(-1, 0x100_0000) == 0xFF;
    hide ByteOf;
  }

  // ----- dictionary objects -----

  class Dict {
    const bits: Float -> i32
    var root: Prop?
    var flags: u8
    ghost var tree: Tree
    /** What the dictionary holds, by hash. */
    ghost var items: map<int, Value>
    /** Every store it accepted. */
    ghost var log: History

    /** The tree is a search tree that holds exactly `items`. */
    ghost predicate Stored()
      reads this, Objs(tree)
    {
      && Linked(tree, root, Links(Objs(tree))) && Sorted(tree)
      && (forall q :: q in Objs(tree) ==> 0 <= q.hash <= HASH_MAX && q.hash in items && items[q.hash] == q.data)
      && (forall h :: h in items ==> Find(tree, h).Some?)
    }

    ghost predicate Valid()
      reads this, Objs(tree)
    {
      Stored() && items == Replay(log, bits)
    }

    lemma NodesBounded()
      requires Valid()
      ensures |Objs(tree)| <= 39781
    {
      FewNodes(tree, 0, HASH_MAX + 1);
    }

    constructor (bits: Float -> i32)
      ensures Valid() && fresh(Objs(tree)) && log == [] && Mutable() && this.bits == bits
    {
      this.bits, root, flags, tree, items, log := bits, null, 1, Leaf, map[], [];
    }

    predicate Mutable()
      reads this
    {
      flags % 2 == 1
    }

    method Freeze()
      requires Valid()
      modifies this`flags
      ensures Valid() && !Mutable() && log == old(log)
    {
      flags := flags - flags % 2;
    }

    /** ptree_get: the node under the key's hash. */
    method Lookup(key: Value) returns (found: Prop?)
      requires Valid()
      ensures found == null <==> Hash(key, bits) !in items
      ensures found != null ==> found in Objs(tree) && found.data == items[Hash(key, bits)]
    {
      var h := Hash(key, bits);
      FindIn(tree, h);
      found := root;
      ghost var t := tree;
      while found != null
        invariant Linked(t, found, Links(Objs(tree))) && Find(t, h) == Find(tree, h)
        decreases t
      {
        if h < found.hash { found, t := found.l, t.l; }
        else if h > found.hash { found, t := found.r, t.r; }
        else { return; }
      }
    }

    method Get(key: Value) returns (v: Value)
      requires Valid()
      ensures v == LastStored(log, k => Hash(k, bits) == Hash(key, bits))
    {
      ReplayLast(log, bits, Hash(key, bits));
      var found := Lookup(key);
      v := if found != null then found.data else VNil;
    }

    method AsBool() returns (b: bool)
      requires Valid()
      ensures b <==> log != []
    {
      b := root != null;
      if log != [] { assert Hash(log[|log| - 1].0, bits) in items; }
      if b { assert tree.p in Objs(tree) && tree.p.hash in items; }
    }

    /** Where a search for `h` ends: its node, or the last node on the way and the side it left it by. */
    method Seek(h: nat) returns (curr: Prop?, prev: Prop?, wasLeft: bool)
      requires Stored()
      ensures curr != null ==> Find(tree, h) == Some(curr)
      ensures curr == null ==> Find(tree, h).None?
      ensures curr == null ==> if tree.Node? then prev == Last(tree, h) && wasLeft == (h < prev.hash) else prev == null
    {
      hide Sorted, Insert;
      curr, prev, wasLeft := root, null, false;
      ghost var t := tree;
      while curr != null
        invariant Linked(t, curr, Links(Objs(tree))) && Find(t, h) == Find(tree, h)
        invariant if t.Node? then tree.Node? && Last(t, h) == Last(tree, h)
                  else if tree.Node? then prev == Last(tree, h) && wasLeft == (h < prev.hash)
                  else prev == null
        decreases t
      {
        if h < curr.hash { prev, curr, wasLeft, t := curr, curr.l, true, t.l; }
        else if h > curr.hash { prev, curr, wasLeft, t := curr, curr.r, false, t.r; }
        else { return; }
      }
    }

    /** ptree_set: overwrites the node under the key's hash, or hangs a new one where the search ended. */
    method Put(key: Value, data: Value, mark: u8)
      requires Valid()
      modifies this`root, this`tree, this`items, this`log, Objs(tree)
      ensures Valid() && fresh(Objs(tree) - old(Objs(tree)))
      ensures log == old(log) + [(key, data)]
    {
      hide Sorted, Insert, Last, Linked, HashOf;
      var h := Hash(key, bits);
      log := log + [(key, data)];
      assert Links(Objs(tree)) == old(Links(Objs(tree)));
      hide Hash;
      var curr, prev, wasLeft := Seek(h);
      if curr != null {
        FindIn(tree, h);
        Overwrite(curr, data, mark);
      } else {
        Hang(prev, wasLeft, h, data, mark);
      }
    }

    method Overwrite(node: Prop, data: Value, mark: u8)
      requires Stored() && Find(tree, node.hash) == Some(node)
      modifies this`items, node`data, node`flags
      ensures Stored() && items == old(items)[node.hash := data]
    {
      FindIn(tree, node.hash);
      node.data, node.flags := data, mark;
      items := items[node.hash := data];
      assert Links(Objs(tree)) == old(Links(Objs(tree)));
      forall q | q in Objs(tree)
        ensures q.hash in items && items[q.hash] == q.data
      {
        FindIn(tree, q.hash);
      }
    }

    method Hang(prev: Prop?, wasLeft: bool, h: nat, data: Value, mark: u8)
      requires Stored() && Find(tree, h).None? && h <= HASH_MAX
      requires if tree.Node? then prev == Last(tree, h) && wasLeft == (h < prev.hash) else prev == null
      modifies this`root, this`tree, this`items, Objs(tree)`l, Objs(tree)`r
      ensures Stored() && fresh(Objs(tree) - old(Objs(tree)))
      ensures items == old(items)[h := data]
    {
      hide Linked, Sorted, Objs, Find, Last, Insert;
      FindIn(tree, h);
      ghost var was, before := tree, Links(Objs(tree));
      var node := new Prop(h, data, mark);
      Inserted(was, node);
      if prev == null {
        root := node;
        HungFirst(node, Links(Objs(was) + {node}));
      } else {
        LastIn(was, h);
        if wasLeft { prev.l := node; } else { prev.r := node; }
        Hung(was, root, before, Links(Objs(was) + {node}), node);
      }
      tree := Insert(was, node);
      items := items[h := data];
      Planted(was, node, old(items));
    }

    lemma {:induction false} Planted(was: Tree, node: Prop, before: map<int, Value>)
      requires Sorted(tree) && Objs(tree) == Objs(was) + {node} && Linked(tree, root, Links(Objs(tree)))
      requires forall q :: q in Objs(was) ==>
        0 <= q.hash <= HASH_MAX && q.hash != node.hash && q.hash in before && before[q.hash] == q.data
      requires forall k :: k in before ==> Find(was, k).Some?
      requires forall k :: Find(tree, k) == if k == node.hash then Some(node) else Find(was, k)
      requires 0 <= node.hash <= HASH_MAX && items == before[node.hash := node.data]
      ensures Stored()
    {
      hide Linked, Sorted, Objs, Find;
      forall q | q in Objs(tree)
        ensures 0 <= q.hash <= HASH_MAX && q.hash in items && items[q.hash] == q.data
      {
        assert q == node || q in Objs(was);
      }
    }

    /** dict_set_v_fn: a frozen dictionary ignores the store. */
    method Set(key: Value, item: Value)
      requires Valid()
      modifies this`root, this`tree, this`items, this`log, Objs(tree)
      ensures Valid() && fresh(Objs(tree) - old(Objs(tree)))
      ensures log == if Mutable() then old(log) + [(key, item)] else old(log)
    {
      if Mutable() { Put(key, item, 1); }
    }
  }
}
