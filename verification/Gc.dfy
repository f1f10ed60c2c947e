/** The collector's reach bits, packed eight to a byte, and its sweep. */
module Gc {
  import opened Heap

  const BITSET_U8_BITS: nat := 8

  function Mask(pos: nat): bv8 { (1 as bv8) << (pos % 8) }

  predicate BitAt(b: bv8, pos: nat) { (b & Mask(pos)) >> (pos % 8) != 0 }

  lemma BitSetThere(b: bv8, pos: nat)
    ensures BitAt(b | Mask(pos), pos)
  {
  }

  lemma BitKeptElsewhere(b: bv8, pos: nat, other: nat)
    requires pos % 8 != other % 8
    ensures BitAt(b | Mask(pos), other) == BitAt(b, other)
  {
  }

  /** Position `p` is bit `p % 8` of its byte, counted from the least significant. */
  lemma BytePacking(b: bv8, pos: nat)
    ensures BitAt(b, pos) <==> (b >> (pos % 8)) & 1 == 1
  {
  }

  /** The positions of the set bits. */
  ghost function Positions(bytes: seq<bv8>): (s: set<int>)
    ensures forall p :: p in s <==> 0 <= p < 8 * |bytes| && BitAt(bytes[p / 8], p)
  {
    set p | 0 <= p < 8 * |bytes| && BitAt(bytes[p / 8], p)
  }

  /** A set of positions in an array of bytes. */
  class BitSet {
    const bits: array<bv8>
    const capacity: nat

    /** The capacity is kept in 16 bits, so that of the largest sets comes out as zero. */
    ghost predicate Valid()
      reads this
    {
      0 < bits.Length <= 0x2000 && capacity == if bits.Length == 0x2000 then 0 else bits.Length * BITSET_U8_BITS
    }

    ghost function Marked(): set<int>
      reads this, bits
    {
      Positions(bits[..])
    }

    constructor (wanted: nat)
      requires wanted < 0x1_0000
      ensures Valid() && fresh(bits) && Marked() == {}
      ensures if wanted < 0xFFF8 then wanted < capacity <= wanted + 8 else capacity == 0
    {
      var n := wanted / 8 + 1;
      bits := new bv8[n](_ => 0);
      capacity := n * BITSET_U8_BITS % 0x1_0000;
      new;
      assert forall p: nat :: !BitAt(0, p);
    }

    method GetAt(pos: nat) returns (b: bool)
      requires pos < 8 * bits.Length
      ensures b <==> pos in Marked()
    {
      b := BitAt(bits[pos / 8], pos);
    }

    method SetAt(pos: nat)
      requires pos < 8 * bits.Length
      modifies bits
      ensures Marked() == old(Marked()) + {pos}
    {
      hide BitAt, Mask;
      var i := pos / 8;
      ghost var was := bits[i];
      bits[i] := bits[i] | Mask(pos);
      BitSetThere(was, pos);
      forall p | 0 <= p < 8 * bits.Length && p != pos
        ensures p in Marked() <==> p in old(Marked())
      {
        if p / 8 == i { BitKeptElsewhere(was, pos, p); }
      }
    }

    /** Zeroes the bytes that the capacity accounts for. */
    method Clear()
      requires Valid()
      modifies bits
      ensures Marked() == if capacity == 0 then old(Marked()) else {}
    {
      for i := 0 to capacity / BITSET_U8_BITS
        invariant forall j :: 0 <= j < i ==> bits[j] == 0
        invariant capacity == 0 ==> bits[..] == old(bits[..])
      {
        bits[i] := 0;
      }
      assert forall p: nat :: !BitAt(0, p);
    }
  }

  // ----- the sweep -----

  /** The ids a sweep frees. */
  ghost predicate Doomed(heap: ObjHeap, marked: set<int>, limit: nat, id: int)
    reads heap
  {
    heap.Erasable(id) && id < limit && id !in marked
  }

  /** No unmarked id in the swept range is dead already. */
  ghost predicate SweepSafe(heap: ObjHeap, marked: set<int>, limit: nat)
    reads heap, heap.cells
  {
    forall id :: Doomed(heap, marked, limit, id) ==> id in heap.Live()
  }

  ghost predicate Ascending(s: seq<int>) { forall i, j :: 0 <= i < j < |s| ==> s[i] < s[j] }

  /** The part of the heap that a sweep changes. */
  datatype View = View(live: set<int>, free: seq<int>, cost: int, cells: seq<Obj?>)

  ghost function Now(heap: ObjHeap): View
    reads heap, heap.cells, heap.freeIds
    requires heap.Valid()
  {
    View(heap.Live(), heap.Free(), heap.cost, heap.cells[..])
  }

  /** Where a sweep stands after the slots below `slot`. */
  ghost predicate Swept(heap: ObjHeap, was: View, marked: set<int>, slot: nat, erased: seq<int>)
    reads heap, heap.cells, heap.freeIds
    requires heap.Valid()
  {
    && Ascending(erased) && (forall id :: id in erased <==> Doomed(heap, marked, slot, id))
    && heap.Live() == was.live - Ids(erased) && heap.Free() == was.free + erased
    && heap.cost == was.cost - OBJECT_COST * |erased|
    && |was.cells| == heap.cells.Length
    && forall id :: 0 <= id < |was.cells| ==> heap.cells[id] == if id in erased then null else was.cells[id]
  }

  method SweepSlot(heap: ObjHeap, marked: bool, slot: i16, ghost was: View, ghost kept: set<int>,
      ghost erased: seq<int>)
      returns (ghost done: seq<int>)
    requires heap.Valid() && slot >= 0 && (marked <==> slot in kept) && Swept(heap, was, kept, slot, erased)
    requires Doomed(heap, kept, slot + 1, slot) ==> slot in was.live
    modifies heap`nextFree, heap`cost, heap.cells, heap.freeIds
    ensures heap.Valid() && Swept(heap, was, kept, slot + 1, done)
  {
    hide Sound, LiveIds;
    BelowSlot(heap, was, kept, slot, erased);
    if marked || !heap.Erasable(slot) {
      if !marked { heap.Erase(slot); }
      done := erased;
    } else {
      heap.Erase(slot);
      done := erased + [slot];
      assert Ids(done) == Ids(erased) + {slot as int};
    }
  }

  lemma {:induction false} BelowSlot(heap: ObjHeap, was: View, kept: set<int>, slot: nat, erased: seq<int>)
    requires heap.Valid() && Swept(heap, was, kept, slot, erased)
    ensures (forall i :: 0 <= i < |erased| ==> erased[i] < slot) && slot !in Ids(erased)
  {
    hide Sound, LiveIds;
    assert forall i :: 0 <= i < |erased| ==> erased[i] in erased;
  }

  /** Erases every erasable object whose bit is clear, in ascending order, then clears the bits. */
  method Sweep(heap: ObjHeap, reach: BitSet) returns (ghost erased: seq<int>)
    requires (reach.bits as object) != heap.cells && (reach.bits as object) != heap.freeIds
    requires heap.Valid() && reach.Valid() && reach.capacity <= 0x8000
        && SweepSafe(heap, reach.Marked(), reach.capacity)
    modifies heap`nextFree, heap`cost, heap.cells, heap.freeIds, reach.bits
    ensures heap.Valid() && Swept(heap, old(Now(heap)), old(reach.Marked()), reach.capacity, erased)
    ensures reach.Marked() == if reach.capacity == 0 then old(reach.Marked()) else {}
  {
    hide Swept, Sound, LiveIds, BitAt, ObjHeap.Valid, Positions;
    ghost var was, marked, bytes := Now(heap), reach.Marked(), reach.bits[..];
    NothingSwept(heap, marked);
    erased := [];
    for slot := 0 to reach.capacity
      invariant heap.Valid() && reach.bits[..] == bytes && Swept(heap, was, marked, slot, erased)
    {
      var b := reach.GetAt(slot);
      erased := SweepSlot(heap, b, slot, was, marked, erased);
    }
    reach.Clear();
  }

  /** The collector does nothing until the cost has passed its limit; `reach` holds what marking found. */
  method Collect(heap: ObjHeap, reach: BitSet) returns (ghost erased: seq<int>)
    requires (reach.bits as object) != heap.cells && (reach.bits as object) != heap.freeIds
    requires heap.Valid() && reach.Valid() && reach.capacity <= 0x8000
    requires heap.IsRipe() ==> SweepSafe(heap, reach.Marked(), reach.capacity)
    modifies heap`nextFree, heap`cost, heap.cells, heap.freeIds, reach.bits
    ensures heap.Valid()
    ensures !old(heap.IsRipe()) ==> Now(heap) == old(Now(heap)) && reach.Marked() == old(reach.Marked())
    ensures old(heap.IsRipe()) ==>
      Swept(heap, old(Now(heap)), old(reach.Marked()), reach.capacity, erased)
  {
    hide Swept;
    erased := [];
    if heap.IsRipe() { erased := Sweep(heap, reach); }
  }

  /** The sweep is only safe again when the ids it freed have been taken or marked: otherwise the next
      one follows a null pointer. */
  lemma {:induction false} SweepAgain(heap: ObjHeap, marked: set<int>, limit: nat)
    requires heap.Valid()
    ensures SweepSafe(heap, marked, limit) <==>
      forall i :: 0 <= i < |heap.Free()| && heap.tenured <= heap.Free()[i] < limit ==> heap.Free()[i] in marked
  {
    var free := heap.Free();
    forall id | Doomed(heap, marked, limit, id) && id !in heap.Live()
      ensures exists i :: 0 <= i < |free| && free[i] == id
    {
      assert id in Upto(heap.nextCell);
      assert id in Ids(free);
    }
    forall i | 0 <= i < |free|
      ensures free[i] !in heap.Live() && 0 <= free[i] < heap.nextCell
    {
      assert free[i] in Ids(free);
      assert free[i] in Upto(heap.nextCell);
    }
  }

  lemma NothingSwept(heap: ObjHeap, marked: set<int>)
    requires heap.Valid()
    ensures Swept(heap, Now(heap), marked, 0, [])
  {
    hide Sound;
    assert Ids([]) == {};
  }
}
