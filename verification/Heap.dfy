/** The object heap: cells, ids that are reused last in first out, and a cost per live object. */
module Heap {
  type i16 = x: int | -0x8000 <= x < 0x8000

  const DUD_HEAP_ID: i16 := -1
  const OBJECT_COST: nat := 64

  /** A heap item; what it holds does not matter here. */
  class Obj {
    constructor () {}
  }

  ghost predicate Distinct(s: seq<int>) { forall i, j :: 0 <= i < j < |s| ==> s[i] != s[j] }

  ghost function Upto(n: nat): (s: set<int>)
    ensures |s| == n && forall i :: i in s <==> 0 <= i < n
  {
    if n == 0 then {} else Upto(n - 1) + {n - 1}
  }

  ghost function Ids(s: seq<int>): set<int> { set i | i in s }

  lemma {:induction false} DistinctSize(s: seq<int>)
    requires Distinct(s)
    ensures |Ids(s)| == |s|
  {
    if s != [] {
      var n := |s| - 1;
      DistinctSize(s[..n]);
      assert Ids(s) == Ids(s[..n]) + {s[n]};
      assert s[n] !in s[..n];
    } else {
      assert Ids(s) == {};
    }
  }

  /** The ids whose cells hold an object. */
  ghost function LiveIds(cells: seq<Obj?>): set<int> { set id | 0 <= id < |cells| && cells[id] != null }

  /** Live ids and ids on the free list share out the ids handed out so far; cost counts the live ones. */
  ghost predicate Sound(cells: seq<Obj?>, free: seq<int>, next: nat, cost: int) {
    && next <= |cells| && Distinct(free) && LiveIds(cells) !! Ids(free) && LiveIds(cells) + Ids(free) == Upto(next)
    && cost == OBJECT_COST * |LiveIds(cells)|
  }

  /** No id is lost: the free list always has room for one more when an object dies. */
  lemma {:induction false} Shared(cells: seq<Obj?>, free: seq<int>, next: nat, cost: int)
    requires Sound(cells, free, next, cost)
    ensures |LiveIds(cells)| + |free| == next
    ensures LiveIds(cells) != {} ==> |free| < next
  {
    DistinctSize(free);
  }

  lemma {:induction false} LiveChanged(cells: seq<Obj?>, id: nat, item: Obj?)
    requires id < |cells|
    ensures LiveIds(cells[id := item]) == if item == null then LiveIds(cells) - {id} else LiveIds(cells) + {id}
  {
  }

  lemma {:induction false} StoredReused(cells: seq<Obj?>, free: seq<int>, next: nat, cost: int, item: Obj)
    requires Sound(cells, free, next, cost) && free != []
    ensures var id := free[|free| - 1];
      && 0 <= id < next && id !in LiveIds(cells) && LiveIds(cells[id := item]) == LiveIds(cells) + {id}
      && Sound(cells[id := item], free[..|free| - 1], next, cost + OBJECT_COST)
  {
    hide Distinct, Ids, LiveIds;
    var n := |free| - 1;
    var id := free[n];
    PopIds(free);
    SoundCells(cells, free, next, cost);
    LiveChanged(cells, id, item);
  }

  lemma {:induction false} PopIds(free: seq<int>)
    requires Distinct(free) && free != []
    ensures var n := |free| - 1;
      Distinct(free[..n]) && Ids(free) == Ids(free[..n]) + {free[n]} && free[n] !in Ids(free[..n])
          && free[n] in Ids(free)
  {
    assert free == free[..|free| - 1] + [free[|free| - 1]];
  }

  lemma {:induction false} StoredFresh(cells: seq<Obj?>, free: seq<int>, next: nat, cost: int, item: Obj)
    requires Sound(cells, free, next, cost) && free == [] && next < |cells|
    ensures next !in LiveIds(cells) && LiveIds(cells[next := item]) == LiveIds(cells) + {next}
    ensures Sound(cells[next := item], free, next + 1, cost + OBJECT_COST)
  {
    LiveChanged(cells, next, item);
    assert Ids(free) == {};
  }

  lemma {:induction false} Erased(cells: seq<Obj?>, free: seq<int>, next: nat, cost: int, id: nat)
    requires Sound(cells, free, next, cost) && id in LiveIds(cells)
    ensures id < |cells| && LiveIds(cells[id := null]) == LiveIds(cells) - {id}
    ensures Sound(cells[id := null], free + [id], next, cost - OBJECT_COST)
  {
    LiveChanged(cells, id, null);
    assert Ids(free + [id]) == Ids(free) + {id};
    assert id !in Ids(free);
  }

  lemma {:induction false} SoundCells(cells: seq<Obj?>, free: seq<int>, next: nat, cost: int)
    requires Sound(cells, free, next, cost)
    ensures next <= |cells| && forall i :: 0 <= i < |free| ==> 0 <= free[i] < next
  {
    forall i | 0 <= i < |free|
      ensures 0 <= free[i] < next
    {
      assert free[i] in Ids(free);
      assert free[i] in Upto(next);
    }
  }

  class ObjHeap {
    const cells: array<Obj?>
    const freeIds: array<i16>
    const cellCapacity: i16
    const costToGc: nat
    var cost: int
    var nextFree: i16
    var nextCell: i16
    var tenured: i16

    ghost function Live(): set<int>
      reads this, cells
    {
      LiveIds(cells[..])
    }

    ghost function Free(): seq<int>
      reads this, freeIds
      requires -1 <= nextFree < freeIds.Length
    {
      freeIds[..nextFree + 1]
    }

    ghost predicate Valid()
      reads this, cells, freeIds
    {
      && 0 <= nextCell && 0 <= tenured <= nextCell && cells.Length == freeIds.Length == cellCapacity
      && -1 <= nextFree < cellCapacity && Sound(cells[..], Free(), nextCell, cost)
      && costToGc == cellCapacity * 2 * OBJECT_COST / 3
    }

    constructor (capacity: i16)
      requires capacity >= 0
      ensures Valid() && fresh(cells) && fresh(freeIds) && cellCapacity == capacity
      ensures Live() == {} && Free() == [] && tenured == 0 && costToGc == capacity * 2 * OBJECT_COST / 3
    {
      cellCapacity := capacity;
      cells := new Obj?[capacity](_ => null);
      freeIds := new i16[capacity](_ => 0);
      costToGc := capacity * 2 * OBJECT_COST / 3;
      cost, nextFree, nextCell, tenured := 0, -1, 0, 0;
      new;
      assert Live() == {};
    }

    function IsRipe(): bool
      reads this
    {
      cost > costToGc
    }

    /** Collection is due when more than two thirds of all cells are live; a live object costs 64. */
    lemma RipeIffTwoThirds()
      requires Valid()
      ensures IsRipe() <==> 3 * |Live()| > 2 * cellCapacity
      ensures cost == 64 * |Live()|
    {
    }

    /** Pops the id freed last, or takes the next one never used. */
    method GenId() returns (id: i16)
      requires Valid()
      modifies this`nextFree, this`nextCell
      ensures id == DUD_HEAP_ID <==> |Live()| == cellCapacity
      ensures id == DUD_HEAP_ID ==> nextFree == old(nextFree) && nextCell == old(nextCell)
      ensures id != DUD_HEAP_ID && old(Free()) != [] ==>
        -1 <= nextFree < old(nextFree) && old(Free()) == Free() + [id] && nextCell == old(nextCell)
      ensures id != DUD_HEAP_ID && old(Free()) == [] ==>
        id == old(nextCell) < cellCapacity && nextCell == id + 1 && nextFree == old(nextFree)
    {
      hide Sound, LiveIds, Distinct;
      SoundCells(cells[..], Free(), nextCell, cost);
      Shared(cells[..], Free(), nextCell, cost);
      id := DUD_HEAP_ID;
      if nextFree >= 0 {
        id := freeIds[nextFree];
        assert Free()[nextFree] == id;
        nextFree := nextFree - 1;
      } else if nextCell < cellCapacity {
        id := nextCell;
        nextCell := nextCell + 1;
      }
    }

    /** Stores into the cell freed last, or else into the first cell never used; fails exactly when
        every cell is live, and never displaces a live object. */
    method Store(item: Obj) returns (id: i16)
      requires Valid()
      modifies this`nextFree, this`nextCell, this`cost, cells
      ensures Valid()
      ensures id == DUD_HEAP_ID <==> |old(Live())| == cellCapacity
      ensures id == DUD_HEAP_ID ==> cells[..] == old(cells[..]) && Free() == old(Free()) && nextCell == old(nextCell)
      ensures id != DUD_HEAP_ID ==>
        && 0 <= id < cellCapacity && id !in old(Live()) && Live() == old(Live()) + {id}
        && cells[..] == old(cells[..])[id := item]
        && if old(Free()) != [] then old(Free()) == Free() + [id] && nextCell == old(nextCell)
           else Free() == [] && id == old(nextCell) && nextCell == id + 1
    {
      hide Sound, LiveIds;
      ghost var before := cells[..];
      SoundCells(before, Free(), nextCell, cost);
      if Free() != [] { StoredReused(before, Free(), nextCell, cost, item); }
      else if nextCell < cellCapacity { StoredFresh(before, Free(), nextCell, cost, item); }
      id := GenId();
      if id != DUD_HEAP_ID {
        cells[id] := item;
        assert cells[..] == before[id := item];
        cost := cost + OBJECT_COST;
      }
    }

    method Get(id: i16) returns (item: Obj?)
      requires Valid()
      ensures item != null <==> id in Live()
      ensures item != null ==> item == cells[id]
    {
      if id < 0 || id >= nextCell { return null; }
      item := cells[id];
    }

    method ReserveId(id: i16)
      requires -1 <= nextFree && nextFree + 1 < freeIds.Length < 0x8000
      modifies this`nextFree, freeIds
      ensures nextFree == old(nextFree) + 1 && Free() == old(Free()) + [id]
    {
      nextFree := nextFree + 1;
      freeIds[nextFree] := id;
    }

    method Tenure()
      requires Valid()
      modifies this`tenured
      ensures Valid() && tenured == nextCell && Live() == old(Live()) && Free() == old(Free())
    {
      tenured := nextCell;
    }

    /** Whether an id is past the tenured ones and in use at all. */
    predicate Erasable(id: int)
      reads this
    {
      tenured <= id < nextCell
    }

    /** Frees one item; ids outside the erasable range are ignored, and a dead id inside it would make
        the source follow a null pointer. */
    method Erase(id: i16)
      requires Valid() && (Erasable(id) ==> id in Live())
      modifies this`nextFree, this`cost, cells, freeIds
      ensures Valid()
      ensures Live() == if Erasable(id) then old(Live()) - {id} else old(Live())
      ensures Free() == if Erasable(id) then old(Free()) + [id] else old(Free())
      ensures cost == if Erasable(id) then old(cost) - OBJECT_COST else old(cost)
      ensures cells[..] == if Erasable(id) then old(cells[..])[id := null] else old(cells[..])
    {
      hide Sound, LiveIds;
      if id < tenured || id >= nextCell { return; }
      SoundCells(cells[..], Free(), nextCell, cost);
      Shared(cells[..], Free(), nextCell, cost);
      Erased(cells[..], Free(), nextCell, cost, id);
      ghost var before := cells[..];
      cells[id] := null;
      assert cells[..] == before[id := null];
      cost := cost - OBJECT_COST;
      ReserveId(id);
    }
  }
}
