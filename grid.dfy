/**
 * A fixed-size two-dimensional container stored row-major in one flat
 * array: cell (x, y) lives at flat offset `y * xCount + x`.
 */
module Grids {
  import opened Options

  /** A tile's column and row. */
  datatype GridPosition = GridPosition(xi: int, yi: int)

  /** Reading a flat row-major sequence the way `Grid.get` reads its array:
      any offset inside the sequence is a cell, any other is absent. */
  function Lookup<T>(cells: seq<T>, xCount: int, x: int, y: int): Option<T>
  {
    var i := y * xCount + x;
    if 0 <= i < |cells| then Some(cells[i]) else None
  }

  /** Every in-bounds coordinate pair lands inside the flat array. */
  lemma InBoundsOffset(xCount: nat, yCount: nat, x: int, y: int)
    requires 0 <= x < xCount && 0 <= y < yCount
    ensures 0 <= y * xCount + x < xCount * yCount
  {
    assert y * xCount <= (yCount - 1) * xCount by {
      assert (yCount - 1 - y) * xCount >= 0;
    }
    assert (yCount - 1) * xCount == xCount * yCount - xCount;
  }

  /** The lookup sees only the flat offset: two coordinate pairs that name
      the same offset read the same cell. */
  lemma LookupByOffset<T>(cells: seq<T>, xCount: int, x1: int, y1: int, x2: int, y2: int)
    requires y1 * xCount + x1 == y2 * xCount + x2
    ensures Lookup(cells, xCount, x1, y1) == Lookup(cells, xCount, x2, y2)
  {
  }

  /** Stepping left off column 0 of row y reads the last column of row y - 1:
      edge lookups wrap across rows instead of coming back absent. */
  lemma LeftEdgeWraps<T>(cells: seq<T>, xCount: int, y: int)
    requires y >= 1
    ensures Lookup(cells, xCount, -1, y) == Lookup(cells, xCount, xCount - 1, y - 1)
  {
    assert y * xCount - 1 == (y - 1) * xCount + (xCount - 1);
  }

  /** Writing one offset of the flat sequence changes the lookup of that
      offset only: every lookup that names another offset reads as before. */
  lemma LookupAfterWrite<T>(cells: seq<T>, xCount: int, x: int, y: int, value: T, a: int, b: int)
    requires 0 <= y * xCount + x < |cells|
    ensures Lookup(cells[y * xCount + x := value], xCount, x, y) == Some(value)
    ensures b * xCount + a != y * xCount + x ==>
      Lookup(cells[y * xCount + x := value], xCount, a, b) == Lookup(cells, xCount, a, b)
  {
  }

  class Grid<T> {
    const xCount: nat
    const yCount: nat
    const items: array<T>

    ghost predicate Valid()
    {
      items.Length == xCount * yCount
    }

    /** A grid of `xCount * yCount` cells, every one holding `defaultValue`. */
    constructor (xCount: nat, yCount: nat, defaultValue: T)
      ensures Valid() && fresh(items)
      ensures this.xCount == xCount && this.yCount == yCount
      ensures forall i :: 0 <= i < items.Length ==> items[i] == defaultValue
    {
      this.xCount := xCount;
      this.yCount := yCount;
      this.items := new T[xCount * yCount](_ => defaultValue);
    }

    /** The cell at flat offset `y * xCount + x`, or absent when that offset
        is outside the array. No bounds check on x or y by themselves. */
    function Get(x: int, y: int): (r: Option<T>)
      reads items
      ensures r.None? <==> !(0 <= y * xCount + x < items.Length)
      ensures r.Some? ==> r.value == items[y * xCount + x]
    {
      Lookup(items[..], xCount, x, y)
    }

    /** Inside `[0, xCount) x [0, yCount)` a lookup always finds its cell. */
    lemma GetInBounds(x: int, y: int)
      requires Valid() && 0 <= x < xCount && 0 <= y < yCount
      ensures 0 <= y * xCount + x < items.Length
      ensures Get(x, y) == Some(items[y * xCount + x])
    {
      InBoundsOffset(xCount, yCount, x, y);
    }

    /** Overwrites the cell at flat offset `y * xCount + x`; nothing else. */
    method Set(x: int, y: int, value: T)
      requires 0 <= y * xCount + x < items.Length
      modifies items
      ensures items[..] == old(items[..])[y * xCount + x := value]
      ensures Get(x, y) == Some(value)
    {
      items[y * xCount + x] := value;
    }
  }
  /** `p` holds of the tile at (x, y) when that tile is on the grid; tiles
      off the grid are not consulted. */
  predicate HoldsOnGrid<T>(g: Grid<T>, x: int, y: int, p: Option<T> -> bool)
    reads g.items
  {
    (0 <= x < g.xCount && 0 <= y < g.yCount) ==> p(g.Get(x, y))
  }

  /** `p` holds of the three on-grid tiles of row y around column x. */
  predicate RowNearby<T>(g: Grid<T>, x: int, y: int, p: Option<T> -> bool)
    reads g.items
  {
    HoldsOnGrid(g, x - 1, y, p) && HoldsOnGrid(g, x, y, p) && HoldsOnGrid(g, x + 1, y, p)
  }

  /** `p` holds of the tile at (x, y) and of each of its up to eight
      neighbours that lie on the grid. */
  function EveryNearby<T>(g: Grid<T>, x: int, y: int, p: Option<T> -> bool): (r: bool)
    reads g.items
    ensures r ==> HoldsOnGrid(g, x, y, p)
    ensures r <==> forall a, b :: x - 1 <= a <= x + 1 && y - 1 <= b <= y + 1 ==> HoldsOnGrid(g, a, b, p)
  {
    RowNearby(g, x, y - 1, p) && RowNearby(g, x, y, p) && RowNearby(g, x, y + 1, p)
  }
}
