/**
 * The game's tile map: a 30 x 30 grid of blocks that keeps running tallies
 * of its Floor, Grass and forest tiles, samples a matching tile by scanning
 * for the k-th match, and is carved into a fixed room layout at start.
 */
module Maps {
  import opened Options
  import opened Grids

  const BLOCK_X_COUNT: nat := 30
  const BLOCK_Y_COUNT: nat := 30
  const LAST_COLUMN: int := BLOCK_X_COUNT - 1
  const LAST_ROW: int := BLOCK_Y_COUNT - 1

  /** A tile's terrain. Only a Tree carries the time it was planted. */
  datatype Block = Floor | Grass | Tree(time: real) | Wall

  /** Only a present Wall blocks movement. */
  function IsBlocking(block: Option<Block>): (r: bool)
    ensures r <==> block == Some(Wall)
  {
    block.Some? && block.value.Wall?
  }

  /** Grass and trees are forest; an absent tile is not. */
  function IsForest(block: Option<Block>): (r: bool)
    ensures block.None? ==> !r
    ensures IsGrass(block) ==> r
    ensures r <==> block == Some(Grass) || (block.Some? && block.value.Tree?)
  {
    block.Some? && (block.value.Grass? || block.value.Tree?)
  }

  /** The predicate `findRandomFloor` scans with. */
  predicate IsFloor(block: Option<Block>)
  {
    block.Some? && block.value.Floor?
  }

  /** The predicate `findRandomGrass` scans with. */
  predicate IsGrass(block: Option<Block>)
  {
    block.Some? && block.value.Grass?
  }

  /** Wall alone blocks, Grass and Tree alone are forest, an absent tile is
      neither, and every present tile is exactly one of Floor, forest, Wall. */
  lemma BlockClasses(block: Option<Block>)
    ensures IsBlocking(block) <==> block == Some(Wall)
    ensures IsForest(block) <==> block == Some(Grass) || (block.Some? && block.value.Tree?)
    ensures block.None? ==> !IsBlocking(block) && !IsForest(block) && !IsFloor(block)
    ensures block.Some? ==> (if IsFloor(block) then 1 else 0) + (if IsForest(block) then 1 else 0)
                            + (if IsBlocking(block) then 1 else 0) == 1
    ensures IsGrass(block) ==> IsForest(block)
  {
  }

  function Indicator(p: Option<Block> -> bool, block: Block): nat
  {
    if p(Some(block)) then 1 else 0
  }

  /** The true tally: how many cells of `cells` satisfy `p`. */
  function Tally(cells: seq<Block>, p: Option<Block> -> bool): nat
  {
    if cells == [] then 0 else Tally(cells[..|cells| - 1], p) + Indicator(p, cells[|cells| - 1])
  }

  lemma TallyPrefixStep(cells: seq<Block>, n: nat, p: Option<Block> -> bool)
    requires n < |cells|
    ensures Tally(cells[..n + 1], p) == Tally(cells[..n], p) + Indicator(p, cells[n])
  {
    assert cells[..n + 1][..n] == cells[..n];
  }

  /** A prefix never holds more matches than the whole. */
  lemma {:induction false} TallyPrefixBound(cells: seq<Block>, n: nat, p: Option<Block> -> bool)
    requires n <= |cells|
    ensures Tally(cells[..n], p) <= Tally(cells, p)
    decreases |cells| - n
  {
    if n == |cells| {
      assert cells[..n] == cells;
    } else {
      TallyPrefixStep(cells, n, p);
      TallyPrefixBound(cells, n + 1, p);
    }
  }

  /** Overwriting one cell moves the tally by the difference of the old and
      the new cell's classification, and by nothing else. */
  lemma {:induction false} TallyUpdate(cells: seq<Block>, i: nat, v: Block, p: Option<Block> -> bool)
    requires i < |cells|
    ensures Tally(cells[i := v], p) + Indicator(p, cells[i]) == Tally(cells, p) + Indicator(p, v)
  {
    var n := |cells|;
    var updated := cells[i := v];
    if i == n - 1 {
      assert updated[..n - 1] == cells[..n - 1];
    } else {
      TallyUpdate(cells[..n - 1], i, v, p);
      assert updated[..n - 1] == cells[..n - 1][i := v];
    }
  }

  /** How `GridMap.set` moves one counter: up by one when the written tile
      starts to match, down by one when it stops matching, else unchanged. */
  function Recount(count: int, p: Option<Block> -> bool, previous: Option<Block>, value: Block): int
  {
    if !p(previous) && p(Some(value)) then count + 1
    else if p(previous) && !p(Some(value)) then count - 1
    else count
  }

  /** Recounting after a write turns the old tally into the new one. */
  lemma RecountKeepsTally(cells: seq<Block>, i: nat, value: Block, p: Option<Block> -> bool)
    requires i < |cells|
    ensures Recount(Tally(cells, p), p, Some(cells[i]), value) == Tally(cells[i := value], p)
  {
    TallyUpdate(cells, i, value, p);
  }

  /** No cell matches, so the tally is zero. */
  lemma {:induction false} TallyNone(cells: seq<Block>, p: Option<Block> -> bool)
    requires forall j :: 0 <= j < |cells| ==> !p(Some(cells[j]))
    ensures Tally(cells, p) == 0
  {
    if cells != [] {
      TallyNone(cells[..|cells| - 1], p);
    }
  }

  /** Position i along each of the four edges is Wall. */
  ghost predicate EdgesWalledAt(cells: seq<Block>, i: int)
  {
    && Lookup(cells, 30, i, 0) == Some(Wall)
    && Lookup(cells, 30, i, LAST_ROW) == Some(Wall)
    && Lookup(cells, 30, 0, i) == Some(Wall)
    && Lookup(cells, 30, LAST_COLUMN, i) == Some(Wall)
  }

  /** All four edges of the 30 x 30 map are Wall. */
  ghost predicate Enclosed(cells: seq<Block>)
  {
    forall i :: 0 <= i < BLOCK_X_COUNT ==> EdgesWalledAt(cells, i)
  }

  /** A write strictly inside the border leaves the border walls standing. */
  lemma InteriorWriteKeepsEnclosure(cells: seq<Block>, x: int, y: int, v: Block)
    requires |cells| == 900 && Enclosed(cells)
    requires 1 <= x < LAST_COLUMN && 1 <= y < LAST_ROW
    ensures Enclosed(cells[y * 30 + x := v])
  {
    var updated := cells[y * 30 + x := v];
    forall i | 0 <= i < BLOCK_X_COUNT
      ensures EdgesWalledAt(updated, i)
    {
      assert EdgesWalledAt(cells, i);
    }
  }

  /** On the 30 x 30 map a write changes the tile it names and no other. */
  lemma TileWrite(cells: seq<Block>, x: int, y: int, v: Block, a: int, b: int)
    requires |cells| == 900
    requires 0 <= x < BLOCK_X_COUNT && 0 <= y < BLOCK_Y_COUNT && 0 <= a < BLOCK_X_COUNT && 0 <= b < BLOCK_Y_COUNT
    ensures Lookup(cells[y * 30 + x := v], 30, a, b) == if a == x && b == y then Some(v) else Lookup(cells, 30, a, b)
  {
    LookupAfterWrite(cells, 30, x, y, v, a, b);
  }

  predicate InRectangle(x: int, y: int, xBegin: int, xEnd: int, yBegin: int, yEnd: int)
  {
    xBegin <= x < xEnd && yBegin <= y < yEnd
  }

  class GridMap {
    const grid: Grid<Block>
    var floorCount: int
    var grassCount: int
    var forestCount: int

    /** The three counters always equal the true tallies. */
    ghost predicate Valid()
      reads this, grid.items
    {
      && grid.items.Length == 900
      && grid.xCount == BLOCK_X_COUNT
      && grid.yCount == BLOCK_Y_COUNT
      && floorCount == Tally(grid.items[..], IsFloor)
      && grassCount == Tally(grid.items[..], IsGrass)
      && forestCount == Tally(grid.items[..], IsForest)
    }

    ghost function Cells(): seq<Block>
      reads grid.items
    {
      grid.items[..]
    }

    /** A 30 x 30 map of solid Wall with all counters at zero. */
    constructor ()
      ensures Valid() && fresh(grid) && fresh(grid.items)
      ensures floorCount == 0 && grassCount == 0 && forestCount == 0
      ensures forall x, y :: 0 <= x < BLOCK_X_COUNT && 0 <= y < BLOCK_Y_COUNT ==> Get(x, y) == Some(Wall)
      ensures Enclosed(Cells())
    {
      grid := new Grid<Block>(BLOCK_X_COUNT, BLOCK_Y_COUNT, Wall);
      floorCount, grassCount, forestCount := 0, 0, 0;
      new;
      TallyNone(grid.items[..], IsFloor);
      TallyNone(grid.items[..], IsGrass);
      TallyNone(grid.items[..], IsForest);
    }

    /** The inherited `Grid.get`, read on the 30-wide layout. */
    function Get(x: int, y: int): (r: Option<Block>)
      reads grid.items
      ensures grid.xCount == BLOCK_X_COUNT ==> r == Lookup(Cells(), 30, x, y)
    {
      grid.Get(x, y)
    }

    /** Writes one tile and adjusts each counter by comparing the old tile's
        class with the new one's, so that the counters keep the tallies. */
    method Set(x: int, y: int, value: Block)
      requires Valid()
      requires 0 <= y * 30 + x < 900
      modifies this, grid.items
      ensures Valid()
      ensures Cells() == old(Cells())[y * 30 + x := value]
      ensures Enclosed(old(Cells())) && 1 <= x < LAST_COLUMN && 1 <= y < LAST_ROW ==> Enclosed(Cells())
    {
      var previous := Get(x, y);
      ghost var before := Cells();
      ghost var i := y * 30 + x;
      assert y * grid.xCount + x == i;
      grid.Set(x, y, value);

      floorCount := Recount(floorCount, IsFloor, previous, value);
      grassCount := Recount(grassCount, IsGrass, previous, value);
      forestCount := Recount(forestCount, IsForest, previous, value);

      RecountKeepsTally(before, i, value, IsFloor);
      RecountKeepsTally(before, i, value, IsGrass);
      RecountKeepsTally(before, i, value, IsForest);
      if Enclosed(before) && 1 <= x < LAST_COLUMN && 1 <= y < LAST_ROW {
        InteriorWriteKeepsEnclosure(before, x, y, value);
      }
    }

    /** Scans row-major for the match with exactly `targetIndex` matches
        before it. `targetIndex` stands for the random draw `randomInt(count)`. */
    method FindRandom(targetIndex: nat, p: Option<Block> -> bool) returns (r: Option<GridPosition>)
      requires Valid()
      ensures r.None? <==> targetIndex >= Tally(Cells(), p)
      ensures r.Some? ==>
        && 0 <= r.value.xi < BLOCK_X_COUNT && 0 <= r.value.yi < BLOCK_Y_COUNT
        && p(Get(r.value.xi, r.value.yi))
        && Tally(Cells()[..r.value.yi * 30 + r.value.xi], p) == targetIndex
    {
      var currentIndex := 0;
      var gridY := 0;
      while gridY < grid.yCount
        invariant 0 <= gridY <= BLOCK_Y_COUNT
        invariant currentIndex == Tally(Cells()[..gridY * 30], p)
        invariant currentIndex <= targetIndex
      {
        var gridX := 0;
        while gridX < grid.xCount
          invariant 0 <= gridX <= BLOCK_X_COUNT
          invariant currentIndex == Tally(Cells()[..gridY * 30 + gridX], p)
          invariant currentIndex <= targetIndex
        {
          var block := Get(gridX, gridY);
          TallyPrefixStep(Cells(), gridY * 30 + gridX, p);
          if p(block) {
            if currentIndex == targetIndex {
              TallyPrefixBound(Cells(), gridY * 30 + gridX + 1, p);
              return Some(GridPosition(gridX, gridY));
            }
            currentIndex := currentIndex + 1;
          }
          gridX := gridX + 1;
        }
        gridY := gridY + 1;
      }
      assert Cells()[..BLOCK_Y_COUNT * 30] == Cells();
      return None;
    }

    /** The k-th Floor tile in row-major order; absent exactly when there
        are no more than k Floor tiles. */
    method FindRandomFloor(targetIndex: nat) returns (r: Option<GridPosition>)
      requires Valid()
      ensures r.None? <==> targetIndex >= floorCount
      ensures r.Some? ==> 0 <= r.value.xi < BLOCK_X_COUNT && 0 <= r.value.yi < BLOCK_Y_COUNT
      ensures r.Some? ==> Get(r.value.xi, r.value.yi) == Some(Floor)
      ensures r.Some? ==> Tally(Cells()[..r.value.yi * 30 + r.value.xi], IsFloor) == targetIndex
    {
      r := FindRandom(targetIndex, IsFloor);
    }

    /** The k-th Grass tile in row-major order; absent exactly when there
        are no more than k Grass tiles. */
    method FindRandomGrass(targetIndex: nat) returns (r: Option<GridPosition>)
      requires Valid()
      ensures r.None? <==> targetIndex >= grassCount
      ensures r.Some? ==> 0 <= r.value.xi < BLOCK_X_COUNT && 0 <= r.value.yi < BLOCK_Y_COUNT
      ensures r.Some? ==> Get(r.value.xi, r.value.yi) == Some(Grass)
      ensures r.Some? ==> Tally(Cells()[..r.value.yi * 30 + r.value.xi], IsGrass) == targetIndex
    {
      r := FindRandom(targetIndex, IsGrass);
    }

    /** The k-th Grass-or-Tree tile in row-major order; absent exactly when
        there are no more than k forest tiles. */
    method FindRandomForest(targetIndex: nat) returns (r: Option<GridPosition>)
      requires Valid()
      ensures r.None? <==> targetIndex >= forestCount
      ensures r.Some? ==> 0 <= r.value.xi < BLOCK_X_COUNT && 0 <= r.value.yi < BLOCK_Y_COUNT
      ensures r.Some? ==> IsForest(Get(r.value.xi, r.value.yi))
      ensures r.Some? ==> Tally(Cells()[..r.value.yi * 30 + r.value.xi], IsForest) == targetIndex
    {
      r := FindRandom(targetIndex, IsForest);
    }
  }

  /** Turns every cell of `[xBegin, xEnd) x [yBegin, yEnd)` into Floor, one
      `Set` at a time, and leaves every other cell as it was. */
  method CarveRectangle(tiles: GridMap, xBegin: int, xEnd: int, yBegin: int, yEnd: int)
    requires tiles.Valid()
    requires 0 <= xBegin && xEnd <= BLOCK_X_COUNT && 0 <= yBegin && yEnd <= BLOCK_Y_COUNT
    modifies tiles, tiles.grid.items
    ensures tiles.Valid()
    ensures forall x, y :: 0 <= x < BLOCK_X_COUNT && 0 <= y < BLOCK_Y_COUNT ==>
      tiles.Get(x, y) == if InRectangle(x, y, xBegin, xEnd, yBegin, yEnd) then Some(Floor) else old(tiles.Get(x, y))
    ensures Enclosed(old(tiles.Cells())) && 1 <= xBegin && xEnd <= LAST_COLUMN && 1 <= yBegin && yEnd <= LAST_ROW
      ==> Enclosed(tiles.Cells())
  {
    var gridY := yBegin;
    while gridY < yEnd
      invariant tiles.Valid()
      invariant yBegin <= gridY && (gridY <= yEnd || gridY == yBegin)
      invariant forall x, y :: 0 <= x < BLOCK_X_COUNT && 0 <= y < BLOCK_Y_COUNT ==>
        tiles.Get(x, y) == if InRectangle(x, y, xBegin, xEnd, yBegin, gridY) then Some(Floor) else old(tiles.Get(x, y))
      invariant Enclosed(old(tiles.Cells())) && 1 <= xBegin && xEnd <= LAST_COLUMN && 1 <= yBegin && yEnd <= LAST_ROW
        ==> Enclosed(tiles.Cells())
    {
      var gridX := xBegin;
      while gridX < xEnd
        invariant tiles.Valid()
        invariant xBegin <= gridX && (gridX <= xEnd || gridX == xBegin)
        invariant forall x, y :: 0 <= x < BLOCK_X_COUNT && 0 <= y < BLOCK_Y_COUNT ==>
          tiles.Get(x, y) == if InRectangle(x, y, xBegin, xEnd, yBegin, gridY) || (y == gridY && xBegin <= x < gridX)
                           then Some(Floor) else old(tiles.Get(x, y))
        invariant Enclosed(old(tiles.Cells())) && 1 <= xBegin && xEnd <= LAST_COLUMN && 1 <= yBegin && yEnd <= LAST_ROW
          ==> Enclosed(tiles.Cells())
      {
        ghost var before := tiles.Cells();
        tiles.Set(gridX, gridY, Floor);
        forall x, y | 0 <= x < BLOCK_X_COUNT && 0 <= y < BLOCK_Y_COUNT
          ensures tiles.Get(x, y) == if x == gridX && y == gridY then Some(Floor) else Lookup(before, 30, x, y)
        {
          TileWrite(before, gridX, gridY, Floor, x, y);
        }
        gridX := gridX + 1;
      }
      gridY := gridY + 1;
    }
  }

  /** Carves the two bottom rooms and their doorways. */
  method CarveBottomRooms(tiles: GridMap)
    requires tiles.Valid() && Enclosed(tiles.Cells())
    modifies tiles, tiles.grid.items
    ensures tiles.Valid() && Enclosed(tiles.Cells())
  {
    CarveRectangle(tiles, 1, 6, 20, 29);
    CarveRectangle(tiles, 8, 16, 20, 29);
    CarveRectangle(tiles, 2, 4, 19, 20);
    CarveRectangle(tiles, 11, 14, 19, 20);
  }

  /** Carves the left-center room and seeds its two Grass patches. */
  method CarveLeftCenterRoom(tiles: GridMap)
    requires tiles.Valid() && Enclosed(tiles.Cells())
    modifies tiles, tiles.grid.items
    ensures tiles.Valid() && Enclosed(tiles.Cells())
  {
    CarveRectangle(tiles, 1, 16, 12, 19);
    tiles.Set(7, 16, Grass);
    tiles.Set(8, 16, Grass);
    tiles.Set(9, 16, Grass);
    tiles.Set(6, 17, Grass);
    tiles.Set(7, 17, Grass);
    tiles.Set(8, 17, Grass);
    tiles.Set(9, 17, Grass);
    tiles.Set(6, 18, Grass);
    tiles.Set(7, 18, Grass);
    tiles.Set(8, 18, Grass);
    tiles.Set(9, 18, Grass);

    tiles.Set(14, 12, Grass);
    tiles.Set(15, 12, Grass);
    tiles.Set(15, 13, Grass);
  }

  /** Carves the top-left room, its Grass strip and the doorways around it. */
  method CarveTopLeftRoom(tiles: GridMap)
    requires tiles.Valid() && Enclosed(tiles.Cells())
    modifies tiles, tiles.grid.items
    ensures tiles.Valid() && Enclosed(tiles.Cells())
  {
    CarveRectangle(tiles, 2, 5, 11, 12);
    CarveRectangle(tiles, 1, 7, 1, 11);
    tiles.Set(1, 7, Grass);
    tiles.Set(1, 8, Grass);
    tiles.Set(1, 9, Grass);
    tiles.Set(1, 10, Grass);
    CarveRectangle(tiles, 7, 8, 4, 8);

    CarveRectangle(tiles, 11, 14, 11, 12);
  }

  /** Carves the top-right room and seeds its two northern Grass patches. */
  method CarveTopRightRoom(tiles: GridMap)
    requires tiles.Valid() && Enclosed(tiles.Cells())
    modifies tiles, tiles.grid.items
    ensures tiles.Valid() && Enclosed(tiles.Cells())
  {
    CarveRectangle(tiles, 8, 28, 1, 11);
    tiles.Set(12, 2, Grass);
    tiles.Set(13, 2, Grass);
    tiles.Set(12, 3, Grass);
    tiles.Set(14, 3, Grass);
    tiles.Set(13, 3, Grass);
    tiles.Set(13, 4, Grass);
    tiles.Set(14, 4, Grass);

    tiles.Set(25, 1, Grass);
    tiles.Set(26, 1, Grass);
    tiles.Set(27, 1, Grass);
    tiles.Set(26, 2, Grass);
    tiles.Set(27, 2, Grass);
    tiles.Set(26, 3, Grass);
    tiles.Set(27, 3, Grass);
  }

  /** Seeds the Grass strip along the east side of the top-right room. */
  method SeedEastGrass(tiles: GridMap)
    requires tiles.Valid() && Enclosed(tiles.Cells())
    modifies tiles, tiles.grid.items
    ensures tiles.Valid() && Enclosed(tiles.Cells())
  {
    tiles.Set(26, 6, Grass);
    tiles.Set(27, 6, Grass);
    tiles.Set(26, 7, Grass);
    tiles.Set(27, 7, Grass);
    tiles.Set(26, 8, Grass);
    tiles.Set(27, 8, Grass);
    tiles.Set(26, 9, Grass);
    tiles.Set(27, 9, Grass);
    tiles.Set(26, 10, Grass);
    tiles.Set(27, 10, Grass);
  }

  /** Seeds the Grass patch in the middle of the top-right room. */
  method SeedMiddleGrass(tiles: GridMap)
    requires tiles.Valid() && Enclosed(tiles.Cells())
    modifies tiles, tiles.grid.items
    ensures tiles.Valid() && Enclosed(tiles.Cells())
  {
    tiles.Set(16, 8, Grass);
    tiles.Set(17, 8, Grass);
    tiles.Set(18, 8, Grass);
    tiles.Set(19, 8, Grass);
    tiles.Set(16, 9, Grass);
    tiles.Set(17, 9, Grass);
    tiles.Set(18, 9, Grass);
    tiles.Set(19, 9, Grass);
    tiles.Set(20, 9, Grass);
    tiles.Set(16, 10, Grass);
    tiles.Set(17, 10, Grass);
    tiles.Set(18, 10, Grass);
    tiles.Set(19, 10, Grass);
    tiles.Set(20, 10, Grass);
  }

  /** Carves the right hallway and the bottom-right room and seeds its first Grass patches. */
  method CarveBottomRightRoom(tiles: GridMap)
    requires tiles.Valid() && Enclosed(tiles.Cells())
    modifies tiles, tiles.grid.items
    ensures tiles.Valid() && Enclosed(tiles.Cells())
  {
    CarveRectangle(tiles, 23, 26, 11, 14);
    CarveRectangle(tiles, 20, 28, 14, 28);
    tiles.Set(20, 14, Grass);
    tiles.Set(21, 14, Grass);
    tiles.Set(20, 15, Grass);

    tiles.Set(24, 24, Grass);
    tiles.Set(25, 24, Grass);
    tiles.Set(26, 24, Grass);

    tiles.Set(24, 25, Grass);
    tiles.Set(25, 25, Grass);
    tiles.Set(26, 25, Grass);
  }

  /** Seeds the large Grass patch of the bottom-right room. */
  method SeedBottomRightGrass(tiles: GridMap)
    requires tiles.Valid() && Enclosed(tiles.Cells())
    modifies tiles, tiles.grid.items
    ensures tiles.Valid() && Enclosed(tiles.Cells())
  {
    tiles.Set(23, 26, Grass);
    tiles.Set(24, 26, Grass);
    tiles.Set(25, 26, Grass);
    tiles.Set(26, 26, Grass);

    tiles.Set(23, 27, Grass);
    tiles.Set(24, 27, Grass);
    tiles.Set(25, 27, Grass);
    tiles.Set(26, 27, Grass);
  }

  /** Carves the fixed room layout out of a solid-Wall map and seeds the
      fixed Grass patches; the outer wall survives except for the two-tile
      exit at the right edge, and the counters still equal the tallies. */
  method CreateMap() returns (tiles: GridMap)
    ensures fresh(tiles) && fresh(tiles.grid.items) && tiles.Valid()
    ensures forall i :: 0 <= i < BLOCK_X_COUNT ==> tiles.Get(i, 0) == Some(Wall) && tiles.Get(i, LAST_ROW) == Some(Wall)
    ensures forall i :: 0 <= i < BLOCK_Y_COUNT ==> tiles.Get(0, i) == Some(Wall)
    ensures forall i :: 0 <= i < BLOCK_Y_COUNT && i != 26 && i != 27 ==> tiles.Get(LAST_COLUMN, i) == Some(Wall)
    ensures tiles.Get(LAST_COLUMN, 26) == Some(Floor) && tiles.Get(LAST_COLUMN, 27) == Some(Floor)
  {
    tiles := new GridMap();
    CarveBottomRooms(tiles);
    CarveLeftCenterRoom(tiles);
    CarveTopLeftRoom(tiles);
    CarveTopRightRoom(tiles);
    SeedEastGrass(tiles);
    SeedMiddleGrass(tiles);
    CarveBottomRightRoom(tiles);
    SeedBottomRightGrass(tiles);
    ghost var closed := tiles.Cells();
    CarveRectangle(tiles, 28, 30, 26, 28);
    forall i | 0 <= i < BLOCK_X_COUNT
      ensures tiles.Get(i, 0) == Some(Wall) && tiles.Get(i, LAST_ROW) == Some(Wall)
      ensures tiles.Get(0, i) == Some(Wall)
      ensures i != 26 && i != 27 ==> tiles.Get(LAST_COLUMN, i) == Some(Wall)
    {
      assert EdgesWalledAt(closed, i);
    }
  }
}
