/**
 * Tapio, the forest spirit: every second it turns one floor tile next to
 * the forest into grass or a tree, and every five seconds it spawns an
 * enemy on a random grass tile.
 */
module Growth {
  import opened Options
  import opened Grids
  import opened Maps
  import opened Characters

  /** Milliseconds between two expansions of the forest. */
  const EXPAND_INTERVAL: real := 1000.0
  /** Milliseconds between two enemy spawns. */
  const SPAWN_INTERVAL: real := 5000.0
  /** The chance that an expansion plants a tree rather than grass. */
  const TREE_CHANCE: real := 0.6

  /** A floor tile with a forest tile directly left, right, above or below. */
  predicate IsGrowthSite(g: Grid<Block>, x: int, y: int)
    reads g.items
  {
    IsFloor(g.Get(x, y)) &&
    (IsForest(g.Get(x - 1, y)) || IsForest(g.Get(x + 1, y)) ||
     IsForest(g.Get(x, y - 1)) || IsForest(g.Get(x, y + 1)))
  }

  /** (x1, y1) comes before (x2, y2) in row-major order. */
  predicate Precedes(x1: int, y1: int, x2: int, y2: int) {
    y1 < y2 || (y1 == y2 && x1 < x2)
  }

  /** No on-grid tile from (x0, y0) inclusive up to (x1, y1) exclusive, in
      row-major order, is a growth site. */
  ghost predicate NoGrowthSiteBetween(g: Grid<Block>, x0: int, y0: int, x1: int, y1: int)
    reads g.items
  {
    forall a, b ::
      (0 <= a < g.xCount && 0 <= b < g.yCount && !Precedes(a, b, x0, y0) && Precedes(a, b, x1, y1))
      ==> !IsGrowthSite(g, a, b)
  }

  /** The first growth site at or after (x, y) in row-major order. */
  function SiteScan(g: Grid<Block>, x: nat, y: nat): Option<GridPosition>
    reads g.items
    requires x <= g.xCount
    decreases g.yCount - y, g.xCount - x
  {
    if y >= g.yCount then None
    else if x == g.xCount then SiteScan(g, 0, y + 1)
    else if IsGrowthSite(g, x, y) then Some(GridPosition(x, y))
    else SiteScan(g, x + 1, y)
  }

  /** The scan finds an on-grid growth site with none before it, and finds
      nothing only when no growth site is left. */
  lemma {:induction false} SiteScanIsFirst(g: Grid<Block>, x: nat, y: nat)
    requires x <= g.xCount
    ensures var r := SiteScan(g, x, y);
      r.Some? ==>
        0 <= r.value.xi < g.xCount && 0 <= r.value.yi < g.yCount &&
        !Precedes(r.value.xi, r.value.yi, x, y) &&
        IsGrowthSite(g, r.value.xi, r.value.yi) &&
        NoGrowthSiteBetween(g, x, y, r.value.xi, r.value.yi)
    ensures SiteScan(g, x, y).None? ==> NoGrowthSiteBetween(g, x, y, 0, g.yCount)
    decreases g.yCount - y, g.xCount - x
  {
    if y >= g.yCount {
    } else if x == g.xCount {
      SiteScanIsFirst(g, 0, y + 1);
    } else if IsGrowthSite(g, x, y) {
    } else {
      SiteScanIsFirst(g, x + 1, y);
    }
  }

  /** The row-major search for the next tile the forest grows into. */
  method FindNewPosition(g: Grid<Block>) returns (r: Option<GridPosition>)
    ensures r == SiteScan(g, 0, 0)
    ensures r.Some? ==>
      0 <= r.value.xi < g.xCount && 0 <= r.value.yi < g.yCount &&
      IsGrowthSite(g, r.value.xi, r.value.yi) &&
      NoGrowthSiteBetween(g, 0, 0, r.value.xi, r.value.yi)
    ensures r.None? ==> NoGrowthSiteBetween(g, 0, 0, 0, g.yCount)
  {
    SiteScanIsFirst(g, 0, 0);
    var gridY := 0;
    while gridY < g.yCount
      invariant 0 <= gridY <= g.yCount
      invariant SiteScan(g, 0, gridY) == SiteScan(g, 0, 0)
    {
      var gridX := 0;
      while gridX < g.xCount
        invariant 0 <= gridX <= g.xCount
        invariant SiteScan(g, gridX, gridY) == SiteScan(g, 0, 0)
      {
        var block := g.Get(gridX, gridY);
        if IsFloor(block) {
          var blockLeft := g.Get(gridX - 1, gridY);
          var blockRight := g.Get(gridX + 1, gridY);
          var blockUp := g.Get(gridX, gridY - 1);
          var blockDown := g.Get(gridX, gridY + 1);
          if IsForest(blockLeft) || IsForest(blockRight) || IsForest(blockUp) || IsForest(blockDown) {
            return Some(GridPosition(gridX, gridY));
          }
        }
        gridX := gridX + 1;
      }
      gridY := gridY + 1;
    }
    return None;
  }

  /** Where the next expansion writes: the first growth site, or Tapio's own
      position when there is none. */
  function ExpansionTarget(g: Grid<Block>, position: GridPosition): (r: GridPosition)
    reads g.items
    ensures r == position || (0 <= r.xi < g.xCount && 0 <= r.yi < g.yCount && IsGrowthSite(g, r.xi, r.yi))
    ensures SiteScan(g, 0, 0).Some? ==> IsGrowthSite(g, r.xi, r.yi)
    ensures SiteScan(g, 0, 0).Some? ==> r == SiteScan(g, 0, 0).value
    ensures SiteScan(g, 0, 0).None? ==> r == position
  {
    SiteScanIsFirst(g, 0, 0);
    match SiteScan(g, 0, 0)
    case Some(p) => p
    case None => position
  }

  /** The tiles a tree may stand beside: neither a wall nor another tree. */
  predicate AllowsTree(block: Option<Block>) {
    !(IsBlocking(block) || (block.Some? && block.value.Tree?))
  }

  /** A tree, stamped with `clock`, when the die `roll` comes in under the
      tree chance and the whole neighbourhood allows a tree; grass otherwise. */
  function GrowthBlock(g: Grid<Block>, at: GridPosition, roll: real, clock: real): (b: Block)
    reads g.items
    ensures IsForest(Some(b))
    ensures b.Tree? <==> roll < TREE_CHANCE && EveryNearby(g, at.xi, at.yi, AllowsTree)
    ensures b.Tree? ==> b.time == clock
  {
    if roll < TREE_CHANCE && EveryNearby(g, at.xi, at.yi, AllowsTree) then Tree(clock) else Grass
  }

  /** A tree is planted only where no tree and no wall stands on the tile
      itself or right next to it. */
  lemma TreeHasClearance(g: Grid<Block>, at: GridPosition, roll: real, clock: real, a: int, b: int)
    requires GrowthBlock(g, at, roll, clock).Tree?
    requires at.xi - 1 <= a <= at.xi + 1 && at.yi - 1 <= b <= at.yi + 1
    requires 0 <= a < g.xCount && 0 <= b < g.yCount
    ensures g.Get(a, b) != Some(Wall)
    ensures !(g.Get(a, b).Some? && g.Get(a, b).value.Tree?)
  {
    assert HoldsOnGrid(g, a, b, AllowsTree);
  }

  /** Growing into a floor tile moves one tile from the floor count to the
      forest count. */
  lemma GrowthShiftsCounts(cells: seq<Block>, i: nat, b: Block)
    requires i < |cells| && cells[i] == Floor && IsForest(Some(b))
    ensures Tally(cells[i := b], IsForest) == Tally(cells, IsForest) + 1
    ensures Tally(cells[i := b], IsFloor) + 1 == Tally(cells, IsFloor)
  {
    TallyUpdate(cells, i, b, IsForest);
    TallyUpdate(cells, i, b, IsFloor);
  }

  /** Writing a forest block anywhere never shrinks the forest. */
  lemma GrowthKeepsForest(cells: seq<Block>, i: nat, b: Block)
    requires i < |cells| && IsForest(Some(b))
    ensures Tally(cells[i := b], IsForest) >= Tally(cells, IsForest)
  {
    TallyUpdate(cells, i, b, IsForest);
  }

  /** A character placed on the map. */
  datatype Placement = Placement(character: Character, at: GridPosition)

  /** The parts of the scene Tapio uses: the tile map and the characters
      added to it. */
  class Scene {
    const tileMap: GridMap
    var added: seq<Placement>

    constructor (tileMap: GridMap)
      ensures this.tileMap == tileMap && added == []
    {
      this.tileMap := tileMap;
      added := [];
    }

    /** Places `character` at tile `at`. */
    method Add(character: Character, at: GridPosition)
      modifies this
      ensures added == old(added) + [Placement(character, at)]
    {
      added := added + [Placement(character, at)];
    }
  }

  /** More than a second has passed since the last expansion. */
  predicate ExpandDue(lastExpandTime: real, now: real) {
    now - lastExpandTime > EXPAND_INTERVAL
  }

  /** More than five seconds have passed since the last spawn. */
  predicate SpawnDue(lastSpawnTime: real, now: real) {
    now - lastSpawnTime > SPAWN_INTERVAL
  }

  /** The scene's characters are `before` plus one enemy standing on the
      grass tile that the grass count's `k`-th in row-major order. */
  ghost predicate SpawnedOnGrass(scene: Scene, before: seq<Placement>, k: nat)
    reads scene, scene.tileMap.grid.items, set p | p in scene.added :: p.character
  {
    |scene.added| == |before| + 1 && scene.added[..|before|] == before &&
    var spawned := scene.added[|before|];
    spawned.character.isEnemy && spawned.character.Valid() &&
    0 <= spawned.at.xi < BLOCK_X_COUNT && 0 <= spawned.at.yi < BLOCK_Y_COUNT &&
    scene.tileMap.Get(spawned.at.xi, spawned.at.yi) == Some(Grass) &&
    |scene.tileMap.Cells()| == 900 &&
    Tally(scene.tileMap.Cells()[..spawned.at.yi * 30 + spawned.at.xi], IsGrass) == k
  }

  class Tapio {
    var position: GridPosition
    var lastExpandTime: real
    var lastSpawnTime: real

    constructor (xi: int, yi: int)
      ensures position == GridPosition(xi, yi)
      ensures lastExpandTime == 0.0 && lastSpawnTime == 0.0
    {
      position := GridPosition(xi, yi);
      lastExpandTime := 0.0;
      lastSpawnTime := 0.0;
    }

    /**
     * The expansion half of a frame: when more than a second has passed
     * since the last expansion, the first growth site (or Tapio's own tile
     * when there is none) becomes grass or a tree.
     */
    method Expand(tiles: GridMap, now: real, roll: real, clock: real)
      requires tiles.Valid()
      requires ExpandDue(lastExpandTime, now) && SiteScan(tiles.grid, 0, 0).None? ==>
        0 <= position.yi * 30 + position.xi < 900
      modifies this, tiles, tiles.grid.items
      ensures tiles.Valid()
      ensures position == old(position) && lastSpawnTime == old(lastSpawnTime)
      ensures ExpandDue(old(lastExpandTime), now) ==>
        var target := old(ExpansionTarget(tiles.grid, position));
        lastExpandTime == now &&
        tiles.Cells() == old(tiles.Cells())[target.yi * 30 + target.xi :=
          old(GrowthBlock(tiles.grid, ExpansionTarget(tiles.grid, position), roll, clock))]
      ensures ExpandDue(old(lastExpandTime), now) && old(SiteScan(tiles.grid, 0, 0)).Some? ==>
        tiles.forestCount == old(tiles.forestCount) + 1 &&
        tiles.floorCount == old(tiles.floorCount) - 1
      ensures !ExpandDue(old(lastExpandTime), now) ==>
        lastExpandTime == old(lastExpandTime) && tiles.Cells() == old(tiles.Cells()) &&
        tiles.floorCount == old(tiles.floorCount) && tiles.grassCount == old(tiles.grassCount)
      ensures tiles.forestCount >= old(tiles.forestCount)
    {
      if now - lastExpandTime > EXPAND_INTERVAL {
        var found := FindNewPosition(tiles.grid);
        var newPosition := if found.Some? then found.value else position;
        var block := GrowthBlock(tiles.grid, newPosition, roll, clock);
        ghost var before := tiles.Cells();
        ghost var i := newPosition.yi * 30 + newPosition.xi;
        if found.Some? {
          tiles.grid.GetInBounds(newPosition.xi, newPosition.yi);
          assert newPosition.yi * tiles.grid.xCount == i - newPosition.xi;
          GrowthShiftsCounts(before, i, block);
        }
        GrowthKeepsForest(before, i, block);
        tiles.Set(newPosition.xi, newPosition.yi, block);
        lastExpandTime := now;
      }
    }

    /**
     * The spawning half of a frame: when more than five seconds have passed
     * since the last spawn, an enemy is added on the grass tile the search
     * draws, if there is any grass; the spawn time is reset either way.
     */
    method Spawn(scene: Scene, now: real, clock: real, spawnIndex: nat)
      requires scene.tileMap.Valid()
      modifies this, scene
      ensures position == old(position) && lastExpandTime == old(lastExpandTime)
      ensures SpawnDue(old(lastSpawnTime), now) ==> lastSpawnTime == now
      ensures !SpawnDue(old(lastSpawnTime), now) ==>
        lastSpawnTime == old(lastSpawnTime) && scene.added == old(scene.added)
      ensures SpawnDue(old(lastSpawnTime), now) && spawnIndex >= scene.tileMap.grassCount ==>
        scene.added == old(scene.added)
      ensures SpawnDue(old(lastSpawnTime), now) && spawnIndex < scene.tileMap.grassCount ==>
        SpawnedOnGrass(scene, old(scene.added), spawnIndex) && fresh(scene.added[|old(scene.added)|].character)
    {
      if now - lastSpawnTime > SPAWN_INTERVAL {
        var spot := scene.tileMap.FindRandomGrass(spawnIndex);
        if spot.Some? {
          var enemy := new Character(clock);
          enemy.isEnemy := true;
          scene.Add(enemy, spot.value);
        }
        lastSpawnTime := now;
      }
    }

    /**
     * One frame at time `now`. `roll` is the value of the die drawn for the
     * tree chance, `clock` the clock reading stamped on a new tree and a new
     * enemy, and `spawnIndex` the index the grass search draws.
     */
    method Update(scene: Scene, now: real, roll: real, clock: real, spawnIndex: nat)
      requires scene.tileMap.Valid()
      requires ExpandDue(lastExpandTime, now) && SiteScan(scene.tileMap.grid, 0, 0).None? ==>
        0 <= position.yi * 30 + position.xi < 900
      modifies this, scene, scene.tileMap, scene.tileMap.grid.items
      ensures scene.tileMap.Valid() && position == old(position)
      ensures ExpandDue(old(lastExpandTime), now) ==>
        var target := old(ExpansionTarget(scene.tileMap.grid, position));
        lastExpandTime == now &&
        scene.tileMap.Cells() == old(scene.tileMap.Cells())[target.yi * 30 + target.xi :=
          old(GrowthBlock(scene.tileMap.grid, ExpansionTarget(scene.tileMap.grid, position), roll, clock))]
      ensures ExpandDue(old(lastExpandTime), now) && old(SiteScan(scene.tileMap.grid, 0, 0)).Some? ==>
        scene.tileMap.forestCount == old(scene.tileMap.forestCount) + 1 &&
        scene.tileMap.floorCount == old(scene.tileMap.floorCount) - 1
      ensures !ExpandDue(old(lastExpandTime), now) ==>
        lastExpandTime == old(lastExpandTime) && scene.tileMap.Cells() == old(scene.tileMap.Cells())
      ensures scene.tileMap.forestCount >= old(scene.tileMap.forestCount)
      ensures SpawnDue(old(lastSpawnTime), now) ==> lastSpawnTime == now
      ensures !SpawnDue(old(lastSpawnTime), now) ==>
        lastSpawnTime == old(lastSpawnTime) && scene.added == old(scene.added)
      ensures SpawnDue(old(lastSpawnTime), now) && spawnIndex >= scene.tileMap.grassCount ==>
        scene.added == old(scene.added)
      ensures SpawnDue(old(lastSpawnTime), now) && spawnIndex < scene.tileMap.grassCount ==>
        SpawnedOnGrass(scene, old(scene.added), spawnIndex) && fresh(scene.added[|old(scene.added)|].character)
    {
      Expand(scene.tileMap, now, roll, clock);
      Spawn(scene, now, clock, spawnIndex);
    }
  }
}
