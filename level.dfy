/**
 * The early level prototype: a 400 x 300 area laid out in 50 x 50 blocks,
 * with a player that the arrow keys push around inside the area, and a
 * rule that draws the player in the block row its bottom edge falls in.
 */
module Levels {
  import opened Options
  import opened Grids
  import opened Keyboard

  const BLOCK_WIDTH: int := 50
  const BLOCK_HEIGHT: int := 50
  /** Pixels per millisecond. */
  const SPEED: real := 0.1

  const LEVEL_WIDTH: int := 400
  const LEVEL_HEIGHT: int := 300

  /** Anything with a position and a size that the level can move. */
  class GameObject {
    var x: real
    var y: real
    const width: real
    const height: real

    constructor (width: real, height: real)
      ensures x == 0.0 && y == 0.0
      ensures this.width == width && this.height == height
    {
      x := 0.0;
      y := 0.0;
      this.width := width;
      this.height := height;
    }
  }

  /** The block cells of the level layout. */
  predicate IsLayoutBlock(gridX: int, gridY: int) {
    (gridX, gridY) in {(0, 0), (3, 2), (4, 2), (2, 4), (3, 4), (6, 3), (6, 4), (6, 0), (7, 0), (6, 1), (7, 1)}
  }

  /**
   * One axis of a move: a step of `step` towards the lower edge when
   * `decrease` is held and the object has not passed the lower edge;
   * otherwise a step towards the upper edge when `increase` is held and the
   * object's far side has not passed the upper edge; otherwise no move.
   */
  function AxisStep(position: real, size: real, lower: real, extent: real,
                    decrease: bool, increase: bool, step: real): real
  {
    if decrease && lower <= position then position - step
    else if increase && position + size <= lower + extent then position + step
    else position
  }

  /** At most one step per axis, and a step towards the lower edge wins. */
  lemma AxisStepChoices(position: real, size: real, lower: real, extent: real,
                        decrease: bool, increase: bool, step: real)
    ensures var r := AxisStep(position, size, lower, extent, decrease, increase, step);
      (r == position - step <== decrease && lower <= position) &&
      (r == position + step <== !(decrease && lower <= position) && increase && position + size <= lower + extent) &&
      (r == position <== !decrease && !increase)
    ensures var r := AxisStep(position, size, lower, extent, decrease, increase, step);
      r == position || r == position - step || r == position + step
  {
  }

  /** An object already past the lower edge is never stepped further out. */
  lemma NoStepPastLowerEdge(position: real, size: real, lower: real, extent: real,
                            decrease: bool, increase: bool, step: real)
    requires step >= 0.0 && position < lower
    ensures AxisStep(position, size, lower, extent, decrease, increase, step) >= position
  {
  }

  /** An object whose far side is past the upper edge is never stepped further out. */
  lemma NoStepPastUpperEdge(position: real, size: real, lower: real, extent: real,
                            decrease: bool, increase: bool, step: real)
    requires step >= 0.0 && position + size > lower + extent
    ensures AxisStep(position, size, lower, extent, decrease, increase, step) <= position
  {
  }

  /** The edges are checked before the step is taken, so an object can end up
      at most one step outside the area on either side, and no further. */
  predicate WithinOneStep(position: real, size: real, lower: real, extent: real, step: real) {
    lower - step <= position && position + size <= lower + extent + step
  }

  lemma StepKeepsWithinOneStep(position: real, size: real, lower: real, extent: real,
                               decrease: bool, increase: bool, step: real)
    requires step >= 0.0 && WithinOneStep(position, size, lower, extent, step)
    ensures WithinOneStep(AxisStep(position, size, lower, extent, decrease, increase, step), size, lower, extent, step)
  {
  }

  /** The player is drawn in row `gridY` when its bottom edge lies between
      the middle of that row and the middle of the next (rows are
      `BLOCK_HEIGHT` = 50 pixels high). */
  predicate DrawsPlayerInRow(gridY: int, bottom: real) {
    (gridY * 50 + 25) as real <= bottom < (gridY * 50 + 50 + 25) as real
  }

  /** No bottom edge falls in two rows. */
  lemma DrawRowsDisjoint(r1: int, r2: int, bottom: real)
    requires DrawsPlayerInRow(r1, bottom) && DrawsPlayerInRow(r2, bottom)
    ensures r1 == r2
  {
  }

  /** A bottom edge in `[25, rows * 50 + 25)` falls in one of the rows. */
  lemma DrawRowExists(rows: nat, bottom: real)
    requires 25.0 <= bottom < (rows * 50 + 25) as real
    ensures exists r :: 0 <= r < rows && DrawsPlayerInRow(r, bottom)
  {
    var r := ((bottom - 25.0) / 50.0).Floor;
    assert r as real <= (bottom - 25.0) / 50.0 < r as real + 1.0;
    assert DrawsPlayerInRow(r, bottom);
  }

  /** The flat offsets, in an 8-column grid, of the block cells. */
  const LAYOUT_OFFSETS: set<int> := {0, 19, 20, 34, 35, 30, 38, 6, 7, 14, 15}

  /** A cell of the 8 x 6 grid is a block cell exactly when its flat offset
      is one of the layout offsets. */
  lemma LayoutOffsetsMatch(gridX: int, gridY: int)
    requires 0 <= gridX < 8 && 0 <= gridY < 6
    ensures (gridY * 8 + gridX in LAYOUT_OFFSETS) == IsLayoutBlock(gridX, gridY)
  {
  }

  /** In a grid laid out by offsets, every on-grid lookup reads whether the
      cell is a block cell of the layout. */
  lemma LayoutLookup(blocks: Grid<bool>, gridX: int, gridY: int)
    requires blocks.xCount == 8 && blocks.yCount == 6 && blocks.items.Length == 48
    requires forall i :: 0 <= i < blocks.items.Length ==> blocks.items[i] == (i in LAYOUT_OFFSETS)
    requires 0 <= gridX < 8 && 0 <= gridY < 6
    ensures blocks.Get(gridX, gridY) == Some(IsLayoutBlock(gridX, gridY))
  {
    blocks.GetInBounds(gridX, gridY);
    assert gridY * blocks.xCount == gridY * 8;
    LayoutOffsetsMatch(gridX, gridY);
  }

  /** The single blocks and pairs of blocks of the layout. */
  method PlaceScatteredBlocks(blocks: Grid<bool>)
    requires blocks.xCount == 8 && blocks.items.Length == 48
    modifies blocks.items
    ensures forall i :: 0 <= i < 48 ==> blocks.items[i] == (i in {0, 19, 20, 34, 35, 30, 38} || old(blocks.items[i]))
  {
    blocks.Set(0, 0, true);
    blocks.Set(3, 2, true);
    blocks.Set(4, 2, true);
    blocks.Set(2, 4, true);
    blocks.Set(3, 4, true);
    blocks.Set(6, 3, true);
    blocks.Set(6, 4, true);
  }

  /** The 2 x 2 block in the top right corner of the layout. */
  method PlaceCornerBlocks(blocks: Grid<bool>)
    requires blocks.xCount == 8 && blocks.items.Length == 48
    modifies blocks.items
    ensures forall i :: 0 <= i < 48 ==> blocks.items[i] == (i in {6, 7, 14, 15} || old(blocks.items[i]))
  {
    blocks.Set(6, 0, true);
    blocks.Set(7, 0, true);
    blocks.Set(6, 1, true);
    blocks.Set(7, 1, true);
  }

  class Level {
    const x: real
    const y: real
    const width: real
    const height: real
    /** Which cells hold a block; cells never set hold `false`. */
    const blocks: Grid<bool>
    const player: GameObject

    /** The player's size comes from its image. */
    constructor (playerWidth: real, playerHeight: real)
      ensures x == 0.0 && y == 0.0
      ensures width == LEVEL_WIDTH as real && height == LEVEL_HEIGHT as real
      ensures fresh(blocks) && fresh(blocks.items) && fresh(player)
      ensures blocks.Valid() && blocks.xCount == 8 && blocks.yCount == 6
      ensures forall i :: 0 <= i < blocks.items.Length ==> blocks.items[i] == (i in LAYOUT_OFFSETS)
      ensures player.x == 200.0 && player.y == 200.0
      ensures player.width == playerWidth && player.height == playerHeight
    {
      x := 0.0;
      y := 0.0;
      width := LEVEL_WIDTH as real;
      height := LEVEL_HEIGHT as real;
      blocks := new Grid<bool>(LEVEL_WIDTH / BLOCK_WIDTH, LEVEL_HEIGHT / BLOCK_HEIGHT, false);
      player := new GameObject(playerWidth, playerHeight);
      new;
      assert blocks.xCount == 8 && blocks.items.Length == 48;
      player.x := 200.0;
      player.y := 200.0;
      PlaceScatteredBlocks(blocks);
      PlaceCornerBlocks(blocks);
    }

    /**
     * Moves `o` for a frame of `dt` milliseconds with the keys in `controls`:
     * each axis independently, by one step of `SPEED * dt` at most.
     */
    method Move(dt: real, o: GameObject, controls: Controls)
      modifies o
      ensures o.x == AxisStep(old(o.x), o.width, x, width, controls.arrowLeft, controls.arrowRight, SPEED * dt)
      ensures o.y == AxisStep(old(o.y), o.height, y, height, controls.arrowUp, controls.arrowDown, SPEED * dt)
    {
      if controls.arrowLeft && x <= o.x {
        o.x := o.x - SPEED * dt;
      } else if controls.arrowRight && o.x + o.width <= x + width {
        o.x := o.x + SPEED * dt;
      }
      if controls.arrowUp && y <= o.y {
        o.y := o.y - SPEED * dt;
      } else if controls.arrowDown && o.y + o.height <= y + height {
        o.y := o.y + SPEED * dt;
      }
    }

    /** The rows of the block grid, top to bottom, in which a frame draws the
        player: at most one, and none when its bottom edge is off the rows. */
    method PlayerDrawRows() returns (rows: seq<int>)
      ensures forall r :: r in rows <==> 0 <= r < blocks.yCount && DrawsPlayerInRow(r, player.y + player.height)
      ensures |rows| <= 1
      ensures |rows| == 1 <==> 25.0 <= player.y + player.height < (blocks.yCount * 50 + 25) as real
    {
      rows := [];
      var playerBottomY := player.y + player.height;
      var gridY := 0;
      while gridY < blocks.yCount
        invariant 0 <= gridY <= blocks.yCount
        invariant forall r :: r in rows <==> 0 <= r < gridY && DrawsPlayerInRow(r, playerBottomY)
        invariant |rows| <= 1
      {
        var rowTopY := (gridY * 50 + 50 / 2) as real;
        var rowBottomY := (gridY * 50 + 50 + 50 / 2) as real;
        if rowTopY <= playerBottomY && playerBottomY < rowBottomY {
          assert rows == [] by {
            if rows != [] {
              assert rows[0] in rows;
              DrawRowsDisjoint(rows[0], gridY, playerBottomY);
            }
          }
          rows := rows + [gridY];
        }
        gridY := gridY + 1;
      }
      assert |rows| == 1 ==> rows[0] in rows;
      assert 25.0 <= playerBottomY < (blocks.yCount * 50 + 25) as real ==> |rows| == 1 by {
        if 25.0 <= playerBottomY < (blocks.yCount * 50 + 25) as real {
          DrawRowExists(blocks.yCount, playerBottomY);
          var r :| 0 <= r < blocks.yCount && DrawsPlayerInRow(r, playerBottomY);
          assert r in rows;
        }
      }
    }
  }
}
