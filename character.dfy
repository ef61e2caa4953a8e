/**
 * A walking character: the player or one of Tapio's enemies. It keeps a
 * position in pixels, the direction it faces, whether it is walking, and the
 * animation that shows it.
 */
module Characters {

  datatype Direction = Left | Right | Up | Down

  /** The six sprite animations a character can show. */
  datatype AnimationDefinition =
    | WestWalk | WestStand
    | NorthWalk | NorthStand
    | SouthWalk | SouthStand

  datatype RunningAnimation = RunningAnimation(definition: AnimationDefinition, startTime: real)

  /** Sprite width 50, of which 60 per cent collides; the height is half that. */
  const COLLISION_WIDTH: real := 50.0 * 0.6
  const COLLISION_HEIGHT: real := COLLISION_WIDTH / 2.0

  predicate IsWalk(a: AnimationDefinition) {
    a.WestWalk? || a.NorthWalk? || a.SouthWalk?
  }

  predicate IsHorizontal(d: Direction) {
    d.Left? || d.Right?
  }

  /**
   * Left and right share the west-facing sprites; up shows the north sprites
   * and down the south ones. `walk` chooses walking over standing.
   */
  function SelectAnimation(direction: Direction, walk: bool): (r: AnimationDefinition)
    ensures IsWalk(r) <==> walk
    ensures (r.WestWalk? || r.WestStand?) <==> IsHorizontal(direction)
    ensures (r.NorthWalk? || r.NorthStand?) <==> direction.Up?
    ensures (r.SouthWalk? || r.SouthStand?) <==> direction.Down?
  {
    match direction
    case Left => if walk then WestWalk else WestStand
    case Right => if walk then WestWalk else WestStand
    case Up => if walk then NorthWalk else NorthStand
    case Down => if walk then SouthWalk else SouthStand
  }

  /** Two choices show the same sprites exactly when only left/right differ. */
  lemma SelectAnimationSame(d1: Direction, w1: bool, d2: Direction, w2: bool)
    ensures SelectAnimation(d1, w1) == SelectAnimation(d2, w2)
        <==> w1 == w2 && (d1 == d2 || (IsHorizontal(d1) && IsHorizontal(d2)))
  {
  }

  /** The direction a step turns a character to; a vertical step wins. */
  function StepDirection(current: Direction, dx: real, dy: real): (d: Direction)
    ensures dy < 0.0 ==> d == Up
    ensures dy > 0.0 ==> d == Down
    ensures dy == 0.0 && dx < 0.0 ==> d == Left
    ensures dy == 0.0 && dx > 0.0 ==> d == Right
    ensures dy == 0.0 && dx == 0.0 ==> d == current
  {
    if dy != 0.0 then (if dy < 0.0 then Up else Down)
    else if dx != 0.0 then (if dx < 0.0 then Left else Right)
    else current
  }

  class Character {
    var x: real
    var y: real
    const width: real
    const height: real
    /** Set for the characters Tapio spawns. */
    var isEnemy: bool
    var startTime: real
    var direction: Direction
    var isMoving: bool
    var animation: RunningAnimation

    /** The animation on show always matches the direction and the walking flag. */
    ghost predicate Valid()
      reads this
    {
      animation.definition == SelectAnimation(direction, isMoving)
    }

    /** A new character stands at the origin facing down; `now` is the clock reading. */
    constructor (now: real)
      ensures Valid()
      ensures x == 0.0 && y == 0.0
      ensures width == COLLISION_WIDTH && height == COLLISION_HEIGHT
      ensures !isEnemy && startTime == now
      ensures direction == Down && !isMoving
      ensures animation == RunningAnimation(SouthStand, now)
    {
      x := 0.0;
      y := 0.0;
      width := COLLISION_WIDTH;
      height := COLLISION_HEIGHT;
      isEnemy := false;
      startTime := now;
      direction := Down;
      isMoving := false;
      animation := RunningAnimation(SouthStand, now);
    }

    /**
     * Moves by (dx, dy) and turns towards the step. The animation restarts,
     * at clock reading `now`, only when the direction or the walking flag
     * changes.
     */
    method Move(dx: real, dy: real, now: real)
      modifies this
      ensures x == old(x) + dx && y == old(y) + dy
      ensures direction == StepDirection(old(direction), dx, dy)
      ensures isMoving <==> dx != 0.0 || dy != 0.0
      ensures direction != old(direction) || isMoving != old(isMoving) ==>
        animation == RunningAnimation(SelectAnimation(direction, isMoving), now)
      ensures direction == old(direction) && isMoving == old(isMoving) ==>
        animation == old(animation)
      ensures old(Valid()) ==> Valid()
      ensures isEnemy == old(isEnemy) && startTime == old(startTime)
    {
      var oldDirection := direction;
      var newDirection := direction;
      var wasMoving := isMoving;
      var moving := false;
      if dx != 0.0 {
        x := x + dx;
        newDirection := if dx < 0.0 then Left else Right;
        moving := true;
      }
      if dy != 0.0 {
        y := y + dy;
        newDirection := if dy < 0.0 then Up else Down;
        moving := true;
      }
      if newDirection != oldDirection || moving != wasMoving {
        direction := newDirection;
        isMoving := moving;
        animation := RunningAnimation(SelectAnimation(newDirection, dx != 0.0 || dy != 0.0), now);
      }
    }
  }
}
