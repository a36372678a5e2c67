/** The shared body of every simulated object (lib/game/entities/Entity.ts):
    a position and a velocity vector it owns, a size and an active flag.
    Dafny has no class inheritance here, so Player and Obstacle each hold an
    Entity as their `body`. */
module Entities {
  import opened Vectors
  import opened Geometry

  class Entity {
    const position: Vector2
    const velocity: Vector2
    var width: real
    var height: real
    var active: bool

    /** The two vectors are distinct objects, so moving never changes velocity. */
    predicate Valid() {
      position != velocity
    }

    function Repr(): set<object> {
      {this, position, velocity}
    }

    constructor (x: real, y: real, w: real, h: real)
      ensures Valid()
      ensures fresh(position) && fresh(velocity)
      ensures position.x == x && position.y == y
      ensures velocity.x == 0.0 && velocity.y == 0.0
      ensures width == w && height == h && active
    {
      position := new Vector2(x, y);
      velocity := new Vector2(0.0, 0.0);
      width := w;
      height := h;
      active := true;
    }

    function X(): real
      reads position
    {
      position.x
    }

    function Y(): real
      reads position
    {
      position.y
    }

    /** The `x` setter: only the horizontal coordinate moves. */
    method SetX(value: real)
      requires Valid()
      modifies position
      ensures GetHitbox() == old(GetHitbox()).(x := value)
      ensures unchanged(velocity)
    {
      position.x := value;
    }

    /** The `y` setter: only the vertical coordinate moves. */
    method SetY(value: real)
      requires Valid()
      modifies position
      ensures GetHitbox() == old(GetHitbox()).(y := value)
      ensures unchanged(velocity)
    {
      position.y := value;
    }

    predicate IsActive()
      reads this
    {
      active
    }

    method SetActive(b: bool)
      modifies this
      ensures IsActive() == b
      ensures width == old(width) && height == old(height)
    {
      active := b;
    }

    /** The body's box: its position and size. */
    function GetHitbox(): Rect
      reads this, position
    {
      Rect(position.x, position.y, width, height)
    }

    /** The hitbox inset by `shrinkAmount` (4 unless given). Whenever the
        inset fits, the forgiving box lies inside the plain one. */
    function GetForgivingHitbox(shrinkAmount: real := 4.0): (r: Rect)
      reads this, position
      ensures r == Shrink(GetHitbox(), shrinkAmount)
      ensures 0.0 <= shrinkAmount && 2.0 * shrinkAmount <= width && 2.0 * shrinkAmount <= height ==>
                Contains(GetHitbox(), r)
    {
      Shrink(GetHitbox(), shrinkAmount)
    }
  }
}
