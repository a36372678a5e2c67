/** The mutable 2D vector of lib/game/utils/Vector2.ts. The in-place
    operations change the receiver and return it, so calls can be chained;
    `Clone` and the static constructors build new vectors. */
module Vectors {

  class Vector2 {
    var x: real
    var y: real

    constructor (x0: real, y0: real)
      ensures x == x0 && y == y0
    {
      x, y := x0, y0;
    }

    method Set(x0: real, y0: real) returns (self: Vector2)
      modifies this
      ensures self == this
      ensures x == x0 && y == y0
    {
      x, y := x0, y0;
      self := this;
    }

    /** Makes the receiver equal to `v`; `v` itself is only read. */
    method Copy(v: Vector2) returns (self: Vector2)
      modifies this
      ensures self == this
      ensures x == old(v.x) && y == old(v.y)
      ensures v != this ==> unchanged(v)
    {
      x, y := v.x, v.y;
      self := this;
    }

    /** A new vector with the receiver's coordinates; nothing existing changes. */
    method Clone() returns (c: Vector2)
      ensures fresh(c)
      ensures c.x == x && c.y == y
    {
      c := new Vector2(x, y);
    }

    /** Adds `v` into the receiver. When `v` is the receiver, it is doubled. */
    method Add(v: Vector2) returns (self: Vector2)
      modifies this
      ensures self == this
      ensures x == old(x) + old(v.x) && y == old(y) + old(v.y)
      ensures v != this ==> unchanged(v)
    {
      x := x + v.x;
      y := y + v.y;
      self := this;
    }

    method Subtract(v: Vector2) returns (self: Vector2)
      modifies this
      ensures self == this
      ensures x == old(x) - old(v.x) && y == old(y) - old(v.y)
      ensures v != this ==> unchanged(v)
    {
      x := x - v.x;
      y := y - v.y;
      self := this;
    }

    method Multiply(scalar: real) returns (self: Vector2)
      modifies this
      ensures self == this
      ensures x == old(x) * scalar && y == old(y) * scalar
    {
      x := x * scalar;
      y := y * scalar;
      self := this;
    }

    static method Zero() returns (z: Vector2)
      ensures fresh(z)
      ensures z.x == 0.0 && z.y == 0.0
    {
      z := new Vector2(0.0, 0.0);
    }

    /** The static `add`: a new vector, both arguments untouched. */
    static method Sum(a: Vector2, b: Vector2) returns (c: Vector2)
      ensures fresh(c)
      ensures c.x == a.x + b.x && c.y == a.y + b.y
    {
      c := new Vector2(a.x + b.x, a.y + b.y);
    }

    /** The static `subtract`: a new vector, both arguments untouched. */
    static method Difference(a: Vector2, b: Vector2) returns (c: Vector2)
      ensures fresh(c)
      ensures c.x == a.x - b.x && c.y == a.y - b.y
    {
      c := new Vector2(a.x - b.x, a.y - b.y);
    }
  }

  /** Adding a distinct vector and subtracting it again restores the receiver
      exactly (over exact reals) and leaves the operand as it was. */
  method AddThenSubtractRestores(u: Vector2, v: Vector2)
    requires u != v
    modifies u
    ensures u.x == old(u.x) && u.y == old(u.y)
    ensures unchanged(v)
  {
    var r1 := u.Add(v);
    var r2 := u.Subtract(v);
  }

  /** With the receiver as its own operand, the same two calls do not restore
      it: `add` doubles it and `subtract` then zeroes it. */
  method SelfAddThenSubtractZeroes(u: Vector2)
    modifies u
    ensures u.x == 0.0 && u.y == 0.0
  {
    var r1 := u.Add(u);
    var r2 := u.Subtract(u);
  }
}
