/**
 * The mutable 2-vector of the engine. Every arithmetic operation updates the
 * fields in place and hands back the same object, so calls can be chained.
 */
module Vectors {

  class Vector2f {
    var x: real
    var y: real

    constructor (x: real, y: real)
      ensures this.x == x && this.y == y
    {
      this.x := x;
      this.y := y;
    }

    /** Adds another vector; `other` may be this very vector. */
    method Add(other: Vector2f) returns (self: Vector2f)
      modifies this
      ensures x == old(x) + old(other.x) && y == old(y) + old(other.y)
      ensures self == this
    {
      x := x + other.x;
      y := y + other.y;
      self := this;
    }

    method AddXY(dx: real, dy: real) returns (self: Vector2f)
      modifies this
      ensures x == old(x) + dx && y == old(y) + dy
      ensures self == this
    {
      x := x + dx;
      y := y + dy;
      self := this;
    }

    /** Subtracts another vector; `other` may be this very vector. */
    method Subtract(other: Vector2f) returns (self: Vector2f)
      modifies this
      ensures x == old(x) - old(other.x) && y == old(y) - old(other.y)
      ensures self == this
    {
      x := x - other.x;
      y := y - other.y;
      self := this;
    }

    method SubtractXY(dx: real, dy: real) returns (self: Vector2f)
      modifies this
      ensures x == old(x) - dx && y == old(y) - dy
      ensures self == this
    {
      x := x - dx;
      y := y - dy;
      self := this;
    }

    method Multiply(scalar: real) returns (self: Vector2f)
      modifies this
      ensures x == old(x) * scalar && y == old(y) * scalar
      ensures self == this
    {
      x := x * scalar;
      y := y * scalar;
      self := this;
    }

    method GetX() returns (r: real)
      ensures r == x
    {
      r := x;
    }

    method GetY() returns (r: real)
      ensures r == y
    {
      r := y;
    }

    method SetX(x: real)
      modifies this
      ensures this.x == x && y == old(y)
    {
      this.x := x;
    }

    method SetY(y: real)
      modifies this
      ensures this.y == y && x == old(x)
    {
      this.y := y;
    }

    /** Copies both components of `other`, which itself is left as it was. */
    method Set(other: Vector2f)
      modifies this
      ensures x == old(other.x) && y == old(other.y)
      ensures other.x == old(other.x) && other.y == old(other.y)
    {
      x := other.x;
      y := other.y;
    }

    method SetXY(x: real, y: real)
      modifies this
      ensures this.x == x && this.y == y
    {
      this.x := x;
      this.y := y;
    }

    /**
     * The square of the Euclidean length. The length itself is its unique
     * non-negative square root (see MagnitudeIsUnique).
     */
    method MagnitudeSquared() returns (m2: real)
      ensures m2 >= 0.0
      ensures m2 == x * x + y * y
    {
      SquareNonNegative(x);
      SquareNonNegative(y);
      m2 := x * x + y * y;
    }
  }

  /** Whether `m` is a magnitude of (x, y): non-negative with m² = x² + y². */
  ghost predicate IsMagnitude(m: real, x: real, y: real)
  {
    m >= 0.0 && m * m == x * x + y * y
  }

  /** At most one value is the magnitude of a vector. */
  lemma MagnitudeIsUnique(m: real, n: real, x: real, y: real)
    requires IsMagnitude(m, x, y) && IsMagnitude(n, x, y)
    ensures m == n
  {
    if m < n {
      SquareStrictlyMonotone(m, n);
    } else if n < m {
      SquareStrictlyMonotone(n, m);
    }
  }

  lemma SquareNonNegative(a: real)
    ensures a * a >= 0.0
  {
    if a < 0.0 {
      assert a * a == (-a) * (-a);
    }
  }

  lemma SquareStrictlyMonotone(a: real, b: real)
    requires 0.0 <= a < b
    ensures a * a < b * b
  {
    var aa, ab, bb := a * a, a * b, b * b;
    assert aa <= ab;
    assert ab < bb;
  }

  /** Subtracting what was added restores the vector. */
  method AddThenSubtract(v: Vector2f, dx: real, dy: real)
    modifies v
    ensures v.x == old(v.x) && v.y == old(v.y)
  {
    var _ := v.AddXY(dx, dy);
    var _ := v.SubtractXY(dx, dy);
  }
}
