/**
 * A 4x4 matrix of sixteen fields `mCR` (column C, row R). Its column-major
 * listing m00, m01, m02, m03, m10, ..., m33 puts field `mCR` at index 4C + R,
 * so the translation m30, m31, m32 sits at indices 12, 13, 14 and the
 * diagonal m00, m11, m22 at 0, 5, 10.
 */
module Matrices {

  /** Index of field `mCR` in the column-major listing. */
  function At(column: int, row: int): (i: int)
    requires 0 <= column < 4 && 0 <= row < 4
    ensures 0 <= i < 16
  {
    4 * column + row
  }

  /** The listing of the identity matrix. */
  function IdentityElements(): (e: seq<real>)
    ensures |e| == 16
    ensures forall c, r :: 0 <= c < 4 && 0 <= r < 4 ==> e[At(c, r)] == if c == r then 1.0 else 0.0
  {
    [1.0, 0.0, 0.0, 0.0,
     0.0, 1.0, 0.0, 0.0,
     0.0, 0.0, 1.0, 0.0,
     0.0, 0.0, 0.0, 1.0]
  }

  /** The diagonal coefficient that maps `lo` to -1 and `hi` to +1 on one axis. */
  function AxisScale(lo: real, hi: real): real
    requires hi != lo
  {
    2.0 / (hi - lo)
  }

  /** The translation that goes with `AxisScale` on the same axis. */
  function AxisOffset(lo: real, hi: real): real
    requires hi != lo
  {
    -(hi + lo) / (hi - lo)
  }

  /** The orthographic coefficients send each end of the axis range to the matching end of [-1, 1]. */
  lemma AxisMapsRangeToUnit(lo: real, hi: real)
    requires hi != lo
    ensures AxisScale(lo, hi) * lo + AxisOffset(lo, hi) == -1.0
    ensures AxisScale(lo, hi) * hi + AxisOffset(lo, hi) == 1.0
  {
    var d := hi - lo;
    calc {
      AxisScale(lo, hi) * lo + AxisOffset(lo, hi);
      (2.0 * lo) / d + (-(hi + lo)) / d;
      (2.0 * lo - (hi + lo)) / d;
      (-d) / d;
      -1.0;
    }
    calc {
      AxisScale(lo, hi) * hi + AxisOffset(lo, hi);
      (2.0 * hi) / d + (-(hi + lo)) / d;
      (2.0 * hi - (hi + lo)) / d;
      d / d;
      1.0;
    }
  }

  /** The fields `orthographic` writes: the three diagonal entries and the translation. */
  predicate OrthographicIndex(i: int)
  {
    i == 0 || i == 5 || i == 10 || i == 12 || i == 13 || i == 14
  }

  /** The listing after `orthographic(left, right, bottom, top, near, far)`. */
  function Projected(e: seq<real>, left: real, right: real, bottom: real, top: real, near: real, far: real): (r: seq<real>)
    requires |e| == 16 && right != left && top != bottom && far != near
    ensures |r| == 16
    ensures forall i :: 0 <= i < 16 && !OrthographicIndex(i) ==> r[i] == e[i]
    ensures r[0] == AxisScale(left, right) && r[12] == AxisOffset(left, right)
    ensures r[5] == AxisScale(bottom, top) && r[13] == AxisOffset(bottom, top)
    ensures r[10] == AxisScale(near, far) && r[14] == AxisOffset(near, far)
  {
    e[0 := AxisScale(left, right)][5 := AxisScale(bottom, top)][10 := AxisScale(near, far)]
     [12 := AxisOffset(left, right)][13 := AxisOffset(bottom, top)][14 := AxisOffset(near, far)]
  }

  /** Whether `i` is a diagonal entry touched by the scale operations (m00, m11, m22). */
  predicate ScaleIndex(i: int)
  {
    i == 0 || i == 5 || i == 10
  }

  /** Whether `i` is a translation entry (m30, m31, m32). */
  predicate PositionIndex(i: int)
  {
    i == 12 || i == 13 || i == 14
  }

  /** The listing after `scale(x, y, z)`. */
  function Scaled(e: seq<real>, x: real, y: real, z: real): (r: seq<real>)
    requires |e| == 16
    ensures |r| == 16
    ensures forall i :: 0 <= i < 16 && !ScaleIndex(i) ==> r[i] == e[i]
    ensures r[0] == e[0] * x && r[5] == e[5] * y && r[10] == e[10] * z
  {
    e[0 := e[0] * x][5 := e[5] * y][10 := e[10] * z]
  }

  /** The listing after `increaseScale(x)`. */
  function ScaleIncreased(e: seq<real>, x: real): (r: seq<real>)
    requires |e| == 16
    ensures |r| == 16
    ensures forall i :: 0 <= i < 16 && !ScaleIndex(i) ==> r[i] == e[i]
    ensures r[0] == e[0] + x && r[5] == e[5] + x && r[10] == e[10] + x
  {
    e[0 := e[0] + x][5 := e[5] + x][10 := e[10] + x]
  }

  /** The listing after `setScale(x, y, z)`. */
  function WithScale(e: seq<real>, x: real, y: real, z: real): (r: seq<real>)
    requires |e| == 16
    ensures |r| == 16
    ensures forall i :: 0 <= i < 16 && !ScaleIndex(i) ==> r[i] == e[i]
    ensures r[0] == x && r[5] == y && r[10] == z
  {
    e[0 := x][5 := y][10 := z]
  }

  /** The listing after `translate(x, y, z)`. */
  function Translated(e: seq<real>, x: real, y: real, z: real): (r: seq<real>)
    requires |e| == 16
    ensures |r| == 16
    ensures forall i :: 0 <= i < 16 && !PositionIndex(i) ==> r[i] == e[i]
    ensures r[12] == e[12] + x && r[13] == e[13] + y && r[14] == e[14] + z
  {
    e[12 := e[12] + x][13 := e[13] + y][14 := e[14] + z]
  }

  /** The listing after `setPosition(x, y, z)`. */
  function WithPosition(e: seq<real>, x: real, y: real, z: real): (r: seq<real>)
    requires |e| == 16
    ensures |r| == 16
    ensures forall i :: 0 <= i < 16 && !PositionIndex(i) ==> r[i] == e[i]
    ensures r[12] == x && r[13] == y && r[14] == z
  {
    e[12 := x][13 := y][14 := z]
  }

  /** The image of the point (x, y, z, 1) under the matrix with listing `e`. */
  function Transform(e: seq<real>, x: real, y: real, z: real): (real, real, real, real)
    requires |e| == 16
  {
    (e[0] * x + e[4] * y + e[8] * z + e[12],
     e[1] * x + e[5] * y + e[9] * z + e[13],
     e[2] * x + e[6] * y + e[10] * z + e[14],
     e[3] * x + e[7] * y + e[11] * z + e[15])
  }

  /** A matrix with only the diagonal and translation filled in acts on each axis separately. */
  lemma AxisAlignedTransform(e: seq<real>, x: real, y: real, z: real)
    requires |e| == 16
    requires e[1] == 0.0 && e[2] == 0.0 && e[3] == 0.0 && e[4] == 0.0 && e[6] == 0.0 && e[7] == 0.0
    requires e[8] == 0.0 && e[9] == 0.0 && e[11] == 0.0 && e[15] == 1.0
    ensures Transform(e, x, y, z) == (e[0] * x + e[12], e[5] * y + e[13], e[10] * z + e[14], 1.0)
  {
    assert e[4] * y == 0.0 && e[8] * z == 0.0;
    assert e[1] * x == 0.0 && e[9] * z == 0.0;
    assert e[2] * x == 0.0 && e[6] * y == 0.0;
    assert e[3] * x == 0.0 && e[7] * y == 0.0 && e[11] * z == 0.0;
  }

  /**
   * An orthographic projection set up on the identity matrix sends the
   * (left, bottom, near) corner of the box to (-1, -1, -1) and the
   * (right, top, far) corner to (1, 1, 1).
   */
  lemma ProjectionMapsBoxToCube(left: real, right: real, bottom: real, top: real, near: real, far: real)
    requires right != left && top != bottom && far != near
    ensures Transform(Projected(IdentityElements(), left, right, bottom, top, near, far), left, bottom, near) == (-1.0, -1.0, -1.0, 1.0)
    ensures Transform(Projected(IdentityElements(), left, right, bottom, top, near, far), right, top, far) == (1.0, 1.0, 1.0, 1.0)
  {
    var p := Projected(IdentityElements(), left, right, bottom, top, near, far);
    assert p[1] == 0.0 && p[2] == 0.0 && p[3] == 0.0 && p[4] == 0.0 && p[6] == 0.0 && p[7] == 0.0;
    assert p[8] == 0.0 && p[9] == 0.0 && p[11] == 0.0 && p[15] == 1.0;
    AxisMapsRangeToUnit(left, right);
    AxisMapsRangeToUnit(bottom, top);
    AxisMapsRangeToUnit(near, far);
    AxisAlignedTransform(p, left, bottom, near);
    AxisAlignedTransform(p, right, top, far);
    assert p[0] * left + p[12] == -1.0 && p[0] * right + p[12] == 1.0;
    assert p[5] * bottom + p[13] == -1.0 && p[5] * top + p[13] == 1.0;
    assert p[10] * near + p[14] == -1.0 && p[10] * far + p[14] == 1.0;
  }

  /** Two scalings compose by multiplying their factors. */
  lemma {:induction false} ScalingsCompose(e: seq<real>, a: real, b: real, c: real, x: real, y: real, z: real)
    requires |e| == 16
    ensures Scaled(Scaled(e, a, b, c), x, y, z) == Scaled(e, a * x, b * y, c * z)
  {
    var lhs := Scaled(Scaled(e, a, b, c), x, y, z);
    var rhs := Scaled(e, a * x, b * y, c * z);
    assert lhs[0] == e[0] * (a * x);
    assert lhs[5] == e[5] * (b * y);
    assert lhs[10] == e[10] * (c * z);
    assert forall i :: 0 <= i < 16 ==> lhs[i] == rhs[i];
  }

  /** Two translations compose by adding their offsets, so a translation is undone by its negation. */
  lemma TranslationsCompose(e: seq<real>, a: real, b: real, c: real, x: real, y: real, z: real)
    requires |e| == 16
    ensures Translated(Translated(e, a, b, c), x, y, z) == Translated(e, a + x, b + y, c + z)
    ensures Translated(Translated(e, x, y, z), -x, -y, -z) == e
  {
  }

  /** `setPosition` discards any earlier translation; `setScale` discards any earlier scaling. */
  lemma SettersOverride(e: seq<real>, a: real, b: real, c: real, x: real, y: real, z: real)
    requires |e| == 16
    ensures WithPosition(Translated(e, a, b, c), x, y, z) == WithPosition(e, x, y, z)
    ensures WithScale(Scaled(e, a, b, c), x, y, z) == WithScale(e, x, y, z)
    ensures WithScale(ScaleIncreased(e, a), x, y, z) == WithScale(e, x, y, z)
  {
  }

  /** Scale and translation touch disjoint fields, so their order does not matter. */
  lemma ScaleAndTranslateCommute(e: seq<real>, a: real, b: real, c: real, x: real, y: real, z: real)
    requires |e| == 16
    ensures Translated(Scaled(e, a, b, c), x, y, z) == Scaled(Translated(e, x, y, z), a, b, c)
  {
    var lhs := Translated(Scaled(e, a, b, c), x, y, z);
    var rhs := Scaled(Translated(e, x, y, z), a, b, c);
    assert forall i :: 0 <= i < 16 ==> lhs[i] == rhs[i];
  }

  class Matrix4f {
    var m00: real
    var m01: real
    var m02: real
    var m03: real
    var m10: real
    var m11: real
    var m12: real
    var m13: real
    var m20: real
    var m21: real
    var m22: real
    var m23: real
    var m30: real
    var m31: real
    var m32: real
    var m33: real

    /** The sixteen fields in column-major order. */
    function Elements(): (e: seq<real>)
      reads this
      ensures |e| == 16
    {
      [m00, m01, m02, m03, m10, m11, m12, m13, m20, m21, m22, m23, m30, m31, m32, m33]
    }

    /** The constructor taking all sixteen values, in column-major order. */
    constructor FromElements(m00: real, m01: real, m02: real, m03: real, m10: real,
                             m11: real, m12: real, m13: real, m20: real, m21: real, m22: real,
                             m23: real, m30: real, m31: real, m32: real, m33: real)
      ensures Elements() == [m00, m01, m02, m03, m10, m11, m12, m13, m20, m21, m22, m23, m30, m31, m32, m33]
    {
      this.m00, this.m01, this.m02, this.m03 := m00, m01, m02, m03;
      this.m10, this.m11, this.m12, this.m13 := m10, m11, m12, m13;
      this.m20, this.m21, this.m22, this.m23 := m20, m21, m22, m23;
      this.m30, this.m31, this.m32, this.m33 := m30, m31, m32, m33;
    }

    /** The no-argument constructor: the identity matrix. */
    constructor ()
      ensures Elements() == IdentityElements()
    {
      m00, m01, m02, m03 := 1.0, 0.0, 0.0, 0.0;
      m10, m11, m12, m13 := 0.0, 1.0, 0.0, 0.0;
      m20, m21, m22, m23 := 0.0, 0.0, 1.0, 0.0;
      m30, m31, m32, m33 := 0.0, 0.0, 0.0, 1.0;
    }

    /** Overwrites the diagonal and translation with an orthographic projection; returns this matrix. */
    method Orthographic(left: real, right: real, bottom: real, top: real, near: real, far: real) returns (self: Matrix4f)
      requires right != left && top != bottom && far != near
      modifies this
      ensures self == this
      ensures Elements() == Projected(old(Elements()), left, right, bottom, top, near, far)
    {
      m00 := 2.0 / (right - left);
      m11 := 2.0 / (top - bottom);
      m22 := 2.0 / (far - near);
      m30 := -(right + left) / (right - left);
      m31 := -(top + bottom) / (top - bottom);
      m32 := -(far + near) / (far - near);
      self := this;
    }

    method Scale(x: real, y: real, z: real) returns (self: Matrix4f)
      modifies this
      ensures self == this
      ensures Elements() == Scaled(old(Elements()), x, y, z)
    {
      ghost var before := Elements();
      m00 := m00 * x;
      m11 := m11 * y;
      m22 := m22 * z;
      assert Elements()[0] == before[0] * x && Elements()[5] == before[5] * y && Elements()[10] == before[10] * z;
      assert forall i :: 0 <= i < 16 ==> Elements()[i] == Scaled(before, x, y, z)[i];
      self := this;
    }

    /** The one-factor overload: the same as `Scale(scalar, scalar, scalar)`. */
    method ScaleUniform(scalar: real) returns (self: Matrix4f)
      modifies this
      ensures self == this
      ensures Elements() == Scaled(old(Elements()), scalar, scalar, scalar)
    {
      ghost var before := Elements();
      m00 := m00 * scalar;
      m11 := m11 * scalar;
      m22 := m22 * scalar;
      assert Elements()[0] == before[0] * scalar && Elements()[5] == before[5] * scalar && Elements()[10] == before[10] * scalar;
      assert forall i :: 0 <= i < 16 ==> Elements()[i] == Scaled(before, scalar, scalar, scalar)[i];
      self := this;
    }

    method IncreaseScale(x: real) returns (self: Matrix4f)
      modifies this
      ensures self == this
      ensures Elements() == ScaleIncreased(old(Elements()), x)
    {
      m00 := m00 + x;
      m11 := m11 + x;
      m22 := m22 + x;
      self := this;
    }

    method SetScale(x: real, y: real, z: real) returns (self: Matrix4f)
      modifies this
      ensures self == this
      ensures Elements() == WithScale(old(Elements()), x, y, z)
    {
      m00 := x;
      m11 := y;
      m22 := z;
      self := this;
    }

    method Translate(x: real, y: real, z: real) returns (self: Matrix4f)
      modifies this
      ensures self == this
      ensures Elements() == Translated(old(Elements()), x, y, z)
    {
      m30 := m30 + x;
      m31 := m31 + y;
      m32 := m32 + z;
      self := this;
    }

    method SetPosition(x: real, y: real, z: real) returns (self: Matrix4f)
      modifies this
      ensures self == this
      ensures Elements() == WithPosition(old(Elements()), x, y, z)
    {
      m30 := x;
      m31 := y;
      m32 := z;
      self := this;
    }

    method GetXPosition() returns (r: real)
      ensures r == Elements()[12]
    {
      r := m30;
    }

    method GetYPosition() returns (r: real)
      ensures r == Elements()[13]
    {
      r := m31;
    }

    method GetZPosition() returns (r: real)
      ensures r == Elements()[14]
    {
      r := m32;
    }

    /** Copies all sixteen fields of `other` (which may be this matrix itself). */
    method Set(other: Matrix4f)
      modifies this
      ensures Elements() == old(other.Elements())
      ensures other.Elements() == old(other.Elements())
    {
      var e := other.Elements();
      m00, m01, m02, m03 := e[0], e[1], e[2], e[3];
      m10, m11, m12, m13 := e[4], e[5], e[6], e[7];
      m20, m21, m22, m23 := e[8], e[9], e[10], e[11];
      m30, m31, m32, m33 := e[12], e[13], e[14], e[15];
    }

    /** A new array holding the sixteen fields in column-major order. */
    method ToFloatArray() returns (a: array<real>)
      ensures fresh(a)
      ensures a.Length == 16
      ensures forall c, r :: 0 <= c < 4 && 0 <= r < 4 ==> a[At(c, r)] == Elements()[At(c, r)]
      ensures a[..] == Elements()
    {
      a := new real[16] [m00, m01, m02, m03, m10, m11, m12, m13, m20, m21, m22, m23, m30, m31, m32, m33];
    }
  }

  /** Translating by an offset and then by its negation leaves a matrix as it was. */
  method TranslateThenBack(m: Matrix4f, x: real, y: real, z: real)
    modifies m
    ensures m.Elements() == old(m.Elements())
  {
    var _ := m.Translate(x, y, z);
    var _ := m.Translate(-x, -y, -z);
    TranslationsCompose(old(m.Elements()), x, y, z, -x, -y, -z);
  }
}
