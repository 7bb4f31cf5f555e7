/**
 * The 2D vector primitives of the add-in (struct V2 and its inline helpers).
 * Coordinates are reals; `std::sqrt` is the host's and is passed in as a
 * function that is only known to return the non-negative square root.
 */
module Vectors {

  /** A point or a direction in sketch space. */
  datatype V2 = V2(x: real, y: real)

  function Add(a: V2, b: V2): V2 { V2(a.x + b.x, a.y + b.y) }

  function Sub(a: V2, b: V2): V2 { V2(a.x - b.x, a.y - b.y) }

  function Scale(a: V2, s: real): V2 { V2(a.x * s, a.y * s) }

  function Dot(a: V2, b: V2): real { a.x * b.x + a.y * b.y }

  /** Rotation by 90 degrees counter-clockwise, `vperp_ccw`. */
  function PerpCcw(a: V2): V2
  {
    V2(-a.y, a.x)
  }

  /** The cross product of two vectors: positive when the second lies counter-clockwise of the first. */
  function Cross(a: V2, b: V2): real
  {
    a.x * b.y - a.y * b.x
  }

  /**
   * The normal is orthogonal to its argument, as long, and the counter-clockwise
   * one: the turn from a to it is a . a, positive unless a is zero.
   */
  lemma PerpCcwNormal(a: V2)
    ensures Dot(PerpCcw(a), a) == 0.0
    ensures Dot(PerpCcw(a), PerpCcw(a)) == Dot(a, a)
    ensures Cross(a, PerpCcw(a)) == Dot(a, a)
    ensures a != V2(0.0, 0.0) ==> Cross(a, PerpCcw(a)) > 0.0
  {
    var r := PerpCcw(a);
    assert a.x * r.y == a.x * a.x;
    assert a.y * r.x == -(a.y * a.y);
    if a != V2(0.0, 0.0) {
      assert a.x * a.x > 0.0 || a.y * a.y > 0.0;
    }
  }

  /** `sqrt` (the C library's `std::sqrt`) returns the non-negative square root of `t`. */
  ghost predicate SqrtExactAt(sqrt: real -> real, t: real)
  {
    0.0 <= sqrt(t) && sqrt(t) * sqrt(t) == t
  }

  /** Euclidean length, `vlen`: the host's square root of the vector's dot product with itself. */
  function Len(a: V2, sqrt: real -> real): real
  {
    sqrt(Dot(a, a))
  }

  /** Dot is linear in a scaled first argument. */
  lemma DotScaleLeft(a: V2, s: real, b: V2)
    ensures Dot(Scale(a, s), b) == s * Dot(a, b)
  {
    assert a.x * s * b.x == s * (a.x * b.x);
    assert a.y * s * b.y == s * (a.y * b.y);
  }

  /** The squared length of a scaled vector. */
  lemma DotScaleBoth(a: V2, s: real)
    ensures Dot(Scale(a, s), Scale(a, s)) == s * s * Dot(a, a)
  {
    assert a.x * s * (a.x * s) == s * s * (a.x * a.x);
    assert a.y * s * (a.y * s) == s * s * (a.y * a.y);
  }

  /** Non-negative square roots are unique, so an exact `sqrt` is determined where it is exact. */
  lemma RootUnique(r1: real, r2: real)
    requires 0.0 <= r1 && 0.0 <= r2 && r1 * r1 == r2 * r2
    ensures r1 == r2
  {
    if r1 < r2 {
      SquareMonotone(r1, r2);
    } else if r2 < r1 {
      SquareMonotone(r2, r1);
    }
  }

  /** For non-negative reals, comparing squares compares the numbers. */
  lemma SquareBelow(a: real, b: real)
    requires 0.0 <= a && 0.0 <= b
    ensures a <= b <==> a * a <= b * b
  {
    if a <= b {
      if a < b {
        SquareMonotone(a, b);
      }
    } else {
      SquareMonotone(b, a);
    }
  }

  lemma SquareMonotone(a: real, b: real)
    requires 0.0 <= a < b
    ensures a * a < b * b
  {
    var p, q, s := a * a, a * b, b * b;
    assert p <= q < s;
  }
}
