/**
 * Vector and plane arithmetic of the visibility pipeline, over exact reals.
 * A plane is a normal and a distance; a point is in front of it when its
 * signed distance dot(n, p) + d is at least zero.
 */
module Geometry {

  datatype Vec3 = Vec3(x: real, y: real, z: real)

  /** A clip plane: normal and signed distance (the source's MathematicalPlane). */
  datatype Plane = Plane(normal: Vec3, distance: real)

  const Zero := Vec3(0.0, 0.0, 0.0)

  function Add(a: Vec3, b: Vec3): Vec3 { Vec3(a.x + b.x, a.y + b.y, a.z + b.z) }

  function Sub(a: Vec3, b: Vec3): Vec3 { Vec3(a.x - b.x, a.y - b.y, a.z - b.z) }

  function Scale(a: Vec3, s: real): Vec3 { Vec3(a.x * s, a.y * s, a.z * s) }

  function Dot(a: Vec3, b: Vec3): real { a.x * b.x + a.y * b.y + a.z * b.z }

  function Cross(a: Vec3, b: Vec3): Vec3
  {
    Vec3(a.y * b.z - a.z * b.y, a.z * b.x - a.x * b.z, a.x * b.y - a.y * b.x)
  }

  /** Linear interpolation a + t * (b - a), as math.lerp. */
  function Lerp(a: Vec3, b: Vec3, t: real): Vec3 { Add(a, Scale(Sub(b, a), t)) }

  /** GetPlaneSignedDistanceToPoint, and the inline dot(normal, p) + distance of the jobs. */
  function SignedDistance(pl: Plane, p: Vec3): real { Dot(pl.normal, p) + pl.distance }

  /** Points on the plane count as in front. */
  predicate InFront(pl: Plane, p: Vec3) { SignedDistance(pl, p) >= 0.0 }

  /** Interpolation parameter of a crossing edge, from the in-side distance to the out-side one. */
  function CrossingParameter(dIn: real, dOut: real): (t: real)
    requires dIn >= 0.0 > dOut
    ensures 0.0 <= t < 1.0
  {
    var den := dIn - dOut;
    assert den > 0.0;
    var t := dIn / den;
    assert t * den == dIn;
    t
  }

  /** The signed distance is affine along a segment. */
  lemma LerpSignedDistance(pl: Plane, a: Vec3, b: Vec3, t: real)
    ensures SignedDistance(pl, Lerp(a, b, t))
         == SignedDistance(pl, a) + t * (SignedDistance(pl, b) - SignedDistance(pl, a))
  {
    var n := pl.normal;
    calc {
      SignedDistance(pl, Lerp(a, b, t));
      n.x * (a.x + (b.x - a.x) * t) + n.y * (a.y + (b.y - a.y) * t) + n.z * (a.z + (b.z - a.z) * t) + pl.distance;
      { assert n.x * (a.x + (b.x - a.x) * t) == n.x * a.x + t * (n.x * b.x - n.x * a.x);
        assert n.y * (a.y + (b.y - a.y) * t) == n.y * a.y + t * (n.y * b.y - n.y * a.y);
        assert n.z * (a.z + (b.z - a.z) * t) == n.z * a.z + t * (n.z * b.z - n.z * a.z); }
      (n.x * a.x + n.y * a.y + n.z * a.z + pl.distance)
        + t * ((n.x * b.x + n.y * b.y + n.z * b.z) - (n.x * a.x + n.y * a.y + n.z * a.z));
    }
  }

  /** The point found at t = dIn / (dIn - dOut) lies exactly on the plane. */
  lemma CrossingPointOnPlane(pl: Plane, a: Vec3, b: Vec3)
    requires SignedDistance(pl, a) >= 0.0 > SignedDistance(pl, b)
    ensures SignedDistance(pl, Lerp(a, b, CrossingParameter(SignedDistance(pl, a), SignedDistance(pl, b)))) == 0.0
  {
    var dIn, dOut := SignedDistance(pl, a), SignedDistance(pl, b);
    var t := CrossingParameter(dIn, dOut);
    LerpSignedDistance(pl, a, b, t);
    assert t * (dIn - dOut) == dIn;
    assert t * (dOut - dIn) == -dIn;
  }

  /** A point between two points in front of a plane is in front of it. */
  lemma LerpKeepsFront(pl: Plane, a: Vec3, b: Vec3, t: real)
    requires InFront(pl, a) && InFront(pl, b) && 0.0 <= t <= 1.0
    ensures InFront(pl, Lerp(a, b, t))
  {
    LerpSignedDistance(pl, a, b, t);
    var da, db := SignedDistance(pl, a), SignedDistance(pl, b);
    assert da + t * (db - da) == (1.0 - t) * da + t * db;
    assert (1.0 - t) * da >= 0.0;
    assert t * db >= 0.0;
  }

  /** The cross product is orthogonal to both of its factors. */
  lemma CrossOrthogonal(a: Vec3, b: Vec3)
    ensures Dot(Cross(a, b), a) == 0.0 && Dot(Cross(a, b), b) == 0.0
  {
  }

  lemma DotScale(a: Vec3, s: real, b: Vec3)
    ensures Dot(Scale(a, s), b) == s * Dot(a, b)
  {
  }

  lemma DotSub(a: Vec3, b: Vec3, c: Vec3)
    ensures Dot(a, Sub(b, c)) == Dot(a, b) - Dot(a, c)
  {
  }
}
