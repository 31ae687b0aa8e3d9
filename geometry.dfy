/** Plain numeric helpers shared by the simulation: positions, JavaScript's
    Math.max/Math.min clamp, Math.floor, Math.abs and the distance test that
    the source writes with Math.sqrt. */
module Geometry {

  datatype Option<T> = None | Some(value: T)

  /** A THREE.Vector3 position, held as a value. */
  datatype Vec3 = Vec3(x: real, y: real, z: real)

  /** A draw of Math.random(): a number in [0, 1). */
  type Unit = r: real | 0.0 <= r < 1.0

  function Abs(x: real): (r: real)
    ensures r >= 0.0 && (r == x || r == -x)
  {
    if x < 0.0 then -x else x
  }

  function Min(a: real, b: real): (r: real)
    ensures r <= a && r <= b && (r == a || r == b)
  {
    if b < a then b else a
  }

  function Max(a: real, b: real): (r: real)
    ensures r >= a && r >= b && (r == a || r == b)
  {
    if b > a then b else a
  }

  /** Math.max(lo, Math.min(hi, v)), the clamp the source writes everywhere. */
  function Clamp(lo: real, hi: real, v: real): (r: real)
    ensures lo <= hi ==> lo <= r <= hi
    ensures lo <= v <= hi ==> r == v
    ensures v < lo ==> r == lo
    ensures lo <= hi && hi < v ==> r == hi
  {
    Max(lo, Min(hi, v))
  }

  /** Math.floor on a real. */
  function Floor(x: real): (r: int)
    ensures r as real <= x < r as real + 1.0
  {
    x.Floor
  }

  /** Squared distance in the ground plane (x and z; y is ignored). */
  function PlanarDistSq(a: Vec3, b: Vec3): (d: real)
    ensures d >= 0.0
  {
    (a.x - b.x) * (a.x - b.x) + (a.z - b.z) * (a.z - b.z)
  }

  /** Squared distance in space, as Vector3.distanceTo measures it. */
  function DistSq(a: Vec3, b: Vec3): (d: real)
    ensures d >= 0.0
    ensures a.y == b.y ==> d == PlanarDistSq(a, b)
  {
    (a.x - b.x) * (a.x - b.x) + (a.y - b.y) * (a.y - b.y) + (a.z - b.z) * (a.z - b.z)
  }

  /** `Math.sqrt(d2) < r`, stated without the square root: since a square
      root is never negative, it holds exactly when r is positive and
      d2 < r * r. */
  predicate WithinRadius(d2: real, r: real)
  {
    0.0 < r && d2 < r * r
  }

  /** The squared-threshold test agrees with the square-root test for
      every non-negative root `d` of `d2`. */
  lemma WithinRadiusIsSqrtTest(d: real, r: real)
    requires d >= 0.0
    ensures WithinRadius(d * d, r) <==> d < r
  {
    if 0.0 < r {
      var dd, dr, rr := d * d, d * r, r * r;
      if d < r {
        assert dd <= dr < rr;
      } else {
        assert dd >= dr >= rr;
      }
    }
  }
}
