/**
 * Positions and poses. The engine's vector and quaternion arithmetic is not
 * modelled: a rotation is an opaque value, and a distance test is a comparison
 * of squared distances, which agrees with `Vector3.Distance(a, b) < min`
 * without taking a square root.
 */
module Geometry {

  datatype Pos = Pos(x: real, y: real, z: real)

  const Origin := Pos(0.0, 0.0, 0.0)

  /** A rotation, kept as the four components of a quaternion and never computed with. */
  datatype Rot = Rot(w: real, x: real, y: real, z: real)

  const Identity := Rot(1.0, 0.0, 0.0, 0.0)

  /** A world position together with an orientation (a transform's position and rotation). */
  datatype Pose = Pose(position: Pos, rotation: Rot)

  function SqDist(a: Pos, b: Pos): real {
    (a.x - b.x) * (a.x - b.x) + (a.y - b.y) * (a.y - b.y) + (a.z - b.z) * (a.z - b.z)
  }

  /** `Vector3.Distance(a, b) < min`: a distance is never negative, so nothing is closer than a non-positive bound. */
  predicate Closer(a: Pos, b: Pos, min: real) {
    0.0 < min && SqDist(a, b) < min * min
  }

  /** Some entry of `existing` lies closer to `p` than `min`. */
  predicate TooClose(p: Pos, existing: seq<Pos>, min: real) {
    exists i :: 0 <= i < |existing| && Closer(p, existing[i], min)
  }

  /** Every position is at least `min` away from every position before it. */
  predicate Spaced(ps: seq<Pos>, min: real) {
    forall i, j :: 0 <= i < j < |ps| ==> !Closer(ps[j], ps[i], min)
  }

  function Sub(a: Pos, b: Pos): Pos {
    Pos(a.x - b.x, a.y - b.y, a.z - b.z)
  }

  function Dot(a: Pos, b: Pos): real {
    a.x * b.x + a.y * b.y + a.z * b.z
  }
}
