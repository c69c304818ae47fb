/** Three-dimensional vectors over the reals, as used by the annotators for
    point positions, surface normals and pose axes. Single-precision floating
    point is modelled by `real`; NaN is handled by explicit validity flags
    where the annotators care about it. */
module Geometry {

  datatype Vec3 = Vec3(x: real, y: real, z: real)

  const Zero: Vec3 := Vec3(0.0, 0.0, 0.0)

  function Add(a: Vec3, b: Vec3): Vec3
  {
    Vec3(a.x + b.x, a.y + b.y, a.z + b.z)
  }

  function Sub(a: Vec3, b: Vec3): Vec3
  {
    Vec3(a.x - b.x, a.y - b.y, a.z - b.z)
  }

  function Scale(k: real, a: Vec3): Vec3
  {
    Vec3(k * a.x, k * a.y, k * a.z)
  }

  function Dot(a: Vec3, b: Vec3): real
  {
    a.x * b.x + a.y * b.y + a.z * b.z
  }

  /** The cross product, as tf::Vector3::cross computes it. */
  function Cross(a: Vec3, b: Vec3): Vec3
  {
    Vec3(a.y * b.z - a.z * b.y,
         a.z * b.x - a.x * b.z,
         a.x * b.y - a.y * b.x)
  }

  /** Squared Euclidean distance; the square root is monotone, so comparing
      squared distances orders pairs exactly as the annotators' distances do. */
  function SqDist(a: Vec3, b: Vec3): real
  {
    Dot(Sub(a, b), Sub(a, b))
  }

  /** The sum x + y + z by which the knife annotator labels its endpoints. */
  function CoordSum(a: Vec3): real
  {
    a.x + a.y + a.z
  }

  /** A point is at squared distance zero from itself. */
  lemma SqDistSelf(a: Vec3)
    ensures SqDist(a, a) == 0.0
  {
  }

  /** The correction z := x × y, then y' := z × x yields a frame whose three
      vectors are pairwise orthogonal, and z is also orthogonal to the raw
      secondary axis y. */
  lemma CorrectedFrameOrthogonal(x: Vec3, y: Vec3)
    ensures Dot(Cross(x, y), x) == 0.0
    ensures Dot(Cross(x, y), y) == 0.0
    ensures Dot(Cross(Cross(x, y), x), x) == 0.0
    ensures Dot(Cross(Cross(x, y), x), Cross(x, y)) == 0.0
  {
  }

  /** If the primary axis is zero, the correction yields zero vectors for
      both z and the corrected y, whatever the secondary axis is. */
  lemma ZeroPrimaryDegenerates(y: Vec3)
    ensures Cross(Zero, y) == Zero
    ensures Cross(Cross(Zero, y), Zero) == Zero
  {
  }

  /** If the secondary axis is zero or parallel to the primary one, the
      correction yields zero vectors for both z and the corrected y. */
  lemma ParallelFrameDegenerates(x: Vec3, k: real)
    ensures Cross(x, Scale(k, x)) == Zero
    ensures Cross(Cross(x, Scale(k, x)), x) == Zero
  {
  }
}
