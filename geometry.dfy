/**
  The engine's vector type, with exact real arithmetic for the operations that
  are polynomial (difference, sum, scaling, dot and cross products, squared
  magnitude). Euclidean distance and the angle between two vectors need a
  square root and an arc cosine; they are supplied as a `Metric`.
*/
module Geometry {

  datatype Vector3 = Vector3(x: real, y: real, z: real)

  const Up := Vector3(0.0, 1.0, 0.0)

  function Add(a: Vector3, b: Vector3): Vector3 {
    Vector3(a.x + b.x, a.y + b.y, a.z + b.z)
  }

  function Sub(a: Vector3, b: Vector3): Vector3 {
    Vector3(a.x - b.x, a.y - b.y, a.z - b.z)
  }

  function Scale(t: real, a: Vector3): Vector3 {
    Vector3(t * a.x, t * a.y, t * a.z)
  }

  function Dot(a: Vector3, b: Vector3): real {
    a.x * b.x + a.y * b.y + a.z * b.z
  }

  function SqrMagnitude(a: Vector3): real {
    Dot(a, a)
  }

  /** Right-handed cross product, as the engine computes it. */
  function Cross(a: Vector3, b: Vector3): Vector3 {
    Vector3(a.y * b.z - a.z * b.y, a.z * b.x - a.x * b.z, a.x * b.y - a.y * b.x)
  }

  /** The vector with its vertical component zeroed (projection onto the floor plane). */
  function Flatten(a: Vector3): Vector3 {
    Vector3(a.x, 0.0, a.z)
  }

  /** The point `start + t * (end - start)`. */
  function PointAt(start: Vector3, end: Vector3, t: real): Vector3 {
    Add(start, Scale(t, Sub(end, start)))
  }

  /**
    The engine's `Vector3.Distance` and `Vector3.Angle` (in degrees), left
    uninterpreted. `Valid` states what every caller may rely on.
  */
  datatype Metric = Metric(distance: (Vector3, Vector3) -> real, angle: (Vector3, Vector3) -> real) {
    ghost predicate Valid() {
      && (forall a, b :: distance(a, b) >= 0.0)
      && (forall a, b :: distance(a, b) == distance(b, a))
      && (forall a :: distance(a, a) == 0.0)
      && (forall a, b :: 0.0 <= angle(a, b) <= 180.0)
    }
  }
}
