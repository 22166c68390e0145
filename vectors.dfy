/** The small vector types of three.js that the viewer uses: Vector2 for
    profile points, Vector3 for positions, Box3 for bounding boxes. */
module Vectors {
  import opened Numbers

  datatype Point2 = Point2(x: real, y: real)

  datatype Vec3 = Vec3(x: real, y: real, z: real)

  /** An axis-aligned box, as Box3 stores it: its min and max corners. */
  datatype Box = Box(min: Vec3, max: Vec3)

  function Add(a: Vec3, b: Vec3): Vec3 {
    Vec3(a.x + b.x, a.y + b.y, a.z + b.z)
  }

  function Sub(a: Vec3, b: Vec3): Vec3 {
    Vec3(a.x - b.x, a.y - b.y, a.z - b.z)
  }

  function Scale(a: Vec3, k: real): Vec3 {
    Vec3(a.x * k, a.y * k, a.z * k)
  }

  /** Scaling twice is scaling by the product. */
  lemma ScaleTwice(v: Vec3, a: real, b: real)
    ensures Scale(Scale(v, a), b) == Scale(v, a * b)
  {
    assert v.x * a * b == v.x * (a * b);
    assert v.y * a * b == v.y * (a * b);
    assert v.z * a * b == v.z * (a * b);
  }

  /** Box3.getSize: the extent along each axis. */
  function Size(b: Box): Vec3 {
    Sub(b.max, b.min)
  }

  /** Box3.getCenter: the midpoint of the two corners. */
  function Center(b: Box): Vec3 {
    Scale(Add(b.min, b.max), 0.5)
  }

  /** The corners are ordered on every axis, as for the box of any non-empty geometry. */
  predicate WellFormed(b: Box) {
    b.min.x <= b.max.x && b.min.y <= b.max.y && b.min.z <= b.max.z
  }

  /** The largest dimension of a box: Math.max(size.x, size.y, size.z). */
  function MaxDim(b: Box): (r: real)
    ensures r >= Size(b).x && r >= Size(b).y && r >= Size(b).z
    ensures r == Size(b).x || r == Size(b).y || r == Size(b).z
    ensures WellFormed(b) ==> r >= 0.0
  {
    var s := Size(b);
    Max3(s.x, s.y, s.z)
  }
}
