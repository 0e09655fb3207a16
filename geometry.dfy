/** Small stock Option type, used for a wall's not-yet-computed bounding box
    and for the index of the first wall hit. */
module Wrappers {
  datatype Option<T> = None | Some(value: T)
}

/** The part of the graphics library's vector and box arithmetic that the
    movement core relies on: Vector3 addition, subtraction, scaling and cross
    product, and the axis-aligned Box3 with setFromCenterAndSize and
    intersectsBox. Coordinates are exact reals. */
module Geometry {

  datatype Vec3 = Vec3(x: real, y: real, z: real)

  function Add(a: Vec3, b: Vec3): Vec3 {
    Vec3(a.x + b.x, a.y + b.y, a.z + b.z)
  }

  function Sub(a: Vec3, b: Vec3): Vec3 {
    Vec3(a.x - b.x, a.y - b.y, a.z - b.z)
  }

  function Scale(a: Vec3, s: real): Vec3 {
    Vec3(a.x * s, a.y * s, a.z * s)
  }

  /** Vector3.crossVectors(a, b). */
  function Cross(a: Vec3, b: Vec3): Vec3 {
    Vec3(a.y * b.z - a.z * b.y, a.z * b.x - a.x * b.z, a.x * b.y - a.y * b.x)
  }

  function Dot(a: Vec3, b: Vec3): real {
    a.x * b.x + a.y * b.y + a.z * b.z
  }

  /** The squared Euclidean length of a vector. */
  function NormSquared(a: Vec3): real {
    Dot(a, a)
  }

  /** An axis-aligned box given by its minimum and maximum corners (Box3). */
  datatype Box = Box(min: Vec3, max: Vec3)

  /** A box is non-empty when its minimum corner is below its maximum corner on every axis. */
  predicate NonEmpty(b: Box) {
    b.min.x <= b.max.x && b.min.y <= b.max.y && b.min.z <= b.max.z
  }

  /** Box3.containsPoint: the closed box contains p. */
  predicate ContainsPoint(b: Box, p: Vec3) {
    b.min.x <= p.x <= b.max.x && b.min.y <= p.y <= b.max.y && b.min.z <= p.z <= b.max.z
  }

  /** Box3.setFromCenterAndSize: the box of extent `size` whose centre is `center`. */
  function FromCenterAndSize(center: Vec3, size: Vec3): (b: Box)
    ensures Sub(b.max, b.min) == size
    ensures Scale(Add(b.min, b.max), 0.5) == center
  {
    var half := Scale(size, 0.5);
    Box(Sub(center, half), Add(center, half))
  }

  /** The closed intervals [lo1, hi1] and [lo2, hi2] share a point. */
  predicate Overlaps(lo1: real, hi1: real, lo2: real, hi2: real) {
    lo1 <= hi2 && lo2 <= hi1
  }

  /** Box3.intersectsBox: the boxes are not separated along any of the six
      splitting planes. Boxes that only touch count as intersecting,
      so on each axis the closed extents overlap. */
  function Intersects(a: Box, b: Box): (r: bool)
    ensures r <==> Overlaps(a.min.x, a.max.x, b.min.x, b.max.x) &&
                   Overlaps(a.min.y, a.max.y, b.min.y, b.max.y) &&
                   Overlaps(a.min.z, a.max.z, b.min.z, b.max.z)
  {
    !(b.max.x < a.min.x || b.min.x > a.max.x ||
      b.max.y < a.min.y || b.min.y > a.max.y ||
      b.max.z < a.min.z || b.min.z > a.max.z)
  }

  /** Whichever box asks, the answer is the same. */
  lemma IntersectsSymmetric(a: Box, b: Box)
    ensures Intersects(a, b) <==> Intersects(b, a)
  {
  }

  /** The separating-plane test agrees with its geometric meaning: two
      non-empty boxes intersect exactly when some point lies in both. */
  lemma IntersectsIffCommonPoint(a: Box, b: Box)
    requires NonEmpty(a) && NonEmpty(b)
    ensures Intersects(a, b) <==> exists p :: ContainsPoint(a, p) && ContainsPoint(b, p)
  {
    if Intersects(a, b) {
      var p := Vec3(Max(a.min.x, b.min.x), Max(a.min.y, b.min.y), Max(a.min.z, b.min.z));
      assert ContainsPoint(a, p) && ContainsPoint(b, p);
    }
  }

  function Max(u: real, v: real): real {
    if u < v then v else u
  }

  /** A box built from a centre and a non-negative size contains its centre. */
  lemma CenteredBoxContainsCenter(center: Vec3, size: Vec3)
    requires size.x >= 0.0 && size.y >= 0.0 && size.z >= 0.0
    ensures NonEmpty(FromCenterAndSize(center, size))
    ensures ContainsPoint(FromCenterAndSize(center, size), center)
  {
  }
}
