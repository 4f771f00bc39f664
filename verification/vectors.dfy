/** Three-component real vectors: the small slice of a 3D vector library that the
    simulation uses (add, scale, squared length, squared distance). Floating point
    is idealised as `real`. */
module Vectors {

  datatype Vec3 = Vec3(x: real, y: real, z: real)

  const Zero: Vec3 := Vec3(0.0, 0.0, 0.0)

  function Add(a: Vec3, b: Vec3): (r: Vec3)
    ensures Horizontal(a) && Horizontal(b) ==> Horizontal(r)
  {
    Vec3(a.x + b.x, a.y + b.y, a.z + b.z)
  }

  function Scale(a: Vec3, k: real): (r: Vec3)
    ensures Horizontal(a) ==> Horizontal(r)
  {
    Vec3(a.x * k, a.y * k, a.z * k)
  }

  /** The squared Euclidean length; lengths are compared through their squares so
      that no square root is needed. */
  function LenSq(a: Vec3): (r: real)
    ensures r >= 0.0
  {
    Square(a.x); Square(a.y); Square(a.z);
    a.x * a.x + a.y * a.y + a.z * a.z
  }

  lemma Square(v: real)
    ensures v * v >= 0.0
    ensures v != 0.0 ==> v * v > 0.0
  {
    if v < 0.0 {
      assert v * v == (-v) * (-v);
      assert (-v) * (-v) > 0.0;
    } else if v > 0.0 {
      assert v * v > 0.0;
    } else {
      assert v == 0.0;
    }
  }

  function DistSq(a: Vec3, b: Vec3): (r: real)
    ensures r >= 0.0
  {
    LenSq(Add(a, Scale(b, -1.0)))
  }

  lemma ScaleDistributes(a: Vec3, b: Vec3, c: real)
    ensures Scale(Add(a, b), c) == Add(Scale(a, c), Scale(b, c))
  {
    assert (a.x + b.x) * c == a.x * c + b.x * c;
    assert (a.y + b.y) * c == a.y * c + b.y * c;
    assert (a.z + b.z) * c == a.z * c + b.z * c;
  }

  lemma ScaleTwice(a: Vec3, k: real, c: real)
    ensures Scale(a, k * c) == Scale(Scale(a, k), c)
  {
    assert a.x * (k * c) == (a.x * k) * c;
    assert a.y * (k * c) == (a.y * k) * c;
    assert a.z * (k * c) == (a.z * k) * c;
  }

  /** A vector with no vertical component, as the movement directions are. */
  predicate Horizontal(a: Vec3) {
    a.y == 0.0
  }
}
