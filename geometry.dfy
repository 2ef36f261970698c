/**
 * The value types of the camera header: a point, a vector with its dot product
 * and in-place normalisation, and the degree-to-radian factor.
 *
 * Doubles are modelled as exact reals. The square root that `normalize` takes
 * is supplied by the caller as `root`, a positive real whose square is the
 * squared norm.
 */
module Geometry {

  /** Degrees to radians, as the header defines it (every rotation angle is multiplied by it). */
  const RADS: real := 0.0174532925

  /** The angle in radians that a rotation of `d` degrees turns by. */
  function Theta(d: real): real
  {
    d * RADS
  }

  /** A half turn is pi to within 1e-8, a full turn 2 pi to within 2e-8, and the factor is odd. */
  lemma ThetaIsDegreesToRadians(d: real)
    ensures -0.00000001 < Theta(180.0) - 3.14159265358979 < 0.00000001
    ensures -0.00000002 < Theta(360.0) - 6.28318530717959 < 0.00000002
    ensures Theta(-d) == -Theta(d)
  {
  }

  /** A position in world space. */
  datatype Point3D = Point3D(x: real, y: real, z: real)

  /**
   * A direction or displacement. `length` is a cache that only `Normalize`
   * writes; a vector built from three components has it at 0.
   */
  datatype Vector3D = Vector3D(x: real, y: real, z: real, length: real)
  {
    /** The dot product, computed as the argument's components times this vector's. */
    function Dot(a: Vector3D): real
    {
      a.x * x + a.y * y + a.z * z
    }

    function SquaredNorm(): real
    {
      x * x + y * y + z * z
    }
  }

  /** The vector from the world origin to `p`, as the view matrix builds it. */
  function FromOrigin(p: Point3D): Vector3D
  {
    Vector3D(p.x, p.y, p.z, 0.0)
  }

  lemma DotSymmetric(a: Vector3D, b: Vector3D)
    ensures a.Dot(b) == b.Dot(a)
  {
  }

  /** A vector dotted with itself is its squared norm, hence never negative. */
  lemma DotSelf(a: Vector3D)
    ensures a.Dot(a) == a.SquaredNorm()
    ensures a.Dot(a) >= 0.0
  {
    assert a.x * a.x >= 0.0 && a.y * a.y >= 0.0 && a.z * a.z >= 0.0;
  }

  /**
   * Normalises a copy of `v` in place, step by step as the header does: store
   * the length, divide each component by it, then set the length to 1.
   * `root` stands for sqrt(x*x + y*y + z*z); `normalize` divides without a
   * guard, so a zero vector is outside its domain.
   */
  method Normalize(v: Vector3D, root: real) returns (w: Vector3D)
    requires root > 0.0 && root * root == v.SquaredNorm()
    ensures w.length == 1.0
    ensures w.SquaredNorm() == 1.0
    ensures w.x * root == v.x && w.y * root == v.y && w.z * root == v.z
    ensures v.SquaredNorm() == 1.0 ==> w.x == v.x && w.y == v.y && w.z == v.z
  {
    w := v.(length := root);
    w := w.(x := w.x / w.length);
    w := w.(y := w.y / w.length);
    w := w.(z := w.z / w.length);
    w := w.(length := 1.0);
    ScaledNorm(v, w, root);
    if v.SquaredNorm() == 1.0 {
      UnitRoot(root);
    }
  }

  /** Dividing every component by `root` divides the squared norm by root squared. */
  lemma ScaledNorm(v: Vector3D, w: Vector3D, root: real)
    requires root > 0.0 && root * root == v.SquaredNorm()
    requires w.x * root == v.x && w.y * root == v.y && w.z * root == v.z
    ensures w.SquaredNorm() == 1.0
  {
    calc {
      (root * root) * 1.0;
      v.SquaredNorm();
      (w.x * root) * (w.x * root) + (w.y * root) * (w.y * root) + (w.z * root) * (w.z * root);
      (root * root) * w.SquaredNorm();
    }
    CancelSquare(root, w.SquaredNorm(), 1.0);
  }

  /** A factor r * r with r positive can be cancelled. */
  lemma CancelSquare(r: real, b: real, c: real)
    requires r > 0.0
    requires (r * r) * b == (r * r) * c
    ensures b == c
  {
    assert r * r > 0.0;
    assert (r * r) * (b - c) == 0.0;
  }

  lemma UnitRoot(root: real)
    requires root > 0.0 && root * root == 1.0
    ensures root == 1.0
  {
  }
}
