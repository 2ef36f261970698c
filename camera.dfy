/**
 * The camera: an eye location and a right/up/forward basis (u, v, n), moved
 * by planar rotations and by a translation that is clamped against the world
 * boundary, and turned into a column-major world-to-camera matrix.
 *
 * cos and sin of the rotation angle are not computed: a rotation takes a
 * `Turn`, the pair (cos theta, sin theta) for theta = Theta(d), of which the
 * model only knows that it lies on the unit circle.
 */
module CameraModel {
  import opened Geometry

  /** The world boundary that `slide` clamps every coordinate against. */
  const BOUNDARY: real := 39.0

  // ---------------------------------------------------------------------------
  // Rotations

  /** The cosine and sine of a rotation angle. */
  datatype Turn = Turn(c: real, s: real)
  {
    /** Every (cos theta, sin theta) satisfies this. */
    predicate Unit()
    {
      c * c + s * s == 1.0
    }
  }

  /** The rotation by 0 degrees (and by any multiple of 360 degrees). */
  const NO_TURN: Turn := Turn(1.0, 0.0)

  /** The turn by the sum of two angles (the angle-addition formulas). */
  function Compose(t1: Turn, t2: Turn): Turn
  {
    Turn(t1.c * t2.c - t1.s * t2.s, t1.s * t2.c + t1.c * t2.s)
  }

  /** The turn by the negated angle. */
  function Reverse(t: Turn): Turn
  {
    Turn(t.c, -t.s)
  }

  /**
   * Rotates the pair (p, q) in their common plane, as pitch, yaw and roll do
   * with (V, N), (U, N) and (U, V): p' = p cos + q sin, q' = -p sin + q cos.
   * The `length` caches are not touched.
   */
  function RotatePair(p: Vector3D, q: Vector3D, t: Turn): (Vector3D, Vector3D)
  {
    (Vector3D(p.x * t.c + q.x * t.s, p.y * t.c + q.y * t.s, p.z * t.c + q.z * t.s, p.length),
     Vector3D(-p.x * t.s + q.x * t.c, -p.y * t.s + q.y * t.c, -p.z * t.s + q.z * t.c, q.length))
  }

  /** Three unit vectors that are pairwise orthogonal. */
  predicate Orthonormal(a: Vector3D, b: Vector3D, c: Vector3D)
  {
    a.Dot(a) == 1.0 && b.Dot(b) == 1.0 && c.Dot(c) == 1.0 &&
    a.Dot(b) == 0.0 && a.Dot(c) == 0.0 && b.Dot(c) == 0.0
  }

  /** Orthonormality does not depend on the order in which the three vectors are listed. */
  lemma OrthonormalReorder(a: Vector3D, b: Vector3D, c: Vector3D)
    requires Orthonormal(a, b, c)
    ensures Orthonormal(b, c, a) && Orthonormal(c, a, b)
    ensures Orthonormal(a, c, b) && Orthonormal(b, a, c) && Orthonormal(c, b, a)
  {
    DotSymmetric(a, b);
    DotSymmetric(a, c);
    DotSymmetric(b, c);
  }

  /** The linear combination a p + b q, with `len` as its length cache. */
  function Mix(a: real, p: Vector3D, b: real, q: Vector3D, len: real): Vector3D
  {
    Vector3D(a * p.x + b * q.x, a * p.y + b * q.y, a * p.z + b * q.z, len)
  }

  /** The dot product is linear in each argument. */
  lemma DotMix(a: real, p: Vector3D, b: real, q: Vector3D, len: real, w: Vector3D)
    ensures Mix(a, p, b, q, len).Dot(w) == a * p.Dot(w) + b * q.Dot(w)
    ensures w.Dot(Mix(a, p, b, q, len)) == a * w.Dot(p) + b * w.Dot(q)
  {
  }

  /** Each rotated vector is a combination of the two old ones with the cosine and sine as weights. */
  lemma RotatePairIsMix(p: Vector3D, q: Vector3D, t: Turn)
    ensures RotatePair(p, q, t).0 == Mix(t.c, p, t.s, q, p.length)
    ensures RotatePair(p, q, t).1 == Mix(-t.s, p, t.c, q, q.length)
  {
    MixScalar(p.x, q.x, t.c, t.s);
    MixScalar(p.y, q.y, t.c, t.s);
    MixScalar(p.z, q.z, t.c, t.s);
  }

  lemma MixScalar(a: real, b: real, c: real, s: real)
    ensures a * c + b * s == c * a + s * b
    ensures -a * s + b * c == (-s) * a + c * b
  {
  }

  /**
   * A planar rotation of two vectors of an orthonormal frame around the third
   * gives an orthonormal frame again.
   */
  lemma RotatePairKeepsOrthonormal(p: Vector3D, q: Vector3D, r: Vector3D, t: Turn)
    requires t.Unit() && Orthonormal(p, q, r)
    ensures Orthonormal(RotatePair(p, q, t).0, RotatePair(p, q, t).1, r)
  {
    var c, s := t.c, t.s;
    RotatePairIsMix(p, q, t);
    var p1, q1 := RotatePair(p, q, t).0, RotatePair(p, q, t).1;
    DotSymmetric(p, q);
    DotSymmetric(p, r);
    DotSymmetric(q, r);
    // the new vectors against the old ones
    DotMix(c, p, s, q, p.length, p);
    DotMix(c, p, s, q, p.length, q);
    DotMix(c, p, s, q, p.length, r);
    DotMix(-s, p, c, q, q.length, p);
    DotMix(-s, p, c, q, q.length, q);
    DotMix(-s, p, c, q, q.length, r);
    assert p.Dot(p1) == c && q.Dot(p1) == s;
    assert p.Dot(q1) == -s && q.Dot(q1) == c;
    // the new vectors against each other
    DotMix(c, p, s, q, p.length, p1);
    DotMix(c, p, s, q, p.length, q1);
    DotMix(-s, p, c, q, q.length, q1);
    assert p1.Dot(p1) == c * c + s * s;
    assert p1.Dot(q1) == c * (-s) + s * c;
    assert q1.Dot(q1) == (-s) * (-s) + c * c;
  }

  /** Pitch turns (v, n) around u and keeps the frame orthonormal. */
  lemma PitchKeepsFrame(u: Vector3D, v: Vector3D, n: Vector3D, t: Turn)
    requires t.Unit()
    ensures Orthonormal(u, v, n) ==> Orthonormal(u, RotatePair(v, n, t).0, RotatePair(v, n, t).1)
  {
    if Orthonormal(u, v, n) {
      OrthonormalReorder(u, v, n);
      RotatePairKeepsOrthonormal(v, n, u, t);
      OrthonormalReorder(RotatePair(v, n, t).0, RotatePair(v, n, t).1, u);
    }
  }

  /** Yaw turns (u, n) around v and keeps the frame orthonormal. */
  lemma YawKeepsFrame(u: Vector3D, v: Vector3D, n: Vector3D, t: Turn)
    requires t.Unit()
    ensures Orthonormal(u, v, n) ==> Orthonormal(RotatePair(u, n, t).0, v, RotatePair(u, n, t).1)
  {
    if Orthonormal(u, v, n) {
      OrthonormalReorder(u, v, n);
      RotatePairKeepsOrthonormal(u, n, v, t);
      OrthonormalReorder(RotatePair(u, n, t).0, RotatePair(u, n, t).1, v);
    }
  }

  /** Rotating by the zero angle changes nothing. */
  lemma RotateByNoTurn(p: Vector3D, q: Vector3D)
    ensures RotatePair(p, q, NO_TURN) == (p, q)
  {
  }

  /** Two successive rotations of a pair are one rotation by the sum of the angles. */
  lemma RotateTwice(p: Vector3D, q: Vector3D, t1: Turn, t2: Turn)
    ensures RotatePair(RotatePair(p, q, t1).0, RotatePair(p, q, t1).1, t2) == RotatePair(p, q, Compose(t1, t2))
  {
    var t := Compose(t1, t2);
    var r1 := RotatePair(p, q, t1);
    TwiceScalar(p.x, q.x, r1.0.x, r1.1.x, t1, t2, t);
    TwiceScalar(p.y, q.y, r1.0.y, r1.1.y, t1, t2, t);
    TwiceScalar(p.z, q.z, r1.0.z, r1.1.z, t1, t2, t);
    var r2 := RotatePair(r1.0, r1.1, t2);
    var r := RotatePair(p, q, t);
    assert r2.0 == r.0;
    assert r2.1 == r.1;
  }

  /** One coordinate of RotateTwice: (a1, b1) is (a, b) turned by t1, and t is t1 composed with t2. */
  lemma TwiceScalar(a: real, b: real, a1: real, b1: real, t1: Turn, t2: Turn, t: Turn)
    requires a1 == a * t1.c + b * t1.s && b1 == -a * t1.s + b * t1.c
    requires t == Compose(t1, t2)
    ensures a1 * t2.c + b1 * t2.s == a * t.c + b * t.s
    ensures -a1 * t2.s + b1 * t2.c == -a * t.s + b * t.c
  {
  }

  /** The sum of two angles is again an angle: composing unit turns gives a unit turn. */
  lemma ComposeUnit(t1: Turn, t2: Turn)
    requires t1.Unit() && t2.Unit()
    ensures Compose(t1, t2).Unit()
  {
    var t := Compose(t1, t2);
    calc {
      t.c * t.c + t.s * t.s;
      (t1.c * t1.c + t1.s * t1.s) * (t2.c * t2.c + t2.s * t2.s);
      1.0 * 1.0;
    }
  }

  /** Rotating by an angle and then by its negation restores the pair. */
  lemma RotateBack(p: Vector3D, q: Vector3D, t: Turn)
    requires t.Unit()
    ensures RotatePair(RotatePair(p, q, t).0, RotatePair(p, q, t).1, Reverse(t)) == (p, q)
  {
    RotateTwice(p, q, t, Reverse(t));
    assert Compose(t, Reverse(t)) == NO_TURN;
    RotateByNoTurn(p, q);
  }

  // ---------------------------------------------------------------------------
  // Clamped translation

  function Abs(r: real): real
  {
    if r < 0.0 then -r else r
  }

  /** Every coordinate of `p` lies in [-BOUNDARY, BOUNDARY]. */
  predicate InBox(p: Point3D)
  {
    -BOUNDARY <= p.x <= BOUNDARY && -BOUNDARY <= p.y <= BOUNDARY && -BOUNDARY <= p.z <= BOUNDARY
  }

  /** The unclamped target of a slide: the eye moved du along u, dv along v and dn along n. */
  function Candidate(eye: Point3D, u: Vector3D, v: Vector3D, n: Vector3D, du: real, dv: real, dn: real): Point3D
  {
    Point3D(eye.x + du * u.x + dv * v.x + dn * n.x,
            eye.y + du * u.y + dv * v.y + dn * n.y,
            eye.z + du * u.z + dv * v.z + dn * n.z)
  }

  /**
   * The new value of one eye coordinate, given its previous value `prev`, its
   * candidate `cand` and the candidate y coordinate `candY`. The branch that
   * snaps to -BOUNDARY tests the candidate y on every axis, as `slide` does.
   */
  function ClampAxis(prev: real, cand: real, candY: real): real
  {
    if Abs(cand) < BOUNDARY then cand
    else if cand >= BOUNDARY then BOUNDARY
    else if candY <= -BOUNDARY then -BOUNDARY
    else prev
  }

  /** The eye location a slide leaves, from the previous location and the candidate. */
  function Clamp(prev: Point3D, cand: Point3D): Point3D
  {
    Point3D(ClampAxis(prev.x, cand.x, cand.y), ClampAxis(prev.y, cand.y, cand.y), ClampAxis(prev.z, cand.z, cand.y))
  }

  /** The per-coordinate rule: accept, snap to +39, snap to -39 only if the candidate y is low, else keep. */
  lemma ClampAxisRules(prev: real, cand: real, candY: real)
    ensures -BOUNDARY < cand < BOUNDARY ==> ClampAxis(prev, cand, candY) == cand
    ensures cand >= BOUNDARY ==> ClampAxis(prev, cand, candY) == BOUNDARY
    ensures cand <= -BOUNDARY && candY <= -BOUNDARY ==> ClampAxis(prev, cand, candY) == -BOUNDARY
    ensures cand <= -BOUNDARY && candY > -BOUNDARY ==> ClampAxis(prev, cand, candY) == prev
  {
  }

  /** Whatever the previous location, the y coordinate after a slide is in bounds. */
  lemma ClampYInBounds(prev: Point3D, cand: Point3D)
    ensures -BOUNDARY <= Clamp(prev, cand).y <= BOUNDARY
  {
  }

  /** A location inside the box stays inside after any slide. */
  lemma ClampKeepsBox(prev: Point3D, cand: Point3D)
    requires InBox(prev)
    ensures InBox(Clamp(prev, cand))
  {
  }

  /** A slide by (0, 0, 0) from inside the box leaves the eye where it is. */
  lemma SlideByZero(eye: Point3D, u: Vector3D, v: Vector3D, n: Vector3D)
    requires InBox(eye)
    ensures Clamp(eye, Candidate(eye, u, v, n, 0.0, 0.0, 0.0)) == eye
  {
  }

  /**
   * The x and z coordinates are not snapped to -39 when the candidate y is
   * above -39: pushing the eye from the origin to x = -50 leaves x at 0.
   */
  lemma LowXKeepsPrevious()
    ensures Clamp(Point3D(0.0, 0.0, 0.0), Point3D(-50.0, 0.0, 0.0)) == Point3D(0.0, 0.0, 0.0)
    ensures Clamp(Point3D(0.0, 0.0, 0.0), Point3D(-50.0, -50.0, -50.0)) == Point3D(-39.0, -39.0, -39.0)
  {
  }

  // ---------------------------------------------------------------------------
  // The view matrix

  /** The 16 entries of the column-major world-to-camera matrix for this frame. */
  function ViewMatrix(eye: Point3D, u: Vector3D, v: Vector3D, n: Vector3D): (m: seq<real>)
    ensures |m| == 16
  {
    var e := FromOrigin(eye);
    [u.x, v.x, n.x, 0.0,
     u.y, v.y, n.y, 0.0,
     u.z, v.z, n.z, 0.0,
     -e.Dot(u), -e.Dot(v), -e.Dot(n), 1.0]
  }

  /** Row `r` of a column-major 4x4 matrix applied to the homogeneous point (p, 1). */
  function ApplyRow(m: seq<real>, r: nat, p: Point3D): real
    requires |m| == 16 && r < 4
  {
    m[r] * p.x + m[4 + r] * p.y + m[8 + r] * p.z + m[12 + r]
  }

  /** A column-major 4x4 matrix applied to the homogeneous point (p, 1). */
  function Apply(m: seq<real>, p: Point3D): seq<real>
    requires |m| == 16
  {
    [ApplyRow(m, 0, p), ApplyRow(m, 1, p), ApplyRow(m, 2, p), ApplyRow(m, 3, p)]
  }

  /** The coordinates of world point `p` in the camera's frame: its offset from the eye along u, v and n. */
  function ToCamera(eye: Point3D, u: Vector3D, v: Vector3D, n: Vector3D, p: Point3D): Point3D
  {
    var d := Vector3D(p.x - eye.x, p.y - eye.y, p.z - eye.z, 0.0);
    Point3D(d.Dot(u), d.Dot(v), d.Dot(n))
  }

  /** The view matrix maps every world point to its camera coordinates, with homogeneous weight 1. */
  lemma ViewMatrixIsWorldToCamera(eye: Point3D, u: Vector3D, v: Vector3D, n: Vector3D, p: Point3D)
    ensures var c := ToCamera(eye, u, v, n, p);
            Apply(ViewMatrix(eye, u, v, n), p) == [c.x, c.y, c.z, 1.0]
  {
    var m := ViewMatrix(eye, u, v, n);
    var c := ToCamera(eye, u, v, n, p);
    RowScalar(u.x, u.y, u.z, p.x, p.y, p.z, eye.x, eye.y, eye.z);
    RowScalar(v.x, v.y, v.z, p.x, p.y, p.z, eye.x, eye.y, eye.z);
    RowScalar(n.x, n.y, n.z, p.x, p.y, p.z, eye.x, eye.y, eye.z);
    assert ApplyRow(m, 0, p) == c.x;
    assert ApplyRow(m, 1, p) == c.y;
    assert ApplyRow(m, 2, p) == c.z;
    assert ApplyRow(m, 3, p) == 1.0;
  }

  /** One row of ViewMatrixIsWorldToCamera. */
  lemma RowScalar(ax: real, ay: real, az: real, px: real, py: real, pz: real, ex: real, ey: real, ez: real)
    ensures ax * px + ay * py + az * pz + -(ax * ex + ay * ey + az * ez) == ax * (px - ex) + ay * (py - ey) + az * (pz - ez)
  {
  }

  /**
   * For an orthonormal frame, the view matrix undoes the camera's placement:
   * the point du along u, dv along v and dn along n from the eye (the
   * candidate of a slide) has camera coordinates (du, dv, dn). In particular
   * the eye itself is the camera-space origin.
   */
  lemma ViewMatrixInvertsPlacement(eye: Point3D, u: Vector3D, v: Vector3D, n: Vector3D, du: real, dv: real, dn: real)
    requires Orthonormal(u, v, n)
    ensures ToCamera(eye, u, v, n, Candidate(eye, u, v, n, du, dv, dn)) == Point3D(du, dv, dn)
  {
    var p := Candidate(eye, u, v, n, du, dv, dn);
    var d := Vector3D(p.x - eye.x, p.y - eye.y, p.z - eye.z, 0.0);
    var uv := Mix(du, u, dv, v, 0.0);
    assert d == Mix(1.0, uv, dn, n, 0.0);
    DotSymmetric(u, v);
    DotSymmetric(u, n);
    DotSymmetric(v, n);
    DotMix(1.0, uv, dn, n, 0.0, u);
    DotMix(1.0, uv, dn, n, 0.0, v);
    DotMix(1.0, uv, dn, n, 0.0, n);
    DotMix(du, u, dv, v, 0.0, u);
    DotMix(du, u, dv, v, 0.0, v);
    DotMix(du, u, dv, v, 0.0, n);
  }

  /** The default basis (the world axes) is orthonormal. */
  lemma DefaultFrameOrthonormal()
    ensures Orthonormal(Vector3D(1.0, 0.0, 0.0, 0.0), Vector3D(0.0, 1.0, 0.0, 0.0), Vector3D(0.0, 0.0, 1.0, 0.0))
  {
  }

  /** The default camera's matrix: identity rotation and translation (0, 0, -35). */
  lemma DefaultViewMatrix()
    ensures ViewMatrix(Point3D(0.0, 0.0, 35.0), Vector3D(1.0, 0.0, 0.0, 0.0), Vector3D(0.0, 1.0, 0.0, 0.0), Vector3D(0.0, 0.0, 1.0, 0.0))
         == [1.0, 0.0, 0.0, 0.0,  0.0, 1.0, 0.0, 0.0,  0.0, 0.0, 1.0, 0.0,  0.0, 0.0, -35.0, 1.0]
  {
  }

  // ---------------------------------------------------------------------------
  // The camera object

  class Camera {
    /** The eye location. */
    var eyeLoc: Point3D
    /** Right (U in `Camera`). */
    var u: Vector3D
    /** Up (V in `Camera`). */
    var v: Vector3D
    /** Forward (N in `Camera`). */
    var n: Vector3D
    /** The buffer that every request for the view matrix overwrites. */
    const modelViewMatrix: array<real>

    /** The default pose: eye at (0, 0, 35), basis along the world axes, a fresh 16-entry buffer. */
    constructor ()
      ensures eyeLoc == Point3D(0.0, 0.0, 35.0)
      ensures u == Vector3D(1.0, 0.0, 0.0, 0.0) && v == Vector3D(0.0, 1.0, 0.0, 0.0) && n == Vector3D(0.0, 0.0, 1.0, 0.0)
      ensures InBox(eyeLoc)
      ensures fresh(modelViewMatrix) && modelViewMatrix.Length == 16
    {
      eyeLoc := Point3D(0.0, 0.0, 35.0);
      u := Vector3D(1.0, 0.0, 0.0, 0.0);
      v := Vector3D(0.0, 1.0, 0.0, 0.0);
      n := Vector3D(0.0, 0.0, 1.0, 0.0);
      modelViewMatrix := new real[16];
    }

    /**
     * Moves the eye du along u, dv along v and dn along n, then clamps each
     * coordinate of the result against the boundary, coordinate by coordinate.
     */
    method Slide(du: real, dv: real, dn: real)
      modifies this
      ensures u == old(u) && v == old(v) && n == old(n)
      ensures eyeLoc == Clamp(old(eyeLoc), Candidate(old(eyeLoc), u, v, n, du, dv, dn))
      ensures -BOUNDARY <= eyeLoc.y <= BOUNDARY
      ensures old(InBox(eyeLoc)) ==> InBox(eyeLoc)
    {
      var temp := Candidate(eyeLoc, u, v, n, du, dv, dn);
      ghost var prev := eyeLoc;

      if Abs(temp.x) < BOUNDARY {
        eyeLoc := eyeLoc.(x := temp.x);
      } else if temp.x >= BOUNDARY {
        eyeLoc := eyeLoc.(x := BOUNDARY);
      } else if temp.y <= -BOUNDARY {
        eyeLoc := eyeLoc.(x := -BOUNDARY);
      }

      if Abs(temp.y) < BOUNDARY {
        eyeLoc := eyeLoc.(y := temp.y);
      } else if temp.y >= BOUNDARY {
        eyeLoc := eyeLoc.(y := BOUNDARY);
      } else if temp.y <= -BOUNDARY {
        eyeLoc := eyeLoc.(y := -BOUNDARY);
      }

      if Abs(temp.z) < BOUNDARY {
        eyeLoc := eyeLoc.(z := temp.z);
      } else if temp.z >= BOUNDARY {
        eyeLoc := eyeLoc.(z := BOUNDARY);
      } else if temp.y <= -BOUNDARY {
        eyeLoc := eyeLoc.(z := -BOUNDARY);
      }

      ClampYInBounds(prev, temp);
      if InBox(prev) {
        ClampKeepsBox(prev, temp);
      }
    }

    /** Rotates up and forward around right by the angle whose cosine and sine are `t`. */
    method Pitch(t: Turn)
      requires t.Unit()
      modifies this
      ensures v == RotatePair(old(v), old(n), t).0 && n == RotatePair(old(v), old(n), t).1
      ensures u == old(u) && eyeLoc == old(eyeLoc)
      ensures old(Orthonormal(u, v, n)) ==> Orthonormal(u, v, n)
    {
      PitchKeepsFrame(u, v, n, t);
      var rotated := RotatePair(v, n, t);
      v := rotated.0;
      n := rotated.1;
    }

    /** Rotates right and forward around up by the angle whose cosine and sine are `t`. */
    method Yaw(t: Turn)
      requires t.Unit()
      modifies this
      ensures u == RotatePair(old(u), old(n), t).0 && n == RotatePair(old(u), old(n), t).1
      ensures v == old(v) && eyeLoc == old(eyeLoc)
      ensures old(Orthonormal(u, v, n)) ==> Orthonormal(u, v, n)
    {
      YawKeepsFrame(u, v, n, t);
      var rotated := RotatePair(u, n, t);
      u := rotated.0;
      n := rotated.1;
    }

    /** Rotates right and up around forward by the angle whose cosine and sine are `t`. */
    method Roll(t: Turn)
      requires t.Unit()
      modifies this
      ensures u == RotatePair(old(u), old(v), t).0 && v == RotatePair(old(u), old(v), t).1
      ensures n == old(n) && eyeLoc == old(eyeLoc)
      ensures old(Orthonormal(u, v, n)) ==> Orthonormal(u, v, n)
    {
      if Orthonormal(u, v, n) {
        RotatePairKeepsOrthonormal(u, v, n, t);
      }
      var rotated := RotatePair(u, v, t);
      u := rotated.0;
      v := rotated.1;
    }

    /** Puts the eye at (x, y, z) without clamping. */
    method SetLocation(x: real, y: real, z: real)
      modifies this
      ensures eyeLoc == Point3D(x, y, z)
      ensures u == old(u) && v == old(v) && n == old(n)
    {
      eyeLoc := eyeLoc.(x := x);
      eyeLoc := eyeLoc.(y := y);
      eyeLoc := eyeLoc.(z := z);
    }

    /** Puts the eye at `p` without clamping. */
    method SetLocationPoint(p: Point3D)
      modifies this
      ensures eyeLoc == p
      ensures u == old(u) && v == old(v) && n == old(n)
    {
      eyeLoc := p;
    }

    method GetLocation() returns (p: Point3D)
      ensures p == eyeLoc
    {
      p := eyeLoc;
    }

    method GetU() returns (r: Vector3D)
      ensures r == u
    {
      r := u;
    }

    method GetV() returns (r: Vector3D)
      ensures r == v
    {
      r := v;
    }

    method GetN() returns (r: Vector3D)
      ensures r == n
    {
      r := n;
    }

    method GetX() returns (r: real)
      ensures r == eyeLoc.x
    {
      r := eyeLoc.x;
    }

    method GetY() returns (r: real)
      ensures r == eyeLoc.y
    {
      r := eyeLoc.y;
    }

    method GetZ() returns (r: real)
      ensures r == eyeLoc.z
    {
      r := eyeLoc.z;
    }

    /**
     * Overwrites the camera's own buffer with the world-to-camera matrix of the
     * current frame and returns that buffer (not a copy).
     */
    method GetModelViewMatrix() returns (mat: array<real>)
      requires modelViewMatrix.Length == 16
      modifies modelViewMatrix
      ensures mat == modelViewMatrix
      ensures mat[..] == ViewMatrix(eyeLoc, u, v, n)
    {
      var eyeVec := FromOrigin(eyeLoc);
      var tu, tv, tn := -eyeVec.Dot(u), -eyeVec.Dot(v), -eyeVec.Dot(n);
      ghost var m := ViewMatrix(eyeLoc, u, v, n);
      assert m == [u.x, v.x, n.x, 0.0, u.y, v.y, n.y, 0.0, u.z, v.z, n.z, 0.0, tu, tv, tn, 1.0];
      mat := modelViewMatrix;
      mat[0] := u.x;  mat[4] := u.y;  mat[8] := u.z;   mat[12] := tu;
      mat[1] := v.x;  mat[5] := v.y;  mat[9] := v.z;   mat[13] := tv;
      mat[2] := n.x;  mat[6] := n.y;  mat[10] := n.z;  mat[14] := tn;
      mat[3] := 0.0;  mat[7] := 0.0;  mat[11] := 0.0;  mat[15] := 1.0;
      assert mat[..] == m;
    }
  }
}
