/**
 * Vectors, poses and the "levelling" rule shared by the scene manager and the
 * QR-code anchor.
 *
 * Vectors are over `real`: the only arithmetic the anchoring core performs on
 * them is negation, reordering and addition, which `real` models exactly.
 * Rotations are kept symbolic: a `Quaternion` is the term that built it
 * (raw components, a look rotation, an Euler rotation or a product), so the
 * engine's LookRotation, Euler and quaternion product stay uninterpreted.
 */
module Geometry {

  datatype Vec3 = Vec3(x: real, y: real, z: real)

  const Zero := Vec3(0.0, 0.0, 0.0)
  /** The engine's world up axis (Vector3.up). */
  const WorldUp := Vec3(0.0, 1.0, 0.0)
  /** The engine's forward axis (Vector3.forward). */
  const WorldForward := Vec3(0.0, 0.0, 1.0)

  function Add(a: Vec3, b: Vec3): Vec3 {
    Vec3(a.x + b.x, a.y + b.y, a.z + b.z)
  }

  function Sub(a: Vec3, b: Vec3): Vec3 {
    Vec3(a.x - b.x, a.y - b.y, a.z - b.z)
  }

  function Scale(k: real, v: Vec3): Vec3 {
    Vec3(k * v.x, k * v.y, k * v.z)
  }

  function Dot(a: Vec3, b: Vec3): real {
    a.x * b.x + a.y * b.y + a.z * b.z
  }

  function SqrMagnitude(v: Vec3): (m: real)
    ensures m >= 0.0
  {
    Square(v.x);
    Square(v.y);
    Square(v.z);
    Dot(v, v)
  }

  lemma Square(a: real)
    ensures a * a >= 0.0
  {
  }

  lemma DivCancel(d: real, s: real)
    requires s != 0.0
    ensures (d / s) * s == d
  {
  }

  /**
   * The engine's Vector3.ProjectOnPlane: the part of `v` orthogonal to the
   * plane normal `n`; a zero normal leaves `v` as it is.
   */
  function ProjectOnPlane(v: Vec3, n: Vec3): (p: Vec3)
    ensures Dot(n, n) != 0.0 ==> Dot(p, n) == 0.0
    ensures Dot(n, n) == 0.0 ==> p == v
  {
    var s := Dot(n, n);
    if s == 0.0 then v
    else
      var k := Dot(v, n) / s;
      var p := Vec3(v.x - n.x * k, v.y - n.y * k, v.z - n.z * k);
      assert Dot(p, n) == Dot(v, n) - k * s;
      DivCancel(Dot(v, n), s);
      p
  }

  /** `v` with its vertical component dropped. */
  function Flatten(v: Vec3): Vec3 {
    Vec3(v.x, 0.0, v.z)
  }

  /** Projecting onto the horizontal plane (normal: world up) is Flatten. */
  lemma HorizontalProjection(v: Vec3)
    ensures ProjectOnPlane(v, WorldUp) == Flatten(v)
  {
  }

  /**
   * A rotation, kept as the term that produced it. `Components` is
   * `new Quaternion(x, y, z, w)`; the others are Quaternion.LookRotation,
   * Quaternion.Euler and the product `lhs * rhs`.
   */
  datatype Quaternion =
    | Components(qx: real, qy: real, qz: real, qw: real)
    | LookRotation(forward: Vec3, upwards: Vec3)
    | Euler(angles: Vec3)
    | Product(lhs: Quaternion, rhs: Quaternion)

  /** Quaternion.identity. */
  const Identity := Components(0.0, 0.0, 0.0, 1.0)

  /** A rigid transform in world space. */
  datatype Pose = Pose(position: Vec3, rotation: Quaternion)

  /**
   * `q * v` for a quaternion given by its four components: the rotation
   * matrix of q applied to v (the engine's Quaternion * Vector3 operator).
   */
  function RotateByComponents(x: real, y: real, z: real, w: real, v: Vec3): (r: Vec3)
    ensures x == 0.0 && y == 0.0 && z == 0.0 && w == 1.0 ==> r == v
    ensures x == 0.0 && z == 0.0 ==> r.y == v.y
  {
    Vec3((1.0 - 2.0 * (y * y + z * z)) * v.x + 2.0 * (x * y - w * z) * v.y + 2.0 * (x * z + w * y) * v.z,
         2.0 * (x * y + w * z) * v.x + (1.0 - 2.0 * (x * x + z * z)) * v.y + 2.0 * (y * z - w * x) * v.z,
         2.0 * (x * z - w * y) * v.x + 2.0 * (y * z + w * x) * v.y + (1.0 - 2.0 * (x * x + y * y)) * v.z)
  }

  /**
   * Below this squared length a projected facing direction counts as degenerate: 0.0001f in
   * MQ3SceneManager.cs (both versions) and in QRCodeAnchor.cs.
   */
  const DegenerateSqrMagnitude: real := 0.0001

  /**
   * The levelling rule: the facing direction is `forward` projected onto the
   * horizontal plane, unless that is (nearly) zero, in which case it is `up`
   * projected onto the horizontal plane (see HorizontalProjection).
   */
  function LevelledDirection(forward: Vec3, up: Vec3): (d: Vec3)
    ensures d.y == 0.0
    ensures forward.x * forward.x + forward.z * forward.z >= DegenerateSqrMagnitude ==>
              d == Vec3(forward.x, 0.0, forward.z)
    ensures forward.x * forward.x + forward.z * forward.z < DegenerateSqrMagnitude ==>
              d == Vec3(up.x, 0.0, up.z)
  {
    var forwardOnPlane := Flatten(forward);
    if SqrMagnitude(forwardOnPlane) < DegenerateSqrMagnitude then Flatten(up) else forwardOnPlane
  }

  /** The levelled rotation: face the levelled direction with world up kept up. */
  function LevelledRotation(forward: Vec3, up: Vec3): Quaternion {
    LookRotation(LevelledDirection(forward, up), WorldUp)
  }

  /** `forward` and `up` are the unit, mutually orthogonal axes of a rigid frame. */
  predicate OrthonormalPair(forward: Vec3, up: Vec3) {
    SqrMagnitude(forward) == 1.0 && SqrMagnitude(up) == 1.0 && Dot(forward, up) == 0.0
  }

  /** 2|ab| <= a^2 + b^2, in the two signed forms used below. */
  lemma ProductBound(a: real, b: real)
    ensures 2.0 * (a * b) <= a * a + b * b
    ensures -(2.0 * (a * b)) <= a * a + b * b
  {
    Square(a - b);
    Square(a + b);
    assert (a - b) * (a - b) == a * a - 2.0 * (a * b) + b * b;
    assert (a + b) * (a + b) == a * a + 2.0 * (a * b) + b * b;
  }

  /** Squares are monotone on non-negative numbers and on magnitudes. */
  lemma SquareBelow(h: real, e: real)
    requires 0.0 < e && -e < h < e
    ensures h * h < e * e
  {
    if h == 0.0 {
      assert e * e > 0.0;
    } else if h > 0.0 {
      assert h * h < h * e;
      assert h * e < e * e;
    } else {
      assert h * h == (-h) * (-h);
      assert (-h) * (-h) <= (-h) * e;
      assert (-h) * e < e * e;
    }
  }

  lemma ProductAbove(a: real, b: real, c: real)
    requires 0.0 < c && c < a && c < b
    ensures a * b > c * c
  {
    assert a * b > c * b;
    assert c * b > c * c;
  }

  /**
   * For the frame of a rigid marker the levelled direction is never
   * degenerate: when `forward` points (nearly) straight up or down, the
   * orthogonal `up` axis is (nearly) horizontal, so the fallback has length.
   */
  lemma LevelledDirectionNonDegenerate(forward: Vec3, up: Vec3)
    requires OrthonormalPair(forward, up)
    ensures SqrMagnitude(LevelledDirection(forward, up)) >= DegenerateSqrMagnitude
  {
    LevelledLength(forward, up);
    UnitComponents(forward);
    UnitComponents(up);
    if forward.x * forward.x + forward.z * forward.z < DegenerateSqrMagnitude {
      FallbackNotDegenerate(forward, up);
    }
  }

  lemma LevelledLength(f: Vec3, u: Vec3)
    ensures SqrMagnitude(LevelledDirection(f, u)) ==
            if f.x * f.x + f.z * f.z < DegenerateSqrMagnitude then u.x * u.x + u.z * u.z
            else f.x * f.x + f.z * f.z
  {
  }

  lemma UnitComponents(v: Vec3)
    ensures SqrMagnitude(v) == v.x * v.x + v.y * v.y + v.z * v.z
  {
  }

  /**
   * When the forward axis of an orthonormal frame is nearly vertical, the up
   * axis is not: both vertical components would be close to 1 in magnitude,
   * and f.y * u.y could not cancel the small horizontal part of the dot product.
   */
  lemma FallbackNotDegenerate(f: Vec3, u: Vec3)
    requires OrthonormalPair(f, u)
    requires f.x * f.x + f.z * f.z < DegenerateSqrMagnitude
    ensures u.x * u.x + u.z * u.z >= DegenerateSqrMagnitude
  {
    if u.x * u.x + u.z * u.z < DegenerateSqrMagnitude {
      var h := f.x * u.x + f.z * u.z;
      HorizontalDotSmall(f.x, f.z, u.x, u.z);
      NearlyVerticalProduct(f.y * f.y, u.y * u.y, h);
      SquareOfProduct(f.y, u.y);
      assert false;
    }
  }

  lemma SquareOfProduct(a: real, b: real)
    ensures (a * b) * (a * b) == (a * a) * (b * b)
  {
  }

  /** Squares close to 1 have a product far above the square of a small number. */
  lemma NearlyVerticalProduct(fy2: real, uy2: real, h: real)
    requires fy2 > 1.0 - DegenerateSqrMagnitude && uy2 > 1.0 - DegenerateSqrMagnitude
    requires -DegenerateSqrMagnitude < h < DegenerateSqrMagnitude
    ensures h * h < fy2 * uy2
  {
    SquareBelow(h, DegenerateSqrMagnitude);
    ProductAbove(fy2, uy2, 1.0 - DegenerateSqrMagnitude);
  }

  /** Two nearly vertical vectors have a horizontal dot product smaller than the threshold. */
  lemma HorizontalDotSmall(fx: real, fz: real, ux: real, uz: real)
    requires fx * fx + fz * fz < DegenerateSqrMagnitude
    requires ux * ux + uz * uz < DegenerateSqrMagnitude
    ensures -DegenerateSqrMagnitude < fx * ux + fz * uz < DegenerateSqrMagnitude
  {
    ProductBound(fx, ux);
    ProductBound(fz, uz);
    SumBound(fx * ux, fz * uz, fx * fx, ux * ux, fz * fz, uz * uz);
  }

  /** The linear step of the bound above, with every product named. */
  lemma SumBound(p: real, q: real, a: real, b: real, c: real, e: real)
    requires 2.0 * p <= a + b && -(2.0 * p) <= a + b
    requires 2.0 * q <= c + e && -(2.0 * q) <= c + e
    requires a + c < DegenerateSqrMagnitude && b + e < DegenerateSqrMagnitude
    ensures -DegenerateSqrMagnitude < p + q < DegenerateSqrMagnitude
  {
  }

  /**
   * Levelling keeps the facing of a rotation about the vertical axis alone:
   * for a unit quaternion (0, y, 0, w) the rotated forward axis is already
   * horizontal and of unit length, so the levelled direction is that axis.
   */
  lemma YawOnlyRotationKeepsFacing(y: real, w: real)
    requires y * y + w * w == 1.0
    ensures var f := RotateByComponents(0.0, y, 0.0, w, WorldForward);
            LevelledDirection(f, RotateByComponents(0.0, y, 0.0, w, WorldUp)) == f
  {
    YawForwardIsHorizontalUnit(y, w);
  }

  lemma YawForwardIsHorizontalUnit(y: real, w: real)
    requires y * y + w * w == 1.0
    ensures var f := RotateByComponents(0.0, y, 0.0, w, WorldForward);
            f.y == 0.0 && f.x * f.x + f.z * f.z == 1.0
  {
    var f := RotateByComponents(0.0, y, 0.0, w, WorldForward);
    var wy, yy := w * y, y * y;
    assert f == Vec3(2.0 * wy, 0.0, 1.0 - 2.0 * yy);
    assert f.x * f.x == 4.0 * (wy * wy);
    assert wy * wy == (w * w) * yy;
    assert w * w == 1.0 - yy;
    assert f.z * f.z == 1.0 - 4.0 * yy + 4.0 * (yy * yy);
    assert (1.0 - yy) * yy == yy - yy * yy;
  }
}
