/** Quaternion arithmetic as the navigator uses it: the Hamilton product
    (GLKQuaternionMultiply) and the angle-axis constructor
    (GLKQuaternionMakeWithAngleAndAxis), over exact reals.

    Components are stored in GLKit's order: the vector part (x, y, z) first,
    the scalar part w last. Sine and cosine come from the platform's maths
    library, which is not part of this model: they are carried by a `Trig`
    value, and every lemma states, as a precondition, exactly the
    trigonometric laws it relies on. */
module Quaternions {

  datatype Quaternion = Quaternion(x: real, y: real, z: real, w: real)

  /** The rotation by angle zero. */
  const Identity: Quaternion := Quaternion(0.0, 0.0, 0.0, 1.0)

  function NormSquared(q: Quaternion): real {
    q.x * q.x + q.y * q.y + q.z * q.z + q.w * q.w
  }

  /** A unit quaternion is a pure rotation. */
  predicate IsUnit(q: Quaternion) {
    NormSquared(q) == 1.0
  }

  /** The quaternion with every component negated. */
  function Neg(q: Quaternion): Quaternion {
    Quaternion(-q.x, -q.y, -q.z, -q.w)
  }

  /** A quaternion and its negation turn a vector the same way, so they
      describe the same rotation. */
  predicate SameRotation(p: Quaternion, q: Quaternion) {
    p == q || p == Neg(q)
  }

  /** The Hamilton product `l * r`: the rotation `r` followed by the
      rotation `l`. */
  function Mul(l: Quaternion, r: Quaternion): Quaternion {
    Quaternion(
      l.w * r.x + l.x * r.w + l.y * r.z - l.z * r.y,
      l.w * r.y + l.y * r.w + l.z * r.x - l.x * r.z,
      l.w * r.z + l.z * r.w + l.x * r.y - l.y * r.x,
      l.w * r.w - l.x * r.x - l.y * r.y - l.z * r.z)
  }

  /** The norm is multiplicative (Euler's four-square identity), so the
      product of two rotations is again a rotation. */
  lemma MulNorm(l: Quaternion, r: Quaternion)
    ensures NormSquared(Mul(l, r)) == NormSquared(l) * NormSquared(r)
    ensures IsUnit(l) && IsUnit(r) ==> IsUnit(Mul(l, r))
  {
    var p := Mul(l, r);
    FourSquares(l.x, l.y, l.z, l.w, r.x, r.y, r.z, r.w, p.x, p.y, p.z, p.w);
  }

  /* Euler's four-square identity on the coordinates of two factors and of
     their product. */
  lemma FourSquares(lx: real, ly: real, lz: real, lw: real, rx: real, ry: real, rz: real, rw: real,
                    px: real, py: real, pz: real, pw: real)
    requires px == lw * rx + lx * rw + ly * rz - lz * ry
    requires py == lw * ry + ly * rw + lz * rx - lx * rz
    requires pz == lw * rz + lz * rw + lx * ry - ly * rx
    requires pw == lw * rw - lx * rx - ly * ry - lz * rz
    ensures px * px + py * py + pz * pz + pw * pw
         == (lx * lx + ly * ly + lz * lz + lw * lw) * (rx * rx + ry * ry + rz * rz + rw * rw)
  {
  }

  /** The identity is a two-sided unit of the product. */
  lemma MulIdentity(q: Quaternion)
    ensures Mul(Identity, q) == q
    ensures Mul(q, Identity) == q
  {
  }

  /** Composition of rotations does not depend on grouping, so a sequence of
      incremental rotations applied one by one equals their product applied
      once. */
  lemma MulAssociative(a: Quaternion, b: Quaternion, c: Quaternion)
    ensures Mul(Mul(a, b), c) == Mul(a, Mul(b, c))
  {
    AssociativeAtX(a, b, c);
    AssociativeAtY(a, b, c);
    AssociativeAtZ(a, b, c);
    AssociativeAtW(a, b, c);
  }

  /* The components of `a * b` and `b * c` are passed written out rather than
     read from `Mul`, so the component lemmas' preconditions hold as they
     stand. */
  lemma AssociativeAtX(a: Quaternion, b: Quaternion, c: Quaternion)
    ensures Mul(Mul(a, b), c).x == Mul(a, Mul(b, c)).x
  {
    AssociatesAtX(
      a.x, a.y, a.z, a.w, b.x, b.y, b.z, b.w, c.x, c.y, c.z, c.w,
      a.w * b.x + a.x * b.w + a.y * b.z - a.z * b.y,
      a.w * b.y + a.y * b.w + a.z * b.x - a.x * b.z,
      a.w * b.z + a.z * b.w + a.x * b.y - a.y * b.x,
      a.w * b.w - a.x * b.x - a.y * b.y - a.z * b.z,
      b.w * c.x + b.x * c.w + b.y * c.z - b.z * c.y,
      b.w * c.y + b.y * c.w + b.z * c.x - b.x * c.z,
      b.w * c.z + b.z * c.w + b.x * c.y - b.y * c.x,
      b.w * c.w - b.x * c.x - b.y * c.y - b.z * c.z);
  }

  lemma AssociativeAtY(a: Quaternion, b: Quaternion, c: Quaternion)
    ensures Mul(Mul(a, b), c).y == Mul(a, Mul(b, c)).y
  {
    AssociatesAtY(
      a.x, a.y, a.z, a.w, b.x, b.y, b.z, b.w, c.x, c.y, c.z, c.w,
      a.w * b.x + a.x * b.w + a.y * b.z - a.z * b.y,
      a.w * b.y + a.y * b.w + a.z * b.x - a.x * b.z,
      a.w * b.z + a.z * b.w + a.x * b.y - a.y * b.x,
      a.w * b.w - a.x * b.x - a.y * b.y - a.z * b.z,
      b.w * c.x + b.x * c.w + b.y * c.z - b.z * c.y,
      b.w * c.y + b.y * c.w + b.z * c.x - b.x * c.z,
      b.w * c.z + b.z * c.w + b.x * c.y - b.y * c.x,
      b.w * c.w - b.x * c.x - b.y * c.y - b.z * c.z);
  }

  lemma AssociativeAtZ(a: Quaternion, b: Quaternion, c: Quaternion)
    ensures Mul(Mul(a, b), c).z == Mul(a, Mul(b, c)).z
  {
    AssociatesAtZ(
      a.x, a.y, a.z, a.w, b.x, b.y, b.z, b.w, c.x, c.y, c.z, c.w,
      a.w * b.x + a.x * b.w + a.y * b.z - a.z * b.y,
      a.w * b.y + a.y * b.w + a.z * b.x - a.x * b.z,
      a.w * b.z + a.z * b.w + a.x * b.y - a.y * b.x,
      a.w * b.w - a.x * b.x - a.y * b.y - a.z * b.z,
      b.w * c.x + b.x * c.w + b.y * c.z - b.z * c.y,
      b.w * c.y + b.y * c.w + b.z * c.x - b.x * c.z,
      b.w * c.z + b.z * c.w + b.x * c.y - b.y * c.x,
      b.w * c.w - b.x * c.x - b.y * c.y - b.z * c.z);
  }

  lemma AssociativeAtW(a: Quaternion, b: Quaternion, c: Quaternion)
    ensures Mul(Mul(a, b), c).w == Mul(a, Mul(b, c)).w
  {
    AssociatesAtW(
      a.x, a.y, a.z, a.w, b.x, b.y, b.z, b.w, c.x, c.y, c.z, c.w,
      a.w * b.x + a.x * b.w + a.y * b.z - a.z * b.y,
      a.w * b.y + a.y * b.w + a.z * b.x - a.x * b.z,
      a.w * b.z + a.z * b.w + a.x * b.y - a.y * b.x,
      a.w * b.w - a.x * b.x - a.y * b.y - a.z * b.z,
      b.w * c.x + b.x * c.w + b.y * c.z - b.z * c.y,
      b.w * c.y + b.y * c.w + b.z * c.x - b.x * c.z,
      b.w * c.z + b.z * c.w + b.x * c.y - b.y * c.x,
      b.w * c.w - b.x * c.x - b.y * c.y - b.z * c.z);
  }

  /* Associativity of the Hamilton product, one component at a time, on the
     coordinates of the three factors p, q, s and of the partial products
     pq = p * q and qs = q * s. */
  lemma AssociatesAtX(
      px: real, py: real, pz: real, pw: real, qx: real, qy: real, qz: real, qw: real, sx: real, sy: real, sz: real,
      sw: real, pqx: real, pqy: real, pqz: real, pqw: real, qsx: real, qsy: real, qsz: real, qsw: real)
    requires pqx == pw * qx + px * qw + py * qz - pz * qy
    requires pqy == pw * qy + py * qw + pz * qx - px * qz
    requires pqz == pw * qz + pz * qw + px * qy - py * qx
    requires pqw == pw * qw - px * qx - py * qy - pz * qz
    requires qsx == qw * sx + qx * sw + qy * sz - qz * sy
    requires qsy == qw * sy + qy * sw + qz * sx - qx * sz
    requires qsz == qw * sz + qz * sw + qx * sy - qy * sx
    requires qsw == qw * sw - qx * sx - qy * sy - qz * sz
    ensures pqw * sx + pqx * sw + pqy * sz - pqz * sy == pw * qsx + px * qsw + py * qsz - pz * qsy
  {
  }

  lemma AssociatesAtY(
      px: real, py: real, pz: real, pw: real, qx: real, qy: real, qz: real, qw: real, sx: real, sy: real, sz: real,
      sw: real, pqx: real, pqy: real, pqz: real, pqw: real, qsx: real, qsy: real, qsz: real, qsw: real)
    requires pqx == pw * qx + px * qw + py * qz - pz * qy
    requires pqy == pw * qy + py * qw + pz * qx - px * qz
    requires pqz == pw * qz + pz * qw + px * qy - py * qx
    requires pqw == pw * qw - px * qx - py * qy - pz * qz
    requires qsx == qw * sx + qx * sw + qy * sz - qz * sy
    requires qsy == qw * sy + qy * sw + qz * sx - qx * sz
    requires qsz == qw * sz + qz * sw + qx * sy - qy * sx
    requires qsw == qw * sw - qx * sx - qy * sy - qz * sz
    ensures pqw * sy + pqy * sw + pqz * sx - pqx * sz == pw * qsy + py * qsw + pz * qsx - px * qsz
  {
  }

  lemma AssociatesAtZ(
      px: real, py: real, pz: real, pw: real, qx: real, qy: real, qz: real, qw: real, sx: real, sy: real, sz: real,
      sw: real, pqx: real, pqy: real, pqz: real, pqw: real, qsx: real, qsy: real, qsz: real, qsw: real)
    requires pqx == pw * qx + px * qw + py * qz - pz * qy
    requires pqy == pw * qy + py * qw + pz * qx - px * qz
    requires pqz == pw * qz + pz * qw + px * qy - py * qx
    requires pqw == pw * qw - px * qx - py * qy - pz * qz
    requires qsx == qw * sx + qx * sw + qy * sz - qz * sy
    requires qsy == qw * sy + qy * sw + qz * sx - qx * sz
    requires qsz == qw * sz + qz * sw + qx * sy - qy * sx
    requires qsw == qw * sw - qx * sx - qy * sy - qz * sz
    ensures pqw * sz + pqz * sw + pqx * sy - pqy * sx == pw * qsz + pz * qsw + px * qsy - py * qsx
  {
  }

  lemma AssociatesAtW(
      px: real, py: real, pz: real, pw: real, qx: real, qy: real, qz: real, qw: real, sx: real, sy: real, sz: real,
      sw: real, pqx: real, pqy: real, pqz: real, pqw: real, qsx: real, qsy: real, qsz: real, qsw: real)
    requires pqx == pw * qx + px * qw + py * qz - pz * qy
    requires pqy == pw * qy + py * qw + pz * qx - px * qz
    requires pqz == pw * qz + pz * qw + px * qy - py * qx
    requires pqw == pw * qw - px * qx - py * qy - pz * qz
    requires qsx == qw * sx + qx * sw + qy * sz - qz * sy
    requires qsy == qw * sy + qy * sw + qz * sx - qx * sz
    requires qsz == qw * sz + qz * sw + qx * sy - qy * sx
    requires qsw == qw * sw - qx * sx - qy * sy - qz * sz
    ensures pqw * sw - pqx * sx - pqy * sy - pqz * sz == pw * qsw - px * qsx - py * qsy - pz * qsz
  {
  }

  /** The sine and cosine of the platform's maths library. */
  datatype Trig = Trig(sin: real -> real, cos: real -> real)

  /** sin 0 = 0 and cos 0 = 1. */
  predicate ZeroAngleLaw(t: Trig) {
    t.sin(0.0) == 0.0 && t.cos(0.0) == 1.0
  }

  /** sin^2 + cos^2 = 1 at one angle. */
  predicate PythagoreanAt(t: Trig, angle: real) {
    t.sin(angle) * t.sin(angle) + t.cos(angle) * t.cos(angle) == 1.0
  }

  /** sin^2 + cos^2 = 1 at every angle. */
  ghost predicate Pythagorean(t: Trig) {
    forall angle: real :: PythagoreanAt(t, angle)
  }

  /** The angle-sum formulas for sine and cosine at one pair of angles. */
  predicate AngleSumAt(t: Trig, a: real, b: real) {
    && t.sin(a + b) == t.sin(a) * t.cos(b) + t.cos(a) * t.sin(b)
    && t.cos(a + b) == t.cos(a) * t.cos(b) - t.sin(a) * t.sin(b)
  }

  /** Squared length of the axis vector (x, y, z). */
  function AxisLengthSquared(x: real, y: real, z: real): real {
    x * x + y * y + z * z
  }

  /** The rotation by `radians` about the axis (x, y, z): the half-angle
      sine scales the axis, the half-angle cosine is the scalar part. The
      axis is used as given, not normalised. For a unit axis the result is
      a rotation, and the rotation by angle zero is the identity. */
  function AngleAxis(t: Trig, radians: real, x: real, y: real, z: real): (q: Quaternion)
    ensures AxisLengthSquared(x, y, z) == 1.0 && PythagoreanAt(t, radians * 0.5) ==> IsUnit(q)
    ensures radians == 0.0 && ZeroAngleLaw(t) ==> q == Identity
    ensures AxisLengthSquared(q.x, q.y, q.z) == t.sin(radians * 0.5) * t.sin(radians * 0.5) * AxisLengthSquared(x, y, z)
  {
    var half := radians * 0.5;
    var scale := t.sin(half);
    Quaternion(scale * x, scale * y, scale * z, t.cos(half))
  }

  /** Two rotations about the z axis (0, 0, 1) compose into one rotation
      about that axis by the sum of the angles, when the angle-sum formulas
      hold at the two half angles. */
  lemma {:induction false} AngleAxisSumZ(t: Trig, a: real, b: real)
    requires AngleSumAt(t, b * 0.5, a * 0.5)
    ensures Mul(AngleAxis(t, b, 0.0, 0.0, 1.0), AngleAxis(t, a, 0.0, 0.0, 1.0)) == AngleAxis(t, a + b, 0.0, 0.0, 1.0)
  {
    var h := (a + b) * 0.5;
    assert h == b * 0.5 + a * 0.5;
  }
}
