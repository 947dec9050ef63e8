/** The matrix builders: viewport, perspective projection, affine and
    rotation matrices, and the look-at view matrix, each written as the
    matrix of its sixteen entries. */
module Builders {
  import opened Kernel
  import opened Libm

  /** Viewport: NDC x in [-1, 1] goes to [left, left + width], NDC y in
      [-1, 1] goes to [top + height, top] (y is flipped) and NDC z in
      [0, 1] goes to [minDepth, maxDepth]; the translation sits in row 3. */
  function MakeViewportMatrix(left: real, top: real, width: real, height: real,
                              minDepth: real, maxDepth: real): (m: Matrix4x4)
    ensures HasAffineColumn(m)
  {
    var halfW := width / 2.0;
    var halfH := height / 2.0;
    var depth := maxDepth - minDepth;
    Matrix4x4(
      halfW, 0.0, 0.0, 0.0,
      0.0, -halfH, 0.0, 0.0,
      0.0, 0.0, depth, 0.0,
      left + halfW, top + halfH, minDepth, 1.0)
  }

  /** The viewport transform of any point, written as the affine map of each
      coordinate; no divide happens because w stays 1. */
  lemma ViewportMapsNdc(v: Vector3, left: real, top: real, width: real, height: real,
                        minDepth: real, maxDepth: real)
    ensures TransformWithW(v, MakeViewportMatrix(left, top, width, height, minDepth, maxDepth))
         == Vector3(left + (v.x + 1.0) * (width / 2.0),
                    top + (1.0 - v.y) * (height / 2.0),
                    minDepth + v.z * (maxDepth - minDepth))
  {
    var m := MakeViewportMatrix(left, top, width, height, minDepth, maxDepth);
    AffineColumnNoDivide(v, m);
  }

  /** The top-left-near NDC corner (-1, 1, 0) lands on (left, top, minDepth),
      and the bottom-right-far corner (1, -1, 1) on
      (left + width, top + height, maxDepth). */
  lemma ViewportCorners(left: real, top: real, width: real, height: real,
                        minDepth: real, maxDepth: real)
    ensures TransformWithW(Vector3(-1.0, 1.0, 0.0), MakeViewportMatrix(left, top, width, height, minDepth, maxDepth))
         == Vector3(left, top, minDepth)
    ensures TransformWithW(Vector3(1.0, -1.0, 1.0), MakeViewportMatrix(left, top, width, height, minDepth, maxDepth))
         == Vector3(left + width, top + height, maxDepth)
  {
    ViewportMapsNdc(Vector3(-1.0, 1.0, 0.0), left, top, width, height, minDepth, maxDepth);
    ViewportMapsNdc(Vector3(1.0, -1.0, 1.0), left, top, width, height, minDepth, maxDepth);
  }

  /** The divisions the perspective builder performs are all by non-zero
      values: tan(fovY / 2), the aspect ratio and far - near. */
  predicate PerspectiveDefined(libm: Libm, fovY: real, aspect: real, nearZ: real, farZ: real)
  {
    libm.tan(fovY / 2.0) != 0.0 && aspect != 0.0 && farZ != nearZ
  }

  /** Right-handed perspective projection in the row-vector layout. The only
      non-zero entries are the two scales, the depth pair in column 2 and
      m[2][3] = -1, which copies -z into w; m[3][3] stays 0. */
  function MakePerspectiveFovMatrix(libm: Libm, fovY: real, aspect: real, nearZ: real, farZ: real): (m: Matrix4x4)
    requires PerspectiveDefined(libm, fovY, aspect, nearZ, farZ)
    ensures m.m00 * aspect == m.m11
    ensures m.m11 * libm.tan(fovY / 2.0) == 1.0
  {
    var yScale := 1.0 / libm.tan(fovY / 2.0);
    var xScale := yScale / aspect;
    Matrix4x4(
      xScale, 0.0, 0.0, 0.0,
      0.0, yScale, 0.0, 0.0,
      0.0, 0.0, -(farZ + nearZ) / (farZ - nearZ), -1.0,
      0.0, 0.0, -(2.0 * farZ * nearZ) / (farZ - nearZ), 0.0)
  }

  /** The projection scales x and y, mixes z into the depth pair and puts -z
      into w, whatever the point. */
  lemma PerspectiveW(libm: Libm, fovY: real, aspect: real, nearZ: real, farZ: real, v: Vector3)
    requires PerspectiveDefined(libm, fovY, aspect, nearZ, farZ)
    ensures var m := MakePerspectiveFovMatrix(libm, fovY, aspect, nearZ, farZ);
      Apply(Point(v), m) == Vector4(v.x * m.m00, v.y * m.m11, v.z * m.m22 + m.m32, -v.z)
  {
  }

  /** A point on the viewing axis (0, 0, z) with z ≠ 0 is projected to the
      centre x = y = 0. */
  lemma PerspectiveOnAxis(libm: Libm, fovY: real, aspect: real, nearZ: real, farZ: real, z: real)
    requires PerspectiveDefined(libm, fovY, aspect, nearZ, farZ)
    requires z != 0.0
    ensures var r := TransformWithW(Vector3(0.0, 0.0, z), MakePerspectiveFovMatrix(libm, fovY, aspect, nearZ, farZ));
      r.x == 0.0 && r.y == 0.0
  {
    PerspectiveW(libm, fovY, aspect, nearZ, farZ, Vector3(0.0, 0.0, z));
  }

  /** A point with z = 0 gets w = 0 and is returned undivided. */
  lemma PerspectiveUndividedAtZeroDepth(libm: Libm, fovY: real, aspect: real, nearZ: real, farZ: real, v: Vector3)
    requires PerspectiveDefined(libm, fovY, aspect, nearZ, farZ)
    requires v.z == 0.0
    ensures var m := MakePerspectiveFovMatrix(libm, fovY, aspect, nearZ, farZ);
      TransformWithW(v, m) == Xyz(Apply(Point(v), m))
  {
    PerspectiveW(libm, fovY, aspect, nearZ, farZ, v);
  }

  /** The depth pair of the projection, m[2][2] and m[3][2], times far - near. */
  lemma DepthEntries(libm: Libm, fovY: real, aspect: real, nearZ: real, farZ: real)
    requires PerspectiveDefined(libm, fovY, aspect, nearZ, farZ)
    ensures var m := MakePerspectiveFovMatrix(libm, fovY, aspect, nearZ, farZ);
      m.m22 * (farZ - nearZ) == -(farZ + nearZ) && m.m32 * (farZ - nearZ) == -(2.0 * farZ * nearZ)
  {
  }

  lemma Cancel(x: real, y: real, d: real)
    requires d != 0.0 && x * d == y * d
    ensures x == y
  {
    assert (x - y) * d == 0.0;
  }

  /** The homogeneous depth -z·m[2][2] + m[3][2] of a point at z, in the two
      cases where it equals the point's w times ∓1. */
  lemma PlaneDepth(nearZ: real, farZ: real, a: real, b: real)
    requires farZ != nearZ
    requires a * (farZ - nearZ) == -(farZ + nearZ) && b * (farZ - nearZ) == -(2.0 * farZ * nearZ)
    ensures (-nearZ) * a + b == -nearZ
    ensures (-farZ) * a + b == farZ
  {
    var d := farZ - nearZ;
    assert ((-nearZ) * a + b) * d == (-nearZ) * (a * d) + b * d;
    assert ((-farZ) * a + b) * d == (-farZ) * (a * d) + b * d;
    Cancel((-nearZ) * a + b, -nearZ, d);
    Cancel((-farZ) * a + b, farZ, d);
  }

  /** The near plane z = -near maps to depth -1 (OpenGL-style clip range). */
  lemma PerspectiveNearPlane(libm: Libm, fovY: real, aspect: real, nearZ: real, farZ: real, x: real, y: real)
    requires PerspectiveDefined(libm, fovY, aspect, nearZ, farZ)
    requires nearZ != 0.0
    ensures TransformWithW(Vector3(x, y, -nearZ), MakePerspectiveFovMatrix(libm, fovY, aspect, nearZ, farZ)).z == -1.0
  {
    var m := MakePerspectiveFovMatrix(libm, fovY, aspect, nearZ, farZ);
    var v := Vector3(x, y, -nearZ);
    DepthEntries(libm, fovY, aspect, nearZ, farZ);
    PlaneDepth(nearZ, farZ, m.m22, m.m32);
    PerspectiveW(libm, fovY, aspect, nearZ, farZ, v);
    DividedDepth(v, m, -1.0);
  }

  /** The far plane z = -far maps to depth +1. */
  lemma PerspectiveFarPlane(libm: Libm, fovY: real, aspect: real, nearZ: real, farZ: real, x: real, y: real)
    requires PerspectiveDefined(libm, fovY, aspect, nearZ, farZ)
    requires farZ != 0.0
    ensures TransformWithW(Vector3(x, y, -farZ), MakePerspectiveFovMatrix(libm, fovY, aspect, nearZ, farZ)).z == 1.0
  {
    var m := MakePerspectiveFovMatrix(libm, fovY, aspect, nearZ, farZ);
    var v := Vector3(x, y, -farZ);
    DepthEntries(libm, fovY, aspect, nearZ, farZ);
    PlaneDepth(nearZ, farZ, m.m22, m.m32);
    PerspectiveW(libm, fovY, aspect, nearZ, farZ, v);
    DividedDepth(v, m, 1.0);
  }

  /** The rotation matrix for given cosines and sines of the three angles. */
  function RotationFrom(cosX: real, sinX: real, cosY: real, sinY: real, cosZ: real, sinZ: real): Matrix4x4
  {
    Matrix4x4(
      cosY * cosZ, cosY * sinZ, -sinY, 0.0,
      sinX * sinY * cosZ - cosX * sinZ, sinX * sinY * sinZ + cosX * cosZ, sinX * cosY, 0.0,
      cosX * sinY * cosZ + sinX * sinZ, cosX * sinY * sinZ - sinX * cosZ, cosX * cosY, 0.0,
      0.0, 0.0, 0.0, 1.0)
  }

  /** Rotation by Euler angles (x, then y, then z), built from cosf/sinf of
      each angle; only the upper-left 3×3 block is non-trivial. */
  function MakeRotationMatrix(libm: Libm, rotate: Vector3): (m: Matrix4x4)
    ensures HasAffineColumn(m) && HasAffineRow(m)
  {
    RotationFrom(libm.cos(rotate.x), libm.sin(rotate.x), libm.cos(rotate.y),
                 libm.sin(rotate.y), libm.cos(rotate.z), libm.sin(rotate.z))
  }

  /** With cos 0 = 1 and sin 0 = 0, zero angles give the identity. */
  lemma RotationZeroIsIdentity(libm: Libm)
    requires ZeroAngle(libm)
    ensures MakeRotationMatrix(libm, Origin) == Identity
  {
  }

  /** The squared length of row `i` of the 3×3 block. */
  function RowLength(m: Matrix4x4, i: nat): real
    requires i < 3
  {
    var r := Row(m, i);
    r.x * r.x + r.y * r.y + r.z * r.z
  }

  /** Given cos² + sin² = 1, each row of the rotation block is a unit vector. */
  lemma RotationRowsUnit(libm: Libm, rotate: Vector3, i: nat)
    requires Pythagorean(libm) && i < 3
    ensures RowLength(MakeRotationMatrix(libm, rotate), i) == 1.0
  {
    var cx, sx := libm.cos(rotate.x), libm.sin(rotate.x);
    var cy, sy := libm.cos(rotate.y), libm.sin(rotate.y);
    var cz, sz := libm.cos(rotate.z), libm.sin(rotate.z);
    assert cx * cx + sx * sx == 1.0 && cy * cy + sy * sy == 1.0 && cz * cz + sz * sz == 1.0;
    RotationFromRowsUnit(cx, sx, cy, sy, cz, sz, i);
  }

  lemma RotationFromRowsUnit(cx: real, sx: real, cy: real, sy: real, cz: real, sz: real, i: nat)
    requires cx * cx + sx * sx == 1.0 && cy * cy + sy * sy == 1.0 && cz * cz + sz * sz == 1.0
    requires i < 3
    ensures RowLength(RotationFrom(cx, sx, cy, sy, cz, sz), i) == 1.0
  {
    var m := RotationFrom(cx, sx, cy, sy, cz, sz);
    if i == 0 {
      FirstRowUnit(m.m00, m.m01, m.m02, cy, sy, cz, sz);
    } else if i == 1 {
      MixedRowUnit(m.m10, m.m11, m.m12, sx, cx, sy, cy, cz, sz);
    } else {
      MixedRowUnit(m.m21, m.m20, m.m22, cx, sx, sy, cy, sz, cz);
    }
  }

  /** Dot product of rows `i` and `j` of the 3×3 block. */
  function RowDot(m: Matrix4x4, i: nat, j: nat): real
    requires i < 3 && j < 3
  {
    var a := Row(m, i);
    var b := Row(m, j);
    a.x * b.x + a.y * b.y + a.z * b.z
  }

  /** Given cos² + sin² = 1, distinct rows of the rotation block are
      orthogonal. */
  lemma RotationRowsOrthogonal(libm: Libm, rotate: Vector3, i: nat, j: nat)
    requires Pythagorean(libm) && i < j < 3
    ensures RowDot(MakeRotationMatrix(libm, rotate), i, j) == 0.0
  {
    var cx, sx := libm.cos(rotate.x), libm.sin(rotate.x);
    var cy, sy := libm.cos(rotate.y), libm.sin(rotate.y);
    var cz, sz := libm.cos(rotate.z), libm.sin(rotate.z);
    assert cx * cx + sx * sx == 1.0 && cy * cy + sy * sy == 1.0 && cz * cz + sz * sz == 1.0;
    RotationFromRowsOrthogonal(cx, sx, cy, sy, cz, sz, i, j);
  }

  lemma RotationFromRowsOrthogonal(cx: real, sx: real, cy: real, sy: real, cz: real, sz: real, i: nat, j: nat)
    requires cx * cx + sx * sx == 1.0 && cy * cy + sy * sy == 1.0 && cz * cz + sz * sz == 1.0
    requires i < j < 3
    ensures RowDot(RotationFrom(cx, sx, cy, sy, cz, sz), i, j) == 0.0
  {
    var m := RotationFrom(cx, sx, cy, sy, cz, sz);
    if i == 0 && j == 1 {
      FirstRowOrthogonal(m.m00, m.m01, m.m02, m.m10, m.m11, m.m12, sx, cx, cy, sy, cz, sz);
    } else if i == 0 {
      FirstRowOrthogonal(m.m00, m.m01, m.m02, m.m20, m.m21, m.m22, cx, -sx, cy, sy, cz, sz);
    } else {
      MixedRowsOrthogonal(m.m10, m.m11, m.m12, m.m20, m.m21, m.m22, cx, sx, cy, sy, cz, sz);
    }
  }

  /** Row 0 against a row of shape (p·sy·cz − q·sz, p·sy·sz + q·cz, p·cy).
      This and the three lemmas after it restate the row facts over plain
      real atoms, which the solver handles far more cheaply than matrix
      entries. */
  lemma FirstRowOrthogonal(a0: real, a1: real, a2: real, b0: real, b1: real, b2: real,
      p: real, q: real, cy: real, sy: real, cz: real, sz: real)
    requires cz * cz + sz * sz == 1.0
    requires a0 == cy * cz && a1 == cy * sz && a2 == -sy
    requires b0 == p * sy * cz - q * sz && b1 == p * sy * sz + q * cz && b2 == p * cy
    ensures a0 * b0 + a1 * b1 + a2 * b2 == 0.0
  {
    var u := p * sy;
    assert a0 * b0 == cy * u * (cz * cz) - cy * q * (cz * sz);
    assert a1 * b1 == cy * u * (sz * sz) + cy * q * (cz * sz);
    assert a0 * b0 + a1 * b1 == cy * u * (cz * cz + sz * sz);
  }

  lemma MixedRowsOrthogonal(a0: real, a1: real, a2: real, b0: real, b1: real, b2: real,
      cx: real, sx: real, cy: real, sy: real, cz: real, sz: real)
    requires cy * cy + sy * sy == 1.0 && cz * cz + sz * sz == 1.0
    requires a0 == sx * sy * cz - cx * sz && a1 == sx * sy * sz + cx * cz && a2 == sx * cy
    requires b0 == cx * sy * cz + sx * sz && b1 == cx * sy * sz - sx * cz && b2 == cx * cy
    ensures a0 * b0 + a1 * b1 + a2 * b2 == 0.0
  {
    var u, v := sx * sy, cx * sy;
    assert a0 * b0 == u * v * (cz * cz) + (u * sx - cx * v) * (cz * sz) - cx * sx * (sz * sz);
    assert a1 * b1 == u * v * (sz * sz) - (u * sx - cx * v) * (cz * sz) - cx * sx * (cz * cz);
    assert a0 * b0 + a1 * b1 == (u * v - cx * sx) * (cz * cz + sz * sz);
    assert u * v + a2 * b2 == (sx * cx) * (sy * sy + cy * cy);
  }

  /** Row 0 is (cy·cz, cy·sz, −sy). */
  lemma FirstRowUnit(a: real, b: real, d: real, cy: real, sy: real, cz: real, sz: real)
    requires cy * cy + sy * sy == 1.0 && cz * cz + sz * sz == 1.0
    requires a == cy * cz && b == cy * sz && d == -sy
    ensures a * a + b * b + d * d == 1.0
  {
    assert a * a + b * b == (cy * cy) * (cz * cz + sz * sz);
  }

  /** Rows 1 and 2 share one shape (p·sy·c − q·s, p·sy·s + q·c, p·cy): row 1
      with (p, q, c, s) = (sin x, cos x, cos z, sin z), and row 2, its first
      two entries swapped, with (cos x, sin x, sin z, cos z). */
  lemma MixedRowUnit(a: real, b: real, d: real, p: real, q: real, sy: real, cy: real, c: real, s: real)
    requires p * p + q * q == 1.0 && cy * cy + sy * sy == 1.0 && c * c + s * s == 1.0
    requires a == p * sy * c - q * s && b == p * sy * s + q * c && d == p * cy
    ensures a * a + b * b + d * d == 1.0
  {
    var u := p * sy;
    assert a * a + b * b == (u * u + q * q) * (c * c + s * s);
    assert u * u + d * d == (p * p) * (sy * sy + cy * cy);
  }

  /** The affine matrix for given scale, cosines and sines, and translation. */
  function AffineFrom(scale: Vector3, cosX: real, sinX: real, cosY: real, sinY: real, cosZ: real, sinZ: real,
      translate: Vector3): Matrix4x4
  {
    Matrix4x4(
      scale.x * (cosY * cosZ), scale.x * (cosY * sinZ), scale.x * (-sinY), translate.x,
      scale.y * (sinX * sinY * cosZ - cosX * sinZ), scale.y * (sinX * sinY * sinZ + cosX * cosZ), scale.y * (sinX * cosY), translate.y,
      scale.z * (cosX * sinY * cosZ + sinX * sinZ), scale.z * (cosX * sinY * sinZ - sinX * cosZ), scale.z * (cosX * cosY), translate.z,
      0.0, 0.0, 0.0, 1.0)
  }

  /** Scale, rotate and translate in the column-vector layout read by
      `Transform`: the translation sits in column 3 and row 3 is (0, 0, 0, 1). */
  function MakeAffineMatrix(libm: Libm, scale: Vector3, rotate: Vector3, translate: Vector3): (m: Matrix4x4)
    ensures HasAffineRow(m)
    ensures Transform(Origin, m) == translate
  {
    AffineFrom(scale, libm.cos(rotate.x), libm.sin(rotate.x), libm.cos(rotate.y),
               libm.sin(rotate.y), libm.cos(rotate.z), libm.sin(rotate.z), translate)
  }

  /** The 3×3 block of an affine matrix is the rotation matrix with row i
      scaled by the i-th scale factor; column 3 is the translation. */
  predicate ScaledRotation(m: Matrix4x4, scale: Vector3, r: Matrix4x4, translate: Vector3)
  {
    m.m00 == scale.x * r.m00 && m.m01 == scale.x * r.m01 && m.m02 == scale.x * r.m02
    && m.m10 == scale.y * r.m10 && m.m11 == scale.y * r.m11 && m.m12 == scale.y * r.m12
    && m.m20 == scale.z * r.m20 && m.m21 == scale.z * r.m21 && m.m22 == scale.z * r.m22
    && Vector3(m.m03, m.m13, m.m23) == translate
  }

  /** Unit scale and zero angles leave a pure translation. */
  lemma AffineUnitScaleTranslates(libm: Libm, translate: Vector3, v: Vector3)
    requires ZeroAngle(libm)
    ensures Transform(v, MakeAffineMatrix(libm, Vector3(1.0, 1.0, 1.0), Origin, translate)) == Add(v, translate)
  {
  }

  /** The affine builder and the rotation builder agree: the affine matrix
      is the rotation with row i scaled by the i-th scale factor and the
      translation put in column 3. */
  lemma AffineIsScaledRotation(libm: Libm, scale: Vector3, rotate: Vector3, translate: Vector3)
    ensures ScaledRotation(MakeAffineMatrix(libm, scale, rotate, translate), scale,
                           MakeRotationMatrix(libm, rotate), translate)
  {
    AffineFromScalesRotation(scale, libm.cos(rotate.x), libm.sin(rotate.x), libm.cos(rotate.y),
      libm.sin(rotate.y), libm.cos(rotate.z), libm.sin(rotate.z), translate);
  }

  lemma AffineFromScalesRotation(scale: Vector3, cx: real, sx: real, cy: real, sy: real, cz: real, sz: real,
      translate: Vector3)
    ensures ScaledRotation(AffineFrom(scale, cx, sx, cy, sy, cz, sz, translate), scale,
                           RotationFrom(cx, sx, cy, sy, cz, sz), translate)
  {
  }

  /** `v` scaled to unit length by the library square root. */
  function Normalize(libm: Libm, v: Vector3): (r: Vector3)
    requires libm.sqrt(Dot(v, v)) != 0.0
    ensures var length := libm.sqrt(Dot(v, v));
      r.x * length == v.x && r.y * length == v.y && r.z * length == v.z
  {
    DivideBy(v, libm.sqrt(Dot(v, v)))
  }

  /** The look-at axes: z points from the target back to the eye, x is
      up × z and y is z × x; z and x are normalised, y is not. */
  datatype Basis = Basis(xAxis: Vector3, yAxis: Vector3, zAxis: Vector3)

  /** Both normalisations of the look-at builder divide by a non-zero length. */
  predicate LookAtDefined(libm: Libm, eye: Vector3, target: Vector3, up: Vector3)
  {
    var z0 := Sub(eye, target);
    libm.sqrt(Dot(z0, z0)) != 0.0
    && var x0 := Cross(up, Normalize(libm, z0));
    libm.sqrt(Dot(x0, x0)) != 0.0
  }

  function LookAtBasis(libm: Libm, eye: Vector3, target: Vector3, up: Vector3): (b: Basis)
    requires LookAtDefined(libm, eye, target, up)
    ensures Dot(b.xAxis, b.zAxis) == 0.0
    ensures Dot(b.yAxis, b.zAxis) == 0.0 && Dot(b.yAxis, b.xAxis) == 0.0
  {
    var zAxis := Normalize(libm, Sub(eye, target));
    var x0 := Cross(up, zAxis);
    var xAxis := Normalize(libm, x0);
    DotDivideBy(zAxis, x0, libm.sqrt(Dot(x0, x0)));
    Basis(xAxis, Cross(zAxis, xAxis), zAxis)
  }

  /** The view matrix of a basis and an eye point: the axes are the columns
      of the 3×3 block and row 3 holds minus each axis dotted with the eye. */
  function ViewFromBasis(b: Basis, eye: Vector3): (m: Matrix4x4)
    ensures HasAffineColumn(m)
  {
    Matrix4x4(
      b.xAxis.x, b.yAxis.x, b.zAxis.x, 0.0,
      b.xAxis.y, b.yAxis.y, b.zAxis.y, 0.0,
      b.xAxis.z, b.yAxis.z, b.zAxis.z, 0.0,
      -Dot(b.xAxis, eye), -Dot(b.yAxis, eye), -Dot(b.zAxis, eye), 1.0)
  }

  /** A point's view coordinates are its offset from the eye projected on the
      three axes, with w = 1. */
  lemma ViewCoordinates(b: Basis, eye: Vector3, p: Vector3)
    ensures Apply(Point(p), ViewFromBasis(b, eye))
         == Vector4(Dot(Sub(p, eye), b.xAxis), Dot(Sub(p, eye), b.yAxis), Dot(Sub(p, eye), b.zAxis), 1.0)
  {
    var h := Apply(Point(p), ViewFromBasis(b, eye));
    assert h.x == Dot(Sub(p, eye), b.xAxis) by { OffsetDot(p, eye, b.xAxis); }
    assert h.y == Dot(Sub(p, eye), b.yAxis) by { OffsetDot(p, eye, b.yAxis); }
    assert h.z == Dot(Sub(p, eye), b.zAxis) by { OffsetDot(p, eye, b.zAxis); }
  }

  /** The offset from the eye dotted with an axis is the point dotted with
      the axis, minus the eye dotted with it. */
  lemma OffsetDot(p: Vector3, e: Vector3, a: Vector3)
    ensures Dot(Sub(p, e), a) == p.x * a.x + p.y * a.y + p.z * a.z - Dot(a, e)
  {
    OffsetTerms(p.x, p.y, p.z, e.x, e.y, e.z, a.x, a.y, a.z);
  }

  /** `OffsetDot` over plain real atoms, which the solver expands far more
      cheaply than over record fields. */
  lemma OffsetTerms(px: real, py: real, pz: real, ex: real, ey: real, ez: real, ax: real, ay: real, az: real)
    ensures (px - ex) * ax + (py - ey) * ay + (pz - ez) * az
         == px * ax + py * ay + pz * az - (ax * ex + ay * ey + az * ez)
  {
  }

  /** The right-handed look-at view matrix in the row-vector layout. */
  function MakeLookAtMatrix(libm: Libm, eye: Vector3, target: Vector3, up: Vector3): (m: Matrix4x4)
    requires LookAtDefined(libm, eye, target, up)
    ensures HasAffineColumn(m)
  {
    ViewFromBasis(LookAtBasis(libm, eye, target, up), eye)
  }

  /** The eye is the origin of view space. */
  lemma LookAtEyeAtOrigin(libm: Libm, eye: Vector3, target: Vector3, up: Vector3)
    requires LookAtDefined(libm, eye, target, up)
    ensures Apply(Point(eye), MakeLookAtMatrix(libm, eye, target, up)) == Vector4(0.0, 0.0, 0.0, 1.0)
    ensures TransformWithW(eye, MakeLookAtMatrix(libm, eye, target, up)) == Origin
  {
    var b := LookAtBasis(libm, eye, target, up);
    ViewCoordinates(b, eye, eye);
    assert Sub(eye, eye) == Origin;
    AffineColumnNoDivide(eye, MakeLookAtMatrix(libm, eye, target, up));
  }

  /** The target lies on the view axis: its view-space x and y are zero,
      because the x and y axes are both orthogonal to the z axis, which is
      parallel to the eye-to-target offset. */
  lemma LookAtTargetOnAxis(libm: Libm, eye: Vector3, target: Vector3, up: Vector3)
    requires LookAtDefined(libm, eye, target, up)
    ensures var h := Apply(Point(target), MakeLookAtMatrix(libm, eye, target, up));
      h.x == 0.0 && h.y == 0.0 && h.w == 1.0
  {
    var b := LookAtBasis(libm, eye, target, up);
    var z0 := Sub(eye, target);
    var lz := libm.sqrt(Dot(z0, z0));
    var x0 := Cross(up, b.zAxis);
    var lx := libm.sqrt(Dot(x0, x0));
    ViewCoordinates(b, eye, target);
    assert Dot(x0, z0) == 0.0 by {
      DotDivideBy(x0, z0, lz);
    }
    assert Dot(Sub(target, eye), x0) == 0.0 by {
      DotReversed(target, eye, x0);
      DotSymmetric(z0, x0);
    }
    assert Dot(Sub(target, eye), b.xAxis) == 0.0 by {
      DotDivideBy(Sub(target, eye), x0, lx);
      ZeroFactor(Dot(Sub(target, eye), b.xAxis), lx);
    }
    assert Dot(b.yAxis, z0) == 0.0 by {
      DotDivideBy(b.yAxis, z0, lz);
    }
    assert Dot(Sub(target, eye), b.yAxis) == 0.0 by {
      DotReversed(target, eye, b.yAxis);
      DotSymmetric(z0, b.yAxis);
    }
  }

  lemma ZeroFactor(x: real, k: real)
    requires k != 0.0 && x * k == 0.0
    ensures x == 0.0
  {
  }

  /** With a square root that is 0 at 0 and positive on positive numbers,
      the target lies in front of the camera: view-space z < 0. (The look-at
      matrix being defined already forces the target to differ from the eye.) */
  lemma LookAtTargetInFront(libm: Libm, eye: Vector3, target: Vector3, up: Vector3)
    requires LookAtDefined(libm, eye, target, up)
    requires SqrtPositive(libm)
    ensures Apply(Point(target), MakeLookAtMatrix(libm, eye, target, up)).z < 0.0
  {
    var b := LookAtBasis(libm, eye, target, up);
    var z0 := Sub(eye, target);
    var lz := libm.sqrt(Dot(z0, z0));
    ViewCoordinates(b, eye, target);
    DotSelfNonNegative(z0);
    assert Dot(z0, z0) != 0.0;
    assert lz > 0.0;
    assert Dot(z0, b.zAxis) > 0.0 by {
      DotDivideBy(z0, z0, lz);
      PositiveFactor(Dot(z0, b.zAxis), lz, Dot(z0, z0));
    }
    DotReversed(target, eye, b.zAxis);
  }

  lemma PositiveFactor(x: real, k: real, p: real)
    requires k > 0.0 && x * k == p && p > 0.0
    ensures x > 0.0
  {
  }
}
