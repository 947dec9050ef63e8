/** The linear-algebra kernel: 3- and 4-component vectors, 4×4 matrices, the
    matrix product, the cross product and the two point transforms. Entry
    `m.mij` of a matrix is the source's `m.m[i][j]`. */
module Kernel {

  datatype Vector3 = Vector3(x: real, y: real, z: real)

  /** A homogeneous point; only ever an intermediate of a transform. */
  datatype Vector4 = Vector4(x: real, y: real, z: real, w: real)

  datatype Matrix4x4 = Matrix4x4(
    m00: real, m01: real, m02: real, m03: real,
    m10: real, m11: real, m12: real, m13: real,
    m20: real, m21: real, m22: real, m23: real,
    m30: real, m31: real, m32: real, m33: real)

  const Origin: Vector3 := Vector3(0.0, 0.0, 0.0)

  const Identity: Matrix4x4 := Matrix4x4(
    1.0, 0.0, 0.0, 0.0,
    0.0, 1.0, 0.0, 0.0,
    0.0, 0.0, 1.0, 0.0,
    0.0, 0.0, 0.0, 1.0)

  function Add(a: Vector3, b: Vector3): Vector3
  {
    Vector3(a.x + b.x, a.y + b.y, a.z + b.z)
  }

  function Sub(a: Vector3, b: Vector3): Vector3
  {
    Vector3(a.x - b.x, a.y - b.y, a.z - b.z)
  }

  function Dot(a: Vector3, b: Vector3): real
  {
    a.x * b.x + a.y * b.y + a.z * b.z
  }

  lemma DotSymmetric(a: Vector3, b: Vector3)
    ensures Dot(a, b) == Dot(b, a)
  {
  }

  /** Reversing the offset negates its dot product with any vector. */
  lemma DotReversed(p: Vector3, q: Vector3, v: Vector3)
    ensures Dot(Sub(p, q), v) == -Dot(Sub(q, p), v)
  {
    assert (p.x - q.x) * v.x == -((q.x - p.x) * v.x);
    assert (p.y - q.y) * v.y == -((q.y - p.y) * v.y);
    assert (p.z - q.z) * v.z == -((q.z - p.z) * v.z);
  }

  /** A squared length is never negative. */
  lemma DotSelfNonNegative(v: Vector3)
    ensures Dot(v, v) >= 0.0
  {
    SumOfSquares(v.x, v.y, v.z, Dot(v, v));
  }

  lemma SumOfSquares(x: real, y: real, z: real, d: real)
    requires d == x * x + y * y + z * z
    ensures d >= 0.0
  {
    Square(x);
    Square(y);
    Square(z);
  }

  lemma Square(a: real)
    ensures a * a >= 0.0
  {
    if a < 0.0 {
      assert a * a == (-a) * (-a);
    }
  }

  /** `v` with every coordinate divided by `k`. */
  function DivideBy(v: Vector3, k: real): Vector3
    requires k != 0.0
  {
    Vector3(v.x / k, v.y / k, v.z / k)
  }

  /** Dividing one factor of a dot product by `k` divides the product by `k`. */
  lemma DotDivideBy(u: Vector3, v: Vector3, k: real)
    requires k != 0.0
    ensures Dot(u, DivideBy(v, k)) * k == Dot(u, v)
  {
    var w := DivideBy(v, k);
    assert w.x * k == v.x && w.y * k == v.y && w.z * k == v.z;
    assert Dot(u, w) * k == u.x * (w.x * k) + u.y * (w.y * k) + u.z * (w.z * k);
  }

  function Row(m: Matrix4x4, i: nat): Vector4
    requires i < 4
  {
    if i == 0 then Vector4(m.m00, m.m01, m.m02, m.m03)
    else if i == 1 then Vector4(m.m10, m.m11, m.m12, m.m13)
    else if i == 2 then Vector4(m.m20, m.m21, m.m22, m.m23)
    else Vector4(m.m30, m.m31, m.m32, m.m33)
  }

  function Column(m: Matrix4x4, j: nat): Vector4
    requires j < 4
  {
    if j == 0 then Vector4(m.m00, m.m10, m.m20, m.m30)
    else if j == 1 then Vector4(m.m01, m.m11, m.m21, m.m31)
    else if j == 2 then Vector4(m.m02, m.m12, m.m22, m.m32)
    else Vector4(m.m03, m.m13, m.m23, m.m33)
  }

  /** Component `k` of a 4-vector, counting x, y, z, w from 0. */
  function Component(h: Vector4, k: nat): real
    requires k < 4
  {
    if k == 0 then h.x else if k == 1 then h.y else if k == 2 then h.z else h.w
  }

  /** The value an entry of the product holds after the innermost loop has
      run `k` times over row `r` of the left factor and column `c` of the
      right one: it starts from zero and step `k` adds `r[k] * c[k]`. */
  function Accumulated(r: Vector4, c: Vector4, k: nat): real
    requires k <= 4
  {
    if k == 0 then 0.0
    else Accumulated(r, c, k - 1) + Component(r, k - 1) * Component(c, k - 1)
  }

  function Dot4(r: Vector4, c: Vector4): real
  {
    r.x * c.x + r.y * c.y + r.z * c.z + r.w * c.w
  }

  /** Four steps of the loop leave the dot product of `r` and `c`. */
  lemma {:induction false} AccumulatedFour(r: Vector4, c: Vector4)
    ensures Accumulated(r, c, 4) == Dot4(r, c)
  {
    assert Accumulated(r, c, 1) == r.x * c.x;
    assert Accumulated(r, c, 2) == Accumulated(r, c, 1) + r.y * c.y;
    assert Accumulated(r, c, 3) == Accumulated(r, c, 2) + r.z * c.z;
  }

  /** The matrix product: entry `(row, col)` is row `row` of `a` dotted with
      column `col` of `b`. */
  function Multiply(a: Matrix4x4, b: Matrix4x4): Matrix4x4
  {
    Matrix4x4(
      Dot4(Row(a, 0), Column(b, 0)), Dot4(Row(a, 0), Column(b, 1)), Dot4(Row(a, 0), Column(b, 2)), Dot4(Row(a, 0), Column(b, 3)),
      Dot4(Row(a, 1), Column(b, 0)), Dot4(Row(a, 1), Column(b, 1)), Dot4(Row(a, 1), Column(b, 2)), Dot4(Row(a, 1), Column(b, 3)),
      Dot4(Row(a, 2), Column(b, 0)), Dot4(Row(a, 2), Column(b, 1)), Dot4(Row(a, 2), Column(b, 2)), Dot4(Row(a, 2), Column(b, 3)),
      Dot4(Row(a, 3), Column(b, 0)), Dot4(Row(a, 3), Column(b, 1)), Dot4(Row(a, 3), Column(b, 2)), Dot4(Row(a, 3), Column(b, 3)))
  }

  /** Every entry of the product is what the source's triple loop leaves in
      it: zero plus the four products of row `row` of `a` with column `col`
      of `b`, added for k = 0, 1, 2, 3. */
  lemma {:induction false} MultiplyEntries(a: Matrix4x4, b: Matrix4x4)
    ensures Multiply(a, b) == Matrix4x4(
      Accumulated(Row(a, 0), Column(b, 0), 4), Accumulated(Row(a, 0), Column(b, 1), 4), Accumulated(Row(a, 0), Column(b, 2), 4), Accumulated(Row(a, 0), Column(b, 3), 4),
      Accumulated(Row(a, 1), Column(b, 0), 4), Accumulated(Row(a, 1), Column(b, 1), 4), Accumulated(Row(a, 1), Column(b, 2), 4), Accumulated(Row(a, 1), Column(b, 3), 4),
      Accumulated(Row(a, 2), Column(b, 0), 4), Accumulated(Row(a, 2), Column(b, 1), 4), Accumulated(Row(a, 2), Column(b, 2), 4), Accumulated(Row(a, 2), Column(b, 3), 4),
      Accumulated(Row(a, 3), Column(b, 0), 4), Accumulated(Row(a, 3), Column(b, 1), 4), Accumulated(Row(a, 3), Column(b, 2), 4), Accumulated(Row(a, 3), Column(b, 3), 4))
  {
    AccumulatedFour(Row(a, 0), Column(b, 0));
    AccumulatedFour(Row(a, 0), Column(b, 1));
    AccumulatedFour(Row(a, 0), Column(b, 2));
    AccumulatedFour(Row(a, 0), Column(b, 3));
    AccumulatedFour(Row(a, 1), Column(b, 0));
    AccumulatedFour(Row(a, 1), Column(b, 1));
    AccumulatedFour(Row(a, 1), Column(b, 2));
    AccumulatedFour(Row(a, 1), Column(b, 3));
    AccumulatedFour(Row(a, 2), Column(b, 0));
    AccumulatedFour(Row(a, 2), Column(b, 1));
    AccumulatedFour(Row(a, 2), Column(b, 2));
    AccumulatedFour(Row(a, 2), Column(b, 3));
    AccumulatedFour(Row(a, 3), Column(b, 0));
    AccumulatedFour(Row(a, 3), Column(b, 1));
    AccumulatedFour(Row(a, 3), Column(b, 2));
    AccumulatedFour(Row(a, 3), Column(b, 3));
  }

  /** The identity matrix is a unit of the product on both sides. */
  lemma MultiplyIdentity(a: Matrix4x4)
    ensures Multiply(a, Identity) == a
    ensures Multiply(Identity, a) == a
  {
  }

  /** The homogeneous point `h` as a row vector multiplied on the left of `m`. */
  function Apply(h: Vector4, m: Matrix4x4): Vector4
  {
    Vector4(
      h.x * m.m00 + h.y * m.m10 + h.z * m.m20 + h.w * m.m30,
      h.x * m.m01 + h.y * m.m11 + h.z * m.m21 + h.w * m.m31,
      h.x * m.m02 + h.y * m.m12 + h.z * m.m22 + h.w * m.m32,
      h.x * m.m03 + h.y * m.m13 + h.z * m.m23 + h.w * m.m33)
  }

  /** Transforming by a product is transforming by each factor in turn,
      left factor first: the law that makes `Multiply(a, b)` mean "a, then b"
      for the row vectors of `TransformWithW`. */
  lemma ApplyMultiply(h: Vector4, a: Matrix4x4, b: Matrix4x4)
    ensures Apply(h, Multiply(a, b)) == Apply(Apply(h, a), b)
  {
    ApplyColumn(h, a, Column(b, 0));
    ApplyColumn(h, a, Column(b, 1));
    ApplyColumn(h, a, Column(b, 2));
    ApplyColumn(h, a, Column(b, 3));
  }

  /** One component of `ApplyMultiply`, for the column `c` of the right
      factor: `Apply(h, a)` is the sum of the rows of `a` weighted by the
      components of `h`, and the dot product with `c` is linear. */
  lemma ApplyColumn(h: Vector4, a: Matrix4x4, c: Vector4)
    ensures h.x * Dot4(Row(a, 0), c) + h.y * Dot4(Row(a, 1), c) + h.z * Dot4(Row(a, 2), c) + h.w * Dot4(Row(a, 3), c)
         == Dot4(Apply(h, a), c)
  {
    var s0, s1, s2, s3 := Scale4(h.x, Row(a, 0)), Scale4(h.y, Row(a, 1)), Scale4(h.z, Row(a, 2)), Scale4(h.w, Row(a, 3));
    ApplyRows(h, a);
    DotScale(h.x, Row(a, 0), c);
    DotScale(h.y, Row(a, 1), c);
    DotScale(h.z, Row(a, 2), c);
    DotScale(h.w, Row(a, 3), c);
    DotSum(s0, s1, s2, s3, c);
  }

  /** `Apply(h, a)` is the sum of the rows of `a` weighted by the components
      of `h`. */
  lemma ApplyRows(h: Vector4, a: Matrix4x4)
    ensures Apply(h, a) == Sum4(Scale4(h.x, Row(a, 0)), Scale4(h.y, Row(a, 1)), Scale4(h.z, Row(a, 2)), Scale4(h.w, Row(a, 3)))
  {
  }

  function Scale4(k: real, v: Vector4): Vector4
  {
    Vector4(k * v.x, k * v.y, k * v.z, k * v.w)
  }

  function Sum4(s0: Vector4, s1: Vector4, s2: Vector4, s3: Vector4): Vector4
  {
    Vector4(s0.x + s1.x + s2.x + s3.x, s0.y + s1.y + s2.y + s3.y, s0.z + s1.z + s2.z + s3.z, s0.w + s1.w + s2.w + s3.w)
  }

  lemma DotScale(k: real, r: Vector4, c: Vector4)
    ensures k * Dot4(r, c) == Dot4(Scale4(k, r), c)
  {
  }

  lemma DotSum(s0: Vector4, s1: Vector4, s2: Vector4, s3: Vector4, c: Vector4)
    ensures Dot4(s0, c) + Dot4(s1, c) + Dot4(s2, c) + Dot4(s3, c) == Dot4(Sum4(s0, s1, s2, s3), c)
  {
  }

  /** Row 0 of a product is row 0 of the left factor transformed by the
      right one; `RowOfProduct1` to `RowOfProduct3` say the same of the
      other rows. */
  lemma RowOfProduct0(a: Matrix4x4, b: Matrix4x4)
    ensures Row(Multiply(a, b), 0) == Apply(Row(a, 0), b)
  {
  }

  lemma RowOfProduct1(a: Matrix4x4, b: Matrix4x4)
    ensures Row(Multiply(a, b), 1) == Apply(Row(a, 1), b)
  {
  }

  lemma RowOfProduct2(a: Matrix4x4, b: Matrix4x4)
    ensures Row(Multiply(a, b), 2) == Apply(Row(a, 2), b)
  {
  }

  lemma RowOfProduct3(a: Matrix4x4, b: Matrix4x4)
    ensures Row(Multiply(a, b), 3) == Apply(Row(a, 3), b)
  {
  }

  /** The product is associative: each row of `(a * b) * c` is row `i` of
      `a` transformed by `b` and then by `c`, which is row `i` of
      `a * (b * c)`. */
  lemma MultiplyAssociative(a: Matrix4x4, b: Matrix4x4, c: Matrix4x4)
    ensures Multiply(Multiply(a, b), c) == Multiply(a, Multiply(b, c))
  {
    var left := Multiply(Multiply(a, b), c);
    var right := Multiply(a, Multiply(b, c));
    RowOfProduct0(Multiply(a, b), c);
    RowOfProduct0(a, b);
    ApplyMultiply(Row(a, 0), b, c);
    RowOfProduct0(a, Multiply(b, c));
    assert Row(left, 0) == Row(right, 0);
    RowOfProduct1(Multiply(a, b), c);
    RowOfProduct1(a, b);
    ApplyMultiply(Row(a, 1), b, c);
    RowOfProduct1(a, Multiply(b, c));
    assert Row(left, 1) == Row(right, 1);
    RowOfProduct2(Multiply(a, b), c);
    RowOfProduct2(a, b);
    ApplyMultiply(Row(a, 2), b, c);
    RowOfProduct2(a, Multiply(b, c));
    assert Row(left, 2) == Row(right, 2);
    RowOfProduct3(Multiply(a, b), c);
    RowOfProduct3(a, b);
    ApplyMultiply(Row(a, 3), b, c);
    RowOfProduct3(a, Multiply(b, c));
    assert Row(left, 3) == Row(right, 3);
  }

  /** The point `v` with the implicit w = 1. */
  function Point(v: Vector3): Vector4
  {
    Vector4(v.x, v.y, v.z, 1.0)
  }

  function Xyz(h: Vector4): Vector3
  {
    Vector3(h.x, h.y, h.z)
  }

  function Transpose(m: Matrix4x4): Matrix4x4
  {
    Matrix4x4(
      m.m00, m.m10, m.m20, m.m30,
      m.m01, m.m11, m.m21, m.m31,
      m.m02, m.m12, m.m22, m.m32,
      m.m03, m.m13, m.m23, m.m33)
  }

  /** Row-vector transform with perspective divide: the four homogeneous
      components are computed with w = 1, and x, y, z are divided by that w
      unless it is zero, when they are returned undivided. */
  function TransformWithW(v: Vector3, m: Matrix4x4): (r: Vector3)
    ensures var h := Apply(Point(v), m);
      h.w != 0.0 ==> r.x * h.w == h.x && r.y * h.w == h.y && r.z * h.w == h.z
    ensures var h := Apply(Point(v), m);
      h.w == 0.0 ==> r == Xyz(h)
  {
    var h := Apply(Point(v), m);
    if h.w != 0.0 then Vector3(h.x / h.w, h.y / h.w, h.z / h.w) else Xyz(h)
  }

  /** When the homogeneous z is `z` times a non-zero w, the divided z is `z`. */
  lemma DividedDepth(v: Vector3, m: Matrix4x4, z: real)
    requires Apply(Point(v), m).w != 0.0
    requires Apply(Point(v), m).z == z * Apply(Point(v), m).w
    ensures TransformWithW(v, m).z == z
  {
    var h := Apply(Point(v), m);
    var r := TransformWithW(v, m);
    assert (r.z - z) * h.w == 0.0;
  }

  /** Column-vector transform: the translation is read from `m[i][3]` and no
      w is computed. It is the row-vector transform by the transposed
      matrix, with w dropped. */
  function Transform(v: Vector3, m: Matrix4x4): (r: Vector3)
    ensures r == Xyz(Apply(Point(v), Transpose(m)))
  {
    Vector3(
      v.x * m.m00 + v.y * m.m01 + v.z * m.m02 + m.m03,
      v.x * m.m10 + v.y * m.m11 + v.z * m.m12 + m.m13,
      v.x * m.m20 + v.y * m.m21 + v.z * m.m22 + m.m23)
  }

  /** The column-vector transform sends the origin to the translation column. */
  lemma TransformOrigin(m: Matrix4x4)
    ensures Transform(Origin, m) == Vector3(m.m03, m.m13, m.m23)
  {
  }

  /** The right-handed cross product is orthogonal to both factors. */
  function Cross(v1: Vector3, v2: Vector3): (r: Vector3)
    ensures Dot(r, v1) == 0.0 && Dot(r, v2) == 0.0
  {
    Vector3(
      v1.y * v2.z - v1.z * v2.y,
      v1.z * v2.x - v1.x * v2.z,
      v1.x * v2.y - v1.y * v2.x)
  }

  /** A vector crossed with itself is zero. */
  lemma CrossSelf(v: Vector3)
    ensures Cross(v, v) == Origin
  {
  }

  /** The product is right-handed: x × y = z on the unit axes. */
  lemma CrossUnitAxes()
    ensures Cross(Vector3(1.0, 0.0, 0.0), Vector3(0.0, 1.0, 0.0)) == Vector3(0.0, 0.0, 1.0)
  {
  }

  /** Swapping the factors negates the cross product. */
  lemma CrossAntiCommutative(v1: Vector3, v2: Vector3)
    ensures Cross(v2, v1) == Sub(Origin, Cross(v1, v2))
  {
  }

  /** Column 3 is (0, 0, 0, 1): the matrix is affine in the row-vector layout. */
  predicate HasAffineColumn(m: Matrix4x4)
  {
    m.m03 == 0.0 && m.m13 == 0.0 && m.m23 == 0.0 && m.m33 == 1.0
  }

  /** Row 3 is (0, 0, 0, 1): the matrix is affine in the column-vector layout. */
  predicate HasAffineRow(m: Matrix4x4)
  {
    m.m30 == 0.0 && m.m31 == 0.0 && m.m32 == 0.0 && m.m33 == 1.0
  }

  /** The product of two matrices with an affine column has one too. */
  lemma MultiplyAffineColumn(a: Matrix4x4, b: Matrix4x4)
    requires HasAffineColumn(a) && HasAffineColumn(b)
    ensures HasAffineColumn(Multiply(a, b))
  {
  }

  /** A matrix with an affine column sends every point to w = 1, so
      `TransformWithW` divides by nothing. */
  lemma AffineColumnNoDivide(v: Vector3, m: Matrix4x4)
    requires HasAffineColumn(m)
    ensures Apply(Point(v), m).w == 1.0
    ensures TransformWithW(v, m) == Xyz(Apply(Point(v), m))
  {
  }
}
