/** One frame of the demo: the camera matrices, their composition into the
    view-projection matrix, and the grid and sphere drawn through it. The
    ImGui-edited values (camera translation and rotation, sphere centre and
    radius) and the grid position are parameters; their start-up values are
    the constants below. */
module Frame {
  import opened Kernel
  import opened Libm
  import opened Builders
  import opened Draw
  import opened Grid
  import opened Sphere

  const WindowWidth: real := 1280.0
  const WindowHeight: real := 720.0
  const FovY: real := 0.45
  const NearZ: real := 0.1
  const FarZ: real := 100.0

  datatype Camera = Camera(translate: Vector3, target: Vector3, up: Vector3, rotate: Vector3)

  /** The camera at start-up: above and behind the origin, looking at it. */
  const DefaultCamera: Camera := Camera(Vector3(0.0, 1.9, -6.49), Origin, Vector3(0.0, 1.0, 0.0), Origin)
  const DefaultSphere: Sphere := Sphere(Vector3(0.0, 1.0, 10.0), 1.0)
  const DefaultGridPosition: Vector3 := Vector3(0.0, 4.5, 22.0)

  /** The library facts under which every matrix of the frame is defined:
      the look-at axes have non-zero length and tan(fovY / 2) ≠ 0. */
  predicate FrameDefined(libm: Libm, camera: Camera)
  {
    LookAtDefined(libm, camera.translate, camera.target, camera.up)
    && PerspectiveDefined(libm, FovY, WindowWidth / WindowHeight, NearZ, FarZ)
  }

  /** The look-at matrix followed by the camera rotation. */
  function ViewMatrix(libm: Libm, camera: Camera): (m: Matrix4x4)
    requires FrameDefined(libm, camera)
    ensures HasAffineColumn(m)
  {
    var lookAt := MakeLookAtMatrix(libm, camera.translate, camera.target, camera.up);
    var rotation := MakeRotationMatrix(libm, camera.rotate);
    MultiplyAffineColumn(lookAt, rotation);
    Multiply(lookAt, rotation)
  }

  function ProjectionMatrix(libm: Libm): Matrix4x4
    requires PerspectiveDefined(libm, FovY, WindowWidth / WindowHeight, NearZ, FarZ)
  {
    MakePerspectiveFovMatrix(libm, FovY, WindowWidth / WindowHeight, NearZ, FarZ)
  }

  const ViewportMatrix: Matrix4x4 := MakeViewportMatrix(0.0, 0.0, WindowWidth, WindowHeight, 0.0, 1.0)

  /** The product as the frame code forms it: projection first, then view. */
  function ViewProjectionAsWritten(libm: Libm, camera: Camera): Matrix4x4
    requires FrameDefined(libm, camera)
  {
    Multiply(ProjectionMatrix(libm), ViewMatrix(libm, camera))
  }

  /** The product in the order the row-vector layout needs: view, then
      projection. */
  function ViewProjection(libm: Libm, camera: Camera): Matrix4x4
    requires FrameDefined(libm, camera)
  {
    Multiply(ViewMatrix(libm, camera), ProjectionMatrix(libm))
  }

  /** A matrix with the perspective projection's zero pattern. */
  function PerspectiveShape(xScale: real, yScale: real, depth: real, offset: real): Matrix4x4
  {
    Matrix4x4(
      xScale, 0.0, 0.0, 0.0,
      0.0, yScale, 0.0, 0.0,
      0.0, 0.0, depth, -1.0,
      0.0, 0.0, offset, 0.0)
  }

  lemma ProjectionHasShape(libm: Libm)
    requires PerspectiveDefined(libm, FovY, WindowWidth / WindowHeight, NearZ, FarZ)
    ensures var p := ProjectionMatrix(libm);
      p == PerspectiveShape(p.m00, p.m11, p.m22, p.m32)
  {
  }

  /** The column 3 of a product whose right factor has an affine column is
      the column 3 of the left factor. */
  lemma LastColumnOfProduct(a: Matrix4x4, b: Matrix4x4)
    requires HasAffineColumn(b)
    ensures var m := Multiply(a, b);
      m.m03 == a.m03 && m.m13 == a.m13 && m.m23 == a.m23 && m.m33 == a.m33
  {
  }

  /** As written, a point is sent through the projection first and the view
      transform second. */
  lemma AsWrittenAppliesProjectionFirst(libm: Libm, camera: Camera, p: Vector3)
    requires FrameDefined(libm, camera)
    ensures Apply(Point(p), ViewProjectionAsWritten(libm, camera))
         == Apply(Apply(Point(p), ProjectionMatrix(libm)), ViewMatrix(libm, camera))
  {
    ApplyMultiply(Point(p), ProjectionMatrix(libm), ViewMatrix(libm, camera));
  }

  /** As written, w is minus the WORLD z of the point, whatever the camera:
      the projection is applied before the view transform. */
  lemma AsWrittenDepthIgnoresCamera(libm: Libm, camera: Camera, p: Vector3)
    requires FrameDefined(libm, camera)
    ensures Apply(Point(p), ViewProjectionAsWritten(libm, camera)).w == -p.z
  {
    LastColumnOfProduct(ProjectionMatrix(libm), ViewMatrix(libm, camera));
    ProjectionHasShape(libm);
  }

  /** As written, the camera's own target, the world origin, gets w = 0 and
      skips the perspective divide. */
  lemma AsWrittenTargetUndivided(libm: Libm)
    requires FrameDefined(libm, DefaultCamera)
    ensures var m := ViewProjectionAsWritten(libm, DefaultCamera);
      Apply(Point(DefaultCamera.target), m).w == 0.0
      && TransformWithW(DefaultCamera.target, m) == Xyz(Apply(Point(DefaultCamera.target), m))
  {
    AsWrittenDepthIgnoresCamera(libm, DefaultCamera, DefaultCamera.target);
  }

  /** As written, every endpoint of the start-up grid is divided by minus its
      world z, which lies between 2 and 42 whatever the camera. */
  lemma AsWrittenGridDepths(libm: Libm, camera: Camera, k: nat)
    requires FrameDefined(libm, camera)
    requires k < |GridLines(DefaultGridPosition)|
    ensures var l := GridLines(DefaultGridPosition)[k];
      var m := ViewProjectionAsWritten(libm, camera);
      Apply(Point(l.start), m).w == -l.start.z && -42.0 <= -l.start.z <= -2.0
      && Apply(Point(l.end), m).w == -l.end.z && -42.0 <= -l.end.z <= -2.0
  {
    var l := GridLines(DefaultGridPosition)[k];
    LinesKeepTheirCoordinate(DefaultGridPosition, k);
    if k > Subdivision {
      OffsetSpacing(k - (Subdivision + 1));
    }
    AsWrittenDepthIgnoresCamera(libm, camera, l.start);
    AsWrittenDepthIgnoresCamera(libm, camera, l.end);
  }

  /** As written, every point of the start-up sphere is divided by minus its
      world z, which lies between 9 and 11 whatever the camera. */
  lemma AsWrittenSphereDepths(libm: Libm, camera: Camera, lat: real, lon: real)
    requires FrameDefined(libm, camera) && Pythagorean(libm)
    ensures var p := SurfacePoint(libm, DefaultSphere, lat, lon);
      Apply(Point(p), ViewProjectionAsWritten(libm, camera)).w == -p.z && -11.0 <= -p.z <= -9.0
  {
    var p := SurfacePoint(libm, DefaultSphere, lat, lon);
    StartupSphereDepth(libm, lat, lon);
    AsWrittenDepthIgnoresCamera(libm, camera, p);
  }

  /** Every point of the start-up sphere has world z between 9 and 11. */
  lemma StartupSphereDepth(libm: Libm, lat: real, lon: real)
    requires Pythagorean(libm)
    ensures 9.0 <= SurfacePoint(libm, DefaultSphere, lat, lon).z <= 11.0
  {
    UnitBounds(libm.cos(lat), libm.sin(lat));
    UnitBounds(libm.cos(lon), libm.sin(lon));
    ProductBound(libm.cos(lat), libm.sin(lon));
  }

  /** The two coordinates of a point on the unit circle lie in [-1, 1]. */
  lemma UnitBounds(c: real, s: real)
    requires c * c + s * s == 1.0
    ensures -1.0 <= c <= 1.0 && -1.0 <= s <= 1.0
  {
    SquareAboveOne(c);
    SquareAboveOne(s);
    Square(c);
    Square(s);
  }

  /** A number outside [-1, 1] has a square above 1. */
  lemma SquareAboveOne(x: real)
    ensures (x > 1.0 || x < -1.0) ==> x * x > 1.0
  {
    if x > 1.0 {
      assert x * x > 1.0 * x;
    } else if x < -1.0 {
      assert x * x > -1.0 * x;
    }
  }

  lemma ProductBound(a: real, b: real)
    requires -1.0 <= a <= 1.0 && -1.0 <= b <= 1.0
    ensures -1.0 <= a * b <= 1.0
  {
    if a >= 0.0 {
      assert -a <= a * b <= a;
    } else {
      assert a <= a * b <= -a;
    }
  }

  /** In the corrected order w is minus the VIEW-space z. */
  lemma DepthIsViewDepth(libm: Libm, camera: Camera, p: Vector3)
    requires FrameDefined(libm, camera)
    ensures Apply(Point(p), ViewProjection(libm, camera)).w == -Apply(Point(p), ViewMatrix(libm, camera)).z
  {
    var proj := ProjectionMatrix(libm);
    ProjectionHasShape(libm);
    ApplyMultiply(Point(p), ViewMatrix(libm, camera), proj);
    AffineColumnNoDivide(p, ViewMatrix(libm, camera));
  }

  /** In the corrected order an unrotated camera draws its target at the
      centre of the window. */
  lemma TargetAtScreenCentre(libm: Libm, camera: Camera)
    requires FrameDefined(libm, camera)
    requires ZeroAngle(libm) && SqrtPositive(libm) && camera.rotate == Origin
    ensures var s := Project(camera.target, ViewProjection(libm, camera), ViewportMatrix);
      s.x == WindowWidth / 2.0 && s.y == WindowHeight / 2.0
  {
    var lookAt := MakeLookAtMatrix(libm, camera.translate, camera.target, camera.up);
    var proj := ProjectionMatrix(libm);
    var m := ViewProjection(libm, camera);
    assert ViewMatrix(libm, camera) == lookAt by {
      RotationZeroIsIdentity(libm);
      MultiplyIdentity(lookAt);
    }
    var h := Apply(Point(camera.target), lookAt);
    LookAtTargetOnAxis(libm, camera.translate, camera.target, camera.up);
    LookAtTargetInFront(libm, camera.translate, camera.target, camera.up);
    ProjectionHasShape(libm);
    ApplyMultiply(Point(camera.target), lookAt, proj);
    var g := Apply(Point(camera.target), m);
    assert g.x == 0.0 && g.y == 0.0 && g.w == -h.z;
    var ndc := TransformWithW(camera.target, m);
    assert ndc.x == 0.0 && ndc.y == 0.0 by {
      ZeroFactor(ndc.x, g.w);
      ZeroFactor(ndc.y, g.w);
    }
    ViewportMapsNdc(ndc, 0.0, 0.0, WindowWidth, WindowHeight, 0.0, 1.0);
  }

  /** The frame's drawing as written: grid, then sphere, both through the
      projection-then-view product. */
  method RenderFrameAsWritten(libm: Libm, camera: Camera, sphere: Sphere, gridPosition: Vector3)
    returns (r: seq<Line>)
    requires FrameDefined(libm, camera)
    ensures |r| == 554
    ensures r == ProjectAll(GridLines(gridPosition), ViewProjectionAsWritten(libm, camera), ViewportMatrix)
              + ProjectAll(SphereLines(libm, sphere, White), ViewProjectionAsWritten(libm, camera), ViewportMatrix)
  {
    var viewProjection := ViewProjectionAsWritten(libm, camera);
    var grid := DrawGrid(viewProjection, ViewportMatrix, gridPosition);
    var wire := DrawSphere(libm, sphere, viewProjection, ViewportMatrix, White);
    r := grid + wire;
  }

  /** The frame's drawing with the corrected product. */
  method RenderFrame(libm: Libm, camera: Camera, sphere: Sphere, gridPosition: Vector3)
    returns (r: seq<Line>)
    requires FrameDefined(libm, camera)
    ensures |r| == 554
    ensures r == ProjectAll(GridLines(gridPosition), ViewProjection(libm, camera), ViewportMatrix)
              + ProjectAll(SphereLines(libm, sphere, White), ViewProjection(libm, camera), ViewportMatrix)
  {
    var viewProjection := ViewProjection(libm, camera);
    var grid := DrawGrid(viewProjection, ViewportMatrix, gridPosition);
    var wire := DrawSphere(libm, sphere, viewProjection, ViewportMatrix, White);
    r := grid + wire;
  }
}
