# A Dafny model of the grid-and-sphere renderer

The program draws one frame at a time in a 1280×720 window. Each frame has
two parts.

- **A ground grid:** 21 + 21 lines, 2 units apart, spanning ±20 around an
  anchor point.
- **A wire-frame sphere:** 16 latitude bands by 16 longitude steps, so 512
  segments.

Every endpoint goes through a view-projection matrix, which applies a
perspective divide, and then through a viewport matrix. The matrices are
built by hand:
- a look-at view matrix, followed by an Euler rotation;
- a right-handed perspective projection;
- a viewport transform;
- an affine scale-rotate-translate matrix.

Vectors are row vectors multiplied on the left (`TransformWithW`). The one
exception is `Transform`, which reads the translation from column 3.

The model has seven modules:

- `Libm` stands in for the C math functions `cosf`, `sinf`, `tanf` and
  `sqrtf`. They are a record of functions left uninterpreted. Each fact a
  proof needs about them is a named predicate in the `requires`:
  `ZeroAngle`, `Pythagorean`, `SqrtPositive` and `FullTurn`.
- `Kernel` holds the vectors and the 4×4 matrix, plus `Multiply`, `Cross`,
  `Transform` and `TransformWithW`.
- `Builders` holds the viewport, perspective, rotation, affine and look-at
  builders.
- `Draw` holds the coloured segment handed to the line-drawing call, and
  the projection of its two endpoints.
- `Grid` and `Sphere` each hold a reference definition of the world-space
  segments in drawing order, and a method that mirrors the source's loops.
  That method is proved to emit exactly the projected reference segments.
- `Frame` composes the start-up camera, the frame's matrices and both
  generators.

Arithmetic is on `real`. The screen-space segments are kept as real points.

The segment list follows the code in two places where a plain description
of the generators might suggest otherwise:

- **Grid highlight:** the grid's black highlight tests the offset before
  the anchor is added. So with any anchor, the black lines are line 10 of
  each family. This is `Grid.GridColors`.
- **Sphere ring:** the last longitude step's c corner is at exactly 2π.
  Each ring of the sphere therefore closes onto its first corner whenever
  cos and sin repeat after a full turn. This is `Sphere.RingCloses`.

## Model

| member | source | states |
|---|---|---|
| Kernel.AccumulatedFour | main.cpp:37-43 | four steps of the inner loop, starting from zero and adding `a[row][k] * b[k][col]`, leave the dot product of the row and the column |
| Kernel.MultiplyEntries | main.cpp:35-45 | every entry of `Multiply(a, b)` is exactly what the triple loop accumulates into `r.m[row][col]` |
| Kernel.Multiply | main.cpp:35-45 | the product function itself; its contract is carried by `Kernel.MultiplyEntries` (the loop's entries), `Kernel.ApplyMultiply` and `Kernel.MultiplyAssociative` |
| Kernel.ApplyMultiply | main.cpp:35-45 | transforming a row vector by `Multiply(a, b)` is transforming it by `a` and then by `b` |
| Kernel.MultiplyAssociative | main.cpp:35-45 | the product is associative: `(a·b)·c = a·(b·c)` |
| Kernel.MultiplyIdentity | main.cpp:35-45 | the identity matrix is a unit of the product on both sides |
| Kernel.MultiplyAffineColumn | main.cpp:35-45 | the product of two matrices whose column 3 is (0, 0, 0, 1) has that column too |
| Kernel.TransformWithW | main.cpp:105-118 | when the computed w is non-zero, each returned coordinate times w is the undivided coordinate; when w is zero, the undivided coordinates are returned |
| Kernel.DividedDepth | main.cpp:108-114 | if the homogeneous z is `z` times a non-zero w, the returned z is `z` |
| Kernel.AffineColumnNoDivide | main.cpp:109-117 | a matrix with column 3 equal to (0, 0, 0, 1) gives w = 1, so the divide changes nothing |
| Kernel.Transform | main.cpp:119-125 | the column-vector transform equals the row-vector transform by the transposed matrix, with w dropped |
| Kernel.TransformOrigin | main.cpp:119-125 | the origin goes to the translation column `m[i][3]` |
| Kernel.Cross | main.cpp:126-132 | the cross product is orthogonal to both factors |
| Kernel.CrossSelf | main.cpp:126-132 | a vector crossed with itself is zero |
| Kernel.CrossUnitAxes | main.cpp:126-132 | the product is right-handed: x × y = z |
| Kernel.CrossAntiCommutative | main.cpp:126-132 | swapping the factors negates the result |
| Builders.MakeViewportMatrix | main.cpp:46-62 | the viewport matrix has column 3 equal to (0, 0, 0, 1), so it never divides |
| Builders.ViewportMapsNdc | main.cpp:46-62 | a point maps to `left + (x + 1)·width/2`, `top + (1 − y)·height/2`, `minDepth + z·(maxDepth − minDepth)` |
| Builders.ViewportCorners | main.cpp:46-62 | NDC corner (−1, 1, 0) lands on (left, top, minDepth) and (1, −1, 1) on (left + width, top + height, maxDepth) |
| Builders.MakePerspectiveFovMatrix | main.cpp:92-104 | the y scale times tan(fovY/2) is 1 and the x scale times the aspect ratio is the y scale |
| Builders.PerspectiveW | main.cpp:92-104 | the projection scales x and y, mixes z into the depth pair, and puts −z into w |
| Builders.PerspectiveOnAxis | main.cpp:92-104 | a point (0, 0, z) with z ≠ 0 is projected to x = y = 0 |
| Builders.PerspectiveUndividedAtZeroDepth | main.cpp:100-115 | a point with z = 0 gets w = 0 and skips the divide |
| Builders.DepthEntries | main.cpp:99-101 | the depth pair times (far − near) is −(far + near) and −2·far·near |
| Builders.PerspectiveNearPlane | main.cpp:92-118 | every point on the near plane z = −near gets depth −1 |
| Builders.PerspectiveFarPlane | main.cpp:92-118 | every point on the far plane z = −far gets depth +1 |
| Builders.MakeRotationMatrix | main.cpp:206-234 | the rotation has row 3 and column 3 equal to (0, 0, 0, 1) |
| Builders.RotationZeroIsIdentity | main.cpp:206-234 | zero angles give the identity, given cos 0 = 1 and sin 0 = 0 |
| Builders.RotationRowsUnit | main.cpp:206-234 | given cos² + sin² = 1, each row of the rotation block has unit length |
| Builders.RotationRowsOrthogonal | main.cpp:206-234 | given cos² + sin² = 1, distinct rows of the rotation block are orthogonal, so the block is orthonormal |
| Builders.MakeAffineMatrix | main.cpp:63-91 | row 3 is (0, 0, 0, 1), and `Transform` sends the origin to the translation |
| Builders.AffineUnitScaleTranslates | main.cpp:63-91 | unit scale and zero angles give a pure translation by `translate` |
| Builders.AffineIsScaledRotation | main.cpp:63-91 | the affine matrix's 3×3 block is the rotation matrix of the same angles with row i multiplied by the i-th scale factor, and column 3 is the translation |
| Builders.LookAtBasis | main.cpp:134-150 | the three look-at axes are mutually orthogonal |
| Builders.Normalize | main.cpp:141-147 | each coordinate of the normalised axis times the `sqrtf` length is the coordinate of the unnormalised axis |
| Builders.ViewFromBasis | main.cpp:152-173 | the view matrix has column 3 equal to (0, 0, 0, 1) |
| Builders.ViewCoordinates | main.cpp:152-173 | a point's view coordinates are its offset from the eye dotted with each axis, with w = 1 |
| Builders.MakeLookAtMatrix | main.cpp:133-174 | the look-at matrix is affine in the row-vector layout |
| Builders.LookAtEyeAtOrigin | main.cpp:133-174 | the eye goes to the view-space origin |
| Builders.LookAtTargetOnAxis | main.cpp:133-174 | the target goes to view-space x = y = 0 |
| Builders.LookAtTargetInFront | main.cpp:133-174 | with a square root that is positive on positive numbers, the target has view-space z < 0 |
| Draw.ProjectAllAppend | main.cpp:185-186 | projecting a concatenation of segments projects each part |
| Draw.ProjectThroughAffineViewport | main.cpp:265-267 | with an affine viewport, the second `TransformWithW` is just the viewport applied to the divided point |
| Draw.Project | main.cpp:185-186 | the double `TransformWithW` every endpoint goes through; its contract is carried by `Draw.ProjectThroughAffineViewport` and, for the corrected frame, `Frame.TargetAtScreenCentre` |
| Grid.DrawGrid | main.cpp:175-205 | the two loops emit exactly 42 segments: the 21 x-lines, then the 21 z-lines, each projected to the screen |
| Grid.GridLines | main.cpp:180-200 | the world-space grid has 2·21 = 42 segments; their coordinates are stated by `Grid.LinesKeepTheirCoordinate` and their colours by `Grid.GridColors` |
| Grid.OffsetSpacing | main.cpp:176-181 | line offsets are −20 + 2·index, from −20 at index 0 to 20 at index 20 |
| Grid.HighlightOnlyCentre | main.cpp:188-188 | the line colour is black exactly for index 10 and gray otherwise |
| Grid.LinesKeepTheirCoordinate | main.cpp:180-204 | every line lies at the anchor's height; x-lines keep x = offset + anchor.x and span z ± 20; z-lines keep z and span x ± 20 |
| Grid.GridColors | main.cpp:188-201 | segment k is black iff k mod 21 = 10, whatever the anchor |
| Sphere.SphereLines | main.cpp:240-243 | the sphere has 16·16·2 = 512 segments |
| Sphere.SphereLine | main.cpp:243-268 | the closed-form segment n; `Sphere.SphereLinesInOrder` states that it is segment n of the drawing order |
| Sphere.BandSegments | main.cpp:243-271 | segment m of a band is the closed-form segment 32·band + m |
| Sphere.BandsSegments | main.cpp:240-271 | segment n of the first bands is the closed-form segment n |
| Sphere.SphereLinesInOrder | main.cpp:240-271 | segment n in drawing order is the a–b segment of cell n/2 for even n and its a–c segment for odd n, with cells in band-major order |
| Sphere.ScreenBandProjects | main.cpp:243-272 | what the inner loop emits for a band is the projection of that band's world-space segments |
| Sphere.ScreenBandsProject | main.cpp:240-273 | what the outer loop emits is the projection of the world-space segments so far |
| Sphere.DrawSphere | main.cpp:235-274 | the nested loops emit exactly the 512 projected sphere segments in drawing order |
| Sphere.LatitudesInside | main.cpp:240-241 | every band latitude lies strictly between −π/2 and π/2 |
| Sphere.TopBandPastPole | main.cpp:241-257 | the top band's b corner is at latitude π/2 + π/32, past the north pole |
| Sphere.RingCloses | main.cpp:244-262 | the c corner of longitude step 15 coincides with the a corner of step 0, given cos and sin repeat after 2π |
| Sphere.RingSegmentsLevel | main.cpp:258-262 | every a–c segment is horizontal |
| Sphere.MeridianSegmentsVertical | main.cpp:253-257 | every a–b segment lies in a vertical plane through the centre |
| Sphere.SurfacePointOnSphere | main.cpp:247-251 | every generated point is at distance r from the centre, given cos² + sin² = 1 |
| Frame.ViewMatrix | main.cpp:309-311 | the look-at matrix followed by the rotation is affine in the row-vector layout |
| Frame.ViewProjectionAsWritten | main.cpp:314-314 | the product as the frame forms it; `Frame.AsWrittenAppliesProjectionFirst` states what it does to a point |
| Frame.AsWrittenAppliesProjectionFirst | main.cpp:314-314 | with the product as written, a point is transformed by the projection first and by the view matrix second |
| Frame.AsWrittenDepthIgnoresCamera | main.cpp:314-314 | with the product as written, every point's w is minus its world z, whatever the camera |
| Frame.AsWrittenTargetUndivided | main.cpp:287-314 | with the product as written, a point at world z = 0, such as the start-up camera's target (0, 0, 0), gets w = 0 and skips the divide |
| Frame.AsWrittenGridDepths | main.cpp:331-331 | with the product as written, every endpoint of the grid at its start-up anchor (0, 4.5, 22) (main.cpp:33) gets w = −(world z), between −42 and −2, whatever the camera |
| Frame.StartupSphereDepth | main.cpp:293-293 | given cos² + sin² = 1, every point of the start-up sphere (centre (0, 1, 10), radius 1) has world z between 9 and 11 |
| Frame.AsWrittenSphereDepths | main.cpp:293-314 | with the product as written, every point of the start-up sphere gets w = −(world z), between −11 and −9, whatever the camera |
| Frame.DepthIsViewDepth | main.cpp:309-314 | with the view-then-projection product, w is minus the view-space z |
| Frame.TargetAtScreenCentre | main.cpp:309-314 | with the view-then-projection product, an unrotated camera draws its target at the window centre (640, 360) |
| Frame.RenderFrameAsWritten | main.cpp:308-332 | the frame as written draws the 42 projected grid segments, then the 512 projected sphere segments |
| Frame.RenderFrame | main.cpp:331-332 | the corrected frame draws the same segments through the corrected product |

## Left out

- Single-precision floating point and its rounding are not modelled:
  - all arithmetic is on exact reals;
  - `M_PI` is its decimal value, not `float(M_PI)`.
- The pixel conversion of screen points (`int(x + 0.5f)` in the grid,
  `int(x)` in the sphere) is not modelled. Segments stay in real screen
  coordinates.
- `Novice::DrawLine` is not modelled. A drawn segment is an element of the
  returned sequence.
- Window set-up, the frame loop, key polling and the ESC exit are left out.
  They are I/O.
- The ImGui widgets that edit the camera and the sphere are left out. Their
  values are parameters of `Frame.RenderFrame`.
- The global grid position is a parameter of `Grid.DrawGrid`.
- The unused `cameraMatrix` at main.cpp:308 is left out. It is built but
  never read.
- `Libm` keeps cosf, sinf, tanf and sqrtf uninterpreted. Proofs that need
  them assume only the named facts.
- Divisions by zero are excluded by a `requires`, because the source does
  not guard them and reals have no inf or NaN:
  - tan(fovY/2) = 0;
  - aspect = 0;
  - far = near;
  - a zero-length look-at axis.

  These requires are `Builders.PerspectiveDefined` and
  `Builders.LookAtDefined`.
- `abs` in the grid's colour test is modelled as the real absolute value.

## Findings

| source | as written | input that shows it | evidently intended | confidence | as-written member | corrected member |
|---|---|---|---|---|---|---|
| main.cpp:314-331 | `Multiply(projectionMatrix, viewMatrix)` applies the projection before the view transform in the row-vector layout that `TransformWithW` uses, so every point's w is minus its world z, whatever the camera | the start-up frame: every drawn grid endpoint gets w = −(world z) in [−42, −2] and every sphere point w = −(world z) in [−11, −9], whatever the camera, so moving or turning the camera leaves the perspective divide unchanged; a point at world z = 0, such as the camera's target (0, 0, 0), gets w = 0 and skips the divide | `Multiply(viewMatrix, projectionMatrix)`, under which w is minus the view-space z and the camera's target lands at the window centre | likely; not executed | Frame.AsWrittenDepthIgnoresCamera | Frame.TargetAtScreenCentre |
