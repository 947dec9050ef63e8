/** The wire-frame sphere: 16 latitude bands by 16 longitude steps. For each
    cell the generator takes the point a at the band's latitude and the
    cell's longitude, the point b one latitude step up and the point c one
    longitude step on, and draws a–b and then a–c. */
module Sphere {
  import opened Kernel
  import opened Libm
  import opened Draw

  datatype Sphere = Sphere(center: Vector3, radius: real)

  /** The angular steps: a full turn and a half turn split 16 ways. */
  const LonEvery: real := 2.0 * Pi / 16.0
  const LatEvery: real := Pi / 16.0

  /** Latitude of band `latIndex`: the middle of the band, measured from the
      south pole at -π/2. */
  function Latitude(latIndex: nat): real
  {
    -Pi / 2.0 + LatEvery * (latIndex as real + 0.5)
  }

  function Longitude(lonIndex: nat): real
  {
    (lonIndex as real) * LonEvery
  }

  /** The point at latitude `lat` and longitude `lon`, y pointing up. */
  function SurfacePoint(libm: Libm, sphere: Sphere, lat: real, lon: real): Vector3
  {
    Vector3(sphere.center.x + sphere.radius * libm.cos(lat) * libm.cos(lon),
            sphere.center.y + sphere.radius * libm.sin(lat),
            sphere.center.z + sphere.radius * libm.cos(lat) * libm.sin(lon))
  }

  function CornerA(libm: Libm, sphere: Sphere, latIndex: nat, lonIndex: nat): Vector3
  {
    SurfacePoint(libm, sphere, Latitude(latIndex), Longitude(lonIndex))
  }

  function CornerB(libm: Libm, sphere: Sphere, latIndex: nat, lonIndex: nat): Vector3
  {
    SurfacePoint(libm, sphere, Latitude(latIndex) + LatEvery, Longitude(lonIndex))
  }

  function CornerC(libm: Libm, sphere: Sphere, latIndex: nat, lonIndex: nat): Vector3
  {
    SurfacePoint(libm, sphere, Latitude(latIndex), Longitude(lonIndex) + LonEvery)
  }

  /** Segment `n` of the drawing order: cell n / 2 in row-major order (band,
      then longitude), its a–b segment for even n and its a–c segment for
      odd n. */
  function SphereLine(libm: Libm, sphere: Sphere, color: Color, n: nat): Line
  {
    var latIndex := n / 32;
    var lonIndex := (n % 32) / 2;
    var a := CornerA(libm, sphere, latIndex, lonIndex);
    if n % 2 == 0 then Line(a, CornerB(libm, sphere, latIndex, lonIndex), color)
    else Line(a, CornerC(libm, sphere, latIndex, lonIndex), color)
  }

  /** The two segments drawn for the cell at band `latIndex` and longitude
      step `lonIndex`: a–b, then a–c. */
  function CellLines(libm: Libm, sphere: Sphere, color: Color, latIndex: nat, lonIndex: nat): seq<Line>
  {
    var a := CornerA(libm, sphere, latIndex, lonIndex);
    [Line(a, CornerB(libm, sphere, latIndex, lonIndex), color),
     Line(a, CornerC(libm, sphere, latIndex, lonIndex), color)]
  }

  /** The world-space segments of the first `cells` cells of band
      `latIndex`, in drawing order. */
  function BandLines(libm: Libm, sphere: Sphere, color: Color, latIndex: nat, cells: nat): (r: seq<Line>)
    ensures |r| == 2 * cells
  {
    if cells == 0 then []
    else BandLines(libm, sphere, color, latIndex, cells - 1) + CellLines(libm, sphere, color, latIndex, cells - 1)
  }

  /** The world-space segments of the first `bands` bands, in drawing order. */
  function BandsLines(libm: Libm, sphere: Sphere, color: Color, bands: nat): (r: seq<Line>)
    ensures |r| == 32 * bands
  {
    if bands == 0 then []
    else BandsLines(libm, sphere, color, bands - 1) + BandLines(libm, sphere, color, bands - 1, 16)
  }

  /** The world-space segments of the whole sphere. */
  function SphereLines(libm: Libm, sphere: Sphere, color: Color): (r: seq<Line>)
    ensures |r| == 512
  {
    BandsLines(libm, sphere, color, 16)
  }

  /** Quotient and remainder by 32 are determined by any decomposition with
      the remainder in range. */
  lemma DivMod32(n: nat, q: nat, r: nat)
    requires r < 32 && n == 32 * q + r
    ensures n / 32 == q && n % 32 == r
  {
  }

  /** Segment m of band `latIndex` is segment 32 latIndex + m of the sphere. */
  lemma {:induction false} BandSegments(libm: Libm, sphere: Sphere, color: Color, latIndex: nat, cells: nat, m: nat)
    requires cells <= 16 && m < 2 * cells
    ensures BandLines(libm, sphere, color, latIndex, cells)[m] == SphereLine(libm, sphere, color, 32 * latIndex + m)
  {
    var last := cells - 1;
    if m < 2 * last {
      BandSegments(libm, sphere, color, latIndex, last, m);
    } else {
      DivMod32(32 * latIndex + m, latIndex, m);
      assert m == 2 * last || m == 2 * last + 1;
    }
  }

  /** Segment n of the first `bands` bands is `SphereLine(n)`. */
  lemma {:induction false} BandsSegments(libm: Libm, sphere: Sphere, color: Color, bands: nat, n: nat)
    requires n < 32 * bands
    ensures BandsLines(libm, sphere, color, bands)[n] == SphereLine(libm, sphere, color, n)
  {
    var last := bands - 1;
    if n < 32 * last {
      BandsSegments(libm, sphere, color, last, n);
    } else {
      BandSegments(libm, sphere, color, last, 16, n - 32 * last);
    }
  }

  /** The sphere's segments in drawing order are exactly `SphereLine(0)` to
      `SphereLine(511)`. */
  lemma SphereLinesInOrder(libm: Libm, sphere: Sphere, color: Color, n: nat)
    requires n < 512
    ensures SphereLines(libm, sphere, color)[n] == SphereLine(libm, sphere, color, n)
  {
    BandsSegments(libm, sphere, color, 16, n);
  }

  /** The screen-space segments of the first `cells` cells of band
      `latIndex`: what the inner loop has emitted after `cells` steps. */
  function ScreenBand(libm: Libm, sphere: Sphere, color: Color, viewProjection: Matrix4x4, viewport: Matrix4x4,
      latIndex: nat, cells: nat): seq<Line>
  {
    if cells == 0 then []
    else ScreenBand(libm, sphere, color, viewProjection, viewport, latIndex, cells - 1)
         + ProjectAll(CellLines(libm, sphere, color, latIndex, cells - 1), viewProjection, viewport)
  }

  /** What the outer loop has emitted after `bands` steps. */
  function ScreenBands(libm: Libm, sphere: Sphere, color: Color, viewProjection: Matrix4x4, viewport: Matrix4x4,
      bands: nat): seq<Line>
  {
    if bands == 0 then []
    else ScreenBands(libm, sphere, color, viewProjection, viewport, bands - 1)
         + ScreenBand(libm, sphere, color, viewProjection, viewport, bands - 1, 16)
  }

  lemma {:induction false} ScreenBandProjects(libm: Libm, sphere: Sphere, color: Color,
      viewProjection: Matrix4x4, viewport: Matrix4x4, latIndex: nat, cells: nat)
    ensures ScreenBand(libm, sphere, color, viewProjection, viewport, latIndex, cells)
         == ProjectAll(BandLines(libm, sphere, color, latIndex, cells), viewProjection, viewport)
  {
    if cells > 0 {
      ScreenBandProjects(libm, sphere, color, viewProjection, viewport, latIndex, cells - 1);
      ProjectAllAppend(BandLines(libm, sphere, color, latIndex, cells - 1),
        CellLines(libm, sphere, color, latIndex, cells - 1), viewProjection, viewport);
    }
  }

  /** Emitting band by band and cell by cell is projecting the world-space
      segments in drawing order. */
  lemma {:induction false} ScreenBandsProject(libm: Libm, sphere: Sphere, color: Color,
      viewProjection: Matrix4x4, viewport: Matrix4x4, bands: nat)
    ensures ScreenBands(libm, sphere, color, viewProjection, viewport, bands)
         == ProjectAll(BandsLines(libm, sphere, color, bands), viewProjection, viewport)
  {
    if bands > 0 {
      ScreenBandsProject(libm, sphere, color, viewProjection, viewport, bands - 1);
      ScreenBandProjects(libm, sphere, color, viewProjection, viewport, bands - 1, 16);
      ProjectAllAppend(BandsLines(libm, sphere, color, bands - 1),
        BandLines(libm, sphere, color, bands - 1, 16), viewProjection, viewport);
    }
  }

  /** The two nested loops of the source: for each band and each longitude
      step, the corners a, b and c are computed and projected to the screen,
      and the segments a–b and a–c are emitted. */
  method DrawSphere(libm: Libm, sphere: Sphere, viewProjection: Matrix4x4, viewport: Matrix4x4, color: Color)
    returns (r: seq<Line>)
    ensures |r| == 512
    ensures r == ProjectAll(SphereLines(libm, sphere, color), viewProjection, viewport)
  {
    r := [];
    var latIndex: nat := 0;
    while latIndex < 16
      invariant latIndex <= 16
      invariant r == ScreenBands(libm, sphere, color, viewProjection, viewport, latIndex)
    {
      var lat := Latitude(latIndex);
      var lonIndex: nat := 0;
      ghost var done := r;
      while lonIndex < 16
        invariant lonIndex <= 16
        invariant r == done + ScreenBand(libm, sphere, color, viewProjection, viewport, latIndex, lonIndex)
      {
        var lon := Longitude(lonIndex);
        var a := SurfacePoint(libm, sphere, lat, lon);
        var b := SurfacePoint(libm, sphere, lat + LatEvery, lon);
        var c := SurfacePoint(libm, sphere, lat, lon + LonEvery);
        var screenA := Project(a, viewProjection, viewport);
        var screenB := Project(b, viewProjection, viewport);
        var screenC := Project(c, viewProjection, viewport);
        r := r + [Line(screenA, screenB, color), Line(screenA, screenC, color)];
        lonIndex := lonIndex + 1;
      }
      latIndex := latIndex + 1;
    }
    ScreenBandsProject(libm, sphere, color, viewProjection, viewport, latIndex);
  }

  /** Every band latitude lies strictly between the poles. */
  lemma LatitudesInside(latIndex: nat)
    requires latIndex < 16
    ensures -Pi / 2.0 < Latitude(latIndex) < Pi / 2.0
  {
  }

  /** The b corner of the top band is half a step past the north pole: the
      bands are centred, so their upper edges are too, by half a step. */
  lemma TopBandPastPole()
    ensures Latitude(15) + LatEvery == Pi / 2.0 + LatEvery / 2.0
    ensures Latitude(15) + LatEvery > Pi / 2.0
  {
  }

  /** The last cell's c corner closes the ring onto the first cell's a
      corner, given cos and sin repeat after a full turn. */
  lemma RingCloses(libm: Libm, sphere: Sphere, latIndex: nat)
    requires FullTurn(libm)
    ensures CornerC(libm, sphere, latIndex, 15) == CornerA(libm, sphere, latIndex, 0)
  {
    var turn := Longitude(15) + LonEvery;
    assert turn == 2.0 * Pi;
    assert libm.cos(turn) == libm.cos(0.0) && libm.sin(turn) == libm.sin(0.0);
    assert Longitude(0) == 0.0;
  }

  /** Horizontal offsets sharing one longitude are parallel. */
  lemma SameLongitudeTerms(ax: real, az: real, bx: real, bz: real, r: real, ca: real, cb: real, co: real, si: real)
    requires ax == r * ca * co && az == r * ca * si
    requires bx == r * cb * co && bz == r * cb * si
    ensures ax * bz == az * bx
  {
  }

  /** Along an a–c segment the height is constant: a and c share the
      latitude. */
  lemma RingSegmentsLevel(libm: Libm, sphere: Sphere, color: Color, n: nat)
    requires n % 2 == 1
    ensures SphereLine(libm, sphere, color, n).start.y == SphereLine(libm, sphere, color, n).end.y
  {
  }

  /** Along an a–b segment the horizontal offsets from the centre are
      parallel: a and b share the longitude. */
  lemma MeridianSegmentsVertical(libm: Libm, sphere: Sphere, color: Color, n: nat)
    requires n % 2 == 0
    ensures var l := SphereLine(libm, sphere, color, n); var o := sphere.center;
      (l.start.x - o.x) * (l.end.z - o.z) == (l.start.z - o.z) * (l.end.x - o.x)
  {
    var l := SphereLine(libm, sphere, color, n);
    var o := sphere.center;
    var lat := Latitude(n / 32);
    var lon := Longitude((n % 32) / 2);
    assert l.start == SurfacePoint(libm, sphere, lat, lon);
    assert l.end == SurfacePoint(libm, sphere, lat + LatEvery, lon);
    SameLongitudeTerms(l.start.x - o.x, l.start.z - o.z, l.end.x - o.x, l.end.z - o.z,
      sphere.radius, libm.cos(lat), libm.cos(lat + LatEvery), libm.cos(lon), libm.sin(lon));
  }

  /** The squared distance of a point given by these coordinates is r². */
  lemma OnSphereTerms(dx: real, dy: real, dz: real, r: real, cl: real, sl: real, co: real, si: real)
    requires cl * cl + sl * sl == 1.0 && co * co + si * si == 1.0
    requires dx == r * cl * co && dy == r * sl && dz == r * cl * si
    ensures dx * dx + dy * dy + dz * dz == r * r
  {
    var h := r * cl;
    assert dx * dx + dz * dz == h * h * (co * co + si * si);
    assert h * h * (co * co + si * si) == h * h;
    assert h * h + dy * dy == r * r * (cl * cl + sl * sl);
  }

  /** Every generated point lies on the sphere, given cos² + sin² = 1. */
  lemma SurfacePointOnSphere(libm: Libm, sphere: Sphere, lat: real, lon: real)
    requires Pythagorean(libm)
    ensures var d := Sub(SurfacePoint(libm, sphere, lat, lon), sphere.center);
      Dot(d, d) == sphere.radius * sphere.radius
  {
    var d := Sub(SurfacePoint(libm, sphere, lat, lon), sphere.center);
    assert libm.cos(lat) * libm.cos(lat) + libm.sin(lat) * libm.sin(lat) == 1.0;
    assert libm.cos(lon) * libm.cos(lon) + libm.sin(lon) * libm.sin(lon) == 1.0;
    OnSphereTerms(d.x, d.y, d.z, sphere.radius, libm.cos(lat), libm.sin(lat), libm.cos(lon), libm.sin(lon));
  }
}
