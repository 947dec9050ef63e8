/** What the generators hand to the line-drawing call: a segment between two
    points with a 32-bit RGBA colour, and the projection every endpoint goes
    through before it is drawn. */
module Draw {
  import opened Kernel

  /** A `uint32_t` colour, 0xRRGGBBAA. */
  type Color = c: nat | c < 0x1_0000_0000

  const Black: Color := 0x000000FF
  const Gray: Color := 0xAAAAAAFF
  const White: Color := 0xFFFFFFFF

  datatype Line = Line(start: Vector3, end: Vector3, color: Color)

  /** World space to screen space: the view-projection transform with its
      perspective divide, then the viewport transform (which divides again,
      by its own w). */
  function Project(p: Vector3, viewProjection: Matrix4x4, viewport: Matrix4x4): Vector3
  {
    TransformWithW(TransformWithW(p, viewProjection), viewport)
  }

  function ProjectLine(l: Line, viewProjection: Matrix4x4, viewport: Matrix4x4): Line
  {
    Line(Project(l.start, viewProjection, viewport), Project(l.end, viewProjection, viewport), l.color)
  }

  /** The screen-space segments drawn for a sequence of world-space ones. */
  function ProjectAll(lines: seq<Line>, viewProjection: Matrix4x4, viewport: Matrix4x4): seq<Line>
  {
    seq(|lines|, k requires 0 <= k < |lines| => ProjectLine(lines[k], viewProjection, viewport))
  }

  /** Projecting a concatenation projects each part. */
  lemma ProjectAllAppend(a: seq<Line>, b: seq<Line>, viewProjection: Matrix4x4, viewport: Matrix4x4)
    ensures ProjectAll(a + b, viewProjection, viewport)
         == ProjectAll(a, viewProjection, viewport) + ProjectAll(b, viewProjection, viewport)
  {
  }

  /** With a viewport that has an affine column, the second divide is a no-op:
      the screen point is the viewport applied to the divided point. */
  lemma ProjectThroughAffineViewport(p: Vector3, viewProjection: Matrix4x4, viewport: Matrix4x4)
    requires HasAffineColumn(viewport)
    ensures Project(p, viewProjection, viewport)
         == Xyz(Apply(Point(TransformWithW(p, viewProjection)), viewport))
  {
    AffineColumnNoDivide(TransformWithW(p, viewProjection), viewport);
  }
}
