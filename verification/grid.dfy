/** The ground grid: 21 lines parallel to z and 21 parallel to x, 2 units
    apart, spanning ±20 around an anchor point (the source's global grid
    position, passed in here). The centre line of each family is drawn in
    black, the others in gray. */
module Grid {
  import opened Kernel
  import opened Draw

  const HalfWidth: real := 20.0
  const Subdivision: nat := 20
  /** Spacing of the lines: the full width over the subdivision count. */
  const Every: real := (HalfWidth * 2.0) / (Subdivision as real)

  /** Offset of line `index` from the anchor, before the anchor is added. */
  function Offset(index: nat): real
  {
    -HalfWidth + Every * (index as real)
  }

  function Abs(x: real): real
  {
    if x < 0.0 then -x else x
  }

  /** The colour of the line at a given offset: black within 0.001 of the
      centre, gray elsewhere. */
  function Highlight(offset: real): Color
  {
    if Abs(offset) < 0.001 then Black else Gray
  }

  /** Line `index` of the first family: fixed x, running along z. */
  function XLine(index: nat, anchor: Vector3): Line
  {
    var x := Offset(index);
    Line(Vector3(x + anchor.x, anchor.y, -HalfWidth + anchor.z),
         Vector3(x + anchor.x, anchor.y, HalfWidth + anchor.z),
         Highlight(x))
  }

  /** Line `index` of the second family: fixed z, running along x. */
  function ZLine(index: nat, anchor: Vector3): Line
  {
    var z := Offset(index);
    Line(Vector3(-HalfWidth + anchor.x, anchor.y, z + anchor.z),
         Vector3(HalfWidth + anchor.x, anchor.y, z + anchor.z),
         Highlight(z))
  }

  /** The world-space grid in drawing order: the x-lines for index 0 to 20,
      then the z-lines for index 0 to 20. */
  function GridLines(anchor: Vector3): (r: seq<Line>)
    ensures |r| == 2 * (Subdivision + 1)
  {
    seq(Subdivision + 1, i requires 0 <= i => XLine(i, anchor))
      + seq(Subdivision + 1, i requires 0 <= i => ZLine(i, anchor))
  }

  /** The two loops of the source, one per family; each line's endpoints are
      projected to the screen before it is emitted. */
  method DrawGrid(viewProjection: Matrix4x4, viewport: Matrix4x4, anchor: Vector3) returns (r: seq<Line>)
    ensures |r| == 42
    ensures r == ProjectAll(GridLines(anchor), viewProjection, viewport)
  {
    r := [];
    var xIndex: nat := 0;
    while xIndex <= Subdivision
      invariant xIndex <= Subdivision + 1 && |r| == xIndex
      invariant forall k :: 0 <= k < xIndex ==> r[k] == ProjectLine(XLine(k, anchor), viewProjection, viewport)
    {
      var x := Offset(xIndex);
      var worldStart := Vector3(x + anchor.x, anchor.y, -HalfWidth + anchor.z);
      var worldEnd := Vector3(x + anchor.x, anchor.y, HalfWidth + anchor.z);
      var screenStart := Project(worldStart, viewProjection, viewport);
      var screenEnd := Project(worldEnd, viewProjection, viewport);
      var color := if Abs(x) < 0.001 then Black else Gray;
      r := r + [Line(screenStart, screenEnd, color)];
      xIndex := xIndex + 1;
    }
    var zIndex: nat := 0;
    while zIndex <= Subdivision
      invariant zIndex <= Subdivision + 1 && |r| == Subdivision + 1 + zIndex
      invariant forall k :: 0 <= k <= Subdivision ==> r[k] == ProjectLine(XLine(k, anchor), viewProjection, viewport)
      invariant forall k :: 0 <= k < zIndex ==>
        r[Subdivision + 1 + k] == ProjectLine(ZLine(k, anchor), viewProjection, viewport)
    {
      var z := Offset(zIndex);
      var worldStart := Vector3(-HalfWidth + anchor.x, anchor.y, z + anchor.z);
      var worldEnd := Vector3(HalfWidth + anchor.x, anchor.y, z + anchor.z);
      var screenStart := Project(worldStart, viewProjection, viewport);
      var screenEnd := Project(worldEnd, viewProjection, viewport);
      var color := if Abs(z) < 0.001 then Black else Gray;
      r := r + [Line(screenStart, screenEnd, color)];
      zIndex := zIndex + 1;
    }
    ghost var lines := GridLines(anchor);
    assert forall k :: 0 <= k < |r| ==> r[k] == ProjectAll(lines, viewProjection, viewport)[k] by {
      forall k | 0 <= k < |r|
        ensures r[k] == ProjectAll(lines, viewProjection, viewport)[k]
      {
        if k > Subdivision {
          assert r[Subdivision + 1 + (k - (Subdivision + 1))] == r[k];
        }
      }
    }
  }

  /** The lines are 2 units apart and span -20 to 20. */
  lemma OffsetSpacing(index: nat)
    ensures Offset(index) == -20.0 + 2.0 * (index as real)
    ensures Offset(0) == -HalfWidth && Offset(Subdivision) == HalfWidth
  {
  }

  /** Only the middle line of a family, index 10, is black. */
  lemma HighlightOnlyCentre(index: nat)
    ensures Highlight(Offset(index)) == Black <==> index == 10
    ensures Highlight(Offset(index)) != Black ==> Highlight(Offset(index)) == Gray
  {
    OffsetSpacing(index);
    if index < 10 {
      assert Offset(index) <= -2.0;
    } else if index > 10 {
      assert Offset(index) >= 2.0;
    }
  }

  /** Every line keeps one coordinate fixed: the x-lines their x (offset plus
      anchor) and the z-lines their z; both endpoints of every line lie at the
      anchor's height, and each line spans the full ±20 around the anchor. */
  lemma LinesKeepTheirCoordinate(anchor: Vector3, k: nat)
    requires k < |GridLines(anchor)|
    ensures var l := GridLines(anchor)[k];
      l.start.y == anchor.y && l.end.y == anchor.y
    ensures var l := GridLines(anchor)[k];
      k <= Subdivision ==>
        l.start.x == l.end.x == Offset(k) + anchor.x
        && l.start.z == anchor.z - 20.0 && l.end.z == anchor.z + 20.0
    ensures var l := GridLines(anchor)[k];
      k > Subdivision ==>
        l.start.z == l.end.z == Offset(k - (Subdivision + 1)) + anchor.z
        && l.start.x == anchor.x - 20.0 && l.end.x == anchor.x + 20.0
  {
  }

  /** Line k is black exactly when it is the middle line of its family, and
      the colour does not depend on the anchor: the highlight test reads the
      offset before the anchor is added. */
  lemma GridColors(anchor: Vector3, other: Vector3, k: nat)
    requires k < |GridLines(anchor)|
    ensures GridLines(anchor)[k].color == (if k % (Subdivision + 1) == 10 then Black else Gray)
    ensures GridLines(anchor)[k].color == GridLines(other)[k].color
  {
    if k <= Subdivision {
      HighlightOnlyCentre(k);
    } else {
      HighlightOnlyCentre(k - (Subdivision + 1));
    }
  }
}
