/**
  What the PDF page and the interactive canvas draw alike for each projected
  wall: one move-and-line pair of the wall path, and a length label
  "<formatted length> m" anchored on the wall's midpoint.
 */
module PlanDrawing {
  import opened Wrappers
  import opened Geometry
  import opened Graphics
  import opened PlanProjector

  /** NumberFormatter with two fraction digits: the formatted length, or nil. */
  type NumberFormat = real -> Option<string>

  /** The plan-space stroke width of the wall path, in metres. */
  const WallLineWidth: real := 0.02

  /** The wall path: for wall i, a move to its start (element 2i) and a line to its end (element 2i + 1). */
  function WallPathOf(ws: seq<ProjectedWall>): (path: seq<PathElement>)
    ensures |path| == 2 * |ws|
    ensures forall i :: 0 <= i < |ws| ==> path[2 * i] == MoveTo(ws[i].start) && path[2 * i + 1] == LineTo(ws[i].end)
    decreases |ws|
  {
    if ws == [] then []
    else WallPathOf(ws[..|ws| - 1]) + [MoveTo(ws[|ws| - 1].start), LineTo(ws[|ws| - 1].end)]
  }

  /** The loop that builds the wall path, one move and one line per wall. */
  method BuildWallPath(ws: seq<ProjectedWall>) returns (path: seq<PathElement>)
    ensures path == WallPathOf(ws)
  {
    path := [];
    for k := 0 to |ws|
      invariant path == WallPathOf(ws[..k])
    {
      assert ws[..k + 1][..k] == ws[..k];
      path := path + [MoveTo(ws[k].start), LineTo(ws[k].end)];
    }
    assert ws[..|ws|] == ws;
  }

  /**
    The label text: the number formatter's output followed by " m", or "--"
    when the formatter gives nothing.
   */
  function LengthLabelText(formatted: Option<string>): (text: string)
    ensures |text| >= 2 && text[|text| - 2..] == " m"
    ensures formatted.Some? ==> text[..|text| - 2] == formatted.value
    ensures formatted.None? ==> text == "-- m"
  {
    (if formatted.Some? then formatted.value else "--") + " m"
  }

  /** Where a wall's label is anchored: the midpoint of its segment. */
  function LabelAnchor(wall: ProjectedWall): (p: Point)
    ensures p.x - wall.start.x == wall.end.x - p.x && p.y - wall.start.y == wall.end.y - p.y
  {
    Midpoint(wall.start, wall.end)
  }
}
