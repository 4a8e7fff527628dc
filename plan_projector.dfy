/**
  PlanProjector (Sources/Services/PlanProjector.swift): flattens each scanned
  wall into a 2D segment of the plan and accumulates the bounding box of all
  segment endpoints.
 */
module PlanProjector {
  import opened Geometry
  import opened Room

  /** A wall of the plan. The source also gives each one a fresh UUID, which is not modelled. */
  datatype ProjectedWall = ProjectedWall(start: Point, end: Point, lengthMeters: real)

  datatype ProjectionResult = ProjectionResult(walls: seq<ProjectedWall>, boundingRect: Rect)

  /** CGFloat.greatestFiniteMagnitude, the largest finite double, exactly. */
  const GreatestFiniteMagnitude: real := 179769313486231570814527423731704356798070567525844996598917476803157260780028538760589558632766878171540458953514382464234321326889464182768467546703537516986049910576551282076245490090389328944075868508455133942304583236903222948165808559332123348274797826204144723168738177180919299881250404026184124858368.0

  /** Room space onto the plan: x is kept, the vertical axis is dropped, the plan's y is -z. */
  function Flatten(v: Vec3): Point {
    Point(v.x, -v.z)
  }

  /**
    One wall as a segment: its endpoints are centre -/+ right * (width / 2),
    flattened. The segment is centred on the flattened centre, runs along the
    right axis for `width`, and its length is the wall's width.
   */
  function ProjectWall(wall: Wall): (p: ProjectedWall)
    ensures p.lengthMeters == wall.dimensions.x
    ensures Midpoint(p.start, p.end) == Flatten(wall.column3)
    ensures p.end.x - p.start.x == wall.column0.x * wall.dimensions.x
    ensures p.end.y - p.start.y == -(wall.column0.z * wall.dimensions.x)
  {
    var width := wall.dimensions.x;
    var halfWidth := Times(wall.column0, width / 2.0);
    ProjectedWall(Flatten(Minus(wall.column3, halfWidth)), Flatten(Plus(wall.column3, halfWidth)), width)
  }

  /** The squared plan length of a projected wall is width^2 times the squared horizontal length of its right axis. */
  lemma ProjectedLengthSquared(wall: Wall)
    ensures var p := ProjectWall(wall);
            var dx := p.end.x - p.start.x;
            var dy := p.end.y - p.start.y;
            dx * dx + dy * dy
            == wall.dimensions.x * wall.dimensions.x * (wall.column0.x * wall.column0.x + wall.column0.z * wall.column0.z)
  {
    var p := ProjectWall(wall);
    var w, rx, rz := wall.dimensions.x, wall.column0.x, wall.column0.z;
    assert p.end.x - p.start.x == rx * w;
    assert p.end.y - p.start.y == -(rz * w);
    assert (rx * w) * (rx * w) == w * w * (rx * rx);
    assert (-(rz * w)) * (-(rz * w)) == w * w * (rz * rz);
  }

  /**
    For a rigid transform whose right axis is a horizontal unit vector, the
    segment's length is exactly the wall's width: lengthMeters is the distance
    between start and end.
   */
  lemma ProjectedLengthIsDistance(wall: Wall)
    requires wall.column0.y == 0.0
    requires wall.column0.x * wall.column0.x + wall.column0.y * wall.column0.y + wall.column0.z * wall.column0.z == 1.0
    ensures var p := ProjectWall(wall);
            var dx := p.end.x - p.start.x;
            var dy := p.end.y - p.start.y;
            dx * dx + dy * dy == p.lengthMeters * p.lengthMeters
  {
    ProjectedLengthSquared(wall);
  }

  /** The running box of the loop: minX, maxX, minY, maxY. */
  datatype Bounds = Bounds(minX: real, maxX: real, minY: real, maxY: real)

  /** The box before any wall: mins at +greatest, maxes at -greatest. */
  const Unbounded: Bounds :=
    Bounds(GreatestFiniteMagnitude, -GreatestFiniteMagnitude, GreatestFiniteMagnitude, -GreatestFiniteMagnitude)

  /** One iteration's update: min(minX, start.x, end.x) and so on. */
  function Include(b: Bounds, w: ProjectedWall): Bounds {
    Bounds(Min(b.minX, Min(w.start.x, w.end.x)), Max(b.maxX, Max(w.start.x, w.end.x)),
           Min(b.minY, Min(w.start.y, w.end.y)), Max(b.maxY, Max(w.start.y, w.end.y)))
  }

  /** The running box after the walls of ws, in order. */
  function BoundsOf(ws: seq<ProjectedWall>): Bounds
    decreases |ws|
  {
    if ws == [] then Unbounded else Include(BoundsOf(ws[..|ws| - 1]), ws[|ws| - 1])
  }

  function RectOf(b: Bounds): Rect {
    Rect(b.minX, b.minY, b.maxX - b.minX, b.maxY - b.minY)
  }

  predicate InBounds(b: Bounds, p: Point) {
    b.minX <= p.x <= b.maxX && b.minY <= p.y <= b.maxY
  }

  /** What project(room:) returns. */
  function Projection(room: CapturedRoom): ProjectionResult {
    var walls := seq(|room.walls|, i requires 0 <= i < |room.walls| => ProjectWall(room.walls[i]));
    ProjectionResult(walls, RectOf(BoundsOf(walls)))
  }

  /** Every endpoint of every wall lies in the running box. */
  lemma {:induction false} BoundsContainEndpoints(ws: seq<ProjectedWall>)
    ensures forall i :: 0 <= i < |ws| ==> InBounds(BoundsOf(ws), ws[i].start) && InBounds(BoundsOf(ws), ws[i].end)
    decreases |ws|
  {
    if ws != [] {
      var pre := ws[..|ws| - 1];
      BoundsContainEndpoints(pre);
      forall i | 0 <= i < |ws|
        ensures InBounds(BoundsOf(ws), ws[i].start) && InBounds(BoundsOf(ws), ws[i].end)
      {
        if i < |ws| - 1 {
          assert ws[i] == pre[i];
        }
      }
    }
  }

  /** For a non-empty wall list the box has non-negative width and height, and contains every endpoint. */
  lemma BoundingRectContainsEndpoints(ws: seq<ProjectedWall>)
    requires ws != []
    ensures RectOf(BoundsOf(ws)).width >= 0.0 && RectOf(BoundsOf(ws)).height >= 0.0
    ensures forall i :: 0 <= i < |ws| ==>
              Contains(RectOf(BoundsOf(ws)), ws[i].start) && Contains(RectOf(BoundsOf(ws)), ws[i].end)
  {
    BoundsContainEndpoints(ws);
    assert InBounds(BoundsOf(ws), ws[0].start);
  }

  /** A coordinate a CGFloat can hold without being infinite. */
  predicate Finite(v: real) {
    -GreatestFiniteMagnitude <= v <= GreatestFiniteMagnitude
  }

  predicate EndpointsFinite(ws: seq<ProjectedWall>) {
    forall i :: 0 <= i < |ws| ==>
      Finite(ws[i].start.x) && Finite(ws[i].start.y) && Finite(ws[i].end.x) && Finite(ws[i].end.y)
  }

  predicate IsEndpointX(ws: seq<ProjectedWall>, v: real) {
    exists i :: 0 <= i < |ws| && (ws[i].start.x == v || ws[i].end.x == v)
  }

  predicate IsEndpointY(ws: seq<ProjectedWall>, v: real) {
    exists i :: 0 <= i < |ws| && (ws[i].start.y == v || ws[i].end.y == v)
  }

  /**
    The box is tight: for a non-empty list of finite endpoints, each of its four
    sides is attained by some endpoint.
   */
  lemma {:induction false} BoundsTight(ws: seq<ProjectedWall>)
    requires ws != [] && EndpointsFinite(ws)
    ensures IsEndpointX(ws, BoundsOf(ws).minX) && IsEndpointX(ws, BoundsOf(ws).maxX)
    ensures IsEndpointY(ws, BoundsOf(ws).minY) && IsEndpointY(ws, BoundsOf(ws).maxY)
    decreases |ws|
  {
    var n := |ws| - 1;
    var pre := ws[..n];
    var last := ws[n];
    var b := BoundsOf(ws);
    if pre == [] {
      assert last == ws[0];
      assert BoundsOf(pre) == Unbounded;
      assert Finite(last.start.x) && Finite(last.end.x) && Finite(last.start.y) && Finite(last.end.y);
      assert b == Bounds(Min(last.start.x, last.end.x), Max(last.start.x, last.end.x),
                         Min(last.start.y, last.end.y), Max(last.start.y, last.end.y));
      assert IsEndpointX(ws, b.minX) && IsEndpointX(ws, b.maxX) by { assert ws[0] == last; }
      assert IsEndpointY(ws, b.minY) && IsEndpointY(ws, b.maxY) by { assert ws[0] == last; }
    } else {
      assert EndpointsFinite(pre) by {
        forall i | 0 <= i < |pre| ensures pre[i] == ws[i] { }
      }
      BoundsTight(pre);
      var prior := BoundsOf(pre);
      var i0 :| 0 <= i0 < |pre| && (pre[i0].start.x == prior.minX || pre[i0].end.x == prior.minX);
      var i1 :| 0 <= i1 < |pre| && (pre[i1].start.x == prior.maxX || pre[i1].end.x == prior.maxX);
      var i2 :| 0 <= i2 < |pre| && (pre[i2].start.y == prior.minY || pre[i2].end.y == prior.minY);
      var i3 :| 0 <= i3 < |pre| && (pre[i3].start.y == prior.maxY || pre[i3].end.y == prior.maxY);
      assert pre[i0] == ws[i0] && pre[i1] == ws[i1] && pre[i2] == ws[i2] && pre[i3] == ws[i3];
      assert b == Include(prior, last);
      assert IsEndpointX(ws, b.minX) by {
        if b.minX == prior.minX { assert ws[i0].start.x == b.minX || ws[i0].end.x == b.minX; }
        else { assert last.start.x == b.minX || last.end.x == b.minX; }
      }
      assert IsEndpointX(ws, b.maxX) by {
        if b.maxX == prior.maxX { assert ws[i1].start.x == b.maxX || ws[i1].end.x == b.maxX; }
        else { assert last.start.x == b.maxX || last.end.x == b.maxX; }
      }
      assert IsEndpointY(ws, b.minY) by {
        if b.minY == prior.minY { assert ws[i2].start.y == b.minY || ws[i2].end.y == b.minY; }
        else { assert last.start.y == b.minY || last.end.y == b.minY; }
      }
      assert IsEndpointY(ws, b.maxY) by {
        if b.maxY == prior.maxY { assert ws[i3].start.y == b.maxY || ws[i3].end.y == b.maxY; }
        else { assert last.start.y == b.maxY || last.end.y == b.maxY; }
      }
    }
  }

  /**
    project(room:): one loop appends each wall's segment and widens the running
    box by its two endpoints.
   */
  method Project(room: CapturedRoom) returns (r: ProjectionResult)
    ensures r == Projection(room)
    ensures |r.walls| == |room.walls|
    ensures forall i :: 0 <= i < |r.walls| ==>
              r.walls[i] == ProjectWall(room.walls[i]) && r.walls[i].lengthMeters == room.walls[i].dimensions.x
    ensures room.walls != [] ==> r.boundingRect.width >= 0.0 && r.boundingRect.height >= 0.0
    ensures forall i :: 0 <= i < |r.walls| ==>
              Contains(r.boundingRect, r.walls[i].start) && Contains(r.boundingRect, r.walls[i].end)
    ensures room.walls == [] ==>
              r.walls == [] && r.boundingRect == RectOf(Unbounded)
  {
    var walls: seq<ProjectedWall> := [];
    var minX := GreatestFiniteMagnitude;
    var maxX := -GreatestFiniteMagnitude;
    var minY := GreatestFiniteMagnitude;
    var maxY := -GreatestFiniteMagnitude;

    for k := 0 to |room.walls|
      invariant |walls| == k
      invariant forall i :: 0 <= i < k ==> walls[i] == ProjectWall(room.walls[i])
      invariant Bounds(minX, maxX, minY, maxY) == BoundsOf(walls)
    {
      var wall := room.walls[k];
      var width := wall.dimensions.x;
      var center := wall.column3;
      var rightAxis := wall.column0;
      var halfWidth := Times(rightAxis, width / 2.0);

      var start3D := Minus(center, halfWidth);
      var end3D := Plus(center, halfWidth);

      var start2D := Point(start3D.x, -start3D.z);
      var end2D := Point(end3D.x, -end3D.z);

      var prior := walls;
      walls := walls + [ProjectedWall(start2D, end2D, width)];
      assert walls[..|walls| - 1] == prior;

      minX := Min(minX, Min(start2D.x, end2D.x));
      maxX := Max(maxX, Max(start2D.x, end2D.x));
      minY := Min(minY, Min(start2D.y, end2D.y));
      maxY := Max(maxY, Max(start2D.y, end2D.y));
      assert Bounds(minX, maxX, minY, maxY) == Include(BoundsOf(prior), walls[|walls| - 1]);
    }

    r := ProjectionResult(walls, RectOf(Bounds(minX, maxX, minY, maxY)));
    assert walls == Projection(room).walls by {
      var expected := Projection(room).walls;
      assert |expected| == |walls|;
      forall i | 0 <= i < |walls| ensures expected[i] == walls[i] { }
    }
    ProjectionContainsWalls(room);
  }

  /**
    The projection has one wall per input wall, in order, each as long as the
    input is wide; its box contains every endpoint, has non-negative size when
    there is a wall, and is the sentinel box when there is none.
   */
  lemma ProjectionContainsWalls(room: CapturedRoom)
    ensures var r := Projection(room);
            |r.walls| == |room.walls|
            && (forall i :: 0 <= i < |r.walls| ==>
                  r.walls[i] == ProjectWall(room.walls[i]) && r.walls[i].lengthMeters == room.walls[i].dimensions.x)
            && (room.walls != [] ==> r.boundingRect.width >= 0.0 && r.boundingRect.height >= 0.0)
            && (forall i :: 0 <= i < |r.walls| ==>
                  Contains(r.boundingRect, r.walls[i].start) && Contains(r.boundingRect, r.walls[i].end))
            && (room.walls == [] ==> r.walls == [] && r.boundingRect == RectOf(Unbounded))
  {
    var ws := Projection(room).walls;
    if ws != [] {
      BoundingRectContainsEndpoints(ws);
    }
  }
}
