/**
  TwoDPlanView (Sources/Views/TwoDPlanView.swift): the interactive plan. The
  canvas fits the plan's bounding box into 80% of the surface, multiplies by
  the pinch zoom and shifts by the drag offset; the gesture handlers keep the
  zoom within [0.5, 5] and accumulate the pan.
 */
module TwoDPlanView {
  import opened Geometry
  import opened Graphics
  import opened Room
  import opened PlanProjector
  import opened PlanDrawing

  const MinZoom: real := 0.5
  const MaxZoom: real := 5.0

  /** A box side shorter than this is treated as this long when fitting. */
  const MinExtent: real := 0.1

  /** The fitted plan covers this fraction of the surface at zoom 1. */
  const FitFraction: real := 0.8

  /** max(0.5, min(v, 5)): always in range, and v itself when v already is. */
  function ClampZoom(v: real): (z: real)
    ensures MinZoom <= z <= MaxZoom
    ensures MinZoom <= v <= MaxZoom ==> z == v
    ensures v < MinZoom ==> z == MinZoom
    ensures v > MaxZoom ==> z == MaxZoom
  {
    Max(MinZoom, Min(v, MaxZoom))
  }

  /** min(W / max(bw, 0.1), H / max(bh, 0.1)) * 0.8: the divisors are never below 0.1. */
  function BaseScale(size: Size, bounding: Rect): real {
    Min(size.width / Max(bounding.width, MinExtent), size.height / Max(bounding.height, MinExtent)) * FitFraction
  }

  /** The canvas CTM: the box centre goes to the surface centre plus the pan, at base scale times zoom. */
  function CanvasCtm(ctm: Ctm, size: Size, bounding: Rect, totalScale: real, pan: Size): Ctm {
    CenteringCtm(ctm, Point(size.width / 2.0 + pan.width, size.height / 2.0 + pan.height),
                 BaseScale(size, bounding) * totalScale, Center(bounding))
  }

  /** The canvas label: "<n> m" in the caption font, centred on the wall's midpoint. */
  function CanvasLabelOp(wall: ProjectedWall, ctm: Ctm, format: NumberFormat): DrawOp {
    Text(LengthLabelText(format(wall.lengthMeters)), Caption, LabelAnchor(wall), Centered, ctm)
  }

  function CanvasLabelOps(ws: seq<ProjectedWall>, ctm: Ctm, format: NumberFormat): seq<DrawOp> {
    seq(|ws|, i requires 0 <= i < |ws| => CanvasLabelOp(ws[i], ctm, format))
  }

  /** What the Canvas closure draws: nothing for an empty plan, else the wall path and one label per wall. */
  function CanvasOps(projection: ProjectionResult, size: Size, ctm: Ctm, totalScale: real, pan: Size,
                     format: NumberFormat): seq<DrawOp>
  {
    var ws := projection.walls;
    if ws == [] then []
    else
      var canvasCtm := CanvasCtm(ctm, size, projection.boundingRect, totalScale, pan);
      [Stroke(WallPathOf(ws), WallLineWidth, canvasCtm)] + CanvasLabelOps(ws, canvasCtm, format)
  }

  /** With W, H >= 0 and a box of non-negative size, the box at base scale spans at most 80% of each side. */
  lemma BaseScaleFits(size: Size, bounding: Rect)
    requires size.width >= 0.0 && size.height >= 0.0
    requires bounding.width >= 0.0 && bounding.height >= 0.0
    ensures var s := BaseScale(size, bounding);
            s >= 0.0 && bounding.width * s <= FitFraction * size.width && bounding.height * s <= FitFraction * size.height
  {
    var dw, dh := Max(bounding.width, MinExtent), Max(bounding.height, MinExtent);
    var m := Min(size.width / dw, size.height / dh);
    RatioBound(bounding.width, dw, size.width, m);
    RatioBound(bounding.height, dh, size.height, m);
    assert bounding.width * (m * FitFraction) == (bounding.width * m) * FitFraction;
    assert bounding.height * (m * FitFraction) == (bounding.height * m) * FitFraction;
  }

  /** 0 <= b <= d and 0 <= m <= W / d give b * m <= W. */
  lemma RatioBound(b: real, d: real, w: real, m: real)
    requires 0.0 <= b <= d && d > 0.0 && w >= 0.0 && 0.0 <= m <= w / d
    ensures 0.0 <= b * m <= w
  {
    assert b * m <= d * m;
    assert d * m <= d * (w / d);
  }

  /** The box centre is drawn at the surface centre moved by the current pan. */
  lemma CanvasCentresPlan(ctm: Ctm, size: Size, bounding: Rect, totalScale: real, pan: Size)
    ensures Apply(CanvasCtm(ctm, size, bounding, totalScale, pan), Center(bounding))
         == Apply(ctm, Point(size.width / 2.0 + pan.width, size.height / 2.0 + pan.height))
  {
    var surface := Point(size.width / 2.0 + pan.width, size.height / 2.0 + pan.height);
    var scale := BaseScale(size, bounding) * totalScale;
    assert CanvasCtm(ctm, size, bounding, totalScale, pan) == CenteringCtm(ctm, surface, scale, Center(bounding));
    CenteringCtmMaps(ctm, surface, scale, Center(bounding), Center(bounding));
  }

  /** At zoom 1 with no pan, a plan point is drawn at its offset from the box centre, scaled, plus the surface centre. */
  lemma CanvasCtmAtUnitZoom(size: Size, b: Rect, e: Point)
    ensures Apply(CanvasCtm(Identity, size, b, 1.0, Size(0.0, 0.0)), e)
         == Point((e.x - MidX(b)) * BaseScale(size, b) + size.width / 2.0,
                  (e.y - MidY(b)) * BaseScale(size, b) + size.height / 2.0)
  {
    var s := BaseScale(size, b);
    var surface := Point(size.width / 2.0 + 0.0, size.height / 2.0 + 0.0);
    assert CanvasCtm(Identity, size, b, 1.0, Size(0.0, 0.0)) == CenteringCtm(Identity, surface, s * 1.0, Center(b));
    assert s * 1.0 == s;
    CenteringCtmMaps(Identity, surface, s, Center(b), e);
  }

  /** At zoom 1 with no pan, every point of a box of non-negative size is drawn in the surface's central 80%. */
  lemma CanvasBoxWithinCentralRegion(size: Size, b: Rect, e: Point)
    requires size.width >= 0.0 && size.height >= 0.0
    requires b.width >= 0.0 && b.height >= 0.0 && Contains(b, e)
    ensures Contains(Rect(0.1 * size.width, 0.1 * size.height, 0.8 * size.width, 0.8 * size.height),
                     Apply(CanvasCtm(Identity, size, b, 1.0, Size(0.0, 0.0)), e))
  {
    var s := BaseScale(size, b);
    var p := Point((e.x - MidX(b)) * s + size.width / 2.0, (e.y - MidY(b)) * s + size.height / 2.0);
    assert Apply(CanvasCtm(Identity, size, b, 1.0, Size(0.0, 0.0)), e) == p by {
      CanvasCtmAtUnitZoom(size, b, e);
    }
    BaseScaleFits(size, b);
    var central := Rect(0.1 * size.width, 0.1 * size.height, 0.8 * size.width, 0.8 * size.height);
    assert MidX(central) == size.width / 2.0 && MidY(central) == size.height / 2.0;
    ScaledPointWithin(central, b, e, s, p);
  }

  /**
    At zoom 1 with no pan, every point of a projected room's wall path is drawn
    within the central 80% of the surface.
   */
  lemma CanvasPlanWithinCentralRegion(room: CapturedRoom, size: Size, format: NumberFormat)
    requires room.walls != []
    requires size.width >= 0.0 && size.height >= 0.0
    ensures var ops := CanvasOps(Projection(room), size, Identity, 1.0, Size(0.0, 0.0), format);
            var central := Rect(0.1 * size.width, 0.1 * size.height, 0.8 * size.width, 0.8 * size.height);
            |ops| == 1 + |room.walls| && ops[0].Stroke?
            && forall k :: 0 <= k < |ops[0].path| ==> Contains(central, Apply(ops[0].ctm, ops[0].path[k].to))
  {
    var p := Projection(room);
    var ws := p.walls;
    var b := p.boundingRect;
    var central := Rect(0.1 * size.width, 0.1 * size.height, 0.8 * size.width, 0.8 * size.height);
    BoundingRectContainsEndpoints(ws);
    var path := WallPathOf(ws);
    var ctm := CanvasCtm(Identity, size, b, 1.0, Size(0.0, 0.0));
    forall k | 0 <= k < |path|
      ensures Contains(central, Apply(ctm, path[k].to))
    {
      var i := k / 2;
      assert k == 2 * i || k == 2 * i + 1;
      var e := path[k].to;
      assert e == ws[i].start || e == ws[i].end;
      assert Contains(b, e);
      CanvasBoxWithinCentralRegion(size, b, e);
    }
  }

  /** The three transform calls of the Canvas closure: to the surface centre plus the pan, scale, then minus the box centre. */
  method ApplyCanvasTransform(context: GraphicsContext, size: Size, bounding: Rect, totalScale: real, pan: Size)
    modifies context
    ensures context.ctm == CanvasCtm(old(context.ctm), size, bounding, totalScale, pan)
    ensures context.saved == old(context.saved) && context.ops == old(context.ops)
  {
    var scale := BaseScale(size, bounding) * totalScale;
    var surface := Point(size.width / 2.0 + pan.width, size.height / 2.0 + pan.height);
    context.TranslateBy(surface.x, surface.y);
    context.ScaleBy(scale, scale);
    context.TranslateBy(-Center(bounding).x, -Center(bounding).y);
  }

  /** The label loop of the Canvas closure: one centred caption per wall, in wall order. */
  method DrawCanvasLabels(context: GraphicsContext, ws: seq<ProjectedWall>, format: NumberFormat)
    modifies context
    ensures context.ops == old(context.ops) + CanvasLabelOps(ws, old(context.ctm), format)
    ensures context.ctm == old(context.ctm) && context.saved == old(context.saved)
  {
    for k := 0 to |ws|
      invariant context.ctm == old(context.ctm) && context.saved == old(context.saved)
      invariant context.ops == old(context.ops) + CanvasLabelOps(ws[..k], old(context.ctm), format)
    {
      var midpoint := Point((ws[k].start.x + ws[k].end.x) / 2.0, (ws[k].start.y + ws[k].end.y) / 2.0);
      var length := format(ws[k].lengthMeters);
      context.DrawText(LengthLabelText(length), Caption, midpoint, Centered);
      assert CanvasLabelOps(ws[..k + 1], old(context.ctm), format)
          == CanvasLabelOps(ws[..k], old(context.ctm), format) + [CanvasLabelOp(ws[k], old(context.ctm), format)];
    }
    assert ws[..|ws|] == ws;
  }

  /** The view's zoom and pan state: @State zoomFactor and panOffset, @GestureState gestureZoom and gesturePan. */
  class PlanViewState {
    const projection: ProjectionResult
    var zoomFactor: real
    var gestureZoom: real
    var panOffset: Size
    var gesturePan: Size

    predicate Valid()
      reads this
    {
      MinZoom <= zoomFactor <= MaxZoom
    }

    /** init(capturedRoom:): the projection is computed once, with no zoom and no pan. */
    constructor (capturedRoom: CapturedRoom)
      ensures Valid()
      ensures projection == Projection(capturedRoom)
      ensures zoomFactor == 1.0 && gestureZoom == 1.0
      ensures panOffset == Size(0.0, 0.0) && gesturePan == Size(0.0, 0.0)
    {
      var projected := Project(capturedRoom);
      projection := projected;
      zoomFactor := 1.0;
      gestureZoom := 1.0;
      panOffset := Size(0.0, 0.0);
      gesturePan := Size(0.0, 0.0);
    }

    /** The scale in effect, during a pinch too. */
    function TotalScale(): real
      reads this
    {
      zoomFactor * gestureZoom
    }

    /** The pan in effect, during a drag too. */
    function CurrentPan(): Size
      reads this
    {
      Size(panOffset.width + gesturePan.width, panOffset.height + gesturePan.height)
    }

    /** The pinch's updating handler: the live magnification. */
    method UpdateZoomGesture(value: real)
      requires Valid()
      modifies this
      ensures Valid()
      ensures gestureZoom == value
      ensures zoomFactor == old(zoomFactor) && panOffset == old(panOffset) && gesturePan == old(gesturePan)
    {
      gestureZoom := value;
    }

    /** The pinch's onEnded: the zoom becomes the clamped product; the gesture state resets to 1. */
    method EndZoomGesture(finalValue: real)
      modifies this
      ensures Valid()
      ensures zoomFactor == ClampZoom(old(zoomFactor) * finalValue)
      ensures gestureZoom == 1.0 && TotalScale() == zoomFactor
      ensures panOffset == old(panOffset) && gesturePan == old(gesturePan)
    {
      zoomFactor := Max(0.5, Min(zoomFactor * finalValue, 5.0));
      gestureZoom := 1.0;
    }

    /** The drag's updating handler: the live translation. */
    method UpdatePanGesture(translation: Size)
      requires Valid()
      modifies this
      ensures Valid()
      ensures gesturePan == translation
      ensures zoomFactor == old(zoomFactor) && gestureZoom == old(gestureZoom) && panOffset == old(panOffset)
    {
      gesturePan := translation;
    }

    /** The drag's onEnded: the translation is added to the pan; the gesture state resets to zero. */
    method EndPanGesture(translation: Size)
      requires Valid()
      modifies this
      ensures Valid()
      ensures panOffset == Size(old(panOffset).width + translation.width, old(panOffset).height + translation.height)
      ensures gesturePan == Size(0.0, 0.0) && CurrentPan() == panOffset
      ensures zoomFactor == old(zoomFactor) && gestureZoom == old(gestureZoom)
    {
      panOffset := Size(panOffset.width + translation.width, panOffset.height + translation.height);
      gesturePan := Size(0.0, 0.0);
    }

    /**
      The Canvas closure, drawing into a surface of the given size. Every state
      the view reaches is Valid, so the committed zoomFactor in the drawn scale
      is within [MinZoom, MaxZoom].
     */
    method Render(context: GraphicsContext, size: Size, format: NumberFormat)
      requires Valid()
      modifies context
      ensures context.ops == old(context.ops) + CanvasOps(projection, size, old(context.ctm), TotalScale(), CurrentPan(), format)
      ensures context.ctm == if projection.walls == [] then old(context.ctm)
                             else CanvasCtm(old(context.ctm), size, projection.boundingRect, TotalScale(), CurrentPan())
      ensures context.saved == old(context.saved)
      ensures projection.walls == [] ==> context.ops == old(context.ops)
      ensures projection.walls != [] ==>
                |context.ops| == |old(context.ops)| + 1 + |projection.walls|
                && context.ops[|old(context.ops)|] == Stroke(WallPathOf(projection.walls), WallLineWidth, context.ctm)
    {
      var totalScale := zoomFactor * gestureZoom;
      var currentPan := Size(panOffset.width + gesturePan.width, panOffset.height + gesturePan.height);

      if projection.walls == [] {
        return;
      }

      var bounding := projection.boundingRect;
      ApplyCanvasTransform(context, size, bounding, totalScale, currentPan);
      var wallPath := BuildWallPath(projection.walls);
      context.StrokePath(wallPath, WallLineWidth);
      DrawCanvasLabels(context, projection.walls, format);
    }
  }
}
