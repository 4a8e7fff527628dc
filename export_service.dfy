/**
  ExportService (Sources/Services/ExportService.swift): the 3D-model export
  guard and file names, and the single-page PDF of the plan: header, the plan
  fitted into the page's content rectangle, length labels, and the footer
  disclaimer.
 */
module ExportService {
  import opened Wrappers
  import opened Geometry
  import opened Graphics
  import opened Room
  import opened PlanProjector
  import opened PlanDrawing
  import opened Models

  /** The page: A4 landscape in points (72 points per inch), with a fixed margin. */
  const PageWidth: real := 842.0
  const PageHeight: real := 595.0
  const Margin: real := 36.0

  /** The plan's bounding box is grown by this many metres on every side. */
  const PlanInset: real := 0.5

  /** Vertical offsets of the header's address and timestamp lines below its title. */
  const SubtitleOffset: real := 28.0
  const TimestampOffset: real := 52.0

  const AppName: string := "FloorPlanPro"
  const Disclaimer: string := "Not to scale; approximate only; buyers to make independent enquiries."

  /** The collaborators the page layout depends on besides the number format: date formatting and text measurement. */
  type DateFormat = Timestamp -> string
  type TextMeasure = (TextStyle, string) -> Size

  /** ExportError.missingCapturedRoom, and the error the SDK's model export throws, which exportUSDZ passes on. */
  datatype ExportError = MissingCapturedRoom | ModelExportFailed

  /** errorDescription, which only ExportError's own case has; the SDK's error describes itself. */
  function ErrorDescription(e: ExportError): (d: Option<string>)
    ensures d.Some? <==> e == MissingCapturedRoom
    ensures d.Some? ==> |d.value| > 0
  {
    match e
    case MissingCapturedRoom => Some("The captured room data could not be read.")
    case ModelExportFailed => None
  }

  /** The temporary file name "FloorPlanPro-<project id>.<ext>". */
  function ExportFileName(id: Uuid, ext: string): string {
    AppName + "-" + id.uuidString + "." + ext
  }

  /** A file name identifies its project and its kind: different ids or extensions give different names. */
  lemma ExportFileNamesDistinct(a: Uuid, b: Uuid, ext: string)
    ensures ExportFileName(a, ext) == ExportFileName(b, ext) ==> a == b
    ensures ExportFileName(a, "usdz") != ExportFileName(a, "json")
    ensures ExportFileName(a, "usdz") != ExportFileName(a, "pdf")
    ensures ExportFileName(a, "json") != ExportFileName(a, "pdf")
  {
    var prefix := AppName + "-";
    if ExportFileName(a, ext) == ExportFileName(b, ext) {
      var na, nb := ExportFileName(a, ext), ExportFileName(b, ext);
      assert na == prefix + a.uuidString + ("." + ext);
      assert nb == prefix + b.uuidString + ("." + ext);
      assert |a.uuidString| == |b.uuidString|;
      assert a.uuidString == na[|prefix|..|prefix| + |a.uuidString|];
      assert b.uuidString == nb[|prefix|..|prefix| + |b.uuidString|];
    }
    var n := |prefix| + |a.uuidString| + 1;
    assert ExportFileName(a, "usdz")[n] == 'u' && ExportFileName(a, "json")[n] == 'j';
    assert |ExportFileName(a, "usdz")| != |ExportFileName(a, "pdf")|;
    assert |ExportFileName(a, "json")| != |ExportFileName(a, "pdf")|;
  }

  /**
    exportUSDZ: fails with missingCapturedRoom exactly when the payload does not
    decode; otherwise asks the SDK to write the model and its metadata under the
    project's names, and returns the model's file name or the SDK's error.
   */
  function ExportUsdz(project: Project, decode: Decoder,
                      modelExport: (CapturedRoom, string, string) -> bool): (r: Result<string, ExportError>)
    ensures r == Failure(MissingCapturedRoom) <==> CapturedRoomOf(project, decode).None?
    ensures r.Success? <==>
              CapturedRoomOf(project, decode).Some?
              && modelExport(CapturedRoomOf(project, decode).value,
                             ExportFileName(project.id, "usdz"), ExportFileName(project.id, "json"))
    ensures r.Success? ==> r.value == ExportFileName(project.id, "usdz")
  {
    match CapturedRoomOf(project, decode)
    case None => Failure(MissingCapturedRoom)
    case Some(room) =>
      var usdzFile := ExportFileName(project.id, "usdz");
      var metadataFile := ExportFileName(project.id, "json");
      if modelExport(room, usdzFile, metadataFile) then Success(usdzFile) else Failure(ModelExportFailed)
  }

  function PageRect(): Rect {
    Rect(0.0, 0.0, PageWidth, PageHeight)
  }

  /** The page less its margin on every side: (36, 36, 770, 523). */
  function ContentRect(): (r: Rect)
    ensures r == Rect(36.0, 36.0, 770.0, 523.0)
    ensures MinX(r) - MinX(PageRect()) == Margin && MaxX(PageRect()) - MaxX(r) == Margin
    ensures MinY(r) - MinY(PageRect()) == Margin && MaxY(PageRect()) - MaxY(r) == Margin
  {
    Rect(Margin, Margin, PageWidth - Margin * 2.0, PageHeight - Margin * 2.0)
  }

  function HeaderTitle(t: PropertyType): string {
    AppName + " \U{2014} " + DisplayName(t)
  }

  /**
    drawHeader: title, address and timestamp, left-aligned at the content
    rectangle's top-left corner, 0, 28 and 52 points down.
   */
  function HeaderOps(project: Project, content: Rect, formatDate: DateFormat, ctm: Ctm): (ops: seq<DrawOp>)
    ensures |ops| == 3
    ensures forall i :: 0 <= i < 3 ==>
              ops[i].Text? && ops[i].anchor == TopLeading && ops[i].ctm == ctm && ops[i].at.x == MinX(content)
    ensures ops[0].at.y == MinY(content) && ops[1].at.y == MinY(content) + 28.0 && ops[2].at.y == MinY(content) + 52.0
    ensures ops[0].text == HeaderTitle(project.propertyType) && ops[0].style == Title2
    ensures ops[1].text == project.address && ops[1].style == Headline
    ensures ops[2].text == formatDate(project.createdAt) && ops[2].style == Subheadline
  {
    var origin := Point(MinX(content), MinY(content));
    [Text(HeaderTitle(project.propertyType), Title2, origin, TopLeading, ctm),
     Text(project.address, Headline, Point(origin.x, origin.y + SubtitleOffset), TopLeading, ctm),
     Text(formatDate(project.createdAt), Subheadline, Point(origin.x, origin.y + TimestampOffset), TopLeading, ctm)]
  }

  /** Where the disclaimer is drawn: centred horizontally, its bottom on the content rectangle's bottom. */
  function FooterOrigin(content: Rect, textSize: Size): (origin: Point)
    ensures origin.x + textSize.width / 2.0 == MidX(content)
    ensures origin.y + textSize.height == MaxY(content)
  {
    Point(MidX(content) - textSize.width / 2.0, MaxY(content) - textSize.height)
  }

  function FooterOps(content: Rect, measure: TextMeasure, ctm: Ctm): seq<DrawOp> {
    [Text(Disclaimer, FootnoteFont, FooterOrigin(content, measure(FootnoteFont, Disclaimer)), TopLeading, ctm)]
  }

  /** The plan's bounding rectangle grown by half a metre on every side. */
  function PlanBox(projection: ProjectionResult): Rect {
    Outset(projection.boundingRect, PlanInset)
  }

  /** The uniform scale: the smaller of the two per-axis ratios. */
  function FitScale(content: Rect, box: Rect): real
    requires box.width > 0.0 && box.height > 0.0
  {
    Min(content.width / box.width, content.height / box.height)
  }

  /** The plan box's centre goes to the content centre, scaled uniformly. */
  function PlanCtm(ctm: Ctm, content: Rect, box: Rect): Ctm
    requires box.width > 0.0 && box.height > 0.0
  {
    CenteringCtm(ctm, Center(content), FitScale(content, box), Center(box))
  }

  /**
    drawLengthLabel: the label "<n> m" is drawn at the origin of a CTM moved to
    the corner of the text-sized rectangle centred on the wall's midpoint, so
    the centre of the drawn text lands where the midpoint does.
   */
  function LabelOp(wall: ProjectedWall, ctm: Ctm, format: NumberFormat, measure: TextMeasure): (op: DrawOp)
    ensures op.Text? && op.style == LabelFont && op.anchor == TopLeading && op.at == Point(0.0, 0.0)
    ensures op.text == LengthLabelText(format(wall.lengthMeters))
    ensures var size := measure(LabelFont, op.text);
            Apply(op.ctm, Point(size.width / 2.0, size.height / 2.0)) == Apply(ctm, LabelAnchor(wall))
  {
    var text := LengthLabelText(format(wall.lengthMeters));
    var size := measure(LabelFont, text);
    var rect := CenteredRect(LabelAnchor(wall), size);
    TranslatedMaps(ctm, rect.x, rect.y, Point(size.width / 2.0, size.height / 2.0));
    Text(text, LabelFont, Point(0.0, 0.0), TopLeading, Translated(ctm, rect.x, rect.y))
  }

  function LabelOps(ws: seq<ProjectedWall>, ctm: Ctm, format: NumberFormat, measure: TextMeasure): seq<DrawOp> {
    seq(|ws|, i requires 0 <= i < |ws| => LabelOp(ws[i], ctm, format, measure))
  }

  /** drawPlan: nothing for an empty plan; otherwise the wall path stroke, then one label per wall. */
  function PlanOps(projection: ProjectionResult, content: Rect, ctm: Ctm,
                   format: NumberFormat, measure: TextMeasure): seq<DrawOp>
  {
    if projection.walls == [] then []
    else
      var planCtm := PlanCtm(ctm, content, PlanBox(projection));
      [Stroke(WallPathOf(projection.walls), WallLineWidth, planCtm)] + LabelOps(projection.walls, planCtm, format, measure)
  }

  /** The page exportPDF writes: header, plan and footer, drawn with the page's own coordinates. */
  function PageOps(project: Project, projection: ProjectionResult,
                   formatDate: DateFormat, format: NumberFormat, measure: TextMeasure): seq<DrawOp>
  {
    HeaderOps(project, ContentRect(), formatDate, Identity)
    + PlanOps(projection, ContentRect(), Identity, format, measure)
    + FooterOps(ContentRect(), measure, Identity)
  }

  /**
    The grown box keeps the plan's centre and is one metre wider and taller, so
    for a non-empty projection neither divisor of the scale is below one.
   */
  lemma PlanBoxGrowsByOneMetre(room: CapturedRoom)
    requires room.walls != []
    ensures var p := Projection(room);
            Center(PlanBox(p)) == Center(p.boundingRect)
            && PlanBox(p).width == p.boundingRect.width + 1.0 && PlanBox(p).width >= 1.0
            && PlanBox(p).height == p.boundingRect.height + 1.0 && PlanBox(p).height >= 1.0
  {
    BoundingRectContainsEndpoints(Projection(room).walls);
  }

  /**
    The scaled box fits the content on both axes and fills it on at least one:
    the chosen scale is the smaller ratio.
   */
  lemma FitScaleFits(content: Rect, box: Rect)
    requires box.width > 0.0 && box.height > 0.0
    requires content.width >= 0.0 && content.height >= 0.0
    ensures var s := FitScale(content, box);
            s >= 0.0 && box.width * s <= content.width && box.height * s <= content.height
            && (box.width * s == content.width || box.height * s == content.height)
  {
    var sx, sy := content.width / box.width, content.height / box.height;
    if sx <= sy {
      assert box.height * sx <= box.height * sy;
    } else {
      assert box.width * sy <= box.width * sx;
    }
  }

  /** A 3 m by 4 m plan, grown to 4 m by 5 m, is drawn at min(770 / 4, 523 / 5) = 104.6 points per metre. */
  lemma FitScaleOfThreeByFourPlan(projection: ProjectionResult)
    requires projection.boundingRect.width == 3.0 && projection.boundingRect.height == 4.0
    ensures PlanBox(projection).width == 4.0 && PlanBox(projection).height == 5.0
    ensures FitScale(ContentRect(), PlanBox(projection)) == 104.6
  {
  }

  /** The plan box's centre is drawn at the content rectangle's centre. */
  lemma PlanCentredOnContent(ctm: Ctm, content: Rect, box: Rect)
    requires box.width > 0.0 && box.height > 0.0
    ensures Apply(PlanCtm(ctm, content, box), Center(box)) == Apply(ctm, Center(content))
  {
    CenteringCtmMaps(ctm, Center(content), FitScale(content, box), Center(box), Center(box));
  }

  /** Every point of the plan box is drawn inside the content rectangle. */
  lemma PlanBoxDrawnInsideContent(content: Rect, box: Rect, p: Point)
    requires box.width > 0.0 && box.height > 0.0
    requires content.width >= 0.0 && content.height >= 0.0
    requires Contains(box, p)
    ensures Contains(content, Apply(PlanCtm(Identity, content, box), p))
  {
    var s := FitScale(content, box);
    var q := Point((p.x - MidX(box)) * s + MidX(content), (p.y - MidY(box)) * s + MidY(content));
    assert Apply(PlanCtm(Identity, content, box), p) == q by {
      CenteringCtmMaps(Identity, Center(content), s, Center(box), p);
    }
    FitScaleFits(content, box);
    ScaledPointWithin(content, box, p, s, q);
  }

  /**
    On the exported page, every point of the wall path of a projected room is
    drawn inside the content rectangle, so no wall crosses into the margin.
   */
  lemma PlanStrokeInsideContent(room: CapturedRoom, format: NumberFormat, measure: TextMeasure)
    requires room.walls != []
    ensures var ops := PlanOps(Projection(room), ContentRect(), Identity, format, measure);
            |ops| == 1 + |room.walls| && ops[0].Stroke?
            && forall k :: 0 <= k < |ops[0].path| ==> Contains(ContentRect(), Apply(ops[0].ctm, ops[0].path[k].to))
  {
    var p := Projection(room);
    var ws := p.walls;
    var box := PlanBox(p);
    PlanBoxGrowsByOneMetre(room);
    BoundingRectContainsEndpoints(ws);
    var path := WallPathOf(ws);
    forall k | 0 <= k < |path|
      ensures Contains(ContentRect(), Apply(PlanCtm(Identity, ContentRect(), box), path[k].to))
    {
      var i := k / 2;
      assert k == 2 * i || k == 2 * i + 1;
      var e := path[k].to;
      assert e == ws[i].start || e == ws[i].end;
      assert Contains(p.boundingRect, e);
      assert Contains(box, e);
      PlanBoxDrawnInsideContent(ContentRect(), box, e);
    }
  }

  /** An empty plan still gets its header and footer, and nothing else: no stroke, no label. */
  lemma EmptyPlanPage(project: Project, projection: ProjectionResult,
                      formatDate: DateFormat, format: NumberFormat, measure: TextMeasure)
    requires projection.walls == []
    ensures var page := PageOps(project, projection, formatDate, format, measure);
            page == HeaderOps(project, ContentRect(), formatDate, Identity) + FooterOps(ContentRect(), measure, Identity)
            && |page| == 4 && forall op :: op in page ==> op.Text?
  {
  }

  method DrawHeader(ctx: GraphicsContext, project: Project, content: Rect, formatDate: DateFormat)
    modifies ctx
    ensures ctx.ctm == old(ctx.ctm) && ctx.saved == old(ctx.saved)
    ensures ctx.ops == old(ctx.ops) + HeaderOps(project, content, formatDate, old(ctx.ctm))
  {
    var title := HeaderTitle(project.propertyType);
    var subtitle := project.address;
    var timestamp := formatDate(project.createdAt);
    var headerOrigin := Point(MinX(content), MinY(content));
    ctx.DrawText(title, Title2, headerOrigin, TopLeading);
    ctx.DrawText(subtitle, Headline, Point(headerOrigin.x, headerOrigin.y + SubtitleOffset), TopLeading);
    ctx.DrawText(timestamp, Subheadline, Point(headerOrigin.x, headerOrigin.y + TimestampOffset), TopLeading);
  }

  method DrawFooter(ctx: GraphicsContext, content: Rect, measure: TextMeasure)
    modifies ctx
    ensures ctx.ctm == old(ctx.ctm) && ctx.saved == old(ctx.saved)
    ensures ctx.ops == old(ctx.ops) + FooterOps(content, measure, old(ctx.ctm))
  {
    var textSize := measure(FootnoteFont, Disclaimer);
    var origin := Point(MidX(content) - textSize.width / 2.0, MaxY(content) - textSize.height);
    ctx.DrawText(Disclaimer, FootnoteFont, origin, TopLeading);
  }

  method DrawLengthLabel(ctx: GraphicsContext, wall: ProjectedWall, format: NumberFormat, measure: TextMeasure)
    modifies ctx
    ensures ctx.ctm == old(ctx.ctm) && ctx.saved == old(ctx.saved)
    ensures ctx.ops == old(ctx.ops) + [LabelOp(wall, old(ctx.ctm), format, measure)]
  {
    var midpoint := Point((wall.start.x + wall.end.x) / 2.0, (wall.start.y + wall.end.y) / 2.0);
    var labelText := LengthLabelText(format(wall.lengthMeters));
    var textSize := measure(LabelFont, labelText);
    var labelRect := Rect(midpoint.x - textSize.width / 2.0, midpoint.y - textSize.height / 2.0, textSize.width, textSize.height);

    ctx.SaveGState();
    ctx.TranslateBy(labelRect.x, labelRect.y);
    ctx.DrawText(labelText, LabelFont, Point(0.0, 0.0), TopLeading);
    ctx.RestoreGState();
  }

  /**
    The three transform calls of drawPlan: to the content centre, scale by the
    smaller of the two per-axis ratios, then minus the box centre.
   */
  method ApplyPlanTransform(ctx: GraphicsContext, content: Rect, bounding: Rect)
    requires bounding.width > 0.0 && bounding.height > 0.0
    modifies ctx
    ensures ctx.ctm == PlanCtm(old(ctx.ctm), content, bounding)
    ensures ctx.saved == old(ctx.saved) && ctx.ops == old(ctx.ops)
  {
    var scaleX := content.width / bounding.width;
    var scaleY := content.height / bounding.height;
    var scale := Min(scaleX, scaleY);
    ctx.TranslateBy(Center(content).x, Center(content).y);
    ctx.ScaleBy(scale, scale);
    ctx.TranslateBy(-Center(bounding).x, -Center(bounding).y);
  }

  /** The label loop of drawPlan: one length label per wall, in wall order. */
  method DrawLengthLabels(ctx: GraphicsContext, ws: seq<ProjectedWall>, format: NumberFormat, measure: TextMeasure)
    modifies ctx
    ensures ctx.ctm == old(ctx.ctm) && ctx.saved == old(ctx.saved)
    ensures ctx.ops == old(ctx.ops) + LabelOps(ws, old(ctx.ctm), format, measure)
  {
    for k := 0 to |ws|
      invariant ctx.ctm == old(ctx.ctm) && ctx.saved == old(ctx.saved)
      invariant ctx.ops == old(ctx.ops) + LabelOps(ws[..k], old(ctx.ctm), format, measure)
    {
      DrawLengthLabel(ctx, ws[k], format, measure);
      assert LabelOps(ws[..k + 1], old(ctx.ctm), format, measure)
          == LabelOps(ws[..k], old(ctx.ctm), format, measure) + [LabelOp(ws[k], old(ctx.ctm), format, measure)];
    }
    assert ws[..|ws|] == ws;
  }

  /** drawPlan: draws under a saved state and restores it, so the caller's CTM is unchanged. */
  method DrawPlan(ctx: GraphicsContext, projection: ProjectionResult, content: Rect,
                  format: NumberFormat, measure: TextMeasure)
    modifies ctx
    ensures ctx.ctm == old(ctx.ctm) && ctx.saved == old(ctx.saved)
    ensures ctx.ops == old(ctx.ops) + PlanOps(projection, content, old(ctx.ctm), format, measure)
  {
    if projection.walls == [] {
      return;
    }

    var bounding := Outset(projection.boundingRect, PlanInset);
    ctx.SaveGState();
    ApplyPlanTransform(ctx, content, bounding);
    var wallPath := BuildWallPath(projection.walls);
    ctx.StrokePath(wallPath, WallLineWidth);
    DrawLengthLabels(ctx, projection.walls, format, measure);
    ctx.RestoreGState();
  }

  /**
    exportPDF: one page drawn from the identity CTM, written to
    "FloorPlanPro-<id>.pdf". Returns the file name and what the page shows.
   */
  method ExportPdf(project: Project, projection: ProjectionResult,
                   formatDate: DateFormat, format: NumberFormat, measure: TextMeasure)
    returns (fileName: string, page: seq<DrawOp>)
    ensures fileName == ExportFileName(project.id, "pdf")
    ensures page == PageOps(project, projection, formatDate, format, measure)
  {
    var content := Rect(Margin, Margin, PageWidth - Margin * 2.0, PageHeight - Margin * 2.0);
    fileName := ExportFileName(project.id, "pdf");
    var context := new GraphicsContext(Identity);
    DrawHeader(context, project, content, formatDate);
    DrawPlan(context, projection, content, format, measure);
    DrawFooter(context, content, measure);
    page := context.ops;
  }
}
