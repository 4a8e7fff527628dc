# FloorPlanPro plan pipeline in Dafny

FloorPlanPro scans a room with a LiDAR capture session and turns the captured
walls into a 2D floor plan. The plan can be viewed interactively, with pinch
zoom and drag pan, or exported as a one-page A4 PDF. This project models the
app's deterministic core and proves its properties:

- **`plan_projector.dfy`**: the projector. Each wall becomes a 2D segment
  `centre ∓ right·(width/2)`, flattened to `(x, −z)`. One loop keeps a running
  min/max box over all endpoints. `Project` is that loop, proved against the
  specification function `Projection`.
- **`export_service.dfy`**: the export service.
  - the `missingCapturedRoom` guard and the `FloorPlanPro-<id>.<ext>` file names;
  - the page's fixed geometry: 842×595 points, a 36-point margin, content
    rectangle (36, 36, 770, 523);
  - header offsets, footer centring and length-label centring;
  - the plan's fit transform: grow the box by 0.5 m, scale by the smaller
    ratio, centre on the content;
  - `drawPlan` as a method over a recording graphics context.
- **`two_d_plan_view.dfy`**: the interactive plan view.
  - the canvas fit: the box side is floored at 0.1, scaled by 0.8, times the
    zoom, plus the pan;
  - the zoom clamp to [0.5, 5];
  - pan accumulation and the live gesture state, as a class whose gesture
    handlers update its fields.
- **`models.dfy`**: the project record and store.
  - the closed `PropertyType` with its raw values and display names;
  - soft-fail payload decoding;
  - `ProjectStore`: insertion at the front (nothing changes when encoding
    fails) and removal by a set of offsets.
- **`room_scan_host_view.dfy`**: the capture coordinator. It is a class whose
  flags `hasDeliveredResult`, `hasStarted` and `isScanning` change step by step.
  Its contract is "first result wins": at most one session result is ever
  delivered.

Shared modules:

- `geometry.dfy`: CGPoint, CGSize and CGRect semantics over the reals (minX as
  the min of x and x+width, `insetBy` standardizing first). A CTM restricted to
  scale and translation.
- `graphics.dfy`: one recording class standing for both CGContext and SwiftUI's
  GraphicsContext. It has a CTM, a saved-state stack and a log of draw
  operations. Each logged operation keeps the CTM it was drawn under.
- `plan_drawing.dfy`: what both renderers share: the wall path loop and the
  `"<n> m"` label text.
- `room.dfy`: the scanned room as a record (walls with width, right axis and
  centre).
- `wrappers.dfy`: Option and Result.

Coordinates are `real`. These are parameters of the model:

- the JSON codec;
- the number and date formatters;
- text measurement;
- the RoomPlan SDK's model export;
- `RoomCaptureSession.isSupported`;
- the session's error and the room builder's result;
- fresh UUIDs and the clock.

## Model

| member | source | states |
|---|---|---|
| PlanProjector.ProjectWall | Sources/Services/PlanProjector.swift:26-38 | the projected wall's length is the wall's width `dimensions.x`; the segment's midpoint is the flattened centre `(c.x, −c.z)`; the segment runs along the flattened right axis for the width |
| PlanProjector.ProjectedLengthSquared | Sources/Services/PlanProjector.swift:29-36 | the squared plan length of a segment is width² times the squared horizontal length of the right axis |
| PlanProjector.ProjectedLengthIsDistance | Sources/Services/PlanProjector.swift:29-36 | with a horizontal unit right axis, the distance between start and end equals `lengthMeters` |
| PlanProjector.BoundsContainEndpoints | Sources/Services/PlanProjector.swift:40-43 | after the min/max updates of any prefix of walls, the running box holds every endpoint seen so far |
| PlanProjector.BoundingRectContainsEndpoints | Sources/Services/PlanProjector.swift:40-46 | for non-empty input, `boundingRect` has width and height ≥ 0 and contains every start and end point |
| PlanProjector.BoundsTight | Sources/Services/PlanProjector.swift:40-46 | for non-empty input with finite coordinates, each of minX, maxX, minY, maxY is the coordinate of some endpoint |
| PlanProjector.ProjectionContainsWalls | Sources/Services/PlanProjector.swift:25-46 | the projection has one wall per input wall in order, each as long as the wall is wide; its box contains every endpoint, has non-negative size when there are walls, and is the sentinel box when there are none |
| PlanProjector.Project | Sources/Services/PlanProjector.swift:18-48 | the loop returns `Projection(room)`: one projected wall per input wall, in order, each with the input's width as length; the box contains every endpoint and has non-negative size for non-empty input; for empty input the walls are empty and the box is built from the sentinels (mins at +greatestFiniteMagnitude, maxes at −greatestFiniteMagnitude) |
| Geometry.Outset | Sources/Services/ExportService.swift:85 | `insetBy(dx: −d, dy: −d)` keeps the centre, and each side moves out by d on the standardized rectangle |
| Geometry.CenteringCtmMaps | Sources/Services/ExportService.swift:94-96 | translate-scale-translate sends p to `(p − planPoint)·s + surfacePoint`, so planPoint lands on surfacePoint |
| Geometry.ScaledPointWithin | Sources/Services/ExportService.swift:86-96 | a box point drawn at its scaled offset from the box centre plus a target's centre lies in the target when the scaled box fits it |
| PlanDrawing.WallPathOf | Sources/Services/ExportService.swift:102-105 | the wall path has two elements per wall: element 2i moves to wall i's start and element 2i+1 draws a line to its end |
| PlanDrawing.BuildWallPath | Sources/Views/TwoDPlanView.swift:32-36 | the path-building loop produces `WallPathOf(walls)` |
| PlanDrawing.LengthLabelText | Sources/Services/ExportService.swift:123-124 | the label ends in " m" after the formatter's output, or is "-- m" when the formatter gives nothing |
| PlanDrawing.LabelAnchor | Sources/Views/TwoDPlanView.swift:84 | the label anchor is equidistant from start and end on each axis: the segment midpoint |
| ExportService.ExportFileNamesDistinct | Sources/Services/ExportService.swift:24-25 | `FloorPlanPro-<id>.<ext>` determines the id, and the .usdz, .json and .pdf names of one project differ |
| ExportService.ErrorDescription | Sources/Services/ExportService.swift:7-15 | a description exists exactly for missingCapturedRoom, and it is non-empty; the SDK's own export error is not an ExportError and gets none here |
| ExportService.ExportUsdz | Sources/Services/ExportService.swift:18-32 | fails with missingCapturedRoom exactly when the payload does not decode; succeeds exactly when it decodes and the model export succeeds, returning the .usdz name |
| ExportService.ContentRect | Sources/Services/ExportService.swift:35-38 | the content rectangle is (36, 36, 770, 523), 36 points in from each edge of the 842×595 page |
| ExportService.HeaderOps | Sources/Services/ExportService.swift:55-80 | three left-aligned lines at the content's top-left: the title with the display name at offset 0, the address at 28, the timestamp at 52 |
| ExportService.FooterOrigin | Sources/Services/ExportService.swift:148-149 | the disclaimer's centre is on the content's midX and its bottom is on the content's maxY |
| ExportService.LabelOp | Sources/Services/ExportService.swift:117-139 | the label is drawn at the origin of a CTM moved to the corner of the text-sized rectangle centred on the midpoint, so the text's centre is drawn where the midpoint is |
| ExportService.PlanBoxGrowsByOneMetre | Sources/Services/ExportService.swift:85-87 | the grown box keeps the plan's centre and is 1.0 wider and taller, so both divisors are ≥ 1 for a non-empty plan |
| ExportService.FitScaleFits | Sources/Services/ExportService.swift:86-88 | the uniform scale fits the box on both axes and fills the content on at least one |
| ExportService.FitScaleOfThreeByFourPlan | Sources/Services/ExportService.swift:85-88 | a 3×4 m plan is grown to 4×5 m and drawn at min(770/4, 523/5) = 104.6 |
| ExportService.PlanCentredOnContent | Sources/Services/ExportService.swift:94-96 | the box's midpoint is drawn at the content rectangle's centre |
| ExportService.PlanBoxDrawnInsideContent | Sources/Services/ExportService.swift:85-96 | every point of the grown box is drawn inside the content rectangle |
| ExportService.PlanStrokeInsideContent | Sources/Services/ExportService.swift:82-107 | on the page, every point of a projected room's wall path is drawn inside the content rectangle, never in the margin |
| ExportService.EmptyPlanPage | Sources/Services/ExportService.swift:45-50 | with no walls the page has only the header and footer: four text operations and no stroke |
| ExportService.DrawHeader | Sources/Services/ExportService.swift:55-80 | the header method appends the three header lines under the caller's CTM and leaves the context's state as it was |
| ExportService.DrawFooter | Sources/Services/ExportService.swift:141-151 | the footer method appends the disclaimer at the footer origin and leaves the context's state as it was |
| ExportService.DrawLengthLabel | Sources/Services/ExportService.swift:117-139 | the label method appends exactly the centred label under a saved and restored state, so the caller's CTM is unchanged |
| ExportService.ApplyPlanTransform | Sources/Services/ExportService.swift:86-96 | the three context calls leave the CTM at the plan transform and change nothing else |
| ExportService.DrawLengthLabels | Sources/Services/ExportService.swift:110-112 | the label loop appends one label per wall, in wall order, under the unchanged CTM |
| ExportService.DrawPlan | Sources/Services/ExportService.swift:82-115 | nothing is drawn for an empty plan; otherwise the stroke and the labels are drawn under the plan transform, and the caller's CTM and state stack are restored |
| ExportService.ExportPdf | Sources/Services/ExportService.swift:34-53 | the file name is `FloorPlanPro-<id>.pdf` and the page is header, plan and footer drawn from the identity CTM |
| TwoDPlanView.ClampZoom | Sources/Views/TwoDPlanView.swift:68 | the clamped zoom is in [0.5, 5], equals the product when it is already in range, and otherwise is the nearer bound |
| TwoDPlanView.BaseScaleFits | Sources/Views/TwoDPlanView.swift:25 | the base scale is ≥ 0 and the box at base scale spans at most 80% of each side of the surface |
| TwoDPlanView.CanvasCentresPlan | Sources/Views/TwoDPlanView.swift:28-30 | the box midpoint is drawn at the surface centre plus the current pan |
| TwoDPlanView.CanvasCtmAtUnitZoom | Sources/Views/TwoDPlanView.swift:25-30 | at zoom 1 with no pan, a point is drawn at its offset from the box centre times the base scale, plus the surface centre |
| TwoDPlanView.CanvasBoxWithinCentralRegion | Sources/Views/TwoDPlanView.swift:24-30 | at zoom 1 with no pan, every point of the box is drawn inside the surface's central 80% |
| TwoDPlanView.CanvasPlanWithinCentralRegion | Sources/Views/TwoDPlanView.swift:21-38 | at zoom 1 with no pan, every point of a projected room's wall path is drawn inside the central 80% |
| TwoDPlanView.ApplyCanvasTransform | Sources/Views/TwoDPlanView.swift:25-30 | the three context calls leave the CTM at the canvas transform and change nothing else |
| TwoDPlanView.DrawCanvasLabels | Sources/Views/TwoDPlanView.swift:40-42 | the label loop appends one centred caption per wall, in wall order, anchored on the midpoint |
| TwoDPlanView.PlanViewState.constructor | Sources/Views/TwoDPlanView.swift:7-14 | the projection is computed once, with zoom 1 and no pan |
| TwoDPlanView.PlanViewState.UpdateZoomGesture | Sources/Views/TwoDPlanView.swift:64-66 | during a pinch only the live magnification changes |
| TwoDPlanView.PlanViewState.EndZoomGesture | Sources/Views/TwoDPlanView.swift:67-69 | after a pinch the zoom is the clamped product, within [0.5, 5], and the live zoom is back to 1 |
| TwoDPlanView.PlanViewState.UpdatePanGesture | Sources/Views/TwoDPlanView.swift:74-76 | during a drag only the live translation changes |
| TwoDPlanView.PlanViewState.EndPanGesture | Sources/Views/TwoDPlanView.swift:77-80 | ending a drag adds its translation to the pan, component by component, and the live pan is back to zero |
| TwoDPlanView.PlanViewState.Render | Sources/Views/TwoDPlanView.swift:18-43 | an empty plan draws nothing; otherwise the stroke under the canvas transform (scale = zoomFactor·gestureZoom, pan = panOffset + gesturePan) comes first, then one label per wall; drawn from a Valid state, whose committed zoomFactor is within [0.5, 5] |
| Models.FromRawValue | Sources/Models/Models.swift:5-10 | a raw value decodes only to the case that has it |
| Models.RawValueRoundTrip | Sources/Models/Models.swift:5-12 | every case's raw value decodes back to that case |
| Models.IdAndDisplayNameInjective | Sources/Models/Models.swift:12-22 | distinct cases have distinct ids (the raw values) and distinct display names |
| Models.AllCasesComplete | Sources/Models/Models.swift:5-10 | allCases lists each of the five cases exactly once |
| Models.CapturedRoomOf | Sources/Models/Models.swift:40-42 | `capturedRoom` is nil exactly when the payload does not decode, and the decoded room otherwise |
| Models.NewProject | Sources/Models/Models.swift:50-58 | nil exactly when encoding fails; otherwise the project carries the given type, address, id, time and encoded room |
| Models.StoredRoomDecodes | Sources/Models/Models.swift:40-58 | when the codec round-trips the room, the stored project's payload decodes back to it |
| Models.KeptIndices | Sources/Models/Models.swift:61-63 | the indices kept by a removal are exactly those below the length and not among the offsets, in increasing order |
| Models.RemovingOffsetsKeepsTheRest | Sources/Models/Models.swift:61-63 | removal keeps exactly the elements whose offsets are not removed, in their original relative order |
| Models.RemovingOffsetsLength | Sources/Models/Models.swift:61-63 | removing in-range offsets shortens the list by the number of offsets |
| Models.RemovingOffsetsIgnoresOutOfRange | Sources/Models/Models.swift:61-63 | only offsets below the length affect the result |
| Models.ProjectStore.AddProject | Sources/Models/Models.swift:50-59 | on encoding failure nil is returned and the list is unchanged; otherwise the new project is put in front of the old list, which follows in order |
| Models.ProjectStore.RemoveProjects | Sources/Models/Models.swift:61-63 | the list becomes the old list without the elements at the offsets, shorter by their number |
| RoomScanHostView.AtMostOneSessionResult | Sources/Services/RoomScanHostView.swift:77-93 | in a callback log holding at most one session result, no session result follows another, so onCompleted is never made twice |
| RoomScanHostView.Outcome | Sources/Services/RoomScanHostView.swift:81-93 | a session error gives onError and never onCompleted; otherwise the build gives onCompleted with the room or onError with the builder's error; either way the callback is a session result |
| RoomScanHostView.Coordinator.StartSession | Sources/Services/RoomScanHostView.swift:50-67 | unsupported device: unsupportedDevice is reported and nothing starts; no capture view: internalFailure is reported and nothing starts; otherwise the session runs with coaching on and hasStarted and isScanning become true |
| RoomScanHostView.Coordinator.Attach | Sources/Services/RoomScanHostView.swift:44-48 | the view is kept, the coordinator becomes the session's delegate, and the session starts unless the device is unsupported |
| RoomScanHostView.Coordinator.StopSession | Sources/Services/RoomScanHostView.swift:69-72 | the session is told to stop if the view is there, and isScanning becomes false |
| RoomScanHostView.Coordinator.UpdateUIView | Sources/Services/RoomScanHostView.swift:21-25 | when isScanning is false the session is stopped again; every flag keeps its value, so repeated updates are idempotent on the state |
| RoomScanHostView.Coordinator.DidEndWith | Sources/Services/RoomScanHostView.swift:76-94 | the first call sets hasDeliveredResult, clears isScanning and makes exactly one callback, the Outcome; every later call changes nothing; the at-most-one invariant is kept |
| RoomScanHostView.CoordinatorDeliversAtMostOnce | Sources/Services/RoomScanHostView.swift:77-79 | in any coordinator state reachable through its methods, at most one session result was ever delivered and onCompleted was made at most once |

## Left out

- Floating point: coordinates, scales and lengths are reals. Float→CGFloat conversions, rounding, division by zero and the overflow of `maxX − minX` on the empty sentinel box are not modelled. The empty box is stated exactly over the reals.
- `PlanProjector.BoundsTight` needs every endpoint coordinate within ±greatestFiniteMagnitude (a finite double). Over the reals a coordinate beyond that bound would leave a sentinel standing.
- The fresh `UUID()` of every projected wall: walls are compared without ids.
- Fonts, colours and text measurement: a text size is a parameter. So are the NumberFormatter and DateFormatter outputs. Only the `" m"` suffix and the `"--"` fallback are modelled.
- File-system work: the temporary directory, removing old files, and `writePDF` with its possible failure. `ExportPdf` therefore never fails. It returns the file name and the operations of the page.
- The RoomPlan SDK: `CapturedRoom.export(to:metadataURL:…)` is a parameter that succeeds or fails. `RoomBuilder.capturedRoom(from:)` is a parameter result, and so is `RoomCaptureSession.isSupported`. `session.run` and `stop` are recorded in a log, not performed.
- `ExportService.ExportError` has a second case, `ModelExportFailed`, which the source's one-case enum does not have. It stands for the error that `CapturedRoom.export` throws and `exportUSDZ` passes on. That error's own type and description are not modelled.
- The JSON encoder and decoder are parameters. Any round trip is a hypothesis of `Models.StoredRoomDecodes`, not a fact proved about them.
- The `Task { @MainActor … }` hop in `didEndWith`: the build result is delivered synchronously, within the call. `AppLogger` is left out.
- The weak `captureView`: it is a flag set by `attach`. Deallocation of the view is not modelled.
- The error the session ends with and the builder's error are carried by their descriptions. Their Swift types are not modelled.
- `Geometry.Outset` models only `insetBy` with a negative inset, the only form the source uses.
- `TwoDPlanView.CanvasBoxWithinCentralRegion` and `TwoDPlanView.CanvasPlanWithinCentralRegion` are stated at zoom 1 with no pan. At other zoom and pan the plan may leave the surface, as the user intends.
- Graphics: only the CTM, the saved-state stack and the stroke and text operations are recorded. Clipping, colours, the line join and SwiftUI's view tree are not modelled. The canvas closure is run with an explicit surface size.
- SwiftUI views and app wiring outside the five files (dashboard, project detail, new-scan flow, scan view, Quick Look preview, app entry) are not part of this model. The unimplemented feet/inches toggle and endpoint snapping are not modelled either.
