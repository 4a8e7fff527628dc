/**
  A graphics context as the plan renderers use it (CGContext for the PDF page,
  SwiftUI's GraphicsContext for the canvas): a current transformation matrix, a
  stack of saved states, and the record of what has been drawn. Each drawn item
  keeps its user-space geometry together with the CTM in force when it was
  drawn, which determines where it lands on the surface.
 */
module Graphics {
  import opened Geometry

  datatype PathElement = MoveTo(to: Point) | LineTo(to: Point)

  /** The fonts the renderers set text in; their metrics are a parameter of the model. */
  datatype TextStyle =
    | Title2            // PDF header title
    | Headline          // PDF header address
    | Subheadline       // PDF header timestamp
    | LabelFont         // PDF length label, system 10 pt medium
    | FootnoteFont      // PDF disclaimer, system 9 pt
    | Caption           // canvas length label

  /** Where the drawing point sits on the text: its top-left corner, or its centre. */
  datatype Anchor = TopLeading | Centered

  datatype DrawOp =
    | Stroke(path: seq<PathElement>, lineWidth: real, ctm: Ctm)
    | Text(text: string, style: TextStyle, at: Point, anchor: Anchor, ctm: Ctm)

  class GraphicsContext {
    var ctm: Ctm
    var saved: seq<Ctm>
    var ops: seq<DrawOp>

    constructor (initial: Ctm)
      ensures ctm == initial && saved == [] && ops == []
    {
      ctm := initial;
      saved := [];
      ops := [];
    }

    method SaveGState()
      modifies this
      ensures ctm == old(ctm) && saved == old(saved) + [old(ctm)] && ops == old(ops)
    {
      saved := saved + [ctm];
    }

    /** Restores the most recently saved state; with nothing saved it does nothing. */
    method RestoreGState()
      modifies this
      ensures old(saved) == [] ==> ctm == old(ctm) && saved == old(saved)
      ensures old(saved) != [] ==>
                ctm == old(saved)[|old(saved)| - 1] && saved == old(saved)[..|old(saved)| - 1]
      ensures ops == old(ops)
    {
      if saved != [] {
        ctm := saved[|saved| - 1];
        saved := saved[..|saved| - 1];
      }
    }

    method TranslateBy(dx: real, dy: real)
      modifies this
      ensures ctm == Translated(old(ctm), dx, dy) && saved == old(saved) && ops == old(ops)
    {
      ctm := Translated(ctm, dx, dy);
    }

    method ScaleBy(a: real, b: real)
      modifies this
      ensures ctm == Scaled(old(ctm), a, b) && saved == old(saved) && ops == old(ops)
    {
      ctm := Scaled(ctm, a, b);
    }

    method StrokePath(path: seq<PathElement>, lineWidth: real)
      modifies this
      ensures ctm == old(ctm) && saved == old(saved)
      ensures ops == old(ops) + [Stroke(path, lineWidth, old(ctm))]
    {
      ops := ops + [Stroke(path, lineWidth, ctm)];
    }

    method DrawText(text: string, style: TextStyle, at: Point, anchor: Anchor)
      modifies this
      ensures ctm == old(ctm) && saved == old(saved)
      ensures ops == old(ops) + [Text(text, style, at, anchor, old(ctm))]
    {
      ops := ops + [Text(text, style, at, anchor, ctm)];
    }
  }
}
