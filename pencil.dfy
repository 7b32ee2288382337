/**
 * The drawing primitives of src/draw/pencil.py: filled and stroked shapes,
 * circles, rounded rectangles and anchored text. Each primitive appends cairo
 * calls to a `Canvas`; the function beside it gives the calls it appends, and
 * the lemmas say what those calls paint and where.
 */
module Pencil {
  import opened Wrappers
  import opened Colors
  import opened Cairo
  import Python

  // ---------------------------------------------------------------------------
  // draw_stroke_or_fill

  /** The calls `draw_stroke_or_fill` makes: fill first, then a one-pixel stroke. */
  function StrokeOrFillCmds(stroke: Option<Rgb>, fill: Option<Rgb>): seq<DrawCmd>
  {
    (if fill.Some? then [SetSourceRgb(fill.value), Fill] else [])
    + (if stroke.Some? then [SetLineWidth(1.0), SetSourceRgb(stroke.value), Stroke] else [])
  }

  /**
   * The shape is filled exactly when a fill colour is given and stroked exactly
   * when a stroke colour is given, the fill first, with a one-pixel line; the
   * path is left alone.
   */
  lemma StrokeOrFillOrder(stroke: Option<Rgb>, fill: Option<Rgb>)
    ensures var cmds := StrokeOrFillCmds(stroke, fill);
      && (Fill in cmds <==> fill.Some?)
      && (Stroke in cmds <==> stroke.Some?)
      && (forall i, j :: 0 <= i < j < |cmds| && cmds[i] == Stroke ==> cmds[j] != Fill)
      && (forall k :: 0 <= k < |cmds| && cmds[k].SetLineWidth? ==> cmds[k].lineWidth == 1.0)
      && (forall k :: 0 <= k < |cmds| ==> !cmds[k].IsPathOp())
  {
  }

  method DrawStrokeOrFill(ctx: Canvas, stroke: Option<Rgb>, fill: Option<Rgb>)
    modifies ctx`log
    ensures ctx.log == old(ctx.log) + StrokeOrFillCmds(stroke, fill)
  {
    if fill.Some? {
      ctx.SetSourceRgb(fill.value);
      ctx.Fill();
    }
    if stroke.Some? {
      ctx.SetLineWidth(1.0);
      ctx.SetSourceRgb(stroke.value);
      ctx.Stroke();
    }
  }

  /**
   * With one colour given, the current path is painted once, in that colour:
   * filled, or stroked one pixel wide. (No caller passes both.)
   */
  lemma StrokeOrFillPaints(stroke: Option<Rgb>, fill: Option<Rgb>, st: PaintState)
    requires !(stroke.Some? && fill.Some?)
    ensures MarksFrom(StrokeOrFillCmds(stroke, fill), st) ==
      if fill.Some? then [Mark(FillPaint, fill.value, st.path)]
      else if stroke.Some? then [Mark(StrokePaint(1.0), stroke.value, st.path)]
      else []
    ensures fill.Some? || stroke.Some? ==> StateAfter(StrokeOrFillCmds(stroke, fill), st).path == []
  {
    if fill.Some? {
      assert StrokeOrFillCmds(stroke, fill) == [SetSourceRgb(fill.value)] + [Fill];
      MarksFromCons(SetSourceRgb(fill.value), [Fill], st);
      MarksFromOne(Fill, Step(st, SetSourceRgb(fill.value)));
    } else if stroke.Some? {
      var st1 := Step(st, SetLineWidth(1.0));
      var st2 := Step(st1, SetSourceRgb(stroke.value));
      assert StrokeOrFillCmds(stroke, fill) == [SetLineWidth(1.0)] + ([SetSourceRgb(stroke.value)] + [Stroke]);
      MarksFromCons(SetLineWidth(1.0), [SetSourceRgb(stroke.value)] + [Stroke], st);
      MarksFromCons(SetSourceRgb(stroke.value), [Stroke], st1);
      MarksFromOne(Stroke, st2);
    }
  }

  // ---------------------------------------------------------------------------
  // draw_circle

  function CircleCmds(x: real, y: real, radius: real, fill: Rgb): seq<DrawCmd>
  {
    [SetSourceRgb(fill), Arc(x + radius, y + radius, radius, 0, 4)] + StrokeOrFillCmds(None, Some(fill))
  }

  method DrawCircle(ctx: Canvas, x: real, y: real, radius: real, fill: Rgb)
    modifies ctx`log
    ensures ctx.log == old(ctx.log) + CircleCmds(x, y, radius, fill)
  {
    ctx.SetSourceRgb(fill);
    ctx.Arc(x + radius, y + radius, radius, 0, 4);
    DrawStrokeOrFill(ctx, None, Some(fill));
  }

  /**
   * A circle paints one filled disc, never a stroke: a full-turn arc of the
   * given radius centred at (x + radius, y + radius), so (x, y) is the top-left
   * corner of its bounding box.
   */
  lemma CirclePaints(x: real, y: real, radius: real, fill: Rgb)
    ensures SelfContained(CircleCmds(x, y, radius, fill), [Mark(FillPaint, fill, [Arc(x + radius, y + radius, radius, 0, 4)])])
  {
    var arc := Arc(x + radius, y + radius, radius, 0, 4);
    var head := [SetSourceRgb(fill), arc];
    forall st: PaintState | st.path == []
      ensures MarksFrom(CircleCmds(x, y, radius, fill), st) == [Mark(FillPaint, fill, [arc])]
      ensures StateAfter(CircleCmds(x, y, radius, fill), st).path == []
    {
      MarksFromConcat(head, StrokeOrFillCmds(None, Some(fill)), st);
      assert head == [SetSourceRgb(fill)] + [arc];
      MarksFromCons(SetSourceRgb(fill), [arc], st);
      MarksFromOne(arc, Step(st, SetSourceRgb(fill)));
      assert StateAfter(head, st).path == [arc];
      StrokeOrFillPaints(None, Some(fill), StateAfter(head, st));
    }
  }

  // ---------------------------------------------------------------------------
  // draw_rounded_rectangle

  /** `min(radius, width / 2, height / 2)`. */
  function ClampRadius(radius: real, width: real, height: real): (r: real)
    ensures r <= radius && r <= width / 2.0 && r <= height / 2.0
    ensures r == radius || r == width / 2.0 || r == height / 2.0
  {
    var m := if radius <= width / 2.0 then radius else width / 2.0;
    if m <= height / 2.0 then m else height / 2.0
  }

  /** With a non-negative size the clamped corners leave each edge the right way round. */
  lemma EdgesNotReversed(x: real, y: real, width: real, height: real, radius: real)
    requires width >= 0.0 && height >= 0.0
    ensures x + ClampRadius(radius, width, height) <= x + width - ClampRadius(radius, width, height)
    ensures y + ClampRadius(radius, width, height) <= y + height - ClampRadius(radius, width, height)
  {
  }

  /** The outline: move to the top edge, then a line and a quarter arc per corner, clockwise from the top right. */
  function RoundedRectanglePath(x: real, y: real, width: real, height: real, r: real): seq<DrawCmd>
  {
    [ MoveTo(x + r, y),
      LineTo(x + width - r, y), Arc(x + width - r, y + r, r, -1, 0),
      LineTo(x + width, y + height - r), Arc(x + width - r, y + height - r, r, 0, 1),
      LineTo(x + r, y + height), Arc(x + r, y + height - r, r, 1, 2),
      LineTo(x, y + r), Arc(x + r, y + r, r, 2, 3),
      ClosePath ]
  }

  /**
   * The outline is one closed, unbroken loop: every line ends where the next
   * corner arc begins, every line runs along one axis from where the previous
   * piece ended, the four arcs turn a quarter each in order and sit inside the
   * corners, and the last arc ends where the path started.
   */
  lemma RoundedRectangleOutline(x: real, y: real, width: real, height: real, r: real)
    ensures var p := RoundedRectanglePath(x, y, width, height, r);
      && |p| == 10 && p[0] == MoveTo(x + r, y) && p[9] == ClosePath
      && (forall k :: 0 <= k < |p| ==> p[k].IsPathOp())
      // the corner arcs, clockwise: top right, bottom right, bottom left, top left
      && p[2].Arc? && p[2].xc == x + width - r && p[2].yc == y + r
      && p[4].Arc? && p[4].xc == x + width - r && p[4].yc == y + height - r
      && p[6].Arc? && p[6].xc == x + r && p[6].yc == y + height - r
      && p[8].Arc? && p[8].xc == x + r && p[8].yc == y + r
      && (forall k | k in {2, 4, 6, 8} :: p[k].radius == r && p[k].angle2 == p[k].angle1 + 1)
      && p[2].angle1 == -1 && p[4].angle1 == p[2].angle2 && p[6].angle1 == p[4].angle2 && p[8].angle1 == p[6].angle2
      // each line ends where the following arc begins
      && (forall k | k in {1, 3, 5, 7} ::
            p[k].LineTo? && Point(p[k].x, p[k].y) == ArcPoint(p[k + 1].xc, p[k + 1].yc, r, p[k + 1].angle1))
      // each line is horizontal or vertical from the end of the piece before it
      && (p[1].x == p[0].x || p[1].y == p[0].y)
      && (forall k | k in {3, 5, 7} ::
            var e := ArcPoint(p[k - 1].xc, p[k - 1].yc, r, p[k - 1].angle2); p[k].x == e.x || p[k].y == e.y)
      // the last arc closes the loop at the starting point
      && ArcPoint(p[8].xc, p[8].yc, r, p[8].angle2) == Point(x + r, y)
  {
    assert QuarterCos(-1) == 0.0 && QuarterSin(-1) == -1.0;
    assert QuarterCos(0) == 1.0 && QuarterSin(0) == 0.0;
    assert QuarterCos(1) == 0.0 && QuarterSin(1) == 1.0;
    assert QuarterCos(2) == -1.0 && QuarterSin(2) == 0.0;
    assert QuarterCos(3) == 0.0 && QuarterSin(3) == -1.0;
  }

  /** The calls `draw_rounded_rectangle` makes: the outline at the clamped radius, then paint. */
  function RoundedRectangleCmds(x: real, y: real, width: real, height: real, radius: real,
                                fill: Option<Rgb>, stroke: Option<Rgb>): seq<DrawCmd>
  {
    RoundedRectanglePath(x, y, width, height, ClampRadius(radius, width, height)) + StrokeOrFillCmds(stroke, fill)
  }

  method DrawRoundedRectangle(ctx: Canvas, x: real, y: real, width: real, height: real, radius: real,
                              fill: Option<Rgb>, stroke: Option<Rgb>)
    modifies ctx`log
    ensures ctx.log == old(ctx.log) + RoundedRectangleCmds(x, y, width, height, radius, fill, stroke)
  {
    var r := ClampRadius(radius, width, height);

    ctx.MoveTo(x + r, y);
    ctx.LineTo(x + width - r, y);
    ctx.Arc(x + width - r, y + r, r, -1, 0);

    ctx.LineTo(x + width, y + height - r);
    ctx.Arc(x + width - r, y + height - r, r, 0, 1);

    ctx.LineTo(x + r, y + height);
    ctx.Arc(x + r, y + height - r, r, 1, 2);

    ctx.LineTo(x, y + r);
    ctx.Arc(x + r, y + r, r, 2, 3);

    ctx.ClosePath();

    DrawStrokeOrFill(ctx, stroke, fill);
  }

  /** A rounded rectangle with one colour paints its outline once, filled or stroked one pixel wide. */
  lemma RoundedRectanglePaints(x: real, y: real, width: real, height: real, radius: real,
                               fill: Option<Rgb>, stroke: Option<Rgb>)
    requires fill.Some? != stroke.Some?
    ensures SelfContained(RoundedRectangleCmds(x, y, width, height, radius, fill, stroke),
      [Mark(if fill.Some? then FillPaint else StrokePaint(1.0),
            if fill.Some? then fill.value else stroke.value,
            RoundedRectanglePath(x, y, width, height, ClampRadius(radius, width, height)))])
  {
    var p := RoundedRectanglePath(x, y, width, height, ClampRadius(radius, width, height));
    RoundedRectangleOutline(x, y, width, height, ClampRadius(radius, width, height));
    forall st: PaintState | st.path == []
      ensures MarksFrom(RoundedRectangleCmds(x, y, width, height, radius, fill, stroke), st) ==
        [Mark(if fill.Some? then FillPaint else StrokePaint(1.0),
              if fill.Some? then fill.value else stroke.value, p)]
      ensures StateAfter(RoundedRectangleCmds(x, y, width, height, radius, fill, stroke), st).path == []
    {
      MarksFromConcat(p, StrokeOrFillCmds(stroke, fill), st);
      PathOpsPaintNothing(p, st);
      assert StateAfter(p, st).path == p;
      StrokeOrFillPaints(stroke, fill, StateAfter(p, st));
    }
  }

  // ---------------------------------------------------------------------------
  // draw_text

  /** The horizontal anchor: `round(x - (w_ink / 2 + x_bearing) + width / 2)` when centred, `round(x)` otherwise. */
  function TextX(x: real, width: Option<real>, ext: TextExtents, center: bool): (tx: int)
    ensures !center ==> x - 0.5 <= tx as real <= x + 0.5
    ensures center ==>
      var inkMiddle := tx as real + ext.xBearing + ext.width / 2.0;
      var boxMiddle := x + (if width.Some? then width.value else 0.0) / 2.0;
      boxMiddle - 0.5 <= inkMiddle <= boxMiddle + 0.5
  {
    var w := if width.Some? then width.value else 0.0;
    Python.Round(if center then x - (ext.width / 2.0 + ext.xBearing) + w / 2.0 else x)
  }

  /** The baseline: the ink is always centred vertically in [y, y + height], to within half a pixel. */
  function TextY(y: real, height: real, ext: TextExtents): (ty: int)
    ensures
      var inkMiddle := ty as real + ext.yBearing + ext.height / 2.0;
      y + height / 2.0 - 0.5 <= inkMiddle <= y + height / 2.0 + 0.5
  {
    Python.Round(y - (ext.height / 2.0 + ext.yBearing) + height / 2.0)
  }

  /** Uncentred text starts at round(x) whatever width and extents are; a missing width counts as 0. */
  lemma TextXAnchoring(x: real, w1: Option<real>, w2: Option<real>, e1: TextExtents, e2: TextExtents)
    ensures TextX(x, w1, e1, false) == TextX(x, w2, e2, false) == Python.Round(x)
    ensures TextX(x, None, e1, true) == TextX(x, Some(0.0), e1, true)
  {
  }

  function TextCmds(text: string, x: real, y: real, width: Option<real>, height: real, fontSize: real,
                    colour: Rgb, center: bool, ext: TextExtents): seq<DrawCmd>
  {
    [ SelectFontFace("Sans", SlantNormal, WeightBold),
      SetFontSize(fontSize),
      SetSourceRgb(colour),
      MoveTo(TextX(x, width, ext, center) as real, TextY(y, height, ext) as real),
      ShowText(text) ]
  }

  method DrawText(ctx: Canvas, text: string, x: real, y: real, width: Option<real>, height: real,
                  fontSize: real, colour: Rgb, center: bool)
    modifies ctx`log, ctx`fontSize
    ensures ctx.fontSize == fontSize
    ensures ctx.log == old(ctx.log) + TextCmds(text, x, y, width, height, fontSize, colour, center,
                                               ctx.measure(text, fontSize))
  {
    ctx.SelectFontFace("Sans", SlantNormal, WeightBold);
    ctx.SetFontSize(fontSize);
    ctx.SetSourceRgb(colour);

    var ext := ctx.TextExtentsOf(text);
    var w := if width.Some? then width.value else 0.0;
    var textX := Python.Round(if center then x - (ext.width / 2.0 + ext.xBearing) + w / 2.0 else x);
    var textY := Python.Round(y - (ext.height / 2.0 + ext.yBearing) + height / 2.0);

    ctx.MoveTo(textX as real, textY as real);
    ctx.ShowText(text);
  }

  lemma TextCallsPaint(text: string, fontSize: real, colour: Rgb, move: DrawCmd, st: PaintState)
    requires move.MoveTo? && st.path == []
    ensures var cmds := [SelectFontFace("Sans", SlantNormal, WeightBold), SetFontSize(fontSize),
                         SetSourceRgb(colour), move, ShowText(text)];
      && MarksFrom(cmds, st) == [Mark(TextPaint(text, fontSize), colour, [move])]
      && StateAfter(cmds, st).path == []
  {
    var face, size, source := SelectFontFace("Sans", SlantNormal, WeightBold), SetFontSize(fontSize), SetSourceRgb(colour);
    var show := ShowText(text);
    var st1 := Step(st, face);
    var st2 := Step(st1, size);
    var st3 := Step(st2, source);
    var st4 := Step(st3, move);
    assert st4 == PaintState(colour, st.lineWidth, fontSize, [move]);
    var m := [Mark(TextPaint(text, fontSize), colour, [move])];
    var t4 := [show];
    MarksFromOne(show, st4);
    assert MarksFrom(t4, st4) == m && StateAfter(t4, st4).path == [];
    var t3 := [move] + t4;
    MarksFromCons(move, t4, st3);
    assert MarksFrom(t3, st3) == m && StateAfter(t3, st3).path == [];
    var t2 := [source] + t3;
    MarksFromCons(source, t3, st2);
    assert MarksFrom(t2, st2) == m && StateAfter(t2, st2).path == [];
    var t1 := [size] + t2;
    MarksFromCons(size, t2, st1);
    assert MarksFrom(t1, st1) == m && StateAfter(t1, st1).path == [];
    var t0 := [face] + t1;
    MarksFromCons(face, t1, st);
    assert MarksFrom(t0, st) == m && StateAfter(t0, st).path == [];
    assert [face, size, source, move, show] == t0;
  }

  /** Text paints the string once, in bold Sans at the given size and colour, from its anchor point. */
  lemma TextPaints(text: string, x: real, y: real, width: Option<real>, height: real, fontSize: real,
                   colour: Rgb, center: bool, ext: TextExtents)
    ensures SelfContained(TextCmds(text, x, y, width, height, fontSize, colour, center, ext),
      [Mark(TextPaint(text, fontSize), colour,
            [MoveTo(TextX(x, width, ext, center) as real, TextY(y, height, ext) as real)])])
  {
    var move := MoveTo(TextX(x, width, ext, center) as real, TextY(y, height, ext) as real);
    forall st: PaintState | st.path == []
      ensures MarksFrom(TextCmds(text, x, y, width, height, fontSize, colour, center, ext), st)
           == [Mark(TextPaint(text, fontSize), colour, [move])]
      ensures StateAfter(TextCmds(text, x, y, width, height, fontSize, colour, center, ext), st).path == []
    {
      TextCallsPaint(text, fontSize, colour, move, st);
    }
  }

  // ---------------------------------------------------------------------------
  // Moving a primitive moves its calls.

  lemma StrokeOrFillUnmoved(stroke: Option<Rgb>, fill: Option<Rgb>, dx: real, dy: real)
    ensures TranslatedAll(StrokeOrFillCmds(stroke, fill), dx, dy) == StrokeOrFillCmds(stroke, fill)
  {
  }

  lemma CircleTranslates(x: real, y: real, radius: real, fill: Rgb, dx: real, dy: real)
    ensures CircleCmds(x + dx, y + dy, radius, fill) == TranslatedAll(CircleCmds(x, y, radius, fill), dx, dy)
  {
    StrokeOrFillUnmoved(None, Some(fill), dx, dy);
    TranslatedAllConcat([SetSourceRgb(fill), Arc(x + radius, y + radius, radius, 0, 4)],
                        StrokeOrFillCmds(None, Some(fill)), dx, dy);
  }

  lemma RoundedRectangleTranslates(x: real, y: real, width: real, height: real, radius: real,
                                   fill: Option<Rgb>, stroke: Option<Rgb>, dx: real, dy: real)
    ensures RoundedRectangleCmds(x + dx, y + dy, width, height, radius, fill, stroke)
         == TranslatedAll(RoundedRectangleCmds(x, y, width, height, radius, fill, stroke), dx, dy)
  {
    var r := ClampRadius(radius, width, height);
    StrokeOrFillUnmoved(stroke, fill, dx, dy);
    TranslatedAllConcat(RoundedRectanglePath(x, y, width, height, r), StrokeOrFillCmds(stroke, fill), dx, dy);
  }

  /**
   * Text moves with its box only for EVEN offsets: round() sends ties to the
   * even neighbour, so an odd shift can move a tied anchor by one pixel less
   * (Python.RoundOddShiftCounterexample).
   */
  lemma TextTranslates(text: string, x: real, y: real, width: Option<real>, height: real, fontSize: real,
                       colour: Rgb, center: bool, ext: TextExtents, dx: int, dy: int)
    requires dx % 2 == 0 && dy % 2 == 0
    ensures TextCmds(text, x + dx as real, y + dy as real, width, height, fontSize, colour, center, ext)
         == TranslatedAll(TextCmds(text, x, y, width, height, fontSize, colour, center, ext), dx as real, dy as real)
  {
    var w := if width.Some? then width.value else 0.0;
    var ax := if center then x - (ext.width / 2.0 + ext.xBearing) + w / 2.0 else x;
    var ay := y - (ext.height / 2.0 + ext.yBearing) + height / 2.0;
    Python.RoundShiftEven(dx, ax);
    Python.RoundShiftEven(dy, ay);
    assert (if center then (x + dx as real) - (ext.width / 2.0 + ext.xBearing) + w / 2.0 else x + dx as real) == dx as real + ax;
    assert (y + dy as real) - (ext.height / 2.0 + ext.yBearing) + height / 2.0 == dy as real + ay;
  }
}
