/**
 * The part of a cairo drawing context the drawing code uses, modelled as an
 * ordered log of the calls made on it. Rasterisation is not modelled; what a
 * call sequence paints is read off the log by `Marks`.
 *
 * Arc angles are counted in quarter turns (1 stands for pi / 2), which covers
 * every angle the drawing code passes and keeps them exact.
 */
module Cairo {
  import opened Colors

  datatype FontSlant = SlantNormal | SlantItalic | SlantOblique
  datatype FontWeight = WeightNormal | WeightBold

  /** What `text_extents` reports for a string; only these four fields are read. */
  datatype TextExtents = TextExtents(xBearing: real, yBearing: real, width: real, height: real)

  datatype DrawCmd =
    | SetSourceRgb(colour: Rgb)
    | SetLineWidth(lineWidth: real)
    | Rectangle(x: real, y: real, width: real, height: real)
    | MoveTo(x: real, y: real)
    | LineTo(x: real, y: real)
    | Arc(xc: real, yc: real, radius: real, angle1: int, angle2: int)
    | ClosePath
    | Fill
    | Stroke
    | SelectFontFace(family: string, slant: FontSlant, weight: FontWeight)
    | SetFontSize(size: real)
    | ShowText(text: string)
  {
    predicate IsPathOp() { Rectangle? || MoveTo? || LineTo? || Arc? || ClosePath? }
  }

  /**
   * A `cairo.Context` on a fresh image surface. `measure` gives the extents of a
   * string in the selected bold sans face at a font size: font metrics are an
   * input of the model, not something it computes.
   */
  class Canvas {
    const width: int
    const height: int
    const measure: (string, real) -> TextExtents
    var fontSize: real
    var log: seq<DrawCmd>

    constructor (width: int, height: int, measure: (string, real) -> TextExtents)
      ensures this.width == width && this.height == height && this.measure == measure
      ensures fontSize == 10.0 && log == []
    {
      this.width, this.height, this.measure := width, height, measure;
      fontSize := 10.0;
      log := [];
    }

    method SetSourceRgb(colour: Rgb)
      modifies this`log
      ensures log == old(log) + [DrawCmd.SetSourceRgb(colour)]
    {
      log := log + [DrawCmd.SetSourceRgb(colour)];
    }

    method SetLineWidth(lineWidth: real)
      modifies this`log
      ensures log == old(log) + [DrawCmd.SetLineWidth(lineWidth)]
    {
      log := log + [DrawCmd.SetLineWidth(lineWidth)];
    }

    method Rectangle(x: real, y: real, width: real, height: real)
      modifies this`log
      ensures log == old(log) + [DrawCmd.Rectangle(x, y, width, height)]
    {
      log := log + [DrawCmd.Rectangle(x, y, width, height)];
    }

    method MoveTo(x: real, y: real)
      modifies this`log
      ensures log == old(log) + [DrawCmd.MoveTo(x, y)]
    {
      log := log + [DrawCmd.MoveTo(x, y)];
    }

    method LineTo(x: real, y: real)
      modifies this`log
      ensures log == old(log) + [DrawCmd.LineTo(x, y)]
    {
      log := log + [DrawCmd.LineTo(x, y)];
    }

    method Arc(xc: real, yc: real, radius: real, angle1: int, angle2: int)
      modifies this`log
      ensures log == old(log) + [DrawCmd.Arc(xc, yc, radius, angle1, angle2)]
    {
      log := log + [DrawCmd.Arc(xc, yc, radius, angle1, angle2)];
    }

    method ClosePath()
      modifies this`log
      ensures log == old(log) + [DrawCmd.ClosePath]
    {
      log := log + [DrawCmd.ClosePath];
    }

    method Fill()
      modifies this`log
      ensures log == old(log) + [DrawCmd.Fill]
    {
      log := log + [DrawCmd.Fill];
    }

    method Stroke()
      modifies this`log
      ensures log == old(log) + [DrawCmd.Stroke]
    {
      log := log + [DrawCmd.Stroke];
    }

    method SelectFontFace(family: string, slant: FontSlant, weight: FontWeight)
      modifies this`log
      ensures log == old(log) + [DrawCmd.SelectFontFace(family, slant, weight)]
    {
      log := log + [DrawCmd.SelectFontFace(family, slant, weight)];
    }

    method SetFontSize(size: real)
      modifies this`log, this`fontSize
      ensures log == old(log) + [DrawCmd.SetFontSize(size)] && fontSize == size
    {
      log := log + [DrawCmd.SetFontSize(size)];
      fontSize := size;
    }

    method ShowText(text: string)
      modifies this`log
      ensures log == old(log) + [DrawCmd.ShowText(text)]
    {
      log := log + [DrawCmd.ShowText(text)];
    }

    /** `text_extents(text)` at the current font size. */
    function TextExtentsOf(text: string): TextExtents
      reads this
    {
      measure(text, fontSize)
    }
  }

  /** The unit vector at a whole number of quarter turns (y grows downwards, as in cairo). */
  function QuarterCos(q: int): (c: real)
    ensures c == 1.0 || c == 0.0 || c == -1.0
  {
    var k := q % 4;
    if k == 0 then 1.0 else if k == 2 then -1.0 else 0.0
  }

  function QuarterSin(q: int): (s: real)
    ensures s == 1.0 || s == 0.0 || s == -1.0
    ensures (s == 0.0) != (QuarterCos(q) == 0.0)
  {
    var k := q % 4;
    if k == 1 then 1.0 else if k == 3 then -1.0 else 0.0
  }

  datatype Point = Point(x: real, y: real)

  /** The point at angle q (in quarter turns) on the circle of centre (xc, yc) and radius r. */
  function ArcPoint(xc: real, yc: real, r: real, q: int): Point
  {
    Point(xc + r * QuarterCos(q), yc + r * QuarterSin(q))
  }

  // ---------------------------------------------------------------------------
  // What a log paints.

  datatype Paint = FillPaint | StrokePaint(lineWidth: real) | TextPaint(text: string, size: real)

  /**
   * One painting operation: what it paints with (fill, stroke of a width, or a
   * string at a font size), the source colour in effect, and the path commands
   * issued since the previous painting operation.
   */
  datatype Mark = Mark(paint: Paint, colour: Rgb, path: seq<DrawCmd>)

  /** The context state that decides what a painting operation paints. */
  datatype PaintState = PaintState(colour: Rgb, lineWidth: real, fontSize: real, path: seq<DrawCmd>)

  /** cairo's defaults: black source, line width 2, font size 10, empty path. */
  const INITIAL_STATE := PaintState(Rgb(0.0, 0.0, 0.0), 2.0, 10.0, [])

  /**
   * The effect of one command on the state. `fill` and `stroke` clear the path,
   * as in cairo, so a stroke after a fill strokes an empty path. `show_text`
   * clearing the path is this model's convention: cairo keeps the path and
   * moves the current point past the text. The difference is a lone move_to
   * (which paints nothing) and a zero-area join from the text's end to the
   * next shape drawn.
   */
  function Step(st: PaintState, c: DrawCmd): PaintState
  {
    match c
    case SetSourceRgb(colour) => st.(colour := colour)
    case SetLineWidth(w) => st.(lineWidth := w)
    case SetFontSize(size) => st.(fontSize := size)
    case SelectFontFace(_, _, _) => st
    case Fill => st.(path := [])
    case Stroke => st.(path := [])
    case ShowText(_) => st.(path := [])
    case _ => st.(path := st.path + [c])
  }

  /** The mark one command makes, if it paints. */
  function MarkOf(st: PaintState, c: DrawCmd): seq<Mark>
  {
    match c
    case Fill => [Mark(FillPaint, st.colour, st.path)]
    case Stroke => [Mark(StrokePaint(st.lineWidth), st.colour, st.path)]
    case ShowText(t) => [Mark(TextPaint(t, st.fontSize), st.colour, st.path)]
    case _ => []
  }

  function StateAfter(cmds: seq<DrawCmd>, st: PaintState): PaintState
    decreases |cmds|
  {
    if cmds == [] then st else StateAfter(cmds[1..], Step(st, cmds[0]))
  }

  function MarksFrom(cmds: seq<DrawCmd>, st: PaintState): seq<Mark>
    decreases |cmds|
  {
    if cmds == [] then [] else MarkOf(st, cmds[0]) + MarksFrom(cmds[1..], Step(st, cmds[0]))
  }

  /** The marks a whole log makes on a fresh context. */
  function Marks(cmds: seq<DrawCmd>): seq<Mark>
  {
    MarksFrom(cmds, INITIAL_STATE)
  }

  lemma {:induction false} MarksFromConcat(a: seq<DrawCmd>, b: seq<DrawCmd>, st: PaintState)
    ensures MarksFrom(a + b, st) == MarksFrom(a, st) + MarksFrom(b, StateAfter(a, st))
    ensures StateAfter(a + b, st) == StateAfter(b, StateAfter(a, st))
    decreases |a|
  {
    if a != [] {
      assert (a + b)[1..] == a[1..] + b;
      MarksFromConcat(a[1..], b, Step(st, a[0]));
    } else {
      assert a + b == b;
    }
  }

  lemma MarksFromOne(c: DrawCmd, st: PaintState)
    ensures MarksFrom([c], st) == MarkOf(st, c)
    ensures StateAfter([c], st) == Step(st, c)
  {
    assert [c][1..] == [];
  }

  /** Marks and final state of a log given as its first command and the rest. */
  lemma MarksFromCons(c: DrawCmd, rest: seq<DrawCmd>, st: PaintState)
    ensures MarksFrom([c] + rest, st) == MarkOf(st, c) + MarksFrom(rest, Step(st, c))
    ensures StateAfter([c] + rest, st) == StateAfter(rest, Step(st, c))
  {
    assert ([c] + rest)[1..] == rest;
  }

  /** Path commands paint nothing; they only extend the current path. */
  lemma {:induction false} PathOpsPaintNothing(p: seq<DrawCmd>, st: PaintState)
    requires forall k :: 0 <= k < |p| ==> p[k].IsPathOp()
    ensures MarksFrom(p, st) == []
    ensures StateAfter(p, st) == st.(path := st.path + p)
    decreases |p|
  {
    if p != [] {
      PathOpsPaintNothing(p[1..], Step(st, p[0]));
      assert st.path + [p[0]] + p[1..] == st.path + p;
    }
  }

  /**
   * `cmds` paints exactly `ms` whatever the colour, line width and font size it
   * starts from, provided the path is empty, and leaves the path empty: the
   * drawing primitives all have this shape, so their marks compose.
   */
  ghost predicate SelfContained(cmds: seq<DrawCmd>, ms: seq<Mark>)
  {
    forall st: PaintState {:trigger MarksFrom(cmds, st)} ::
      st.path == [] ==> MarksFrom(cmds, st) == ms && StateAfter(cmds, st).path == []
  }

  lemma SelfContainedConcat(a: seq<DrawCmd>, ma: seq<Mark>, b: seq<DrawCmd>, mb: seq<Mark>)
    requires SelfContained(a, ma) && SelfContained(b, mb)
    ensures SelfContained(a + b, ma + mb)
  {
    forall st: PaintState | st.path == []
      ensures MarksFrom(a + b, st) == ma + mb && StateAfter(a + b, st).path == []
    {
      MarksFromConcat(a, b, st);
      assert MarksFrom(a, st) == ma;
      assert MarksFrom(b, StateAfter(a, st)) == mb;
    }
  }

  lemma SelfContainedMarks(cmds: seq<DrawCmd>, ms: seq<Mark>)
    requires SelfContained(cmds, ms)
    ensures Marks(cmds) == ms
  {
    assert MarksFrom(cmds, INITIAL_STATE) == ms;
  }

  /** Appending two pieces to a log one after the other appends their concatenation. */
  lemma AppendTwice(log0: seq<DrawCmd>, a: seq<DrawCmd>, b: seq<DrawCmd>)
    ensures log0 + a + b == log0 + (a + b)
  {
  }

  // ---------------------------------------------------------------------------
  // Moving a log by an offset.

  function Translated(c: DrawCmd, dx: real, dy: real): DrawCmd
  {
    match c
    case Rectangle(x, y, w, h) => Rectangle(x + dx, y + dy, w, h)
    case MoveTo(x, y) => MoveTo(x + dx, y + dy)
    case LineTo(x, y) => LineTo(x + dx, y + dy)
    case Arc(xc, yc, r, a1, a2) => Arc(xc + dx, yc + dy, r, a1, a2)
    case _ => c
  }

  /** Every coordinate in the log moved by (dx, dy); sizes, colours and text unchanged. */
  function TranslatedAll(cmds: seq<DrawCmd>, dx: real, dy: real): (r: seq<DrawCmd>)
    ensures |r| == |cmds|
    ensures forall k :: 0 <= k < |cmds| ==> r[k] == Translated(cmds[k], dx, dy)
  {
    seq(|cmds|, k requires 0 <= k < |cmds| => Translated(cmds[k], dx, dy))
  }

  lemma TranslatedAllConcat(a: seq<DrawCmd>, b: seq<DrawCmd>, dx: real, dy: real)
    ensures TranslatedAll(a + b, dx, dy) == TranslatedAll(a, dx, dy) + TranslatedAll(b, dx, dy)
  {
    assert |TranslatedAll(a + b, dx, dy)| == |TranslatedAll(a, dx, dy) + TranslatedAll(b, dx, dy)|;
  }
}
