/**
 * The departure board of src/draw/__init__.py: one panel per station (line
 * badge, leave instructions, status lights, departure times) and the 800x480
 * image holding four panels. Each drawing function appends cairo calls to a
 * `Canvas`; the function beside it gives the calls it appends.
 *
 * The wall clock is the parameter `now` (whole seconds since the epoch), read
 * once for the whole image.
 */
module Draw {
  import opened Wrappers
  import opened Colors
  import opened Cairo
  import opened Pencil
  import Python
  import SubwayClient

  const WIDTH: int := 800
  const HEIGHT: int := 480

  /** Whether a line runs normally or is delayed. */
  datatype Status = Normal | Delayed

  /** When to leave for the train. */
  datatype LeaveInstructions = Now | Soon | NoInstructions

  /** A subway line's badge: its name, the name's colour and the disc behind it. */
  datatype Line = Line(name: string, colour: Rgb, background: Rgb)

  // ---------------------------------------------------------------------------
  // draw_station_status

  function StationStatusCmds(x: int, y: int, status: Status): seq<DrawCmd>
  {
    if status == Normal then
      RoundedRectangleCmds((x + 36) as real, (y + 100) as real, 16.0, 16.0, 4.0, Some(STATUS_OK), None)
      + RoundedRectangleCmds((x + 36) as real, (y + 124) as real, 16.0, 16.0, 4.0, Some(NEUTRAL_200), None)
    else
      RoundedRectangleCmds((x + 36) as real, (y + 100) as real, 16.0, 16.0, 4.0, Some(NEUTRAL_200), None)
      + RoundedRectangleCmds((x + 36) as real, (y + 124) as real, 16.0, 16.0, 4.0, Some(STATUS_WARNING), None)
  }

  method DrawStationStatus(ctx: Canvas, x: int, y: int, status: Status)
    modifies ctx`log
    ensures ctx.log == old(ctx.log) + StationStatusCmds(x, y, status)
  {
    if status == Normal {
      DrawRoundedRectangle(ctx, (x + 36) as real, (y + 100) as real, 16.0, 16.0, 4.0, Some(STATUS_OK), None);
      DrawRoundedRectangle(ctx, (x + 36) as real, (y + 124) as real, 16.0, 16.0, 4.0, Some(NEUTRAL_200), None);
    } else {
      DrawRoundedRectangle(ctx, (x + 36) as real, (y + 100) as real, 16.0, 16.0, 4.0, Some(NEUTRAL_200), None);
      DrawRoundedRectangle(ctx, (x + 36) as real, (y + 124) as real, 16.0, 16.0, 4.0, Some(STATUS_WARNING), None);
    }
  }

  /** The outline of one status light: a 16-pixel square with corners of radius 4 at (x, y). */
  function LightOutline(x: int, y: int): seq<DrawCmd>
  {
    RoundedRectanglePath(x as real, y as real, 16.0, 16.0, ClampRadius(4.0, 16.0, 16.0))
  }

  /**
   * Two lights, one above the other, are filled and nothing else is painted.
   * Exactly one of them is lit: the upper one green when the line runs
   * normally, the lower one amber when it is delayed; the other stays grey.
   */
  lemma StatusLights(x: int, y: int, status: Status)
    ensures var ms := Marks(StationStatusCmds(x, y, status));
      && |ms| == 2
      && ms[0] == Mark(FillPaint, ms[0].colour, LightOutline(x + 36, y + 100))
      && ms[1] == Mark(FillPaint, ms[1].colour, LightOutline(x + 36, y + 124))
      && (ms[0].colour == STATUS_OK <==> status == Normal)
      && (ms[1].colour == STATUS_WARNING <==> status == Delayed)
      && (ms[0].colour == NEUTRAL_200 <==> status == Delayed)
      && (ms[1].colour == NEUTRAL_200 <==> status == Normal)
  {
    var top := if status == Normal then STATUS_OK else NEUTRAL_200;
    var bottom := if status == Normal then NEUTRAL_200 else STATUS_WARNING;
    var upper := RoundedRectangleCmds((x + 36) as real, (y + 100) as real, 16.0, 16.0, 4.0, Some(top), None);
    var lower := RoundedRectangleCmds((x + 36) as real, (y + 124) as real, 16.0, 16.0, 4.0, Some(bottom), None);
    assert StationStatusCmds(x, y, status) == upper + lower;
    RoundedRectanglePaints((x + 36) as real, (y + 100) as real, 16.0, 16.0, 4.0, Some(top), None);
    RoundedRectanglePaints((x + 36) as real, (y + 124) as real, 16.0, 16.0, 4.0, Some(bottom), None);
    var mu := [Mark(FillPaint, top, LightOutline(x + 36, y + 100))];
    var ml := [Mark(FillPaint, bottom, LightOutline(x + 36, y + 124))];
    SelfContainedConcat(upper, mu, lower, ml);
    SelfContainedMarks(upper + lower, mu + ml);
  }

  // ---------------------------------------------------------------------------
  // draw_leave_instructions

  /** The text colour of a caption: dark when the instruction applies, grey otherwise. */
  function LabelColour(applies: bool): Rgb
  {
    if applies then NEUTRAL_900 else NEUTRAL_300
  }

  /**
   * NOW or SOON: when the instruction applies, a filled highlight 8 pixels
   * above the caption's box and the caption in dark text; otherwise the
   * caption alone in grey.
   */
  function CaptionCmds(text: string, x: int, y: int, lit: bool, highlight: Rgb,
                       measure: (string, real) -> TextExtents): seq<DrawCmd>
  {
    if lit then
      RoundedRectangleCmds(x as real, (y - 8) as real, 64.0, 32.0, 4.0, Some(highlight), None)
      + TextCmds(text, x as real, y as real, Some(64.0), 16.0, 16.0, NEUTRAL_900, true, measure(text, 16.0))
    else
      TextCmds(text, x as real, y as real, Some(64.0), 16.0, 16.0, NEUTRAL_300, true, measure(text, 16.0))
  }

  /** The grey frame of the box and its LEAVE caption, dark unless there is no instruction. */
  function LeaveFrameCmds(x: int, y: int, leave: LeaveInstructions,
                          measure: (string, real) -> TextExtents): seq<DrawCmd>
  {
    RoundedRectangleCmds((x + 92) as real, (y + 28) as real, 284.0, 48.0, 8.0, None, Some(NEUTRAL_200))
    + TextCmds("LEAVE", (x + 100) as real, (y + 44) as real, Some(64.0), 16.0, 16.0,
               LabelColour(leave != NoInstructions), true, measure("LEAVE", 16.0))
  }

  /** The NOW and SOON captions, each lit when it is the instruction. */
  function LeaveCaptionsCmds(x: int, y: int, leave: LeaveInstructions,
                             measure: (string, real) -> TextExtents): seq<DrawCmd>
  {
    CaptionCmds("NOW", x + 202, y + 44, leave == Now, STATUS_OK, measure)
    + CaptionCmds("SOON", x + 304, y + 44, leave == Soon, STATUS_WARNING, measure)
  }

  function LeaveInstructionsCmds(x: int, y: int, leave: LeaveInstructions,
                                 measure: (string, real) -> TextExtents): seq<DrawCmd>
  {
    LeaveFrameCmds(x, y, leave, measure) + LeaveCaptionsCmds(x, y, leave, measure)
  }

  method DrawLeaveInstructions(ctx: Canvas, x: int, y: int, leave: LeaveInstructions)
    modifies ctx`log, ctx`fontSize
    ensures ctx.fontSize == 16.0
    ensures ctx.log == old(ctx.log) + LeaveInstructionsCmds(x, y, leave, ctx.measure)
  {
    ghost var frame := RoundedRectangleCmds((x + 92) as real, (y + 28) as real, 284.0, 48.0, 8.0, None, Some(NEUTRAL_200));
    DrawRoundedRectangle(ctx, (x + 92) as real, (y + 28) as real, 284.0, 48.0, 8.0, None, Some(NEUTRAL_200));

    var leaveTextColour := if leave == NoInstructions then NEUTRAL_300 else NEUTRAL_900;
    ghost var framed := ctx.log;
    ghost var leaveCaption := TextCmds("LEAVE", (x + 100) as real, (y + 44) as real, Some(64.0), 16.0, 16.0,
                                       LabelColour(leave != NoInstructions), true, ctx.measure("LEAVE", 16.0));
    DrawText(ctx, "LEAVE", (x + 100) as real, (y + 44) as real, Some(64.0), 16.0, 16.0, leaveTextColour, true);
    AppendTwice(old(ctx.log), frame, leaveCaption);
    ghost var boxed := ctx.log;

    if leave == Now {
      DrawRoundedRectangle(ctx, (x + 202) as real, (y + 36) as real, 64.0, 32.0, 4.0, Some(STATUS_OK), None);
      DrawText(ctx, "NOW", (x + 202) as real, (y + 44) as real, Some(64.0), 16.0, 16.0, NEUTRAL_900, true);
    } else {
      DrawText(ctx, "NOW", (x + 202) as real, (y + 44) as real, Some(64.0), 16.0, 16.0, NEUTRAL_300, true);
    }
    ghost var nowPart := CaptionCmds("NOW", x + 202, y + 44, leave == Now, STATUS_OK, ctx.measure);
    assert ctx.log == boxed + nowPart;
    ghost var nowDone := ctx.log;

    if leave == Soon {
      DrawRoundedRectangle(ctx, (x + 304) as real, (y + 36) as real, 64.0, 32.0, 4.0, Some(STATUS_WARNING), None);
      DrawText(ctx, "SOON", (x + 304) as real, (y + 44) as real, Some(64.0), 16.0, 16.0, NEUTRAL_900, true);
    } else {
      DrawText(ctx, "SOON", (x + 304) as real, (y + 44) as real, Some(64.0), 16.0, 16.0, NEUTRAL_300, true);
    }
    ghost var soonPart := CaptionCmds("SOON", x + 304, y + 44, leave == Soon, STATUS_WARNING, ctx.measure);
    assert ctx.log == nowDone + soonPart;
    AppendTwice(boxed, nowPart, soonPart);
    AppendTwice(old(ctx.log), frame + leaveCaption, nowPart + soonPart);
  }

  /** The mark `TextPaints` gives for one caption of the leave box. */
  function LabelMark(text: string, x: int, y: int, colour: Rgb, ext: TextExtents): Mark
  {
    Mark(TextPaint(text, 16.0), colour,
         [MoveTo(TextX(x as real, Some(64.0), ext, true) as real, TextY(y as real, 16.0, ext) as real)])
  }

  /** The outline of a highlight behind NOW or SOON. */
  function HighlightOutline(x: int, y: int): seq<DrawCmd>
  {
    RoundedRectanglePath(x as real, y as real, 64.0, 32.0, ClampRadius(4.0, 64.0, 32.0))
  }

  /** Whether a caption of the leave box applies to an instruction. */
  predicate Applies(caption: string, leave: LeaveInstructions)
  {
    if caption == "LEAVE" then leave != NoInstructions
    else if caption == "NOW" then leave == Now
    else caption == "SOON" && leave == Soon
  }

  /** A caption paints its highlight, if lit, then its text. */
  lemma CaptionPaints(text: string, x: int, y: int, lit: bool, highlight: Rgb,
                      measure: (string, real) -> TextExtents)
    ensures SelfContained(CaptionCmds(text, x, y, lit, highlight, measure),
      (if lit then [Mark(FillPaint, highlight, HighlightOutline(x, y - 8))] else [])
      + [LabelMark(text, x, y, LabelColour(lit), measure(text, 16.0))])
  {
    var ext := measure(text, 16.0);
    TextPaints(text, x as real, y as real, Some(64.0), 16.0, 16.0, LabelColour(lit), true, ext);
    var caption := TextCmds(text, x as real, y as real, Some(64.0), 16.0, 16.0, LabelColour(lit), true, ext);
    var mark := [LabelMark(text, x, y, LabelColour(lit), ext)];
    if lit {
      var box := RoundedRectangleCmds(x as real, (y - 8) as real, 64.0, 32.0, 4.0, Some(highlight), None);
      RoundedRectanglePaints(x as real, (y - 8) as real, 64.0, 32.0, 4.0, Some(highlight), None);
      SelfContainedConcat(box, [Mark(FillPaint, highlight, HighlightOutline(x, y - 8))], caption, mark);
    } else {
      assert [] + mark == mark;
    }
  }

  /** The box's marks, as the primitives paint them. */
  ghost function LeaveMarks(x: int, y: int, leave: LeaveInstructions,
                            measure: (string, real) -> TextExtents): seq<Mark>
  {
    [ Mark(StrokePaint(1.0), NEUTRAL_200,
           RoundedRectanglePath((x + 92) as real, (y + 28) as real, 284.0, 48.0, ClampRadius(8.0, 284.0, 48.0))),
      LabelMark("LEAVE", x + 100, y + 44, LabelColour(leave != NoInstructions), measure("LEAVE", 16.0)) ]
    + (if leave == Now then [Mark(FillPaint, STATUS_OK, HighlightOutline(x + 202, y + 36))] else [])
    + [LabelMark("NOW", x + 202, y + 44, LabelColour(leave == Now), measure("NOW", 16.0))]
    + (if leave == Soon then [Mark(FillPaint, STATUS_WARNING, HighlightOutline(x + 304, y + 36))] else [])
    + [LabelMark("SOON", x + 304, y + 44, LabelColour(leave == Soon), measure("SOON", 16.0))]
  }

  /** The frame is stroked grey, then LEAVE is painted. */
  lemma LeaveFramePaints(x: int, y: int, leave: LeaveInstructions, measure: (string, real) -> TextExtents)
    ensures SelfContained(LeaveFrameCmds(x, y, leave, measure),
      [ Mark(StrokePaint(1.0), NEUTRAL_200,
             RoundedRectanglePath((x + 92) as real, (y + 28) as real, 284.0, 48.0, ClampRadius(8.0, 284.0, 48.0))),
        LabelMark("LEAVE", x + 100, y + 44, LabelColour(leave != NoInstructions), measure("LEAVE", 16.0)) ])
  {
    var frame := RoundedRectangleCmds((x + 92) as real, (y + 28) as real, 284.0, 48.0, 8.0, None, Some(NEUTRAL_200));
    var mFrame := [Mark(StrokePaint(1.0), NEUTRAL_200,
                        RoundedRectanglePath((x + 92) as real, (y + 28) as real, 284.0, 48.0, ClampRadius(8.0, 284.0, 48.0)))];
    RoundedRectanglePaints((x + 92) as real, (y + 28) as real, 284.0, 48.0, 8.0, None, Some(NEUTRAL_200));

    var leaveCaption := TextCmds("LEAVE", (x + 100) as real, (y + 44) as real, Some(64.0), 16.0, 16.0,
                                 LabelColour(leave != NoInstructions), true, measure("LEAVE", 16.0));
    var mLeave := [LabelMark("LEAVE", x + 100, y + 44, LabelColour(leave != NoInstructions), measure("LEAVE", 16.0))];
    TextPaints("LEAVE", (x + 100) as real, (y + 44) as real, Some(64.0), 16.0, 16.0,
               LabelColour(leave != NoInstructions), true, measure("LEAVE", 16.0));

    SelfContainedConcat(frame, mFrame, leaveCaption, mLeave);
    assert LeaveFrameCmds(x, y, leave, measure) == frame + leaveCaption;
    assert mFrame + mLeave == [mFrame[0], mLeave[0]];
  }

  /** NOW then SOON, each with its highlight first when it is the instruction. */
  lemma LeaveCaptionsPaint(x: int, y: int, leave: LeaveInstructions, measure: (string, real) -> TextExtents)
    ensures SelfContained(LeaveCaptionsCmds(x, y, leave, measure),
      (if leave == Now then [Mark(FillPaint, STATUS_OK, HighlightOutline(x + 202, y + 36))] else [])
      + [LabelMark("NOW", x + 202, y + 44, LabelColour(leave == Now), measure("NOW", 16.0))]
      + ((if leave == Soon then [Mark(FillPaint, STATUS_WARNING, HighlightOutline(x + 304, y + 36))] else [])
         + [LabelMark("SOON", x + 304, y + 44, LabelColour(leave == Soon), measure("SOON", 16.0))]))
  {
    var nowPart := CaptionCmds("NOW", x + 202, y + 44, leave == Now, STATUS_OK, measure);
    var mNow := (if leave == Now then [Mark(FillPaint, STATUS_OK, HighlightOutline(x + 202, y + 44 - 8))] else [])
      + [LabelMark("NOW", x + 202, y + 44, LabelColour(leave == Now), measure("NOW", 16.0))];
    CaptionPaints("NOW", x + 202, y + 44, leave == Now, STATUS_OK, measure);

    var soonPart := CaptionCmds("SOON", x + 304, y + 44, leave == Soon, STATUS_WARNING, measure);
    var mSoon := (if leave == Soon then [Mark(FillPaint, STATUS_WARNING, HighlightOutline(x + 304, y + 44 - 8))] else [])
      + [LabelMark("SOON", x + 304, y + 44, LabelColour(leave == Soon), measure("SOON", 16.0))];
    CaptionPaints("SOON", x + 304, y + 44, leave == Soon, STATUS_WARNING, measure);

    SelfContainedConcat(nowPart, mNow, soonPart, mSoon);
  }

  lemma LeaveInstructionsPaint(x: int, y: int, leave: LeaveInstructions, measure: (string, real) -> TextExtents)
    ensures SelfContained(LeaveInstructionsCmds(x, y, leave, measure), LeaveMarks(x, y, leave, measure))
  {
    var mFrame := [ Mark(StrokePaint(1.0), NEUTRAL_200,
                         RoundedRectanglePath((x + 92) as real, (y + 28) as real, 284.0, 48.0, ClampRadius(8.0, 284.0, 48.0))),
                    LabelMark("LEAVE", x + 100, y + 44, LabelColour(leave != NoInstructions), measure("LEAVE", 16.0)) ];
    var mNow := (if leave == Now then [Mark(FillPaint, STATUS_OK, HighlightOutline(x + 202, y + 36))] else [])
      + [LabelMark("NOW", x + 202, y + 44, LabelColour(leave == Now), measure("NOW", 16.0))];
    var mSoon := (if leave == Soon then [Mark(FillPaint, STATUS_WARNING, HighlightOutline(x + 304, y + 36))] else [])
      + [LabelMark("SOON", x + 304, y + 44, LabelColour(leave == Soon), measure("SOON", 16.0))];
    LeaveFramePaints(x, y, leave, measure);
    LeaveCaptionsPaint(x, y, leave, measure);
    SelfContainedConcat(LeaveFrameCmds(x, y, leave, measure), mFrame, LeaveCaptionsCmds(x, y, leave, measure), mNow + mSoon);
    assert LeaveMarks(x, y, leave, measure) == mFrame + (mNow + mSoon);
  }

  /**
   * The box is outlined in grey, never filled. Its labels (LEAVE, NOW and SOON,
   * in that order by `LeaveShows`) are each dark exactly when they apply to the
   * instruction and grey otherwise. At most one highlight is filled, green
   * behind NOW or amber behind SOON, and only for that instruction; it is
   * painted before its caption, so the caption stays on top.
   */
  lemma LeaveInstructionsHighlight(x: int, y: int, leave: LeaveInstructions,
                                   measure: (string, real) -> TextExtents)
    ensures var ms := Marks(LeaveInstructionsCmds(x, y, leave, measure));
      && |ms| == (if leave == NoInstructions then 4 else 5)
      && ms[0].paint == StrokePaint(1.0) && ms[0].colour == NEUTRAL_200
      && (forall k | 1 <= k < |ms| :: ms[k].paint.TextPaint? || ms[k].paint == FillPaint)
      && (forall k | 0 <= k < |ms| && ms[k].paint.TextPaint? ::
            ms[k].colour == (if Applies(ms[k].paint.text, leave) then NEUTRAL_900 else NEUTRAL_300))
      && (forall k | 0 <= k < |ms| && ms[k].paint == FillPaint ::
            && k + 1 < |ms| && ms[k + 1].paint.TextPaint? && Applies(ms[k + 1].paint.text, leave)
            && ms[k].colour == (if leave == Now then STATUS_OK else STATUS_WARNING))
      && (leave != NoInstructions <==> exists k | 0 <= k < |ms| :: ms[k].paint == FillPaint)
      && (forall i, j | 0 <= i < j < |ms| :: !(ms[i].paint == FillPaint && ms[j].paint == FillPaint))
  {
    LeaveInstructionsPaint(x, y, leave, measure);
    SelfContainedMarks(LeaveInstructionsCmds(x, y, leave, measure), LeaveMarks(x, y, leave, measure));
    var ms := LeaveMarks(x, y, leave, measure);
    if leave == Now {
      assert ms[2].paint == FillPaint;
    } else if leave == Soon {
      assert ms[3].paint == FillPaint;
    }
  }

  // ---------------------------------------------------------------------------
  // The minute counts

  /**
   * The text for the departure at `index`: whole minutes from `now`, rounded
   * down, or "--" when there is no such departure.
   */
  function MinutesUntil(times: seq<int>, index: nat, now: int): (caption: string)
    ensures caption == "--" <==> |times| <= index
    ensures |times| > index ==> Python.StrShape(caption) && (caption[0] == '-' <==> times[index] < now)
  {
    if |times| > index then
      var m := Python.FloorDiv(times[index] - now, 60);
      Python.StrIsNotDashes(m);
      Python.Str(m)
    else "--"
  }

  /**
   * "--" appears exactly when there is no departure at `index`; otherwise the
   * text is an integer m with 60m <= t - now < 60(m + 1): the whole minutes
   * until the departure, rounded down.
   */
  lemma MinutesUntilMeaning(times: seq<int>, index: nat, now: int)
    ensures MinutesUntil(times, index, now) == "--" <==> |times| <= index
    ensures |times| > index ==>
      var caption := MinutesUntil(times, index, now);
      && Python.StrShape(caption)
      && 60 * Python.ParseInt(caption) <= times[index] - now < 60 * (Python.ParseInt(caption) + 1)
  {
    if |times| > index {
      var m := Python.FloorDiv(times[index] - now, 60);
      Python.StrIsNotDashes(m);
      Python.StrRoundTrip(m);
    }
  }

  /** For a sorted list the next departure never shows fewer minutes than the first. */
  lemma MinutesUntilOrdered(times: seq<int>, now: int)
    requires SubwayClient.Sorted(times) && |times| > 1
    ensures Python.StrShape(MinutesUntil(times, 0, now)) && Python.StrShape(MinutesUntil(times, 1, now))
    ensures Python.ParseInt(MinutesUntil(times, 0, now)) <= Python.ParseInt(MinutesUntil(times, 1, now))
  {
    MinutesUntilMeaning(times, 0, now);
    MinutesUntilMeaning(times, 1, now);
  }

  /** Departures strictly after `now`, as the client keeps them, never show a negative count. */
  lemma MinutesUntilNotNegative(times: seq<int>, index: nat, now: int)
    requires forall t | t in times :: t > now
    requires |times| > index
    ensures MinutesUntil(times, index, now)[0] != '-'
  {
    MinutesUntilMeaning(times, index, now);
    var m := Python.FloorDiv(times[index] - now, 60);
    assert times[index] in times;
    assert m >= 0;
  }

  // ---------------------------------------------------------------------------
  // draw_station

  /** The line badge: a disc in the line's colour with the line's name centred on it. */
  function StationBadgeCmds(x: int, y: int, line: Line, measure: (string, real) -> TextExtents): seq<DrawCmd>
  {
    CircleCmds((x + 20) as real, (y + 28) as real, 24.0, line.background)
    + TextCmds(line.name, (x + 20) as real, (y + 28) as real, Some(48.0), 48.0, 32.0, line.colour, true,
               measure(line.name, 32.0))
  }

  /**
   * The station name, the departure card and the next and reverse departures;
   * `first`, `next` and `reverse` are the three texts the panel computes from
   * the departures.
   */
  function StationTimesCmds(x: int, y: int, station: string, reverseDir: string, first: string,
                            next: string, reverse: string, measure: (string, real) -> TextExtents): seq<DrawCmd>
  {
    RoundedRectangleCmds((x + 92) as real, (y + 124) as real, 184.0, 92.0, 8.0, Some(NEUTRAL_000), None)
    + TextCmds(station, (x + 92) as real, (y + 100) as real, None, 16.0, 16.0, NEUTRAL_900, false, measure(station, 16.0))
    + TextCmds(first, (x + 104) as real, (y + 136) as real, None, 68.0, 84.0, NEUTRAL_900, false, measure(first, 84.0))
    + TextCmds("min.", (x + 232) as real, (y + 160) as real, None, 20.0, 16.0, NEUTRAL_900, false, measure("min.", 16.0))
    + TextCmds("NEXT", (x + 300) as real, (y + 122) as real, None, 16.0, 12.0, NEUTRAL_900, false, measure("NEXT", 12.0))
    + TextCmds(next, (x + 300) as real, (y + 141) as real, None, 16.0, 16.0, NEUTRAL_900, false, measure(next, 16.0))
    + TextCmds(reverseDir, (x + 300) as real, (y + 177) as real, None, 16.0, 12.0, NEUTRAL_900, false, measure(reverseDir, 12.0))
    + TextCmds(reverse, (x + 300) as real, (y + 196) as real, None, 16.0, 16.0, NEUTRAL_900, false, measure(reverse, 16.0))
  }

  function StationCmds(x: int, y: int, station: string, reverseDir: string, line: Line, status: Status,
                       leave: LeaveInstructions, north: seq<int>, south: seq<int>, now: int,
                       measure: (string, real) -> TextExtents): seq<DrawCmd>
  {
    StationBadgeCmds(x, y, line, measure)
    + LeaveInstructionsCmds(x, y, leave, measure)
    + StationStatusCmds(x, y, status)
    + StationTimesCmds(x, y, station, reverseDir, MinutesUntil(north, 0, now),
                       MinutesUntil(north, 1, now) + " min.", MinutesUntil(south, 0, now) + " min.", measure)
  }

  /** `draw_station`, with the panel's northbound and southbound departures passed separately. */
  method DrawStation(ctx: Canvas, x: int, y: int, station: string, reverseDir: string, line: Line,
                     status: Status, leave: LeaveInstructions, north: seq<int>, south: seq<int>, now: int)
    modifies ctx`log, ctx`fontSize
    ensures ctx.log == old(ctx.log) + StationCmds(x, y, station, reverseDir, line, status, leave,
                                                  north, south, now, ctx.measure)
  {
    DrawCircle(ctx, (x + 20) as real, (y + 28) as real, 24.0, line.background);
    DrawText(ctx, line.name, (x + 20) as real, (y + 28) as real, Some(48.0), 48.0, 32.0, line.colour, true);
    ghost var badge := StationBadgeCmds(x, y, line, ctx.measure);
    assert ctx.log == old(ctx.log) + badge;

    DrawLeaveInstructions(ctx, x, y, leave);
    AppendTwice(old(ctx.log), badge, LeaveInstructionsCmds(x, y, leave, ctx.measure));
    DrawStationStatus(ctx, x, y, status);
    AppendTwice(old(ctx.log), badge + LeaveInstructionsCmds(x, y, leave, ctx.measure), StationStatusCmds(x, y, status));
    ghost var lit := ctx.log;

    DrawRoundedRectangle(ctx, (x + 92) as real, (y + 124) as real, 184.0, 92.0, 8.0, Some(NEUTRAL_000), None);
    ghost var done := RoundedRectangleCmds((x + 92) as real, (y + 124) as real, 184.0, 92.0, 8.0, Some(NEUTRAL_000), None);
    ghost var part := TextCmds(station, (x + 92) as real, (y + 100) as real, None, 16.0, 16.0, NEUTRAL_900, false, ctx.measure(station, 16.0));
    DrawText(ctx, station, (x + 92) as real, (y + 100) as real, None, 16.0, 16.0, NEUTRAL_900, false);
    AppendTwice(lit, done, part);
    done := done + part;
    var minutesUntil := MinutesUntil(north, 0, now);
    part := TextCmds(minutesUntil, (x + 104) as real, (y + 136) as real, None, 68.0, 84.0, NEUTRAL_900, false, ctx.measure(minutesUntil, 84.0));
    DrawText(ctx, minutesUntil, (x + 104) as real, (y + 136) as real, None, 68.0, 84.0, NEUTRAL_900, false);
    AppendTwice(lit, done, part);
    done := done + part;
    part := TextCmds("min.", (x + 232) as real, (y + 160) as real, None, 20.0, 16.0, NEUTRAL_900, false, ctx.measure("min.", 16.0));
    DrawText(ctx, "min.", (x + 232) as real, (y + 160) as real, None, 20.0, 16.0, NEUTRAL_900, false);
    AppendTwice(lit, done, part);
    done := done + part;

    part := TextCmds("NEXT", (x + 300) as real, (y + 122) as real, None, 16.0, 12.0, NEUTRAL_900, false, ctx.measure("NEXT", 12.0));
    DrawText(ctx, "NEXT", (x + 300) as real, (y + 122) as real, None, 16.0, 12.0, NEUTRAL_900, false);
    AppendTwice(lit, done, part);
    done := done + part;
    var minutesUntilNext := MinutesUntil(north, 1, now);
    part := TextCmds(minutesUntilNext + " min.", (x + 300) as real, (y + 141) as real, None, 16.0, 16.0, NEUTRAL_900, false, ctx.measure(minutesUntilNext + " min.", 16.0));
    DrawText(ctx, minutesUntilNext + " min.", (x + 300) as real, (y + 141) as real, None, 16.0, 16.0, NEUTRAL_900, false);
    AppendTwice(lit, done, part);
    done := done + part;

    part := TextCmds(reverseDir, (x + 300) as real, (y + 177) as real, None, 16.0, 12.0, NEUTRAL_900, false, ctx.measure(reverseDir, 12.0));
    DrawText(ctx, reverseDir, (x + 300) as real, (y + 177) as real, None, 16.0, 12.0, NEUTRAL_900, false);
    AppendTwice(lit, done, part);
    done := done + part;
    var minutesUntilReverse := MinutesUntil(south, 0, now);
    part := TextCmds(minutesUntilReverse + " min.", (x + 300) as real, (y + 196) as real, None, 16.0, 16.0, NEUTRAL_900, false, ctx.measure(minutesUntilReverse + " min.", 16.0));
    DrawText(ctx, minutesUntilReverse + " min.", (x + 300) as real, (y + 196) as real, None, 16.0, 16.0, NEUTRAL_900, false);
    AppendTwice(lit, done, part);
    done := done + part;
    ghost var times := StationTimesCmds(x, y, station, reverseDir, minutesUntil, minutesUntilNext + " min.",
                                        minutesUntilReverse + " min.", ctx.measure);
    assert done == times;
    AppendTwice(old(ctx.log), badge + LeaveInstructionsCmds(x, y, leave, ctx.measure) + StationStatusCmds(x, y, status), times);
  }

  /** The strings a log shows, in order. */
  function Shown(cmds: seq<DrawCmd>): seq<string>
  {
    if cmds == [] then [] else (if cmds[0].ShowText? then [cmds[0].text] else []) + Shown(cmds[1..])
  }

  lemma {:induction false} ShownConcat(a: seq<DrawCmd>, b: seq<DrawCmd>)
    ensures Shown(a + b) == Shown(a) + Shown(b)
    decreases |a|
  {
    if a == [] {
      assert a + b == b;
    } else {
      var ab := a + b;
      assert ab[0] == a[0] && ab[1..] == a[1..] + b;
      ShownConcat(a[1..], b);
      var head := if a[0].ShowText? then [a[0].text] else [];
      assert Shown(ab) == head + Shown(a[1..] + b);
      assert head + (Shown(a[1..]) + Shown(b)) == head + Shown(a[1..]) + Shown(b);
    }
  }

  lemma {:induction false} ShownNothing(cmds: seq<DrawCmd>)
    requires forall k :: 0 <= k < |cmds| ==> !cmds[k].ShowText?
    ensures Shown(cmds) == []
    decreases |cmds|
  {
    if cmds != [] {
      ShownNothing(cmds[1..]);
    }
  }

  lemma TextShows(text: string, x: real, y: real, width: Option<real>, height: real, fontSize: real,
                  colour: Rgb, center: bool, ext: TextExtents)
    ensures Shown(TextCmds(text, x, y, width, height, fontSize, colour, center, ext)) == [text]
  {
    var cmds := TextCmds(text, x, y, width, height, fontSize, colour, center, ext);
    ShownConcat(cmds[..4], [ShowText(text)]);
    ShownNothing(cmds[..4]);
    assert cmds == cmds[..4] + [ShowText(text)];
    assert [ShowText(text)][1..] == [];
  }

  lemma RoundedRectangleShowsNothing(x: real, y: real, width: real, height: real, radius: real,
                                     fill: Option<Rgb>, stroke: Option<Rgb>)
    ensures Shown(RoundedRectangleCmds(x, y, width, height, radius, fill, stroke)) == []
  {
    ShownNothing(RoundedRectangleCmds(x, y, width, height, radius, fill, stroke));
  }

  lemma CircleShowsNothing(x: real, y: real, radius: real, fill: Rgb)
    ensures Shown(CircleCmds(x, y, radius, fill)) == []
  {
    ShownNothing(CircleCmds(x, y, radius, fill));
  }

  lemma StatusShowsNothing(x: int, y: int, status: Status)
    ensures Shown(StationStatusCmds(x, y, status)) == []
  {
    var top := if status == Normal then STATUS_OK else NEUTRAL_200;
    var bottom := if status == Normal then NEUTRAL_200 else STATUS_WARNING;
    RoundedRectangleShowsNothing((x + 36) as real, (y + 100) as real, 16.0, 16.0, 4.0, Some(top), None);
    RoundedRectangleShowsNothing((x + 36) as real, (y + 124) as real, 16.0, 16.0, 4.0, Some(bottom), None);
    ShownConcat(RoundedRectangleCmds((x + 36) as real, (y + 100) as real, 16.0, 16.0, 4.0, Some(top), None),
                RoundedRectangleCmds((x + 36) as real, (y + 124) as real, 16.0, 16.0, 4.0, Some(bottom), None));
  }

  lemma CaptionShows(text: string, x: int, y: int, lit: bool, highlight: Rgb,
                     measure: (string, real) -> TextExtents)
    ensures Shown(CaptionCmds(text, x, y, lit, highlight, measure)) == [text]
  {
    TextShows(text, x as real, y as real, Some(64.0), 16.0, 16.0, LabelColour(lit), true, measure(text, 16.0));
    if lit {
      RoundedRectangleShowsNothing(x as real, (y - 8) as real, 64.0, 32.0, 4.0, Some(highlight), None);
      ShownConcat(RoundedRectangleCmds(x as real, (y - 8) as real, 64.0, 32.0, 4.0, Some(highlight), None),
                  TextCmds(text, x as real, y as real, Some(64.0), 16.0, 16.0, NEUTRAL_900, true, measure(text, 16.0)));
    }
  }

  /** Two pieces show, in order, what each of them shows. */
  lemma ShownTwo(p1: seq<DrawCmd>, p2: seq<DrawCmd>, s1: seq<string>, s2: seq<string>)
    requires Shown(p1) == s1 && Shown(p2) == s2
    ensures Shown(p1 + p2) == s1 + s2
  {
    ShownConcat(p1, p2);
  }

  /** Four pieces show, in order, what each of them shows. */
  lemma ShownFour(p1: seq<DrawCmd>, p2: seq<DrawCmd>, p3: seq<DrawCmd>, p4: seq<DrawCmd>,
                  s1: seq<string>, s2: seq<string>, s3: seq<string>, s4: seq<string>)
    requires Shown(p1) == s1 && Shown(p2) == s2 && Shown(p3) == s3 && Shown(p4) == s4
    ensures Shown(p1 + p2 + p3 + p4) == s1 + s2 + s3 + s4
  {
    ShownConcat(p1, p2);
    ShownConcat(p1 + p2, p3);
    ShownConcat(p1 + p2 + p3, p4);
  }

  lemma LeaveShows(x: int, y: int, leave: LeaveInstructions, measure: (string, real) -> TextExtents)
    ensures Shown(LeaveInstructionsCmds(x, y, leave, measure)) == ["LEAVE", "NOW", "SOON"]
  {
    RoundedRectangleShowsNothing((x + 92) as real, (y + 28) as real, 284.0, 48.0, 8.0, None, Some(NEUTRAL_200));
    TextShows("LEAVE", (x + 100) as real, (y + 44) as real, Some(64.0), 16.0, 16.0,
              LabelColour(leave != NoInstructions), true, measure("LEAVE", 16.0));
    CaptionShows("NOW", x + 202, y + 44, leave == Now, STATUS_OK, measure);
    CaptionShows("SOON", x + 304, y + 44, leave == Soon, STATUS_WARNING, measure);
    ShownTwo(RoundedRectangleCmds((x + 92) as real, (y + 28) as real, 284.0, 48.0, 8.0, None, Some(NEUTRAL_200)),
             TextCmds("LEAVE", (x + 100) as real, (y + 44) as real, Some(64.0), 16.0, 16.0,
                      LabelColour(leave != NoInstructions), true, measure("LEAVE", 16.0)),
             [], ["LEAVE"]);
    ShownTwo(CaptionCmds("NOW", x + 202, y + 44, leave == Now, STATUS_OK, measure),
             CaptionCmds("SOON", x + 304, y + 44, leave == Soon, STATUS_WARNING, measure),
             ["NOW"], ["SOON"]);
    ShownTwo(LeaveFrameCmds(x, y, leave, measure), LeaveCaptionsCmds(x, y, leave, measure),
             [] + ["LEAVE"], ["NOW"] + ["SOON"]);
    assert [] + ["LEAVE"] + (["NOW"] + ["SOON"]) == ["LEAVE", "NOW", "SOON"];
  }

  /** A prefix followed by four pieces shows what the prefix shows, then what the four show together. */
  lemma ShownFourAfter(l: seq<DrawCmd>, a: seq<DrawCmd>, b: seq<DrawCmd>, c: seq<DrawCmd>, d: seq<DrawCmd>,
                       sl: seq<string>, sr: seq<string>)
    requires Shown(l) == sl && Shown(a + b + c + d) == sr
    ensures Shown(l + a + b + c + d) == sl + sr
  {
    ShownConcat(l, a + b + c + d);
    assert l + a + b + c + d == l + (a + b + c + d);
  }

  /** The left half of the departure card shows the station, the next departure's minutes and "min.". */
  lemma CardLeftShows(x: int, y: int, station: string, first: string, measure: (string, real) -> TextExtents)
    ensures Shown(RoundedRectangleCmds((x + 92) as real, (y + 124) as real, 184.0, 92.0, 8.0, Some(NEUTRAL_000), None)
        + TextCmds(station, (x + 92) as real, (y + 100) as real, None, 16.0, 16.0, NEUTRAL_900, false, measure(station, 16.0))
        + TextCmds(first, (x + 104) as real, (y + 136) as real, None, 68.0, 84.0, NEUTRAL_900, false, measure(first, 84.0))
        + TextCmds("min.", (x + 232) as real, (y + 160) as real, None, 20.0, 16.0, NEUTRAL_900, false, measure("min.", 16.0)))
         == [station, first, "min."]
  {
    RoundedRectangleShowsNothing((x + 92) as real, (y + 124) as real, 184.0, 92.0, 8.0, Some(NEUTRAL_000), None);
    TextShows(station, (x + 92) as real, (y + 100) as real, None, 16.0, 16.0, NEUTRAL_900, false, measure(station, 16.0));
    TextShows(first, (x + 104) as real, (y + 136) as real, None, 68.0, 84.0, NEUTRAL_900, false, measure(first, 84.0));
    TextShows("min.", (x + 232) as real, (y + 160) as real, None, 20.0, 16.0, NEUTRAL_900, false, measure("min.", 16.0));
    ShownFour(RoundedRectangleCmds((x + 92) as real, (y + 124) as real, 184.0, 92.0, 8.0, Some(NEUTRAL_000), None),
        TextCmds(station, (x + 92) as real, (y + 100) as real, None, 16.0, 16.0, NEUTRAL_900, false, measure(station, 16.0)),
        TextCmds(first, (x + 104) as real, (y + 136) as real, None, 68.0, 84.0, NEUTRAL_900, false, measure(first, 84.0)),
        TextCmds("min.", (x + 232) as real, (y + 160) as real, None, 20.0, 16.0, NEUTRAL_900, false, measure("min.", 16.0)),
      [], [station], [first], ["min."]);
    assert [] + [station] + [first] + ["min."] == [station, first, "min."];
  }

  /** The right half shows NEXT, the following departure, the reverse direction and its departure. */
  lemma CardRightShows(x: int, y: int, next: string, reverseDir: string, reverse: string,
                       measure: (string, real) -> TextExtents)
    ensures Shown(TextCmds("NEXT", (x + 300) as real, (y + 122) as real, None, 16.0, 12.0, NEUTRAL_900, false, measure("NEXT", 12.0))
        + TextCmds(next, (x + 300) as real, (y + 141) as real, None, 16.0, 16.0, NEUTRAL_900, false, measure(next, 16.0))
        + TextCmds(reverseDir, (x + 300) as real, (y + 177) as real, None, 16.0, 12.0, NEUTRAL_900, false, measure(reverseDir, 12.0))
        + TextCmds(reverse, (x + 300) as real, (y + 196) as real, None, 16.0, 16.0, NEUTRAL_900, false, measure(reverse, 16.0)))
         == ["NEXT", next, reverseDir, reverse]
  {
    TextShows("NEXT", (x + 300) as real, (y + 122) as real, None, 16.0, 12.0, NEUTRAL_900, false, measure("NEXT", 12.0));
    TextShows(next, (x + 300) as real, (y + 141) as real, None, 16.0, 16.0, NEUTRAL_900, false, measure(next, 16.0));
    TextShows(reverseDir, (x + 300) as real, (y + 177) as real, None, 16.0, 12.0, NEUTRAL_900, false, measure(reverseDir, 12.0));
    TextShows(reverse, (x + 300) as real, (y + 196) as real, None, 16.0, 16.0, NEUTRAL_900, false, measure(reverse, 16.0));
    ShownFour(TextCmds("NEXT", (x + 300) as real, (y + 122) as real, None, 16.0, 12.0, NEUTRAL_900, false, measure("NEXT", 12.0)),
        TextCmds(next, (x + 300) as real, (y + 141) as real, None, 16.0, 16.0, NEUTRAL_900, false, measure(next, 16.0)),
        TextCmds(reverseDir, (x + 300) as real, (y + 177) as real, None, 16.0, 12.0, NEUTRAL_900, false, measure(reverseDir, 12.0)),
        TextCmds(reverse, (x + 300) as real, (y + 196) as real, None, 16.0, 16.0, NEUTRAL_900, false, measure(reverse, 16.0)),
      ["NEXT"], [next], [reverseDir], [reverse]);
    assert ["NEXT"] + [next] + [reverseDir] + [reverse] == ["NEXT", next, reverseDir, reverse];
  }

  lemma StationTimesShow(x: int, y: int, station: string, reverseDir: string, first: string,
                         next: string, reverse: string, measure: (string, real) -> TextExtents)
    ensures Shown(StationTimesCmds(x, y, station, reverseDir, first, next, reverse, measure))
         == [station, first, "min.", "NEXT", next, reverseDir, reverse]
  {
    CardLeftShows(x, y, station, first, measure);
    CardRightShows(x, y, next, reverseDir, reverse, measure);
    ShownFourAfter(RoundedRectangleCmds((x + 92) as real, (y + 124) as real, 184.0, 92.0, 8.0, Some(NEUTRAL_000), None)
        + TextCmds(station, (x + 92) as real, (y + 100) as real, None, 16.0, 16.0, NEUTRAL_900, false, measure(station, 16.0))
        + TextCmds(first, (x + 104) as real, (y + 136) as real, None, 68.0, 84.0, NEUTRAL_900, false, measure(first, 84.0))
        + TextCmds("min.", (x + 232) as real, (y + 160) as real, None, 20.0, 16.0, NEUTRAL_900, false, measure("min.", 16.0)),
      TextCmds("NEXT", (x + 300) as real, (y + 122) as real, None, 16.0, 12.0, NEUTRAL_900, false, measure("NEXT", 12.0)),
      TextCmds(next, (x + 300) as real, (y + 141) as real, None, 16.0, 16.0, NEUTRAL_900, false, measure(next, 16.0)),
      TextCmds(reverseDir, (x + 300) as real, (y + 177) as real, None, 16.0, 12.0, NEUTRAL_900, false, measure(reverseDir, 12.0)),
      TextCmds(reverse, (x + 300) as real, (y + 196) as real, None, 16.0, 16.0, NEUTRAL_900, false, measure(reverse, 16.0)),
      [station, first, "min."], ["NEXT", next, reverseDir, reverse]);
    assert [station, first, "min."] + ["NEXT", next, reverseDir, reverse]
        == [station, first, "min.", "NEXT", next, reverseDir, reverse];
  }

  lemma BadgeShows(x: int, y: int, line: Line, measure: (string, real) -> TextExtents)
    ensures Shown(StationBadgeCmds(x, y, line, measure)) == [line.name]
  {
    CircleShowsNothing((x + 20) as real, (y + 28) as real, 24.0, line.background);
    TextShows(line.name, (x + 20) as real, (y + 28) as real, Some(48.0), 48.0, 32.0, line.colour, true,
              measure(line.name, 32.0));
    ShownConcat(CircleCmds((x + 20) as real, (y + 28) as real, 24.0, line.background),
                TextCmds(line.name, (x + 20) as real, (y + 28) as real, Some(48.0), 48.0, 32.0, line.colour, true,
                         measure(line.name, 32.0)));
  }

  /** Four pieces showing `a`, `b`, nothing and `c` show `a + b + c`. */
  lemma ShownFourParts(p1: seq<DrawCmd>, p2: seq<DrawCmd>, p3: seq<DrawCmd>, p4: seq<DrawCmd>,
                       a: seq<string>, b: seq<string>, c: seq<string>)
    requires Shown(p1) == a && Shown(p2) == b && Shown(p3) == [] && Shown(p4) == c
    ensures Shown(p1 + p2 + p3 + p4) == a + b + c
  {
    ShownConcat(p1, p2);
    ShownConcat(p1 + p2, p3);
    ShownConcat(p1 + p2 + p3, p4);
  }

  /**
   * A panel shows, in this order: the line's name, LEAVE, NOW, SOON, the
   * station, the minutes until the first northbound departure, "min.", NEXT,
   * the minutes until the second northbound departure, the reverse direction
   * and the minutes until the first southbound departure.
   */
  lemma StationShows(x: int, y: int, station: string, reverseDir: string, line: Line, status: Status,
                     leave: LeaveInstructions, north: seq<int>, south: seq<int>, now: int,
                     measure: (string, real) -> TextExtents)
    ensures Shown(StationCmds(x, y, station, reverseDir, line, status, leave, north, south, now, measure))
         == [line.name] + ["LEAVE", "NOW", "SOON"]
            + [station, MinutesUntil(north, 0, now), "min.", "NEXT",
               MinutesUntil(north, 1, now) + " min.", reverseDir, MinutesUntil(south, 0, now) + " min."]
  {
    BadgeShows(x, y, line, measure);
    LeaveShows(x, y, leave, measure);
    StatusShowsNothing(x, y, status);
    var first, next, reverse := MinutesUntil(north, 0, now), MinutesUntil(north, 1, now) + " min.",
                                MinutesUntil(south, 0, now) + " min.";
    StationTimesShow(x, y, station, reverseDir, first, next, reverse, measure);
    ShownFourParts(StationBadgeCmds(x, y, line, measure), LeaveInstructionsCmds(x, y, leave, measure),
                   StationStatusCmds(x, y, status),
                   StationTimesCmds(x, y, station, reverseDir, first, next, reverse, measure),
                   [line.name], ["LEAVE", "NOW", "SOON"], [station, first, "min.", "NEXT", next, reverseDir, reverse]);
    assert StationCmds(x, y, station, reverseDir, line, status, leave, north, south, now, measure)
        == StationBadgeCmds(x, y, line, measure) + LeaveInstructionsCmds(x, y, leave, measure)
           + StationStatusCmds(x, y, status) + StationTimesCmds(x, y, station, reverseDir, first, next, reverse, measure);
  }

  // ---------------------------------------------------------------------------
  // Moving a panel moves its calls.

  /** Moving a caption placed at offset (ox, oy) from the panel's corner. */
  lemma CaptionTranslates(text: string, x: int, y: int, ox: int, oy: int, lit: bool, highlight: Rgb,
                          measure: (string, real) -> TextExtents, dx: int, dy: int)
    requires dx % 2 == 0 && dy % 2 == 0
    ensures CaptionCmds(text, x + dx + ox, y + dy + oy, lit, highlight, measure)
         == TranslatedAll(CaptionCmds(text, x + ox, y + oy, lit, highlight, measure), dx as real, dy as real)
  {
    var colour := if lit then NEUTRAL_900 else NEUTRAL_300;
    PlacedTextTranslates(text, x, y, ox, oy, Some(64.0), 16.0, 16.0, colour, true, measure, dx, dy);
    if lit {
      HighlightTranslates(x, y, ox, oy, highlight, dx, dy);
      TranslatedAllConcat(RoundedRectangleCmds((x + ox) as real, (y + oy - 8) as real, 64.0, 32.0, 4.0, Some(highlight), None),
                          TextCmds(text, (x + ox) as real, (y + oy) as real, Some(64.0), 16.0, 16.0, colour, true,
                                   measure(text, 16.0)),
                          dx as real, dy as real);
    }
  }

  /** The grey frame and the LEAVE caption. */
  lemma LeaveFrameTranslates(x: int, y: int, leave: LeaveInstructions,
                             measure: (string, real) -> TextExtents, dx: int, dy: int)
    requires dx % 2 == 0 && dy % 2 == 0
    ensures LeaveFrameCmds(x + dx, y + dy, leave, measure)
         == TranslatedAll(LeaveFrameCmds(x, y, leave, measure), dx as real, dy as real)
  {
    RoundedRectangleTranslates((x + 92) as real, (y + 28) as real, 284.0, 48.0, 8.0, None, Some(NEUTRAL_200), dx as real, dy as real);
    TextTranslates("LEAVE", (x + 100) as real, (y + 44) as real, Some(64.0), 16.0, 16.0,
                   LabelColour(leave != NoInstructions), true, measure("LEAVE", 16.0), dx, dy);
    TranslatedAllConcat(RoundedRectangleCmds((x + 92) as real, (y + 28) as real, 284.0, 48.0, 8.0, None, Some(NEUTRAL_200)),
                        TextCmds("LEAVE", (x + 100) as real, (y + 44) as real, Some(64.0), 16.0, 16.0,
                                 LabelColour(leave != NoInstructions), true, measure("LEAVE", 16.0)),
                        dx as real, dy as real);
  }

  /** The NOW and SOON captions. */
  lemma LeaveCaptionsTranslate(x: int, y: int, leave: LeaveInstructions,
                               measure: (string, real) -> TextExtents, dx: int, dy: int)
    requires dx % 2 == 0 && dy % 2 == 0
    ensures LeaveCaptionsCmds(x + dx, y + dy, leave, measure)
         == TranslatedAll(LeaveCaptionsCmds(x, y, leave, measure), dx as real, dy as real)
  {
    var now, soon := CaptionCmds("NOW", x + 202, y + 44, leave == Now, STATUS_OK, measure),
                     CaptionCmds("SOON", x + 304, y + 44, leave == Soon, STATUS_WARNING, measure);
    var now', soon' := CaptionCmds("NOW", x + dx + 202, y + dy + 44, leave == Now, STATUS_OK, measure),
                       CaptionCmds("SOON", x + dx + 304, y + dy + 44, leave == Soon, STATUS_WARNING, measure);
    CaptionTranslates("NOW", x, y, 202, 44, leave == Now, STATUS_OK, measure, dx, dy);
    CaptionTranslates("SOON", x, y, 304, 44, leave == Soon, STATUS_WARNING, measure, dx, dy);
    TranslatedAllConcat(now, soon, dx as real, dy as real);
    assert LeaveCaptionsCmds(x + dx, y + dy, leave, measure) == now' + soon';
  }

  lemma LeaveInstructionsTranslate(x: int, y: int, leave: LeaveInstructions,
                                   measure: (string, real) -> TextExtents, dx: int, dy: int)
    requires dx % 2 == 0 && dy % 2 == 0
    ensures LeaveInstructionsCmds(x + dx, y + dy, leave, measure)
         == TranslatedAll(LeaveInstructionsCmds(x, y, leave, measure), dx as real, dy as real)
  {
    LeaveFrameTranslates(x, y, leave, measure, dx, dy);
    LeaveCaptionsTranslate(x, y, leave, measure, dx, dy);
    TranslatedAllConcat(LeaveFrameCmds(x, y, leave, measure), LeaveCaptionsCmds(x, y, leave, measure), dx as real, dy as real);
  }

  lemma StationStatusTranslates(x: int, y: int, status: Status, dx: int, dy: int)
    ensures StationStatusCmds(x + dx, y + dy, status)
         == TranslatedAll(StationStatusCmds(x, y, status), dx as real, dy as real)
  {
    var top := if status == Normal then STATUS_OK else NEUTRAL_200;
    var bottom := if status == Normal then NEUTRAL_200 else STATUS_WARNING;
    RoundedRectangleTranslates((x + 36) as real, (y + 100) as real, 16.0, 16.0, 4.0, Some(top), None, dx as real, dy as real);
    RoundedRectangleTranslates((x + 36) as real, (y + 124) as real, 16.0, 16.0, 4.0, Some(bottom), None, dx as real, dy as real);
    TranslatedAllConcat(RoundedRectangleCmds((x + 36) as real, (y + 100) as real, 16.0, 16.0, 4.0, Some(top), None),
                        RoundedRectangleCmds((x + 36) as real, (y + 124) as real, 16.0, 16.0, 4.0, Some(bottom), None),
                        dx as real, dy as real);
  }

  lemma StationBadgeTranslates(x: int, y: int, line: Line, measure: (string, real) -> TextExtents, dx: int, dy: int)
    requires dx % 2 == 0 && dy % 2 == 0
    ensures StationBadgeCmds(x + dx, y + dy, line, measure)
         == TranslatedAll(StationBadgeCmds(x, y, line, measure), dx as real, dy as real)
  {
    CircleTranslates((x + 20) as real, (y + 28) as real, 24.0, line.background, dx as real, dy as real);
    TextTranslates(line.name, (x + 20) as real, (y + 28) as real, Some(48.0), 48.0, 32.0, line.colour, true,
                   measure(line.name, 32.0), dx, dy);
    TranslatedAllConcat(CircleCmds((x + 20) as real, (y + 28) as real, 24.0, line.background),
                        TextCmds(line.name, (x + 20) as real, (y + 28) as real, Some(48.0), 48.0, 32.0, line.colour,
                                 true, measure(line.name, 32.0)),
                        dx as real, dy as real);
  }

  /** Moving the departure card's frame. */
  lemma CardFrameTranslates(x: int, y: int, dx: int, dy: int)
    ensures RoundedRectangleCmds((x + dx + 92) as real, (y + dy + 124) as real, 184.0, 92.0, 8.0, Some(NEUTRAL_000), None)
         == TranslatedAll(RoundedRectangleCmds((x + 92) as real, (y + 124) as real, 184.0, 92.0, 8.0, Some(NEUTRAL_000), None),
                          dx as real, dy as real)
  {
    RoundedRectangleTranslates((x + 92) as real, (y + 124) as real, 184.0, 92.0, 8.0, Some(NEUTRAL_000), None,
                               dx as real, dy as real);
  }

  /** Moving a text placed at offset (ox, oy) from the panel's corner. */
  lemma PlacedTextTranslates(text: string, x: int, y: int, ox: int, oy: int, width: Option<real>, height: real,
                             fontSize: real, colour: Rgb, center: bool, measure: (string, real) -> TextExtents,
                             dx: int, dy: int)
    requires dx % 2 == 0 && dy % 2 == 0
    ensures TextCmds(text, (x + dx + ox) as real, (y + dy + oy) as real, width, height, fontSize, colour, center,
                     measure(text, fontSize))
         == TranslatedAll(TextCmds(text, (x + ox) as real, (y + oy) as real, width, height, fontSize, colour, center,
                                   measure(text, fontSize)), dx as real, dy as real)
  {
    TextTranslates(text, (x + ox) as real, (y + oy) as real, width, height, fontSize, colour, center,
                   measure(text, fontSize), dx, dy);
  }

  /** Moving the highlight behind a caption placed at offset (ox, oy). */
  lemma HighlightTranslates(x: int, y: int, ox: int, oy: int, highlight: Rgb, dx: int, dy: int)
    ensures RoundedRectangleCmds((x + dx + ox) as real, (y + dy + oy - 8) as real, 64.0, 32.0, 4.0, Some(highlight), None)
         == TranslatedAll(RoundedRectangleCmds((x + ox) as real, (y + oy - 8) as real, 64.0, 32.0, 4.0, Some(highlight), None),
                          dx as real, dy as real)
  {
    RoundedRectangleTranslates((x + ox) as real, (y + oy - 8) as real, 64.0, 32.0, 4.0, Some(highlight), None,
                               dx as real, dy as real);
  }

  /** Four pieces, each the move of another, concatenate to the move of those others' concatenation. */
  lemma TranslatedFour(a: seq<DrawCmd>, b: seq<DrawCmd>, c: seq<DrawCmd>, d: seq<DrawCmd>,
                       a': seq<DrawCmd>, b': seq<DrawCmd>, c': seq<DrawCmd>, d': seq<DrawCmd>, dx: real, dy: real)
    requires a' == TranslatedAll(a, dx, dy) && b' == TranslatedAll(b, dx, dy)
             && c' == TranslatedAll(c, dx, dy) && d' == TranslatedAll(d, dx, dy)
    ensures a' + b' + c' + d' == TranslatedAll(a + b + c + d, dx, dy)
  {
    TranslatedAllConcat(a, b, dx, dy);
    TranslatedAllConcat(a + b, c, dx, dy);
    TranslatedAllConcat(a + b + c, d, dx, dy);
  }

  /** A moved prefix followed by four pieces whose concatenation moved. */
  lemma TranslatedFourAfter(l: seq<DrawCmd>, a: seq<DrawCmd>, b: seq<DrawCmd>, c: seq<DrawCmd>, d: seq<DrawCmd>,
                            l': seq<DrawCmd>, a': seq<DrawCmd>, b': seq<DrawCmd>, c': seq<DrawCmd>, d': seq<DrawCmd>,
                            dx: real, dy: real)
    requires l' == TranslatedAll(l, dx, dy) && a' + b' + c' + d' == TranslatedAll(a + b + c + d, dx, dy)
    ensures l' + a' + b' + c' + d' == TranslatedAll(l + a + b + c + d, dx, dy)
  {
    TranslatedAllConcat(l, a + b + c + d, dx, dy);
    assert l + a + b + c + d == l + (a + b + c + d);
    assert l' + a' + b' + c' + d' == l' + (a' + b' + c' + d');
  }

  /** The left half of the departure card: its frame, the station, the next departure's minutes and "min.". */
  lemma CardLeftTranslates(x: int, y: int, station: string, first: string, measure: (string, real) -> TextExtents,
                           dx: int, dy: int)
    requires dx % 2 == 0 && dy % 2 == 0
    ensures RoundedRectangleCmds((x + dx + 92) as real, (y + dy + 124) as real, 184.0, 92.0, 8.0, Some(NEUTRAL_000), None)
      + TextCmds(station, (x + dx + 92) as real, (y + dy + 100) as real, None, 16.0, 16.0, NEUTRAL_900, false, measure(station, 16.0))
      + TextCmds(first, (x + dx + 104) as real, (y + dy + 136) as real, None, 68.0, 84.0, NEUTRAL_900, false, measure(first, 84.0))
      + TextCmds("min.", (x + dx + 232) as real, (y + dy + 160) as real, None, 20.0, 16.0, NEUTRAL_900, false, measure("min.", 16.0))
         == TranslatedAll(RoundedRectangleCmds((x + 92) as real, (y + 124) as real, 184.0, 92.0, 8.0, Some(NEUTRAL_000), None)
        + TextCmds(station, (x + 92) as real, (y + 100) as real, None, 16.0, 16.0, NEUTRAL_900, false, measure(station, 16.0))
        + TextCmds(first, (x + 104) as real, (y + 136) as real, None, 68.0, 84.0, NEUTRAL_900, false, measure(first, 84.0))
        + TextCmds("min.", (x + 232) as real, (y + 160) as real, None, 20.0, 16.0, NEUTRAL_900, false, measure("min.", 16.0)), dx as real, dy as real)
  {
    CardFrameTranslates(x, y, dx, dy);
    PlacedTextTranslates(station, x, y, 92, 100, None, 16.0, 16.0, NEUTRAL_900, false, measure, dx, dy);
    PlacedTextTranslates(first, x, y, 104, 136, None, 68.0, 84.0, NEUTRAL_900, false, measure, dx, dy);
    PlacedTextTranslates("min.", x, y, 232, 160, None, 20.0, 16.0, NEUTRAL_900, false, measure, dx, dy);
    TranslatedFour(RoundedRectangleCmds((x + 92) as real, (y + 124) as real, 184.0, 92.0, 8.0, Some(NEUTRAL_000), None),
        TextCmds(station, (x + 92) as real, (y + 100) as real, None, 16.0, 16.0, NEUTRAL_900, false, measure(station, 16.0)),
        TextCmds(first, (x + 104) as real, (y + 136) as real, None, 68.0, 84.0, NEUTRAL_900, false, measure(first, 84.0)),
        TextCmds("min.", (x + 232) as real, (y + 160) as real, None, 20.0, 16.0, NEUTRAL_900, false, measure("min.", 16.0)),
        RoundedRectangleCmds((x + dx + 92) as real, (y + dy + 124) as real, 184.0, 92.0, 8.0, Some(NEUTRAL_000), None),
        TextCmds(station, (x + dx + 92) as real, (y + dy + 100) as real, None, 16.0, 16.0, NEUTRAL_900, false, measure(station, 16.0)),
        TextCmds(first, (x + dx + 104) as real, (y + dy + 136) as real, None, 68.0, 84.0, NEUTRAL_900, false, measure(first, 84.0)),
        TextCmds("min.", (x + dx + 232) as real, (y + dy + 160) as real, None, 20.0, 16.0, NEUTRAL_900, false, measure("min.", 16.0)),
      dx as real, dy as real);
  }

  /** The right half of the departure card: NEXT, the following departure, the reverse direction and its departure. */
  lemma CardRightTranslates(x: int, y: int, next: string, reverseDir: string, reverse: string,
                            measure: (string, real) -> TextExtents, dx: int, dy: int)
    requires dx % 2 == 0 && dy % 2 == 0
    ensures TextCmds("NEXT", (x + dx + 300) as real, (y + dy + 122) as real, None, 16.0, 12.0, NEUTRAL_900, false, measure("NEXT", 12.0))
      + TextCmds(next, (x + dx + 300) as real, (y + dy + 141) as real, None, 16.0, 16.0, NEUTRAL_900, false, measure(next, 16.0))
      + TextCmds(reverseDir, (x + dx + 300) as real, (y + dy + 177) as real, None, 16.0, 12.0, NEUTRAL_900, false, measure(reverseDir, 12.0))
      + TextCmds(reverse, (x + dx + 300) as real, (y + dy + 196) as real, None, 16.0, 16.0, NEUTRAL_900, false, measure(reverse, 16.0))
         == TranslatedAll(TextCmds("NEXT", (x + 300) as real, (y + 122) as real, None, 16.0, 12.0, NEUTRAL_900, false, measure("NEXT", 12.0))
        + TextCmds(next, (x + 300) as real, (y + 141) as real, None, 16.0, 16.0, NEUTRAL_900, false, measure(next, 16.0))
        + TextCmds(reverseDir, (x + 300) as real, (y + 177) as real, None, 16.0, 12.0, NEUTRAL_900, false, measure(reverseDir, 12.0))
        + TextCmds(reverse, (x + 300) as real, (y + 196) as real, None, 16.0, 16.0, NEUTRAL_900, false, measure(reverse, 16.0)), dx as real, dy as real)
  {
    PlacedTextTranslates("NEXT", x, y, 300, 122, None, 16.0, 12.0, NEUTRAL_900, false, measure, dx, dy);
    PlacedTextTranslates(next, x, y, 300, 141, None, 16.0, 16.0, NEUTRAL_900, false, measure, dx, dy);
    PlacedTextTranslates(reverseDir, x, y, 300, 177, None, 16.0, 12.0, NEUTRAL_900, false, measure, dx, dy);
    PlacedTextTranslates(reverse, x, y, 300, 196, None, 16.0, 16.0, NEUTRAL_900, false, measure, dx, dy);
    TranslatedFour(TextCmds("NEXT", (x + 300) as real, (y + 122) as real, None, 16.0, 12.0, NEUTRAL_900, false, measure("NEXT", 12.0)),
        TextCmds(next, (x + 300) as real, (y + 141) as real, None, 16.0, 16.0, NEUTRAL_900, false, measure(next, 16.0)),
        TextCmds(reverseDir, (x + 300) as real, (y + 177) as real, None, 16.0, 12.0, NEUTRAL_900, false, measure(reverseDir, 12.0)),
        TextCmds(reverse, (x + 300) as real, (y + 196) as real, None, 16.0, 16.0, NEUTRAL_900, false, measure(reverse, 16.0)),
        TextCmds("NEXT", (x + dx + 300) as real, (y + dy + 122) as real, None, 16.0, 12.0, NEUTRAL_900, false, measure("NEXT", 12.0)),
        TextCmds(next, (x + dx + 300) as real, (y + dy + 141) as real, None, 16.0, 16.0, NEUTRAL_900, false, measure(next, 16.0)),
        TextCmds(reverseDir, (x + dx + 300) as real, (y + dy + 177) as real, None, 16.0, 12.0, NEUTRAL_900, false, measure(reverseDir, 12.0)),
        TextCmds(reverse, (x + dx + 300) as real, (y + dy + 196) as real, None, 16.0, 16.0, NEUTRAL_900, false, measure(reverse, 16.0)),
      dx as real, dy as real);
  }

  lemma StationTimesTranslate(x: int, y: int, station: string, reverseDir: string, first: string,
                              next: string, reverse: string, measure: (string, real) -> TextExtents, dx: int, dy: int)
    requires dx % 2 == 0 && dy % 2 == 0
    ensures StationTimesCmds(x + dx, y + dy, station, reverseDir, first, next, reverse, measure)
         == TranslatedAll(StationTimesCmds(x, y, station, reverseDir, first, next, reverse, measure), dx as real, dy as real)
  {
    CardLeftTranslates(x, y, station, first, measure, dx, dy);
    CardRightTranslates(x, y, next, reverseDir, reverse, measure, dx, dy);
    TranslatedFourAfter(RoundedRectangleCmds((x + 92) as real, (y + 124) as real, 184.0, 92.0, 8.0, Some(NEUTRAL_000), None)
        + TextCmds(station, (x + 92) as real, (y + 100) as real, None, 16.0, 16.0, NEUTRAL_900, false, measure(station, 16.0))
        + TextCmds(first, (x + 104) as real, (y + 136) as real, None, 68.0, 84.0, NEUTRAL_900, false, measure(first, 84.0))
        + TextCmds("min.", (x + 232) as real, (y + 160) as real, None, 20.0, 16.0, NEUTRAL_900, false, measure("min.", 16.0)),
      TextCmds("NEXT", (x + 300) as real, (y + 122) as real, None, 16.0, 12.0, NEUTRAL_900, false, measure("NEXT", 12.0)),
      TextCmds(next, (x + 300) as real, (y + 141) as real, None, 16.0, 16.0, NEUTRAL_900, false, measure(next, 16.0)),
      TextCmds(reverseDir, (x + 300) as real, (y + 177) as real, None, 16.0, 12.0, NEUTRAL_900, false, measure(reverseDir, 12.0)),
      TextCmds(reverse, (x + 300) as real, (y + 196) as real, None, 16.0, 16.0, NEUTRAL_900, false, measure(reverse, 16.0)),
      RoundedRectangleCmds((x + dx + 92) as real, (y + dy + 124) as real, 184.0, 92.0, 8.0, Some(NEUTRAL_000), None)
        + TextCmds(station, (x + dx + 92) as real, (y + dy + 100) as real, None, 16.0, 16.0, NEUTRAL_900, false, measure(station, 16.0))
        + TextCmds(first, (x + dx + 104) as real, (y + dy + 136) as real, None, 68.0, 84.0, NEUTRAL_900, false, measure(first, 84.0))
        + TextCmds("min.", (x + dx + 232) as real, (y + dy + 160) as real, None, 20.0, 16.0, NEUTRAL_900, false, measure("min.", 16.0)),
      TextCmds("NEXT", (x + dx + 300) as real, (y + dy + 122) as real, None, 16.0, 12.0, NEUTRAL_900, false, measure("NEXT", 12.0)),
      TextCmds(next, (x + dx + 300) as real, (y + dy + 141) as real, None, 16.0, 16.0, NEUTRAL_900, false, measure(next, 16.0)),
      TextCmds(reverseDir, (x + dx + 300) as real, (y + dy + 177) as real, None, 16.0, 12.0, NEUTRAL_900, false, measure(reverseDir, 12.0)),
      TextCmds(reverse, (x + dx + 300) as real, (y + dy + 196) as real, None, 16.0, 16.0, NEUTRAL_900, false, measure(reverse, 16.0)),
      dx as real, dy as real);
  }

  /**
   * A panel drawn at (x + dx, y + dy) is the panel drawn at (x, y) with every
   * coordinate moved by (dx, dy), for even offsets. (With an odd offset a text
   * anchor that falls on a half pixel can round the other way.)
   */
  lemma StationTranslates(x: int, y: int, station: string, reverseDir: string, line: Line, status: Status,
                          leave: LeaveInstructions, north: seq<int>, south: seq<int>, now: int,
                          measure: (string, real) -> TextExtents, dx: int, dy: int)
    requires dx % 2 == 0 && dy % 2 == 0
    ensures StationCmds(x + dx, y + dy, station, reverseDir, line, status, leave, north, south, now, measure)
         == TranslatedAll(StationCmds(x, y, station, reverseDir, line, status, leave, north, south, now, measure),
                          dx as real, dy as real)
  {
    var first, next, reverse := MinutesUntil(north, 0, now), MinutesUntil(north, 1, now) + " min.",
                                MinutesUntil(south, 0, now) + " min.";
    StationBadgeTranslates(x, y, line, measure, dx, dy);
    LeaveInstructionsTranslate(x, y, leave, measure, dx, dy);
    StationStatusTranslates(x, y, status, dx, dy);
    StationTimesTranslate(x, y, station, reverseDir, first, next, reverse, measure, dx, dy);
    var badge := StationBadgeCmds(x, y, line, measure);
    var leaveBox := LeaveInstructionsCmds(x, y, leave, measure);
    var lights := StationStatusCmds(x, y, status);
    var card := StationTimesCmds(x, y, station, reverseDir, first, next, reverse, measure);
    TranslatedFour(badge, leaveBox, lights, card,
                   StationBadgeCmds(x + dx, y + dy, line, measure), LeaveInstructionsCmds(x + dx, y + dy, leave, measure),
                   StationStatusCmds(x + dx, y + dy, status),
                   StationTimesCmds(x + dx, y + dy, station, reverseDir, first, next, reverse, measure),
                   dx as real, dy as real);
  }

  // ---------------------------------------------------------------------------
  // generate_subway_time_image

  const LINE_2 := Line("2", NEUTRAL_000, SUBWAY_RED)
  const LINE_3 := Line("3", NEUTRAL_000, SUBWAY_RED)
  const LINE_B := Line("B", NEUTRAL_000, SUBWAY_ORANGE)
  const LINE_Q := Line("Q", NEUTRAL_900, SUBWAY_YELLOW)

  /** The routes the board shows, one per panel. */
  const ROUTES: set<string> := {"2", "3", "B", "Q"}

  /** The whole canvas filled with the background colour. */
  function BackgroundCmds(): seq<DrawCmd>
  {
    [SetSourceRgb(NEUTRAL_100), Rectangle(0.0, 0.0, WIDTH as real, HEIGHT as real), Fill]
  }

  /** `times[direction][route]`, where a missing key raises a KeyError naming it. */
  function Lookup(times: map<string, map<string, seq<int>>>, direction: string, route: string): (r: Result<seq<int>, string>)
    ensures r.Ok? <==> direction in times && route in times[direction]
    ensures r.Ok? ==> r.value == times[direction][route]
    ensures r.Err? ==> r.error == (if direction !in times then direction else route)
  {
    if direction !in times then Err(direction)
    else if route !in times[direction] then Err(route)
    else Ok(times[direction][route])
  }

  /** A panel's departures: northbound, then southbound. */
  datatype Departures = Departures(north: seq<int>, south: seq<int>)

  /** The lookups for one panel, northbound first. */
  function PanelTimes(times: map<string, map<string, seq<int>>>, route: string): (r: Result<Departures, string>)
    ensures r.Ok? <==> "N" in times && route in times["N"] && "S" in times && route in times["S"]
    ensures r.Ok? ==> r.value == Departures(times["N"][route], times["S"][route])
    ensures r.Err? ==> r.error == (if "N" !in times then "N"
                                   else if route !in times["N"] then route
                                   else if "S" !in times then "S"
                                   else route)
  {
    var north :- Lookup(times, "N", route);
    var south :- Lookup(times, "S", route);
    Ok(Departures(north, south))
  }

  /** The lookups for the whole board, in the order its panels are drawn: 2, 3, B, Q. */
  function BoardTimes(times: map<string, map<string, seq<int>>>): (r: Result<seq<Departures>, string>)
    ensures r.Ok? ==> |r.value| == 4
    ensures r.Err? ==> r.error in {"N", "S"} || r.error in ROUTES
  {
    var d2 :- PanelTimes(times, "2");
    var d3 :- PanelTimes(times, "3");
    var dB :- PanelTimes(times, "B");
    var dQ :- PanelTimes(times, "Q");
    Ok([d2, d3, dB, dQ])
  }

  /**
   * The board's lookups succeed exactly when every panel's do, and a failure
   * is the first failing panel's, in drawing order.
   */
  lemma BoardTimesInOrder(times: map<string, map<string, seq<int>>>)
    ensures var b, t2, t3, tB, tQ := BoardTimes(times), PanelTimes(times, "2"), PanelTimes(times, "3"),
                                     PanelTimes(times, "B"), PanelTimes(times, "Q");
      && (b.Ok? <==> t2.Ok? && t3.Ok? && tB.Ok? && tQ.Ok?)
      && (b.Ok? ==> b.value == [t2.value, t3.value, tB.value, tQ.value])
      && (t2.Err? ==> b == Err(t2.error))
      && (t2.Ok? && t3.Err? ==> b == Err(t3.error))
      && (t2.Ok? && t3.Ok? && tB.Err? ==> b == Err(tB.error))
      && (t2.Ok? && t3.Ok? && tB.Ok? && tQ.Err? ==> b == Err(tQ.error))
  {
  }

  function Panel2(d: Departures, now: int, measure: (string, real) -> TextExtents): seq<DrawCmd>
  {
    StationCmds(0, 0, "WAKEFIELD - 241ST", "FLATBUSH", LINE_2, Normal, Soon, d.north, d.south, now, measure)
  }

  function Panel3(d: Departures, now: int, measure: (string, real) -> TextExtents): seq<DrawCmd>
  {
    StationCmds(0, HEIGHT / 2, "HARLEM - 148 ST", "NEW LOTS", LINE_3, Normal, NoInstructions, d.north, d.south, now, measure)
  }

  function PanelB(d: Departures, now: int, measure: (string, real) -> TextExtents): seq<DrawCmd>
  {
    StationCmds(WIDTH / 2, 0, "145 ST", "BRIGHTON", LINE_B, Normal, Now, d.north, d.south, now, measure)
  }

  function PanelQ(d: Departures, now: int, measure: (string, real) -> TextExtents): seq<DrawCmd>
  {
    StationCmds(WIDTH / 2, HEIGHT / 2, "96 ST", "CONEY ISL", LINE_Q, Delayed, NoInstructions, d.north, d.south, now, measure)
  }

  /** The whole image for the four panels' departures: background, then the 2, 3, B and Q panels. */
  function BoardFrom(d: seq<Departures>, now: int, measure: (string, real) -> TextExtents): seq<DrawCmd>
    requires |d| == 4
  {
    BackgroundCmds() + Panel2(d[0], now, measure) + Panel3(d[1], now, measure)
    + PanelB(d[2], now, measure) + PanelQ(d[3], now, measure)
  }

  /** What a panel of the board shows besides its departures. */
  datatype PanelSpec = PanelSpec(station: string, reverseDir: string, line: Line, status: Status,
                                 leave: LeaveInstructions)

  /**
   * One panel of `generate_subway_time_image`: look up the route's northbound
   * then southbound departures (a missing key raises and nothing is drawn),
   * then draw the station.
   */
  method DrawPanel(ctx: Canvas, times: map<string, map<string, seq<int>>>, now: int, x: int, y: int, p: PanelSpec)
    returns (r: Result<(), string>)
    modifies ctx`log, ctx`fontSize
    ensures r.Err? <==> PanelTimes(times, p.line.name).Err?
    ensures r.Err? ==> r.error == PanelTimes(times, p.line.name).error && ctx.log == old(ctx.log)
    ensures r.Ok? ==>
      var d := PanelTimes(times, p.line.name).value;
      ctx.log == old(ctx.log) + StationCmds(x, y, p.station, p.reverseDir, p.line, p.status, p.leave, d.north, d.south,
                                            now, ctx.measure)
  {
    var north :- Lookup(times, "N", p.line.name);
    var south :- Lookup(times, "S", p.line.name);
    DrawStation(ctx, x, y, p.station, p.reverseDir, p.line, p.status, p.leave, north, south, now);
    return Ok(());
  }

  /**
   * Two panels of one column, the top panel first: 2 then 3 on the left, B
   * then Q on the right. Drawing stops at the first failed lookup. The source
   * makes the four `draw_station` calls one after another; grouping them two
   * by two keeps the lookups and calls in the same order and only keeps each
   * method's proof small.
   */
  method DrawColumn(ctx: Canvas, times: map<string, map<string, seq<int>>>, now: int, x: int,
                    top: PanelSpec, bottom: PanelSpec)
    returns (r: Result<(), string>)
    modifies ctx`log, ctx`fontSize
    ensures r.Err? <==> PanelTimes(times, top.line.name).Err? || PanelTimes(times, bottom.line.name).Err?
    ensures r.Err? ==> r.error == (if PanelTimes(times, top.line.name).Err? then PanelTimes(times, top.line.name).error
                                   else PanelTimes(times, bottom.line.name).error)
    ensures r.Ok? ==>
      var d1, d2 := PanelTimes(times, top.line.name).value, PanelTimes(times, bottom.line.name).value;
      ctx.log == old(ctx.log)
                 + StationCmds(x, 0, top.station, top.reverseDir, top.line, top.status, top.leave,
                               d1.north, d1.south, now, ctx.measure)
                 + StationCmds(x, HEIGHT / 2, bottom.station, bottom.reverseDir, bottom.line, bottom.status, bottom.leave,
                               d2.north, d2.south, now, ctx.measure)
  {
    var drawnTop := DrawPanel(ctx, times, now, x, 0, top);
    if drawnTop.Err? {
      return Err(drawnTop.error);
    }
    var drawnBottom := DrawPanel(ctx, times, now, x, HEIGHT / 2, bottom);
    if drawnBottom.Err? {
      return Err(drawnBottom.error);
    }
    return Ok(());
  }

  /**
   * `generate_subway_time_image`: a fresh 800x480 canvas holding the board,
   * or the KeyError for the first direction or route missing from `times`.
   */
  method GenerateSubwayTimeImage(times: map<string, map<string, seq<int>>>, now: int,
                                 measure: (string, real) -> TextExtents)
    returns (r: Result<Canvas, string>)
    ensures r.Err? <==> BoardTimes(times).Err?
    ensures r.Err? ==> r.error == BoardTimes(times).error
    ensures r.Ok? ==> && fresh(r.value) && r.value.width == WIDTH && r.value.height == HEIGHT
                      && r.value.measure == measure && r.value.log == BoardFrom(BoardTimes(times).value, now, measure)
  {
    var ctx := new Canvas(WIDTH, HEIGHT, measure);

    ctx.SetSourceRgb(NEUTRAL_100);
    ctx.Rectangle(0.0, 0.0, WIDTH as real, HEIGHT as real);
    ctx.Fill();
    assert ctx.log == BackgroundCmds();

    var left := DrawColumn(ctx, times, now, 0,
                           PanelSpec("WAKEFIELD - 241ST", "FLATBUSH", LINE_2, Normal, Soon),
                           PanelSpec("HARLEM - 148 ST", "NEW LOTS", LINE_3, Normal, NoInstructions));
    if left.Err? {
      BoardTimesInOrder(times);
      return Err(left.error);
    }
    var right := DrawColumn(ctx, times, now, WIDTH / 2,
                            PanelSpec("145 ST", "BRIGHTON", LINE_B, Normal, Now),
                            PanelSpec("96 ST", "CONEY ISL", LINE_Q, Delayed, NoInstructions));
    if right.Err? {
      BoardTimesInOrder(times);
      return Err(right.error);
    }
    BoardTimesInOrder(times);

    return Ok(ctx);
  }

  /**
   * The image is drawn exactly when both directions are present and each holds
   * all four routes; the departures drawn are then the ones under those keys.
   */
  lemma BoardNeedsEveryKey(times: map<string, map<string, seq<int>>>)
    ensures BoardTimes(times).Ok? <==>
      "N" in times && "S" in times && ROUTES <= times["N"].Keys && ROUTES <= times["S"].Keys
    ensures BoardTimes(times).Ok? ==>
      BoardTimes(times).value == [Departures(times["N"]["2"], times["S"]["2"]), Departures(times["N"]["3"], times["S"]["3"]),
                                  Departures(times["N"]["B"], times["S"]["B"]), Departures(times["N"]["Q"], times["S"]["Q"])]
  {
    if "N" in times && "S" in times && ROUTES <= times["N"].Keys && ROUTES <= times["S"].Keys {
      assert "2" in ROUTES && "3" in ROUTES && "B" in ROUTES && "Q" in ROUTES;
    }
  }

  /**
   * A failure names a key that is missing. A missing "N" is reported first;
   * after that the panels are looked up in the order 2, 3, B, Q, each reading
   * N[route], then S, then S[route]. So a missing "S" is reported only once
   * N holds route 2.
   */
  lemma BoardReportsMissingKey(times: map<string, map<string, seq<int>>>)
    ensures var b := BoardTimes(times);
      b.Err? ==>
        && ("N" !in times ==> b.error == "N")
        && ("N" in times && "S" !in times && "2" in times["N"] ==> b.error == "S")
        && ("N" in times && "2" !in times["N"] ==> b.error == "2")
        && (b.error in {"N", "S"} ==> b.error !in times)
        && (b.error in ROUTES ==> "N" in times && (b.error !in times["N"] || ("S" in times && b.error !in times["S"])))
  {
  }

  /** The departure map `fetch_subway_times` builds always draws: every key the board looks up is there. */
  lemma FetchedTimesDraw(times: map<string, map<string, seq<int>>>)
    requires times.Keys == {"N", "S"}
    requires times["N"].Keys == {"B", "Q", "2", "3"} && times["S"].Keys == {"B", "Q", "2", "3"}
    ensures BoardTimes(times).Ok?
  {
    BoardNeedsEveryKey(times);
  }

  lemma BackgroundFirst(rest: seq<DrawCmd>)
    ensures var ms := Marks(BackgroundCmds() + rest);
      |ms| > 0 && ms[0] == Mark(FillPaint, NEUTRAL_100, [Rectangle(0.0, 0.0, WIDTH as real, HEIGHT as real)])
  {
    MarksFromConcat(BackgroundCmds(), rest, INITIAL_STATE);
    var rect := Rectangle(0.0, 0.0, WIDTH as real, HEIGHT as real);
    var st1 := Step(INITIAL_STATE, SetSourceRgb(NEUTRAL_100));
    var st2 := Step(st1, rect);
    MarksFromCons(SetSourceRgb(NEUTRAL_100), [rect, Fill], INITIAL_STATE);
    MarksFromCons(rect, [Fill], st1);
    MarksFromOne(Fill, st2);
    assert BackgroundCmds() == [SetSourceRgb(NEUTRAL_100)] + [rect, Fill];
    assert [rect, Fill] == [rect] + [Fill];
  }

  lemma BackgroundBeforePanels(a: seq<DrawCmd>, b: seq<DrawCmd>, c: seq<DrawCmd>, e: seq<DrawCmd>)
    ensures var ms := Marks(BackgroundCmds() + a + b + c + e);
      |ms| > 0 && ms[0] == Mark(FillPaint, NEUTRAL_100, [Rectangle(0.0, 0.0, WIDTH as real, HEIGHT as real)])
  {
    BackgroundFirst(a + b + c + e);
    assert BackgroundCmds() + a + b + c + e == BackgroundCmds() + (a + b + c + e);
  }

  /** The first thing painted is a fill of the whole 800x480 canvas in the background colour. */
  lemma BoardBackground(d: seq<Departures>, now: int, measure: (string, real) -> TextExtents)
    requires |d| == 4
    ensures var ms := Marks(BoardFrom(d, now, measure));
      |ms| > 0 && ms[0] == Mark(FillPaint, NEUTRAL_100, [Rectangle(0.0, 0.0, WIDTH as real, HEIGHT as real)])
  {
    BackgroundBeforePanels(Panel2(d[0], now, measure), Panel3(d[1], now, measure),
                           PanelB(d[2], now, measure), PanelQ(d[3], now, measure));
  }

  /** A station panel drawn at (x, y) is the one drawn at the origin, moved by (x, y). */
  lemma StationAt(x: int, y: int, station: string, reverseDir: string, line: Line, status: Status,
                  leave: LeaveInstructions, north: seq<int>, south: seq<int>, now: int,
                  measure: (string, real) -> TextExtents)
    requires x % 2 == 0 && y % 2 == 0
    ensures StationCmds(x, y, station, reverseDir, line, status, leave, north, south, now, measure)
         == TranslatedAll(StationCmds(0, 0, station, reverseDir, line, status, leave, north, south, now, measure),
                          x as real, y as real)
  {
    var o := 0;
    StationTranslates(o, o, station, reverseDir, line, status, leave, north, south, now, measure, x, y);
    assert o + x == x && o + y == y;
  }

  /** The route 3 panel is the origin panel moved by (0, 240). */
  lemma Panel3Moved(d: Departures, now: int, measure: (string, real) -> TextExtents)
    ensures Panel3(d, now, measure)
         == TranslatedAll(StationCmds(0, 0, "HARLEM - 148 ST", "NEW LOTS", LINE_3, Normal, NoInstructions,
                                      d.north, d.south, now, measure), 0.0, 240.0)
  {
    var dx, dy := 0, HEIGHT / 2;
    assert dx % 2 == 0 && dy % 2 == 0 && dx as real == 0.0 && dy as real == 240.0;
    StationAt(dx, dy, "HARLEM - 148 ST", "NEW LOTS", LINE_3, Normal, NoInstructions, d.north, d.south, now, measure);
  }

  /** The route B panel is the origin panel moved by (400, 0). */
  lemma PanelBMoved(d: Departures, now: int, measure: (string, real) -> TextExtents)
    ensures PanelB(d, now, measure)
         == TranslatedAll(StationCmds(0, 0, "145 ST", "BRIGHTON", LINE_B, Normal, Now,
                                      d.north, d.south, now, measure), 400.0, 0.0)
  {
    var dx, dy := WIDTH / 2, 0;
    assert dx % 2 == 0 && dy % 2 == 0 && dx as real == 400.0 && dy as real == 0.0;
    StationAt(dx, dy, "145 ST", "BRIGHTON", LINE_B, Normal, Now, d.north, d.south, now, measure);
  }

  /** The route Q panel is the origin panel moved by (400, 240). */
  lemma PanelQMoved(d: Departures, now: int, measure: (string, real) -> TextExtents)
    ensures PanelQ(d, now, measure)
         == TranslatedAll(StationCmds(0, 0, "96 ST", "CONEY ISL", LINE_Q, Delayed, NoInstructions,
                                      d.north, d.south, now, measure), 400.0, 240.0)
  {
    var dx, dy := WIDTH / 2, HEIGHT / 2;
    assert dx % 2 == 0 && dy % 2 == 0 && dx as real == 400.0 && dy as real == 240.0;
    StationAt(dx, dy, "96 ST", "CONEY ISL", LINE_Q, Delayed, NoInstructions, d.north, d.south, now, measure);
  }

  /**
   * The four panels share one layout: each is the panel drawn at the origin
   * with its route's settings and departures, moved to its quarter of the
   * image (0, 0), (0, 240), (400, 0) or (400, 240).
   */
  lemma BoardPanelsTranslated(d: seq<Departures>, now: int, measure: (string, real) -> TextExtents)
    requires |d| == 4
    ensures BoardFrom(d, now, measure)
         == BackgroundCmds()
            + StationCmds(0, 0, "WAKEFIELD - 241ST", "FLATBUSH", LINE_2, Normal, Soon, d[0].north, d[0].south, now, measure)
            + TranslatedAll(StationCmds(0, 0, "HARLEM - 148 ST", "NEW LOTS", LINE_3, Normal, NoInstructions,
                                        d[1].north, d[1].south, now, measure), 0.0, 240.0)
            + TranslatedAll(StationCmds(0, 0, "145 ST", "BRIGHTON", LINE_B, Normal, Now,
                                        d[2].north, d[2].south, now, measure), 400.0, 0.0)
            + TranslatedAll(StationCmds(0, 0, "96 ST", "CONEY ISL", LINE_Q, Delayed, NoInstructions,
                                        d[3].north, d[3].south, now, measure), 400.0, 240.0)
  {
    Panel3Moved(d[1], now, measure);
    PanelBMoved(d[2], now, measure);
    PanelQMoved(d[3], now, measure);
  }
}
