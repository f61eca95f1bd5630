/**
 One frame of the LoadingButton widget (`onDraw`): the four layers it paints, in order,
 and the caption it chooses. Colours are opaque integers and the font engine's
 measurements are inputs.
 */
module Drawing {
  import opened ButtonStateMachine
  import opened Geometry

  datatype Option<T> = None | Some(value: T)

  /** What the widget reads from its styled attributes and string resources. */
  datatype Style = Style(
    baseButtonColor: int,
    loadingLayerColor: int,
    loadingArcColor: int,
    textColor: int,
    downloadString: string,
    loadingString: string)

  /** What the widget reads from the canvas: its size and its current clip bounds. */
  datatype Canvas = Canvas(width: int, height: int, clipBounds: Rect)

  /** What the font engine reports for the text paint: the bounds of the loading
      caption, and the font's ascent (negative, above the baseline) and descent. */
  datatype FontMetrics = FontMetrics(loadingBounds: Rect, ascent: real, descent: real)

  /** One paint call on the canvas. */
  datatype DrawOp =
    | FillRect(rect: Rect, color: int)
    | FillArc(oval: RectF, startAngle: real, sweepAngle: real, useCenter: bool, color: int)
    | FillText(text: string, x: real, y: real, color: int)

  /** The label shown on the button: the loading label while Loading, the download
      label in every other state. */
  function Caption(state: ButtonState, style: Style): (r: string)
    ensures state == Loading ==> r == style.loadingString
    ensures state != Loading ==> r == style.downloadString
  {
    if state == Loading then style.loadingString else style.downloadString
  }

  /** The paint calls of one frame: base button, progress overlay, progress arc,
      caption, in that order; with no canvas every layer is skipped. */
  function OnDraw(b: Widget, widthSize: int, heightSize: int, style: Style,
                  font: FontMetrics, canvas: Option<Canvas>): (ops: seq<DrawOp>)
    ensures canvas.None? ==> ops == []
    ensures canvas.Some? ==>
              && |ops| == 4
              && ops[0] == FillRect(Rect(0, 0, widthSize, heightSize), style.baseButtonColor)
              && ops[1].FillRect? && ops[1].color == style.loadingLayerColor
              && ops[2].FillArc? && ops[2].color == style.loadingArcColor
              && ops[3].FillText? && ops[3].color == style.textColor
    ensures canvas.Some? && 0 <= widthSize && 0.0 <= b.progress <= 1.0 ==>
              ops[0].rect.Contains(ops[1].rect)
              && ops[1].rect.left == 0 && ops[1].rect.top == 0 && ops[1].rect.bottom == heightSize
              && ops[1].rect.right as real <= widthSize as real * b.progress < ops[1].rect.right as real + 1.0
    ensures canvas.Some? ==>
              && ops[2].startAngle == 0.0 && ops[2].useCenter
              && ops[2].sweepAngle / 360.0 == b.progress
              && IsArcSquare(ops[2].oval, canvas.value.clipBounds.Width(),
                             canvas.value.clipBounds.Height(), font.loadingBounds)
    ensures canvas.Some? ==>
              && ops[3].text == Caption(b.state, style)
              && ops[3].x.Floor as real == ops[3].x
              && (0 <= canvas.value.width ==>
                    ops[3].x * 2.0 <= canvas.value.width as real < ops[3].x * 2.0 + 2.0)
              && (ops[3].y + font.ascent + ops[3].y + font.descent) / 2.0
                 == Half(canvas.value.height) as real
  {
    match canvas
    case None => []
    case Some(c) =>
      var (x, y) := TextOrigin(c.width, c.height, font.ascent, font.descent);
      [ FillRect(Rect(0, 0, widthSize, heightSize), style.baseButtonColor),
        FillRect(OverlayRect(widthSize, heightSize, b.progress), style.loadingLayerColor),
        FillArc(ArcOval(c.clipBounds.Width(), c.clipBounds.Height(), font.loadingBounds),
                ArcStartAngle, SweepAngle(b.progress), true, style.loadingArcColor),
        FillText(Caption(b.state, style), x, y, style.textColor) ]
  }

  /** With distinct labels, the loading label is shown exactly in the Loading state,
      and whenever it is shown the button is unclickable and animating. The converse
      fails: a Clicked button that was Loading is still unclickable but shows the
      download label. */
  lemma CaptionTracksLoading(b: Widget, style: Style)
    requires style.loadingString != style.downloadString
    ensures Caption(b.state, style) == style.loadingString <==> b.state == Loading
    ensures Caption(b.state, style) == style.downloadString <==> b.state != Loading
    ensures Inv(b) && Caption(b.state, style) == style.loadingString ==> !b.clickable && b.animRunning
  {
  }

  /** An idle frame: once no animator is alive, a Completed widget draws an empty
      overlay, a zero sweep and the download label. */
  lemma IdleFrame(b: Widget, widthSize: int, heightSize: int, style: Style,
                  font: FontMetrics, c: Canvas)
    requires Inv(b) && b.state == Completed && b.orphans == 0
    requires 0 <= widthSize
    ensures var ops := OnDraw(b, widthSize, heightSize, style, font, Some(c));
            && ops[1].rect == Rect(0, 0, 0, heightSize)
            && ops[2].sweepAngle == 0.0
            && ops[3].text == style.downloadString
  {
  }

  /** Loading, then a tick at 0.5 on a 200-pixel-wide button: half the overlay and
      half the circle are drawn under the loading label, and clicks are disabled. */
  lemma HalfwayFrame(heightSize: int, style: Style, font: FontMetrics, c: Canvas)
    ensures var b := Run(AsWritten, Init(), [Request(Loading), Frame(Current, 0.5)]);
            var ops := OnDraw(b, 200, heightSize, style, font, Some(c));
            && !b.clickable && b.animRunning
            && ops[1].rect.right == 100
            && ops[2].sweepAngle == 180.0
            && ops[3].text == style.loadingString
  {
  }

  /** From the halfway frame, Completed resets the frame and re-enables clicks, and a
      tick forced out of the cancelled animator changes nothing. */
  lemma CompletedFrame(heightSize: int, style: Style, font: FontMetrics, c: Canvas, v: real)
    requires 0.0 <= v <= 1.0
    ensures var b := Run(AsWritten, Init(),
                         [Request(Loading), Frame(Current, 0.5), Request(Completed), Frame(Current, v)]);
            var ops := OnDraw(b, 200, heightSize, style, font, Some(c));
            && b.clickable && b.progress == 0.0
            && ops[1].rect.right == 0
            && ops[2].sweepAngle == 0.0
            && ops[3].text == style.downloadString
  {
    var first := [Request(Loading), Frame(Current, 0.5)];
    var rest := [Request(Completed), Frame(Current, v)];
    var b2 := Run(AsWritten, Init(), first);
    var c2 := SetState(b2, Completed);
    assert Run(AsWritten, c2, rest[1..]) == Tick(c2, Current, v);
    assert Run(AsWritten, b2, rest) == Tick(c2, Current, v);
    RunAppend(AsWritten, Init(), first, rest);
    assert first + rest == [Request(Loading), Frame(Current, 0.5), Request(Completed), Frame(Current, v)];
    assert (200 as real * 0.0).Floor == 0;
  }
}
