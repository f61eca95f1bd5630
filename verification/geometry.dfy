/**
 The per-frame geometry of the LoadingButton widget: the progress overlay, the arc's
 sweep and bounding box, and the caption's origin. Float arithmetic is idealised as
 `real`; integer conversions and integer divisions are written out as the widget's
 Kotlin code performs them.
 */
module Geometry {

  /** An integer rectangle given by its edges, as `android.graphics.Rect`. */
  datatype Rect = Rect(left: int, top: int, right: int, bottom: int)
  {
    function Width(): int { right - left }
    function Height(): int { bottom - top }

    /** `inner` lies inside this rectangle. */
    predicate Contains(inner: Rect)
    {
      left <= inner.left && inner.right <= right && top <= inner.top && inner.bottom <= bottom
    }
  }

  /** A real-valued rectangle given by its edges, as `android.graphics.RectF`. */
  datatype RectF = RectF(left: real, top: real, right: real, bottom: real)

  /** The angle every arc starts at, in degrees. */
  const ArcStartAngle: real := 0.0

  /** Kotlin's `Float.toInt()`: rounds toward zero. */
  function Trunc(x: real): (r: int)
    ensures 0.0 <= x ==> 0 <= r && r as real <= x < r as real + 1.0
    ensures x < 0.0 ==> r <= 0 && r as real - 1.0 < x <= r as real
  {
    if 0.0 <= x then x.Floor else -((-x).Floor)
  }

  /** Kotlin's `n / 2` on `Int`: half of `n`, rounded toward zero. */
  function Half(n: int): (q: int)
    ensures 0 <= n ==> n == 2 * q || n == 2 * q + 1
    ensures n < 0 ==> n == 2 * q || n == 2 * q - 1
  {
    if 0 <= n then n / 2 else -((-n) / 2)
  }

  /** The progress overlay: from the left edge to `(widthSize * progress).toInt()`,
      over the full height. */
  function OverlayRect(widthSize: int, heightSize: int, progress: real): (r: Rect)
    ensures r.left == 0 && r.top == 0 && r.bottom == heightSize
    ensures 0 <= widthSize && 0.0 <= progress ==>
              0 <= r.right && r.right as real <= widthSize as real * progress < r.right as real + 1.0
    ensures 0 <= widthSize && 0.0 <= progress <= 1.0 ==> 0 <= r.right <= widthSize
  {
    var scaled := widthSize as real * progress;
    ScaleWithinWidth(widthSize as real, progress);
    var right := Trunc(scaled);
    assert 0 <= widthSize && 0.0 <= progress <= 1.0 ==> right as real <= widthSize as real;
    Rect(0, 0, right, heightSize)
  }

  /** Scaling a non-negative width by a fraction in [0,1] stays within [0, width]. */
  lemma ScaleWithinWidth(w: real, p: real)
    ensures 0.0 <= w && 0.0 <= p <= 1.0 ==> 0.0 <= w * p <= w
  {
  }

  /** Scaling a non-negative width by non-negative factors is monotone in the factor. */
  lemma ScaleMonotone(w: real, p: real, q: real)
    requires 0.0 <= w && 0.0 <= p <= q
    ensures 0.0 <= w * p <= w * q
  {
    assert w * q - w * p == w * (q - p);
  }

  /** Rounding toward zero is monotone on non-negative values. */
  lemma TruncMonotone(x: real, y: real)
    requires 0.0 <= x <= y
    ensures Trunc(x) <= Trunc(y)
  {
    assert Trunc(x) as real <= x <= y < Trunc(y) as real + 1.0;
  }

  /** The overlay never shrinks as progress grows. */
  lemma OverlayMonotone(widthSize: int, heightSize: int, p: real, q: real)
    requires 0 <= widthSize && 0.0 <= p <= q
    ensures OverlayRect(widthSize, heightSize, p).right <= OverlayRect(widthSize, heightSize, q).right
  {
    var w := widthSize as real;
    var x, y := w * p, w * q;
    ScaleMonotone(w, p, q);
    TruncMonotone(x, y);
    assert OverlayRect(widthSize, heightSize, p).right == Trunc(x);
    assert OverlayRect(widthSize, heightSize, q).right == Trunc(y);
  }

  /** The overlay is empty at progress 0 and covers the full width at progress 1. */
  lemma OverlayEnds(widthSize: int, heightSize: int)
    requires 0 <= widthSize
    ensures OverlayRect(widthSize, heightSize, 0.0).right == 0
    ensures OverlayRect(widthSize, heightSize, 1.0).right == widthSize
  {
    var w := widthSize as real;
    assert w * 0.0 == 0.0 && w * 1.0 == w;
    assert OverlayRect(widthSize, heightSize, 0.0).right == Trunc(0.0);
    assert OverlayRect(widthSize, heightSize, 1.0).right == Trunc(w);
  }

  /** The arc's sweep in degrees: the progress times 360. */
  function SweepAngle(progress: real): (r: real)
    ensures r / 360.0 == progress
    ensures 0.0 <= progress <= 1.0 ==> 0.0 <= r <= 360.0
  {
    progress * 360.0
  }

  /** The arc's bounding box, from the clip size and the width `tw` and height `th`
      of the loading caption's text bounds: each edge is half the clip size shifted by
      the text size divided by 1.5. */
  function ArcOval(clipW: int, clipH: int, textBounds: Rect): (r: RectF)
    ensures IsArcSquare(r, clipW, clipH, textBounds)
  {
    var tw := textBounds.Width() as real;
    var th := textBounds.Height() as real;
    RectF(
      (clipW as real / 2.0 + tw / 1.5) - th / 1.5,
      clipH as real / 2.0 - th / 1.5,
      (clipW as real / 2.0 + tw / 1.5) + th / 1.5,
      clipH as real / 2.0 + th / 1.5)
  }

  /** `r` is a square of side `2 * th / 1.5` centred at `(clipW / 2 + tw / 1.5, clipH / 2)`. */
  predicate IsArcSquare(r: RectF, clipW: int, clipH: int, textBounds: Rect)
  {
    var tw := textBounds.Width() as real;
    var th := textBounds.Height() as real;
    && r.right - r.left == 2.0 * th / 1.5
    && r.bottom - r.top == 2.0 * th / 1.5
    && (r.left + r.right) / 2.0 == clipW as real / 2.0 + tw / 1.5
    && (r.top + r.bottom) / 2.0 == clipH as real / 2.0
  }

  /** The centre and side determine the box: ArcOval is the only rectangle that is the
      square IsArcSquare describes. */
  lemma ArcOvalUnique(r: RectF, clipW: int, clipH: int, textBounds: Rect)
    ensures IsArcSquare(r, clipW, clipH, textBounds) <==> r == ArcOval(clipW, clipH, textBounds)
  {
  }

  /** Where the caption is drawn: horizontally at half the canvas width (an integer
      division), with the baseline at half the canvas height (an integer division)
      minus the mean of the font's descent and ascent. */
  function TextOrigin(canvasWidth: int, canvasHeight: int, ascent: real, descent: real): (o: (real, real))
    ensures var (x, y) := o;
            x.Floor as real == x
    ensures var (x, y) := o;
            0 <= canvasWidth ==> x * 2.0 <= canvasWidth as real < x * 2.0 + 2.0
    ensures var (x, y) := o;
            canvasWidth < 0 ==> x * 2.0 - 2.0 < canvasWidth as real <= x * 2.0
    ensures var (x, y) := o;
            (y + ascent + y + descent) / 2.0 == Half(canvasHeight) as real
  {
    (Half(canvasWidth) as real, Half(canvasHeight) as real - (descent + ascent) / 2.0)
  }
}
