# LoadingButton: state machine and frame geometry

A Dafny model of the `LoadingButton` custom view of the load-app Android project. The view
is a self-drawing button. An observable `buttonState` (`Clicked`, `Loading`, `Completed`)
drives a `ValueAnimator`. The animator's ticks write a `progress` value in [0,1]. Each frame
paints four layers: the base rectangle, a progress overlay, a progress arc and the caption.

The model has three modules:

- `ButtonStateMachine` (`state_machine.dfy`): the widget is an immutable record
  `(state, progress, clickable, animRunning, orphans, redraws)`.
  - `Init` is construction.
  - `SetState` is `buttonStateManager` together with the observer of `buttonState`.
  - `Tick` is the animator's update listener.
  - `Step` and `Run` apply sequences of requests and ticks.
  - Calls to `invalidate` are counted in `redraws`.
  - `orphans` counts animators that were replaced while still running. The widget holds
    no reference to them, so nothing cancels them (see Findings).
- `Geometry` (`geometry.dfy`): the overlay rectangle, the arc's sweep and bounding box, and
  the caption origin. These are pure functions over idealised real-valued floats. `Float.toInt()`
  is written out as rounding toward zero, and `Int / 2` as halving toward zero.
- `Drawing` (`drawing.dfy`): `onDraw` as the sequence of paint calls it issues, the caption
  choice, and scenarios that connect the state machine to the frame.

The model follows the code, including where it departs from what one might expect of such a widget:

- `Clicked` changes only the state field. After `Loading` then `Clicked`, the button stays
  unclickable, the animator keeps running and progress stays above 0. So "clickable iff
  Loading" and "progress > 0 implies Loading" are not invariants (see
  `ClickedKeepsLoadingEffects`). The invariant that does hold is `Inv`:
  - progress is in [0,1];
  - the button is clickable exactly when the held animator is not running;
  - progress is non-zero only while some animator is alive.
- Kotlin's `Delegates.observable` runs its observer on every assignment. So the init block's
  `buttonState = Completed` does fire the Completed effect, and construction ends with one
  redraw request.
- Entering `Loading` does not reset progress. The first tick does.

## Model

| member | source | states |
|---|---|---|
| ButtonStateMachine.Init | app/src/main/java/com/udacity/LoadingButton.kt:94-107 | after construction the button is Completed, progress is 0, it is clickable, no animator runs, and exactly one redraw was requested by the init block's assignment |
| ButtonStateMachine.Enter | app/src/main/java/com/udacity/LoadingButton.kt:77-101 | the observer of `buttonState`, run on every assignment: the state becomes the assigned one; Clicked changes nothing else; Loading starts a new animator, disables clicks, keeps progress and orphans a held running animator; Completed stops the held animator, zeroes progress, enables clicks and adds one redraw |
| ButtonStateMachine.SetState | app/src/main/java/com/udacity/LoadingButton.kt:76-102 | a request for the current state changes nothing. Otherwise the state becomes the target and: Clicked leaves progress, clickability and animators untouched; Loading starts a new animator, disables clicks, keeps progress, and orphans a held running animator; Completed stops the held animator, zeroes progress and enables clicks. Redraws grow by 2 into Completed and by 1 otherwise |
| ButtonStateMachine.SetStateIdempotent | app/src/main/java/com/udacity/LoadingButton.kt:180-185 | requesting the same state twice has the effect of requesting it once |
| ButtonStateMachine.Tick | app/src/main/java/com/udacity/LoadingButton.kt:84-89 | a tick from a running animator sets progress to the animated value and adds one redraw; a tick from a cancelled animator changes nothing; state, clickability and animators are never touched; progress stays in [0,1] |
| ButtonStateMachine.Step | app/src/main/java/com/udacity/LoadingButton.kt:180-185 | every request or tick preserves Inv; with the cancelling fix no animator is orphaned; a widget with no live animator and zero progress keeps that through every non-Loading request and is unchanged by ticks |
| ButtonStateMachine.Run | app/src/main/java/com/udacity/LoadingButton.kt:76-102 | any sequence of requests and ticks preserves Inv |
| ButtonStateMachine.ReachableInv | app/src/main/java/com/udacity/LoadingButton.kt:76-107 | every widget reachable from construction satisfies Inv, so progress is always in [0,1] |
| ButtonStateMachine.QuietUntilLoading | app/src/main/java/com/udacity/LoadingButton.kt:94-100 | once no animator is alive and progress is 0, no sequence of ticks and non-Loading requests makes progress non-zero |
| ButtonStateMachine.CancelledAnimatorIsSilent | app/src/main/java/com/udacity/LoadingButton.kt:94-97 | after a request for Completed, a tick from the held animator changes nothing |
| ButtonStateMachine.ResetLaw | app/src/main/java/com/udacity/LoadingButton.kt:94-100 | entering Completed sets progress to exactly 0; if no animator was orphaned, progress stays 0 until the next Loading request |
| ButtonStateMachine.ClickedKeepsLoadingEffects | app/src/main/java/com/udacity/LoadingButton.kt:78 | after Loading, a tick at 0.5 and Clicked, the button is Clicked but unclickable, animating and at progress 0.5 |
| ButtonStateMachine.OrphanOutlivesCompleted | app/src/main/java/com/udacity/LoadingButton.kt:79-96 | Loading, Clicked, Loading, Completed leaves one animator running; its tick puts progress at 0.5 while the button is Completed |
| ButtonStateMachine.SetStateCancelling | app/src/main/java/com/udacity/LoadingButton.kt:79-93 | the corrected transition: it never orphans an animator and otherwise behaves as SetState |
| ButtonStateMachine.ResetLawCancelling | app/src/main/java/com/udacity/LoadingButton.kt:94-100 | with the corrected transition, every reachable widget has no orphan; a Completed widget shows progress 0; after entering Completed, progress stays 0 until the next Loading request |
| Geometry.Trunc | app/src/main/java/com/udacity/LoadingButton.kt:128 | `toInt()` rounds toward zero: for x >= 0 the result r satisfies r <= x < r + 1, and symmetrically for x < 0 |
| Geometry.Half | app/src/main/java/com/udacity/LoadingButton.kt:171-172 | Kotlin's integer halving rounds toward zero: n is 2q or 2q+1 for n >= 0, and 2q or 2q-1 for n < 0 |
| Geometry.OverlayRect | app/src/main/java/com/udacity/LoadingButton.kt:124-131 | the overlay spans from x = 0 to the largest integer not above widthSize*progress, over the full height. Its right edge lies in [0, widthSize] for progress in [0,1] |
| Geometry.OverlayMonotone | app/src/main/java/com/udacity/LoadingButton.kt:125-130 | the overlay never shrinks as progress grows |
| Geometry.OverlayEnds | app/src/main/java/com/udacity/LoadingButton.kt:125-130 | the overlay is empty at progress 0 and spans the full width at progress 1 |
| Geometry.SweepAngle | app/src/main/java/com/udacity/LoadingButton.kt:152-158 | the sweep divided by 360 is the progress, so it lies in [0,360] for progress in [0,1] |
| Geometry.ArcOval | app/src/main/java/com/udacity/LoadingButton.kt:136-151 | the arc box is a square of side 2*th/1.5 centred at (clipW/2 + tw/1.5, clipH/2), where tw and th are the loading caption's text-bounds width and height |
| Geometry.ArcOvalUnique | app/src/main/java/com/udacity/LoadingButton.kt:146-151 | a rectangle is that square if and only if it equals the arc box |
| Geometry.TextOrigin | app/src/main/java/com/udacity/LoadingButton.kt:169-176 | the caption's x is a whole number and is half the canvas width rounded toward zero, for either sign of the width; its baseline puts the middle of the span between ascent and descent at half the canvas height |
| Drawing.OnDraw | app/src/main/java/com/udacity/LoadingButton.kt:109-177 | with a canvas, a frame is exactly four layers in order. The base covers the widget bounds; the overlay starts at x = 0, spans the full height, lies inside the base and ends at trunc(widthSize*progress); the arc starts at 0 and sweeps progress*360 inside the arc square, as a pie; the text shows the caption at x = half the canvas width rounded toward zero, centred vertically on the canvas midline. Each layer has its own colour. With no canvas, nothing is drawn |
| Drawing.Caption | app/src/main/java/com/udacity/LoadingButton.kt:163-167 | the caption is the loading label in the Loading state and the download label in every other state |
| Drawing.CaptionTracksLoading | app/src/main/java/com/udacity/LoadingButton.kt:162-167 | for every widget with distinct labels, the loading label is shown if and only if the state is Loading and the download label otherwise; on a widget satisfying Inv, whenever the loading label shows, the button is unclickable and animating |
| Drawing.IdleFrame | app/src/main/java/com/udacity/LoadingButton.kt:124-167 | a Completed widget with no live animator draws an empty overlay, a zero sweep and the download label |
| Drawing.HalfwayFrame | app/src/main/java/com/udacity/LoadingButton.kt:79-158 | after Loading and a tick at 0.5 on a 200-pixel button: clicks are disabled, the overlay is 100 pixels wide, the sweep is 180 degrees and the loading label shows |
| Drawing.CompletedFrame | app/src/main/java/com/udacity/LoadingButton.kt:94-100 | after that, Completed and a forced tick from the cancelled animator give a clickable button with progress 0, an empty overlay, a zero sweep and the download label |

## Left out

- `onMeasure` (lines 187-198) is left out. It wraps Android's `resolveSizeAndState` and `MeasureSpec`, which are not part of this model. `widthSize` and `heightSize` are parameters of `OnDraw`.
- Style loading through `withStyledAttributes` and string resources (lines 28-35, 64-65) is left out. Colours and captions are inputs in `Style`, and colours are opaque integers.
- `ValueAnimator` behaviour is abstracted to ticks with values in [0,1] that arrive only while an animator runs. This covers the 2000 ms duration, interpolation, the repeat settings applied inside the listener, and the frame scheduling. Android's `start()` may deliver its first value at once. A `Frame(Current, 0.0)` event right after the Loading request models that.
- Text metrics are inputs: `getTextBounds`, `ascent()`, `descent()` and the 75-pixel text size.
- Float arithmetic is real arithmetic. `Geometry.Trunc` does not model `toInt()` saturation at the 32-bit limits or NaN. Neither can arise for a progress in [0,1] and an `Int` width.
- `drawLoadingArc` stores `clipW` and `clipH` in fields, but nothing reads those fields outside that call, so they are not fields of the model. Without a canvas, the clip falls back to the widget bounds; nothing is drawn in that case, so the fallback has no effect in the model.
- Pixel painting, anti-aliasing and compositing are side effects on the canvas. A frame is modelled as the list of paint calls, in order.

## Findings

| source | as written | input that shows it | evidently intended | confidence | as-written member | corrected member |
|---|---|---|---|---|---|---|
| app/src/main/java/com/udacity/LoadingButton.kt:79-96 | entering Loading replaces `valueAnimator` with a new running animator without cancelling the one it held; entering Completed cancels only the held one | requests Loading, Clicked, Loading, Completed, then a tick from the first animator at 0.5: the button is Completed with progress 0.5 | cancel the held animator before installing a new one, so that entering Completed silences every animator and progress stays 0 until the next Loading | not executed; medium | ButtonStateMachine.OrphanOutlivesCompleted | ButtonStateMachine.SetStateCancelling |

`SetStateCancelling` is the corrected transition. `ResetLawCancelling` proves for it that no animator is ever orphaned and that a Completed widget always shows progress 0. `Step` and `Run` take the policy as a parameter, and `Inv` is proved under both.
