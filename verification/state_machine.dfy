/**
 The button-state machine of the LoadingButton widget: the observable `buttonState`,
 the side effects its assignment triggers, the `buttonStateManager` entry point and the
 animator's update listener.

 The widget is an immutable record; every operation returns the next record. Calls to
 the host's `invalidate` are counted in `redraws`. The animator is abstracted to
 whether it is running: its ticks are events carrying the animated value.
 */
module ButtonStateMachine {

  datatype ButtonState = Clicked | Loading | Completed

  /** The fields the state machine reads and writes.
      `animRunning`: the animator currently held by the widget is running.
      `orphans`: earlier animators that were replaced while still running; the widget
      holds no reference to them any more, so nothing can cancel them. */
  datatype Widget = Widget(
    state: ButtonState,
    progress: real,
    clickable: bool,
    animRunning: bool,
    orphans: nat,
    redraws: nat)

  /** Which animator delivers a tick: the one the widget holds, or a replaced one. */
  datatype TickSource = Current | Orphan

  /** How entering `Loading` treats the animator it replaces: as the widget is written
      (the old one is dropped but keeps running), or cancelled first. */
  datatype Policy = AsWritten | CancelPrevious

  /** Whether `src` can still deliver ticks. */
  predicate Running(b: Widget, src: TickSource)
  {
    match src
    case Current => b.animRunning
    case Orphan => b.orphans > 0
  }

  /** The properties every reachable widget has. Note what is absent: neither
      "clickable iff Loading" nor "progress > 0 implies Loading" holds (see
      ClickedKeepsLoadingEffects). */
  predicate Inv(b: Widget)
  {
    && 0.0 <= b.progress <= 1.0
    && (b.state == Loading ==> b.animRunning)
    && (b.state == Completed ==> !b.animRunning)
    && (b.clickable <==> !b.animRunning)
    && (b.progress != 0.0 ==> b.animRunning || b.orphans > 0)
  }

  /** No animator can tick and no progress is shown. */
  predicate Quiet(b: Widget)
  {
    !b.animRunning && b.orphans == 0 && b.progress == 0.0
  }

  /** The observer of `buttonState`: it runs on EVERY assignment, whether or not the
      value changes. Entering Loading installs and starts a fresh animator over [0,1]
      and disables clicks; entering Completed cancels the held animator, zeroes the
      progress, enables clicks and requests a redraw; entering Clicked does nothing. */
  function Enter(b: Widget, s: ButtonState): (r: Widget)
    ensures r.state == s
    ensures r.redraws == b.redraws + (if s == Completed then 1 else 0)
    ensures s == Clicked ==> r == b.(state := Clicked)
    ensures s == Loading ==>
              r.progress == b.progress && !r.clickable && r.animRunning
              && r.orphans == b.orphans + (if b.animRunning then 1 else 0)
    ensures s == Completed ==>
              r.progress == 0.0 && r.clickable && !r.animRunning && r.orphans == b.orphans
  {
    var b' := b.(state := s);
    match s
    case Clicked => b'
    case Loading =>
      b'.(orphans := b.orphans + (if b.animRunning then 1 else 0),
          animRunning := true,
          clickable := false)
    case Completed =>
      b'.(animRunning := false, progress := 0.0, clickable := true, redraws := b.redraws + 1)
  }

  /** Construction: the property starts as Completed without running its observer,
      progress is 0, the held animator is a fresh one that was never started; the init
      block then sets clickable and assigns Completed, which does run the observer. */
  function Init(): (r: Widget)
    ensures r.state == Completed
    ensures r.progress == 0.0 && r.clickable
    ensures !r.animRunning && r.orphans == 0
    ensures r.redraws == 1
    ensures Inv(r) && Quiet(r)
  {
    var fields := Widget(Completed, 0.0, false, false, 0, 0);
    Enter(fields.(clickable := true), Completed)
  }

  /** `buttonStateManager(state)`: a request for the current state changes nothing;
      any other request assigns the state (running its observer) and then requests a
      redraw. */
  function SetState(b: Widget, s: ButtonState): (r: Widget)
    ensures b.state == s ==> r == b
    ensures b.state != s ==> r.state == s
    ensures b.state != s ==> r.redraws == b.redraws + (if s == Completed then 2 else 1)
    ensures b.state != s && s == Clicked ==>
              r.progress == b.progress && r.clickable == b.clickable
              && r.animRunning == b.animRunning && r.orphans == b.orphans
    ensures b.state != s && s == Loading ==>
              r.progress == b.progress && !r.clickable && r.animRunning
              && r.orphans == b.orphans + (if b.animRunning then 1 else 0)
    ensures b.state != s && s == Completed ==>
              r.progress == 0.0 && r.clickable && !r.animRunning && r.orphans == b.orphans
  {
    if b.state == s then b
    else
      var entered := Enter(b, s);
      entered.(redraws := entered.redraws + 1)
  }

  /** `buttonStateManager` with the fix applied: the animator being replaced when
      Loading is entered is cancelled first, so no animator is ever left running
      unreferenced. Otherwise it behaves as SetState. */
  function SetStateCancelling(b: Widget, s: ButtonState): (r: Widget)
    ensures r.orphans == b.orphans
    ensures b.state == s ==> r == b
    ensures s != Loading ==> r == SetState(b, s)
    ensures b.state != s && s == Loading ==>
              r.state == Loading && r.progress == b.progress && !r.clickable
              && r.animRunning && r.redraws == b.redraws + 1
  {
    if b.state != s && s == Loading then SetState(b.(animRunning := false), s)
    else SetState(b, s)
  }

  /** The animator's update listener: store the animated value as the progress and
      request one redraw. A cancelled or never-started animator delivers nothing. */
  function Tick(b: Widget, src: TickSource, v: real): (r: Widget)
    requires 0.0 <= v <= 1.0
    ensures Running(b, src) ==> r.progress == v && r.redraws == b.redraws + 1
    ensures !Running(b, src) ==> r == b
    ensures r.state == b.state && r.clickable == b.clickable
    ensures r.animRunning == b.animRunning && r.orphans == b.orphans
    ensures 0.0 <= b.progress <= 1.0 ==> 0.0 <= r.progress <= 1.0
  {
    if Running(b, src) then b.(progress := v, redraws := b.redraws + 1) else b
  }

  /** What can happen to a widget: a state request from outside, or an animator tick. */
  datatype Event = Request(target: ButtonState) | Frame(src: TickSource, value: real)

  /** Ticks carry a value of the animation's [0,1] range. */
  predicate ValidEvent(e: Event)
  {
    e.Frame? ==> 0.0 <= e.value <= 1.0
  }

  predicate AllValid(es: seq<Event>)
  {
    forall i :: 0 <= i < |es| ==> ValidEvent(es[i])
  }

  function Step(p: Policy, b: Widget, e: Event): (r: Widget)
    requires ValidEvent(e)
    ensures Inv(b) ==> Inv(r)
    ensures p == CancelPrevious ==> r.orphans == b.orphans
    ensures e.Request? && e.target != Loading && Quiet(b) ==> Quiet(r)
    ensures e.Frame? && Quiet(b) ==> r == b
  {
    match e
    case Request(s) =>
      (match p
       case AsWritten => SetState(b, s)
       case CancelPrevious => SetStateCancelling(b, s))
    case Frame(src, v) => Tick(b, src, v)
  }

  /** The widget after the events `es`, in order. */
  function Run(p: Policy, b: Widget, es: seq<Event>): (r: Widget)
    requires AllValid(es)
    ensures Inv(b) ==> Inv(r)
    ensures p == CancelPrevious ==> r.orphans == b.orphans
    decreases |es|
  {
    if es == [] then b
    else Run(p, Step(p, b, es[0]), es[1..])
  }

  /** Running two event sequences one after the other is running their concatenation. */
  lemma {:induction false} RunAppend(p: Policy, b: Widget, es: seq<Event>, fs: seq<Event>)
    requires AllValid(es) && AllValid(fs)
    ensures AllValid(es + fs)
    ensures Run(p, b, es + fs) == Run(p, Run(p, b, es), fs)
    decreases |es|
  {
    if es == [] {
      assert es + fs == fs;
    } else {
      assert (es + fs)[0] == es[0];
      assert (es + fs)[1..] == es[1..] + fs;
      RunAppend(p, Step(p, b, es[0]), es[1..], fs);
    }
  }

  /** Every widget reachable from construction, under either policy, satisfies Inv:
      in particular progress stays within [0,1], the button is clickable exactly when
      the held animator is not running, and progress is shown only while some
      animator is alive. */
  lemma ReachableInv(p: Policy, es: seq<Event>)
    requires AllValid(es)
    ensures Inv(Run(p, Init(), es))
    ensures 0.0 <= Run(p, Init(), es).progress <= 1.0
  {
  }

  /** A second identical request is a no-op: the side effects and redraws happen once. */
  lemma SetStateIdempotent(b: Widget, s: ButtonState)
    ensures SetState(SetState(b, s), s) == SetState(b, s)
    ensures SetStateCancelling(SetStateCancelling(b, s), s) == SetStateCancelling(b, s)
  {
  }

  predicate NoLoadingRequest(es: seq<Event>)
  {
    forall i :: 0 <= i < |es| ==> es[i] != Request(Loading)
  }

  /** A quiet widget stays quiet until Loading is requested again, whatever other
      requests and ticks arrive. */
  lemma {:induction false} QuietUntilLoading(p: Policy, b: Widget, es: seq<Event>)
    requires AllValid(es) && NoLoadingRequest(es)
    requires Quiet(b)
    ensures Quiet(Run(p, b, es))
    ensures Run(p, b, es).progress == 0.0
    decreases |es|
  {
    if es != [] {
      assert es[0] != Request(Loading);
      QuietUntilLoading(p, Step(p, b, es[0]), es[1..]);
    }
  }

  /** The ticks of the animator that entering Completed cancels change nothing. */
  lemma CancelledAnimatorIsSilent(b: Widget, v: real)
    requires Inv(b) && 0.0 <= v <= 1.0
    ensures var c := SetState(b, Completed);
            Tick(c, Current, v) == c
  {
  }

  /** The reset law as the widget is written: entering Completed zeroes the progress,
      and as long as no animator was left orphaned, no tick changes it until the next
      Loading request. */
  lemma ResetLaw(b: Widget, es: seq<Event>)
    requires Inv(b) && b.orphans == 0
    requires AllValid(es) && NoLoadingRequest(es)
    ensures SetState(b, Completed).progress == 0.0
    ensures Run(AsWritten, SetState(b, Completed), es).progress == 0.0
  {
    QuietUntilLoading(AsWritten, SetState(b, Completed), es);
  }

  /** With the replaced animator cancelled, no animator is ever orphaned, so the reset
      law holds for every reachable widget, and a Completed widget never shows progress. */
  lemma ResetLawCancelling(es: seq<Event>, rest: seq<Event>)
    requires AllValid(es) && AllValid(rest) && NoLoadingRequest(rest)
    ensures var b := Run(CancelPrevious, Init(), es);
            && b.orphans == 0
            && (b.state == Completed ==> b.progress == 0.0)
            && Run(CancelPrevious, SetStateCancelling(b, Completed), rest).progress == 0.0
  {
    var b := Run(CancelPrevious, Init(), es);
    QuietUntilLoading(CancelPrevious, SetStateCancelling(b, Completed), rest);
  }

  /** Entering Clicked touches nothing but the state: after Loading, a tick and
      Clicked, the button is Clicked yet still unclickable, animating and showing
      progress. So "clickable iff Loading" and "progress > 0 implies Loading" are not
      properties of this widget. */
  lemma ClickedKeepsLoadingEffects()
    ensures var w := Run(AsWritten, Init(), [Request(Loading), Frame(Current, 0.5), Request(Clicked)]);
            && w.state == Clicked && !w.clickable && w.animRunning && w.progress == 0.5
  {
  }

  /** As written, Loading -> Clicked -> Loading leaves the first animator running
      unreferenced; entering Completed cancels only the second, and a tick of the first
      then puts progress back above 0 while the button is Completed. */
  lemma OrphanOutlivesCompleted()
    ensures var w := Run(AsWritten, Init(),
                         [Request(Loading), Request(Clicked), Request(Loading),
                          Request(Completed), Frame(Orphan, 0.5)]);
            && w.state == Completed && w.clickable && w.orphans == 1 && w.progress == 0.5
  {
  }
}
