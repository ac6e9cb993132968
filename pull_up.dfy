/**
 * The PreviewConsole variant of the pull-up panel: a view model holding the
 * panel height, the height to reopen to, the measured screen height and the
 * tri-state drag flag, driven by taps on the handle and by drag gestures on
 * the bar.
 */
module PullUp {
  import opened Basics

  /** Height of the pull bar. */
  const PullBarHeight: real := 26.0
  /** Space kept free above the panel so the list does not jump at the top. */
  const TopMargin: real := 30.0
  /** The height the panel first opens to. */
  const DefaultOpenHeight: real := 142.0
  /** The screen height assumed until the geometry reader reports one. */
  const DefaultScreenHeight: real := 800.0

  /**
   * `x.between(lo...hi)`: the value limited to the closed range. Building the
   * range `lo...hi` traps unless `lo <= hi`.
   */
  function Between(x: real, lo: real, hi: real): (r: real)
    requires lo <= hi
    ensures lo <= r <= hi
    ensures lo <= x <= hi ==> r == x
    ensures x < lo ==> r == lo
    ensures hi < x ==> r == hi
  {
    Min(hi, Max(x, lo))
  }

  /** Absolute difference of two heights. */
  function Dist(a: real, b: real): real
  {
    if a <= b then b - a else a - b
  }

  /** The clamped value is the point of the range nearest to the input. */
  lemma BetweenIsNearest(x: real, lo: real, hi: real, y: real)
    requires lo <= y <= hi
    ensures Dist(Between(x, lo, hi), x) <= Dist(y, x)
  {
  }

  /** Clamping twice is clamping once. */
  lemma BetweenIdempotent(x: real, lo: real, hi: real)
    requires lo <= hi
    ensures Between(Between(x, lo, hi), lo, hi) == Between(x, lo, hi)
  {
  }

  /**
   * The state of `PullUpVM`. `isDragging` is Swift's `Bool?`: `Some(false)`
   * when no drag is going on, `None` once a drag has moved the panel.
   */
  datatype Panel = Panel(frameHeight: real, lastFrameHeight: real, screenHeight: real, isDragging: Option<bool>)

  /** A freshly created view model: closed, ready to open to the default height. */
  const Initial: Panel := Panel(0.0, DefaultOpenHeight, DefaultScreenHeight, Some(false))

  /** `maxHeight`: the screen height less the bar and the top margin. */
  function MaxHeight(p: Panel): real
  {
    p.screenHeight - PullBarHeight - TopMargin
  }

  /** `isUp`: the panel is open. */
  predicate IsUp(p: Panel)
  {
    p.frameHeight > 0.0
  }

  /** The height never goes below zero and the height to reopen to is positive. */
  ghost predicate Inv(p: Panel)
  {
    p.frameHeight >= 0.0 && p.lastFrameHeight > 0.0
  }

  /** `tapped()`: an open panel remembers its height and closes; a closed one reopens to the remembered height. */
  function Tap(p: Panel): Panel
  {
    if IsUp(p) then p.(lastFrameHeight := p.frameHeight, frameHeight := 0.0)
    else p.(frameHeight := p.lastFrameHeight)
  }

  /** `setScreenHeight(to:)`: overwrite the measured height. */
  function WithScreenHeight(p: Panel, screenHeight: real): Panel
  {
    p.(screenHeight := screenHeight)
  }

  /**
   * The drag gesture's `onChanged`: the height moves against the gesture's
   * vertical translation, limited to `0...maxHeight`, and the drag flag
   * becomes `nil`. Building `0...maxHeight` traps when `maxHeight < 0`.
   */
  function DragChange(p: Panel, translation: real): (q: Panel)
    requires MaxHeight(p) >= 0.0
    ensures 0.0 <= q.frameHeight <= MaxHeight(q)
    ensures MaxHeight(q) == MaxHeight(p)
    ensures q.lastFrameHeight == p.lastFrameHeight
    ensures q.isDragging == None
    ensures 0.0 <= p.frameHeight - translation <= MaxHeight(p) ==> q.frameHeight == p.frameHeight - translation
  {
    p.(frameHeight := Between(p.frameHeight - translation, 0.0, MaxHeight(p)), isDragging := None)
  }

  /** The drag gesture's `onEnded`: only the drag flag changes, back to `false`. */
  function DragEnd(p: Panel): Panel
  {
    p.(isDragging := Some(false))
  }

  /** An open panel closes on a tap and remembers the height it had. */
  lemma TapClosesOpenPanel(p: Panel)
    requires IsUp(p)
    ensures !IsUp(Tap(p)) && Tap(p).frameHeight == 0.0
    ensures Tap(p).lastFrameHeight == p.frameHeight
    ensures Tap(p).screenHeight == p.screenHeight && Tap(p).isDragging == p.isDragging
  {
  }

  /**
   * A closed panel opens on a tap to the remembered height, which is not
   * limited to `maxHeight`, and the remembered height is kept.
   */
  lemma TapOpensClosedPanel(p: Panel)
    requires Inv(p) && !IsUp(p)
    ensures IsUp(Tap(p)) && Tap(p).frameHeight == p.lastFrameHeight
    ensures Tap(p).lastFrameHeight == p.lastFrameHeight
    ensures Tap(p).screenHeight == p.screenHeight && Tap(p).isDragging == p.isDragging
  {
  }

  /**
   * Two taps from an open panel bring it back to the height it had, which is
   * now also the height remembered for reopening.
   */
  lemma TapTwiceRestores(p: Panel)
    requires IsUp(p)
    ensures Tap(Tap(p)).frameHeight == p.frameHeight
    ensures Tap(Tap(p)) == p.(lastFrameHeight := p.frameHeight)
  {
  }

  /** Reopening ignores `maxHeight`: the panel can open taller than a drag could make it. */
  lemma TapIgnoresMaxHeight()
    ensures Inv(Initial.(screenHeight := 100.0))
    ensures Tap(Initial.(screenHeight := 100.0)).frameHeight > MaxHeight(Initial.(screenHeight := 100.0))
  {
  }

  /** `maxHeight` follows the last measured screen height. */
  lemma MaxHeightFollowsScreen(p: Panel, screenHeight: real)
    ensures MaxHeight(WithScreenHeight(p, screenHeight)) == screenHeight - 56.0
    ensures MaxHeight(Initial) == 744.0
  {
  }

  /**
   * Dragging from the default screen (a gesture's translation is negative
   * upwards): a long drag up clamps the height to 744, a long drag back down
   * clamps it to 0.
   */
  lemma DragClampsAtBothEnds()
    ensures DragChange(Initial, -1000.0).frameHeight == 744.0
    ensures DragChange(DragChange(Initial, -1000.0), 2000.0).frameHeight == 0.0
  {
  }

  /**
   * Each change subtracts the gesture's translation since the drag began from
   * the height as last changed, so within range successive changes add up:
   * changes of 10 up then 20 up raise the height by 30, not 20.
   */
  lemma DragsAccumulate(p: Panel, t1: real, t2: real)
    requires 0.0 <= p.frameHeight - t1 <= MaxHeight(p)
    requires 0.0 <= p.frameHeight - t1 - t2 <= MaxHeight(p)
    ensures DragChange(DragChange(p, t1), t2).frameHeight == p.frameHeight - t1 - t2
    ensures p.frameHeight == 0.0 && MaxHeight(p) >= 30.0 ==>
              DragChange(DragChange(p, -10.0), -20.0).frameHeight == 30.0
  {
  }

  /** The events the view forwards to the view model. */
  datatype Event = Tapped | ScreenMeasured(height: real) | DragChanged(translation: real) | DragEnded

  /** One event; `None` when the drag's range traps. */
  function Step(p: Panel, e: Event): Option<Panel>
  {
    match e
    case Tapped => Some(Tap(p))
    case ScreenMeasured(h) => Some(WithScreenHeight(p, h))
    case DragChanged(t) => if MaxHeight(p) >= 0.0 then Some(DragChange(p, t)) else None
    case DragEnded => Some(DragEnd(p))
  }

  /** A sequence of events, stopping at a trap. */
  function Run(p: Panel, events: seq<Event>): Option<Panel>
    decreases |events|
  {
    if events == [] then Some(p)
    else match Step(p, events[0])
      case None => None
      case Some(q) => Run(q, events[1..])
  }

  /** Every event keeps the invariant. */
  lemma StepKeepsInv(p: Panel, e: Event)
    requires Inv(p)
    ensures Step(p, e).Some? ==> Inv(Step(p, e).value)
  {
  }

  /**
   * Whatever the user does, the height stays non-negative and the height to
   * reopen to stays positive, so a tap on a closed panel always opens it.
   */
  lemma {:induction false} RunKeepsInv(p: Panel, events: seq<Event>)
    requires Inv(p)
    ensures Run(p, events).Some? ==> Inv(Run(p, events).value)
    decreases |events|
  {
    if events != [] {
      StepKeepsInv(p, events[0]);
      if Step(p, events[0]).Some? {
        RunKeepsInv(Step(p, events[0]).value, events[1..]);
      }
    }
  }

  /** The view model starts in a state that satisfies the invariant. */
  lemma InitialInv()
    ensures Inv(Initial) && !IsUp(Initial)
  {
  }

  /** `PullUpVM`: the mutable view model behind the panel. */
  class PullUpVM {
    var lastFrameHeight: real
    var frameHeight: real
    var screenHeight: real
    var isDragging: Option<bool>

    /** The fields as a value. */
    function State(): Panel
      reads this
    {
      Panel(frameHeight, lastFrameHeight, screenHeight, isDragging)
    }

    ghost predicate Valid()
      reads this
    {
      Inv(State())
    }

    constructor ()
      ensures State() == Initial && Valid()
    {
      lastFrameHeight := DefaultOpenHeight;
      frameHeight := 0.0;
      screenHeight := DefaultScreenHeight;
      isDragging := Some(false);
    }

    /** `tapped()`. */
    method Tapped()
      requires Valid()
      modifies this
      ensures Valid()
      ensures State() == Tap(old(State()))
    {
      if frameHeight > 0.0 {
        lastFrameHeight := frameHeight;
        frameHeight := 0.0;
      } else {
        frameHeight := lastFrameHeight;
      }
    }

    /** `setScreenHeight(to:)`. */
    method SetScreenHeight(screenHeight: real)
      requires Valid()
      modifies this
      ensures Valid()
      ensures State() == WithScreenHeight(old(State()), screenHeight)
    {
      this.screenHeight := screenHeight;
    }

    /** The drag gesture's `onChanged`, given the gesture's vertical translation. */
    method DragChanged(translation: real)
      requires Valid()
      requires MaxHeight(State()) >= 0.0
      modifies this
      ensures Valid()
      ensures State() == DragChange(old(State()), translation)
      ensures 0.0 <= frameHeight <= MaxHeight(State())
    {
      frameHeight := Between(frameHeight - translation, 0.0, MaxHeight(State()));
      isDragging := None;
    }

    /** The drag gesture's `onEnded`. */
    method DragEnded()
      requires Valid()
      modifies this
      ensures Valid()
      ensures State() == DragEnd(old(State()))
    {
      isDragging := Some(false);
    }
  }
}
