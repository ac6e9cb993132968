/**
 * The PreviewLog overlay: the console's height state, the drag gesture's
 * translation, and the rule that commits a drag when it ends. Taps come
 * through the bar, which shares the height state.
 */
module PreviewLog {
  import opened Basics
  import opened PullUpBar

  /** The tallest the console may be dragged to: the geometry's height less three bar heights. */
  function MaxHeight(geometryHeight: real): real
  {
    geometryHeight - 3.0 * PullBarHeight
  }

  /** With the bar 22 high, the console stops 66 short of the geometry's top. */
  lemma MaxHeightLeavesThreeBars(geometryHeight: real)
    ensures MaxHeight(geometryHeight) == geometryHeight - 66.0
    ensures PullBarHeight == 22.0
  {
  }

  /**
   * The `onEnded` commit: the height moves against the gesture's final
   * translation, limited above by `maxHeight` and not limited below.
   */
  function Commit(frameHeight: real, translation: real, maxHeight: real): (r: real)
    ensures r <= maxHeight
    ensures r <= frameHeight - translation
    ensures r == maxHeight || r == frameHeight - translation
  {
    Min(maxHeight, frameHeight - translation)
  }

  /** The overlay's state: the console height, the bar's remembered height and the live translation. */
  datatype Sheet = Sheet(frameHeight: real, lastFrameHeight: real, translation: real)

  /** Closed, no drag in progress, ready to open to the default height. */
  const Initial: Sheet := Sheet(0.0, DefaultOpenHeight, 0.0)

  /** The height the console is laid out at: the committed height less the live translation. */
  function IdealHeight(s: Sheet): real
  {
    s.frameHeight - s.translation
  }

  /** The gestures the overlay reacts to. */
  datatype Gesture =
    | HandleTapped
    | DragMoved(translation: real)
    | DragReleased(translation: real, geometryHeight: real)

  /**
   * One gesture. A move only records the translation; a release commits the
   * height and the gesture state falls back to zero; a tap goes to the bar.
   */
  function Step(s: Sheet, g: Gesture): Sheet
  {
    match g
    case HandleTapped =>
      var b := Tap(Bar(s.frameHeight, s.lastFrameHeight));
      s.(frameHeight := b.frameHeight, lastFrameHeight := b.lastFrameHeight)
    case DragMoved(t) => s.(translation := t)
    case DragReleased(t, g) =>
      s.(frameHeight := Commit(s.frameHeight, t, MaxHeight(g)), translation := 0.0)
  }

  /** A sequence of gestures. */
  function Run(s: Sheet, gestures: seq<Gesture>): Sheet
    decreases |gestures|
  {
    if gestures == [] then s else Run(Step(s, gestures[0]), gestures[1..])
  }

  /** During a drag only the translation changes; the committed height stays. */
  lemma DragMovesOnlyTranslation(s: Sheet, t: real)
    ensures Step(s, DragMoved(t)).frameHeight == s.frameHeight
    ensures Step(s, DragMoved(t)).lastFrameHeight == s.lastFrameHeight
    ensures IdealHeight(Step(s, DragMoved(t))) == s.frameHeight - t
  {
  }

  /**
   * Releasing where the drag last was commits the height that was on screen,
   * unless that exceeds `maxHeight`; the translation returns to zero.
   */
  lemma ReleaseCommitsShownHeight(s: Sheet, t: real, geometryHeight: real)
    ensures Step(Step(s, DragMoved(t)), DragReleased(t, geometryHeight)).frameHeight
         == Min(MaxHeight(geometryHeight), IdealHeight(Step(s, DragMoved(t))))
    ensures Step(Step(s, DragMoved(t)), DragReleased(t, geometryHeight)).translation == 0.0
  {
  }

  /**
   * There is no lower limit: a release further down than the console is tall
   * leaves a negative height, and the next tap only brings it back to zero
   * instead of reopening the console.
   */
  lemma ReleaseHasNoLowerClamp(s: Sheet, t: real, geometryHeight: real)
    requires s.frameHeight - t < 0.0 <= MaxHeight(geometryHeight)
    ensures Step(s, DragReleased(t, geometryHeight)).frameHeight == s.frameHeight - t < 0.0
    ensures Step(Step(s, DragReleased(t, geometryHeight)), HandleTapped).frameHeight == 0.0
  {
  }

  /** No gesture makes the remembered height non-positive. */
  lemma StepKeepsLastPositive(s: Sheet, g: Gesture)
    requires s.lastFrameHeight > 0.0
    ensures Step(s, g).lastFrameHeight > 0.0
  {
    if g.HandleTapped? {
      TapKeepsLastPositive(Bar(s.frameHeight, s.lastFrameHeight));
    }
  }

  /**
   * Whatever gestures arrive, the remembered height stays positive, so a tap
   * on a closed console always opens it.
   */
  lemma {:induction false} RunKeepsLastPositive(s: Sheet, gestures: seq<Gesture>)
    requires s.lastFrameHeight > 0.0
    ensures Run(s, gestures).lastFrameHeight > 0.0
    decreases |gestures|
  {
    if gestures != [] {
      StepKeepsLastPositive(s, gestures[0]);
      RunKeepsLastPositive(Step(s, gestures[0]), gestures[1..]);
    }
  }

  /** `PreviewLog`: the overlay view's state and its bar. */
  class PreviewLog {
    /** `@State private var frameHeight`. */
    const frameHeight: HeightCell
    /** `@GestureState var translation`. */
    var translation: real
    /** The bar, bound to `frameHeight`. */
    const bar: PullUpBar

    /** The whole overlay state as a value. */
    function State(): Sheet
      reads this, frameHeight, bar
    {
      Sheet(frameHeight.value, bar.lastFrameHeight, translation)
    }

    /** The bar's binding is this view's height state. */
    ghost predicate Valid()
      reads this, bar
    {
      bar.frameHeight == frameHeight && bar.lastFrameHeight > 0.0
    }

    constructor ()
      ensures Valid() && fresh(frameHeight) && fresh(bar)
      ensures State() == Initial
    {
      var cell := new HeightCell(0.0);
      frameHeight := cell;
      translation := 0.0;
      bar := new PullUpBar(cell);
    }

    /** The drag gesture's `updating`: the gesture state follows the translation. */
    method DragMoved(t: real)
      requires Valid()
      modifies this
      ensures Valid()
      ensures State() == Step(old(State()), Gesture.DragMoved(t))
    {
      translation := t;
    }

    /** The drag gesture's `onEnded`, with the geometry's height; the gesture state then resets. */
    method DragReleased(t: real, geometryHeight: real)
      requires Valid()
      modifies this, frameHeight
      ensures Valid()
      ensures State() == Step(old(State()), Gesture.DragReleased(t, geometryHeight))
      ensures frameHeight.value <= MaxHeight(geometryHeight)
    {
      frameHeight.value := Min(MaxHeight(geometryHeight), frameHeight.value - t);
      translation := 0.0;
    }

    /** A tap on the bar's handle. */
    method HandleTapped()
      requires Valid()
      modifies bar, frameHeight
      ensures Valid()
      ensures State() == Step(old(State()), Gesture.HandleTapped)
    {
      TapKeepsLastPositive(bar.State());
      bar.Tapped();
    }
  }
}
