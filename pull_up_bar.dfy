/**
 * The bar on top of the PreviewLog console: its layout constants and the
 * handle's tap, which toggles the console's height (a binding into the
 * enclosing view's state) against the height remembered for reopening.
 */
module PullUpBar {

  /** `Constants`. Only `PullBarHeight` and `DefaultOpenHeight` enter the logic. */
  const Radius: real := 16.0
  const PullBarHeight: real := 22.0
  const IndicatorHeight: real := 6.0
  const IndicatorWidthRatio: real := 0.20
  const DefaultOpenHeight: real := 200.0

  /** The two heights a tap reads and writes. */
  datatype Bar = Bar(frameHeight: real, lastFrameHeight: real)

  /**
   * The tap: first remember the height if the console is open, then set the
   * height to the remembered one if it is exactly zero, and to zero otherwise.
   */
  function Tap(b: Bar): Bar
  {
    var last := if b.frameHeight > 0.0 then b.frameHeight else b.lastFrameHeight;
    Bar(if b.frameHeight == 0.0 then last else 0.0, last)
  }

  /** An open console closes and remembers its height. */
  lemma TapFromOpen(b: Bar)
    requires b.frameHeight > 0.0
    ensures Tap(b) == Bar(0.0, b.frameHeight)
  {
  }

  /** A closed console reopens to the remembered height, which stays as it was. */
  lemma TapFromClosed(b: Bar)
    requires b.frameHeight == 0.0
    ensures Tap(b) == Bar(b.lastFrameHeight, b.lastFrameHeight)
  {
  }

  /** A negative height (left by a drag past the bottom) is reset to zero; nothing is remembered. */
  lemma TapFromNegative(b: Bar)
    requires b.frameHeight < 0.0
    ensures Tap(b) == Bar(0.0, b.lastFrameHeight)
  {
  }

  /**
   * The remembered height stays positive across taps, so a tap on a closed
   * console always opens it.
   */
  lemma TapKeepsLastPositive(b: Bar)
    requires b.lastFrameHeight > 0.0
    ensures Tap(b).lastFrameHeight > 0.0
    ensures b.frameHeight == 0.0 ==> Tap(b).frameHeight > 0.0
  {
  }

  /** Two taps from an open console restore its height. */
  lemma TapTwiceRestores(b: Bar)
    requires b.frameHeight > 0.0
    ensures Tap(Tap(b)) == Bar(b.frameHeight, b.frameHeight)
  {
  }

  /** A `CGFloat` state cell; the enclosing view owns it and the bar reaches it through a binding. */
  class HeightCell {
    var value: real

    constructor (value: real)
      ensures this.value == value
    {
      this.value := value;
    }
  }

  /** `PullUpBar`: the bar's own remembered height plus the binding to the console's height. */
  class PullUpBar {
    /** `@Binding var frameHeight`. */
    const frameHeight: HeightCell
    /** `@State private var lastFrameHeight`. */
    var lastFrameHeight: real

    constructor (frameHeight: HeightCell)
      ensures this.frameHeight == frameHeight
      ensures lastFrameHeight == DefaultOpenHeight
    {
      this.frameHeight := frameHeight;
      lastFrameHeight := DefaultOpenHeight;
    }

    /** The two heights as a value. */
    function State(): Bar
      reads this, frameHeight
    {
      Bar(frameHeight.value, lastFrameHeight)
    }

    /** The handle's `onTapGesture`: two assignments, in the source's order. */
    method Tapped()
      modifies this, frameHeight
      ensures State() == Tap(old(State()))
    {
      lastFrameHeight := if frameHeight.value > 0.0 then frameHeight.value else lastFrameHeight;
      frameHeight.value := if frameHeight.value == 0.0 then lastFrameHeight else 0.0;
    }
  }
}
