# PreviewConsole / PreviewLog in Dafny

This project models the logic behind two variants of a small SwiftUI tool. The tool shows log messages in a panel that the user pulls up over an Xcode preview.

Each variant has two sequential, stateful cores:

- **A bounded message log.** Each `log` call appends one message and then drops the single oldest one if the cap is exceeded.
  - PreviewConsole (`Console.swift`) seeds the log with 42 blank lines, caps it at 4200 and fans `print(_: Any...)` out to one `log` per argument.
  - PreviewLog (`ConsoleView.swift`) starts empty, caps the log at 200, drops empty text and publishes the identifier of the newest message for auto-scrolling.
- **A panel-height state machine.**
  - PreviewConsole's `PullUpVM` (`PreviewConsole.swift`) has tap-to-toggle, a drag update clamped to `0...maxHeight` by `Comparable.between`, and drag end.
  - PreviewLog splits the same job across two files. `PullUpBar.swift` holds the handle's tap toggle. `PreviewLog.swift` holds the drag translation and the commit on drag end, which clamps only from above.

Layout of the modules:

- `MessageLog` (`message_log.dfy`) defines the `Message` record shared by both variants. It also holds the specification of the capped log and the lemmas about it:
  - the survivors are the newest `min(cap, total)` messages, in insertion order;
  - identifiers are consecutive, increasing and unique.
- `Console` (`console.dfy`) and `ConsoleView` (`console_view.dfy`) model the two `ConsoleVM` classes. Each is a Dafny class with a `seq<Message>` field. Each method is proved against the functions of `MessageLog`.
- `PullUp` (`pull_up.dfy`) models `PullUpVM` in two forms:
  - a value `Panel` with one pure transition function per operation, plus lemmas about them;
  - a class whose methods are proved to perform those transitions.
- `PullUpBar` (`pull_up_bar.dfy`) and `PreviewLog` (`preview_log.dfy`) model the PreviewLog panel the same way.
  - The `@State` height owned by `PreviewLog` is a heap cell, `HeightCell`. The bar's `@Binding` refers to that same cell.
  - `PreviewLog.Valid` states that the bar and the view share the cell.

Abstractions used throughout:

- `UUID().uuidString` becomes a natural number drawn from a per-store counter.
- `Date()` becomes a `now` parameter.
- `CGFloat` heights are exact `real`s.
- A Swift runtime trap (the `fatalError` in `ConsoleVM.init`, or building a `ClosedRange` whose lower bound exceeds its upper bound) becomes a `requires` clause.

Behaviour of the code that its own comments do not suggest, and which the model keeps:

- **PreviewConsole logs empty text.** The guard in `ConsoleVM.log` carries the comment "abort silently if expression is empty", but it tests `text.count.words.isEmpty`. An `Int` is always one machine word, so the guard never fires and empty strings are logged. `Console.ConsoleVM.Log` keeps the guard in its body, and `Console.LogGuardNeverFires` records the one-word fact it relies on. PreviewLog's guard, `text.count > 0`, does drop empty text.
- **Building the clamp range can trap.** The drag update builds `0...maxHeight`, which traps when `maxHeight < 0`. `PullUp.Between` and `PullUp.DragChange` therefore require a non-empty range.
- **Heights do not always stay within `0...maxHeight`.** The comments on `maxHeight` and on the drag update speak of keeping the panel on screen, and a drag update does clamp. A tap, however, reopens a PreviewConsole panel to the remembered height without clamping it to `maxHeight` (`PullUp.TapIgnoresMaxHeight`). A PreviewLog drag end has no lower clamp, so it can leave a negative height (`PreviewLog.ReleaseHasNoLowerClamp`).
- **Drags accumulate.** At every change, PreviewConsole subtracts the gesture's translation since the drag began from the height as last changed, so successive changes add up (`PullUp.DragsAccumulate`).
- **Sign of a translation.** A gesture's vertical translation is negative when the finger moves up, so subtracting it raises the panel.

## Model

| member | source | states |
|---|---|---|
| `PullUp.Between` | Sources/PreviewConsole/PreviewConsole.swift:225-227 | The result lies in `[lo, hi]`. It is `x` itself when `x` is in range, `lo` below the range and `hi` above it. It requires `lo <= hi`, because the range cannot be built otherwise. |
| `PullUp.BetweenIsNearest` | Sources/PreviewConsole/PreviewConsole.swift:225-227 | The clamped value is the point of `[lo, hi]` nearest to `x`. |
| `PullUp.BetweenIdempotent` | Sources/PreviewConsole/PreviewConsole.swift:225-227 | Clamping twice gives the same value as clamping once. |
| `PullUp.DragChange` | Sources/PreviewConsole/PreviewConsole.swift:136-142 | After any drag change, `0 <= frameHeight <= maxHeight`, whatever the translation. The height is unclamped when already in range. `isDragging` becomes `nil`. `lastFrameHeight` and `maxHeight` are untouched. It requires `maxHeight >= 0`, because the range traps otherwise. |
| `PullUp.TapClosesOpenPanel` | Sources/PreviewConsole/PreviewConsole.swift:115-118 | A tap on an open panel sets the height to 0 and remembers the old height. Screen height and drag flag are unchanged. |
| `PullUp.TapOpensClosedPanel` | Sources/PreviewConsole/PreviewConsole.swift:119 | A tap on a closed panel opens it to the remembered height and keeps that height remembered. |
| `PullUp.TapTwiceRestores` | Sources/PreviewConsole/PreviewConsole.swift:115-120 | Two taps from open height `h` return to `h`. Only the remembered height changes, and it becomes `h`. |
| `PullUp.TapIgnoresMaxHeight` | Sources/PreviewConsole/PreviewConsole.swift:119 | With a 100-point screen, a tap from the initial state opens the panel above `maxHeight`, because reopening is not clamped. |
| `PullUp.MaxHeightFollowsScreen` | Sources/PreviewConsole/PreviewConsole.swift:102-103 | `maxHeight` is the last measured screen height less 56. It is 744 on the default 800-point screen. |
| `PullUp.DragClampsAtBothEnds` | Sources/PreviewConsole/PreviewConsole.swift:139 | From the initial state, a long drag up (translation -1000) clamps the height to 744. A long drag back down (translation +2000) clamps it to 0. |
| `PullUp.DragsAccumulate` | Sources/PreviewConsole/PreviewConsole.swift:136-141 | Within range, two successive changes move the height by the sum of both translations. For example, changes of 10 up and then 20 up from a closed panel leave it at 30, not 20. |
| `PullUp.StepKeepsInv` | Sources/PreviewConsole/PreviewConsole.swift:115-145 | Every event that does not trap keeps `frameHeight >= 0` and `lastFrameHeight > 0`. |
| `PullUp.RunKeepsInv` | Sources/PreviewConsole/PreviewConsole.swift:100-145 | Along any sequence of taps, screen measurements and drags, the height stays non-negative and the remembered height stays positive. |
| `PullUp.InitialInv` | Sources/PreviewConsole/PreviewConsole.swift:100-106 | The initial view model is closed (`isUp` is false) and satisfies the invariant. |
| `PullUp.PullUpVM.constructor` | Sources/PreviewConsole/PreviewConsole.swift:98-133 | The fields start at height 0, remembered height 142, screen height 800 and drag flag `false`. |
| `PullUp.PullUpVM.Tapped` | Sources/PreviewConsole/PreviewConsole.swift:115-120 | The new fields are the tap transition of the old ones. The invariant is kept. |
| `PullUp.PullUpVM.SetScreenHeight` | Sources/PreviewConsole/PreviewConsole.swift:125-127 | Only the screen height changes, to the given value. |
| `PullUp.PullUpVM.DragChanged` | Sources/PreviewConsole/PreviewConsole.swift:136-142 | The new fields are the drag-change transition of the old ones, so the height lies in `0...maxHeight` afterwards. |
| `PullUp.PullUpVM.DragEnded` | Sources/PreviewConsole/PreviewConsole.swift:143-145 | Only the drag flag changes, back to `false`. |
| `MessageLog.AppendCappedShape` | Sources/PreviewConsole/Console.swift:83-88 | One `log` step keeps the count within the cap. Below the cap it appends only. At the cap it removes exactly the first element and keeps the rest in order. The new message is always last. |
| `MessageLog.AppendCappedKeepsNewest` | Sources/PreviewConsole/Console.swift:83-88 | Appending to the newest `cap` elements of a history gives the newest `cap` elements of the longer history. |
| `MessageLog.AppendAllKeepsNewest` | Sources/PreviewConsole/Console.swift:83-88 | After any sequence of `log` steps, the survivors are exactly the newest `min(cap, total)` elements of everything appended, in insertion order. |
| `MessageLog.AppendAllSnoc` | Sources/PreviewConsole/Console.swift:20-24 | Logging a batch and then one more message is one more capped step after the batch. |
| `MessageLog.AppendCappedConsecutive` | Sources/PreviewConsole/Console.swift:191-196 | A capped step that appends a freshly drawn identifier keeps the log's identifiers consecutive. |
| `MessageLog.ConsecutiveIdsIncreasing` | Sources/PreviewConsole/Console.swift:191-196 | Consecutive identifiers increase along the log. They are therefore distinct, and all are below the counter. |
| `Console.LogGuardNeverFires` | Sources/PreviewConsole/Console.swift:77 | This records the modelling fact that `Log` relies on: an `Int`'s word representation is one machine word, so the sequence the guard tests is never empty. |
| `Console.StampedSnoc` | Sources/PreviewConsole/Console.swift:20-24 | Stamping one more argument adds one debug message with the next identifier. |
| `Console.ScrollTarget` | Sources/PreviewConsole/Console.swift:134-139 | There is a target exactly when there are at least two messages. The target is the identifier of a message other than the last, at an index within bounds. |
| `Console.ScrollTargetIsLastButOne` | Sources/PreviewConsole/Console.swift:129-139 | With increasing identifiers, exactly one message (the last) is newer than the target. |
| `Console.ConsoleVM.constructor` | Sources/PreviewConsole/Console.swift:91-100 | It requires fewer blank lines than the cap (the fatal guard). The log then holds exactly that many blank debug messages with identifiers `0, 1, …`. |
| `Console.ConsoleVM.Log` | Sources/PreviewConsole/Console.swift:76-89 | The body keeps the guard on the words of the text's count, which never fires. So for every text, including the empty one, the log becomes one capped step with a new message carrying the given text and type and a fresh identifier. The cap and the consecutive identifiers are kept. |
| `Console.ConsoleVM.Print` | Sources/PreviewConsole/Console.swift:20-24 | The log becomes the capped fold of one debug message per argument, in argument order, with identifiers drawn in order. |
| `Console.Shared` | Sources/PreviewConsole/Console.swift:58-100 | The shared store is built from the defaults 42 and 4200. It passes the guard and holds 42 blank debug messages. |
| `Console.SharedLogKeepsNewest` | Sources/PreviewConsole/Console.swift:83-99 | After the shared store logs any batch, the survivors are the newest `min(4200, 42 + n)` of the padding followed by the batch, in order. |
| `ConsoleView.ConsoleVM.constructor` | Sources/PreviewLog/ConsoleView.swift:23-27 | The log starts empty, with cap 200 and no published identifier. |
| `ConsoleView.ConsoleVM.Log` | Sources/PreviewLog/ConsoleView.swift:34-45 | Empty text changes nothing. Other text (whitespace included) is one capped step with a fresh identifier, and that identifier is published. The published identifier is that of the last message. |
| `ConsoleView.ConsoleVM.LogInView` | Sources/PreviewLog/ConsoleView.swift:29-32 | This is `log` with the debug type, and it returns `EmptyView`. |
| `ConsoleView.PublishedIdNamesNewest` | Sources/PreviewLog/ConsoleView.swift:39-44 | The newly logged message survives eviction. It is the only message in the log with its identifier, so the scroll target is unambiguous. |
| `PullUpBar.TapFromOpen` | Sources/PreviewLog/PullUpBar.swift:42-45 | With a positive height, a tap remembers that height and closes the console. |
| `PullUpBar.TapFromClosed` | Sources/PreviewLog/PullUpBar.swift:42-45 | With height exactly 0, a tap opens to the remembered height and keeps it. |
| `PullUpBar.TapFromNegative` | Sources/PreviewLog/PullUpBar.swift:42-45 | With a negative height, a tap resets the height to 0 and remembers nothing. |
| `PullUpBar.TapKeepsLastPositive` | Sources/PreviewLog/PullUpBar.swift:42-45 | A tap keeps the remembered height positive. From closed, a tap always opens. |
| `PullUpBar.TapTwiceRestores` | Sources/PreviewLog/PullUpBar.swift:42-45 | Two taps from open height `h` restore `h`, now also remembered. |
| `PullUpBar.PullUpBar.constructor` | Sources/PreviewLog/PullUpBar.swift:17-19 | The bar is bound to the given height cell and remembers 200. |
| `PullUpBar.PullUpBar.Tapped` | Sources/PreviewLog/PullUpBar.swift:42-45 | It performs the two assignments in order. The bound height and the remembered height become the tap transition of the old ones. |
| `PreviewLog.MaxHeightLeavesThreeBars` | Sources/PreviewLog/PreviewLog.swift:37 | `maxHeight` is the geometry height less 66, which is three bars of 22. |
| `PreviewLog.Commit` | Sources/PreviewLog/PreviewLog.swift:53 | The committed height is at most `maxHeight` and at most the dragged height, and it is one of the two. |
| `PreviewLog.DragMovesOnlyTranslation` | Sources/PreviewLog/PreviewLog.swift:44-51 | During a drag only the translation changes. The displayed height is `frameHeight - translation`. |
| `PreviewLog.ReleaseCommitsShownHeight` | Sources/PreviewLog/PreviewLog.swift:50-53 | Releasing where the drag last was commits the shown height, limited by `maxHeight`. The translation returns to 0. |
| `PreviewLog.ReleaseHasNoLowerClamp` | Sources/PreviewLog/PreviewLog.swift:53 | A release further down than the console is tall leaves a negative height. The next tap only brings it back to 0. |
| `PreviewLog.StepKeepsLastPositive` | Sources/PreviewLog/PreviewLog.swift:40-54 | No gesture makes the remembered height non-positive. |
| `PreviewLog.RunKeepsLastPositive` | Sources/PreviewLog/PreviewLog.swift:32-54 | Along any sequence of taps and drags, the remembered height stays positive. |
| `PreviewLog.PreviewLog.constructor` | Sources/PreviewLog/PreviewLog.swift:32-40 | The console starts closed at height 0, with translation 0, and its bar is bound to the view's height. |
| `PreviewLog.PreviewLog.DragMoved` | Sources/PreviewLog/PreviewLog.swift:50-52 | Only the translation changes, to the gesture's translation. |
| `PreviewLog.PreviewLog.DragReleased` | Sources/PreviewLog/PreviewLog.swift:52-54 | The height becomes the commit against `maxHeight`, so it is at most `maxHeight`. The gesture translation resets to 0. |
| `PreviewLog.PreviewLog.HandleTapped` | Sources/PreviewLog/PullUpBar.swift:42-45 | The tap acts through the bar on the view's own height, and the remembered height stays positive. |

## Left out

- SwiftUI view bodies, layout and styling are not modelled, because they are presentation only. This covers `PullUp`, the bar views, `Console.body`, `ConsoleRow`, `MessageView`, `ReversedScrollView` and the `MessageType` colours.
- `HandleShape.path` is not modelled, because it is floating-point drawing code.
- The arrow animation is not modelled. This covers the timer, the `arrowFraction` Combine pipeline and `unreadMessages`, which is never set anywhere. It is animation and reactive plumbing.
- The `Task { await … }` hop onto the main actor in `log`/`Log` is not modelled. `log` is a synchronous method, so the relative order of messages logged from concurrent tasks is not captured.
- `Swift.print` to standard output and the date formatting are not modelled, because they are I/O and locale formatting.
- `UUID` generation is replaced by a counter, and `Date()` by an integer `now` parameter. The model assumes identifiers are unique, which random UUIDs only make overwhelmingly likely.
- String interpolation of `Any` is not modelled: the resulting string is the input. The other `print` overloads reduce to a single `log` and are covered by `Console.ConsoleVM.Log`.
- The `#else` release stubs are not modelled, because they do nothing.
- `Sources/PreviewConsole/Example.swift` is not part of this model.
- `CGFloat` rounding is not modelled: heights are exact reals.
- The view's reset of `newMessageId` to `nil` after scrolling is not modelled, because it is view code. `ConsoleView.ConsoleVM.Valid` allows either value.
- Cancelling a drag gesture without `onEnded` is not modelled. SwiftUI resets the `@GestureState` translation without committing a height. The model resets it only on release.
- `PullUp.Step` and `PullUp.Run` treat a trapping drag as the end of the run, returning `None`. What happens after a crash is not modelled.
