# LCARS watch face: a Dafny model of its engine

The LCARS watch face is an Android Wear face. Its engine (`MyWatchFace.Engine`)
does three things this project models:

* It **formats the clock**. `dateTimeNumber` pads non-negative numbers below 10 with a leading `'0'`.
  The face shows the time as `HH.MM` and the date as `YYYY.MM.DD`; the calendar's month is
  zero-based, so the date shows `MONTH + 1`.
* It **draws a frame**. `onDraw` fills the background, then `drawWatchFace` draws:
  * one upper left panel (3 shapes);
  * four horizontal bands (5 rectangles each);
  * one lower left panel (6 shapes);
  * the time text and the date text.

  All 29 shapes go through one shared, mutable square paint. In active mode each drawing
  helper recolours the paint before every shape. In ambient mode the helpers skip those
  assignments, so every shape keeps the white, non-anti-aliased style that
  `updateWatchHandStyle` gave the paint.
* It **reacts to lifecycle callbacks**. The callbacks are visibility, ambient mode, the
  interruption filter, taps, minute ticks, time-zone broadcasts, the update handler's
  `MSG_UPDATE_TIME` and destruction. The engine keeps a guard flag for the time-zone
  receiver and keeps the handler's queue of tick messages. It re-arms the tick for the
  next second boundary while it is visible and not ambient.

The project has five modules:

* `Format` (`format.dfy`) holds the pure string functions: Int.toString, padStart,
  `dateTimeNumber`, and the time and date texts. Their lemmas cover lengths, separator
  positions, reading the numbers back, and the examples `"14.05"` and `"2024.03.07"`.
* `Graphics` (`graphics.dfy`) holds the colours, the `Paint` class (the mutable colour and
  anti-alias flag), and a `Canvas` class that records each draw call as a `Primitive`
  instead of rasterising it.
* `Layout` (`layout.dfy`) is the specification of a frame as a value:
  * the shapes each helper lays out from the surface size;
  * the style the paint holds at each shape;
  * the whole ordered list `Frame(width, height, ambient, clock)`.

  Its lemmas state the geometry, the 29 colours, the ambient recolouring and the two texts.
* `Lifecycle` (`lifecycle.dfy`) is the specification of the callbacks as a state machine.
  It has `State`, `Event`, `Next` and `Run`, an invariant `Inv` that every run preserves,
  and lemmas about the tick queue, the receiver and the interruption filter.
* `WatchFace` (`engine.dfy`) holds the `Engine` class:
  * its fields are the Kotlin engine's fields: `mAmbient`, `mMuteMode`,
    `mRegisteredTimeZoneReceiver`, `mWidth`, `mHeight` and `mSquarePaint`, plus the
    visibility flag, the calendar's zone, the handler's queue and counters of the host
    calls;
  * each callback is an imperative method. It is proved to change the engine's state as
    `Lifecycle.Next` says, and to keep `Lifecycle.Inv` and the paint/mode agreement;
  * the drawing helpers recolour `squarePaint` step by step, exactly as the Kotlin code does;
  * `OnDraw` is proved to record exactly `Layout.Frame`.

Three details of the code are easy to miss, and the model keeps them:

* `onAmbientModeChanged` does not call `invalidate()`. Only the timer update follows the
  mode change.
* The text paints stay yellow in ambient mode.
* `onDestroy` only removes the pending tick. It does not unregister the time-zone
  receiver.

Drawing the face is split into two methods:

* `WatchFace.Engine.DrawWatchFace` formats the clock sample's time and date, exactly as
  the string templates of `drawWatchFace` do.
* `WatchFace.Engine.DrawFace` draws the panels, the bands and the two given strings.

Together they do what `drawWatchFace` does. The split keeps the string formatting and the
shape list in separate proofs.

## Model

| member | source | states |
|---|---|---|
| Format.NatToDecimalCanonical | app/src/main/java/com/jaeder42/lcars/MyWatchFace.kt:312-314 | Int.toString of a non-negative number is a non-empty digit string with no leading zero, one character long exactly when the number is below 10 |
| Format.ValueOfDecimal | app/src/main/java/com/jaeder42/lcars/MyWatchFace.kt:312-314 | Int.toString of a non-negative number reads back as that number |
| Format.DecimalOfValue | app/src/main/java/com/jaeder42/lcars/MyWatchFace.kt:314 | the converse: every canonical digit string is what Int.toString prints for its value |
| Format.IntToStringDigits | app/src/main/java/com/jaeder42/lcars/MyWatchFace.kt:312-314 | Int.toString of any Int: canonical digits reading back as the number, behind a '-' when negative |
| Format.PadStartShape | app/src/main/java/com/jaeder42/lcars/MyWatchFace.kt:312 | padStart reaches the requested length, or keeps a longer string; the original is the suffix and the front is all pad characters |
| Format.DateTimeNumberDigits | app/src/main/java/com/jaeder42/lcars/MyWatchFace.kt:310-315 | 0..9 gives '0' followed by the digit; from 10 on the plain decimal form; every non-negative input reads back as itself; 0..99 gives exactly two characters; negative inputs print unpadded with their sign |
| Format.TwoDigitField | app/src/main/java/com/jaeder42/lcars/MyWatchFace.kt:310-315 | a field below 100 is written as exactly two digits that read back as the field |
| Format.YearField | app/src/main/java/com/jaeder42/lcars/MyWatchFace.kt:310-315 | a year is written with at least two digits that read back as the year; from year 10 on it is never padded |
| Format.TimeTextReadsBack | app/src/main/java/com/jaeder42/lcars/MyWatchFace.kt:333 | for two-digit hour and minute the time text has length 5 and '.' at index 2, and its halves read back as hour and minute |
| Format.TimeTextExample | app/src/main/java/com/jaeder42/lcars/MyWatchFace.kt:333 | 14:05 renders as "14.05" |
| Format.DateTextReadsBack | app/src/main/java/com/jaeder42/lcars/MyWatchFace.kt:336 | the date text ends in ".MM.DD"; its three parts read back as the year, the one-based month and the day; from year 10 on the year part is the year's plain decimal form |
| Format.DateTextExample | app/src/main/java/com/jaeder42/lcars/MyWatchFace.kt:336 | zero-based month 2, day 7 of 2024 renders as "2024.03.07" |
| Format.NatToDecimal | app/src/main/java/com/jaeder42/lcars/MyWatchFace.kt:312-314 | Int.toString of a non-negative number: the decimal digits, most significant first (properties in NatToDecimalCanonical, ValueOfDecimal, DecimalOfValue) |
| Format.IntToString | app/src/main/java/com/jaeder42/lcars/MyWatchFace.kt:312-314 | Kotlin's Int.toString: a '-' in front of the magnitude's digits for negative numbers (properties in IntToStringDigits) |
| Format.PadStart | app/src/main/java/com/jaeder42/lcars/MyWatchFace.kt:312 | Kotlin's String.padStart: pad on the left up to the length, longer strings unchanged (properties in PadStartShape) |
| Format.DateTimeNumber | app/src/main/java/com/jaeder42/lcars/MyWatchFace.kt:310-315 | dateTimeNumber: below 10 the padded toString, otherwise the plain toString (properties in DateTimeNumberDigits) |
| Format.TimeText | app/src/main/java/com/jaeder42/lcars/MyWatchFace.kt:333 | the time template: dateTimeNumber of hour of day and of minute joined by '.' (properties in TimeTextReadsBack) |
| Format.DateText | app/src/main/java/com/jaeder42/lcars/MyWatchFace.kt:336 | the date template: dateTimeNumber of the year, of the zero-based month plus one, and of the day, joined by '.' (properties in DateTextReadsBack) |
| Graphics.Argb | app/src/main/java/com/jaeder42/lcars/MyWatchFace.kt:67-70 | every colour of the face is a fully opaque 32-bit ARGB value |
| Layout.LeftTopShapes | app/src/main/java/com/jaeder42/lcars/MyWatchFace.kt:237-256 | drawLeftTop's three shapes with the coordinates of the source (properties in LeftTopGeometry) |
| Layout.LeftBottomShapes | app/src/main/java/com/jaeder42/lcars/MyWatchFace.kt:258-283 | drawLeftBottom's six shapes with the coordinates of the source (properties in LeftBottomGeometry) |
| Layout.HorizontalShapes | app/src/main/java/com/jaeder42/lcars/MyWatchFace.kt:286-308 | drawHorizontal's five rectangles with the coordinates of the source (properties in HorizontalGeometry) |
| Layout.LeftTop | app/src/main/java/com/jaeder42/lcars/MyWatchFace.kt:237-256 | drawLeftTop's painted run: its three shapes in red, purple, red under the ambient rule (stated in LeftTopListed; WatchFace.Engine.DrawLeftTop is proved to append it) |
| Layout.LeftBottom | app/src/main/java/com/jaeder42/lcars/MyWatchFace.kt:258-283 | drawLeftBottom's painted run: its six shapes in red, orange ×4, red (stated in LeftBottomListed; WatchFace.Engine.DrawLeftBottom is proved to append it) |
| Layout.Horizontal | app/src/main/java/com/jaeder42/lcars/MyWatchFace.kt:286-308 | drawHorizontal's painted run: its five rectangles in red, purple, orange, red, purple (stated in HorizontalListed; WatchFace.Engine.DrawHorizontal is proved to append it) |
| Layout.TimeTextAt | app/src/main/java/com/jaeder42/lcars/MyWatchFace.kt:333 | the time drawText: at (width / 2 + 40, height / 1.5 + 20) in the time paint, yellow, size 70, centred, anti-aliased (MyWatchFace.kt:117-125); stated in FrameTimeText |
| Layout.DateTextAt | app/src/main/java/com/jaeder42/lcars/MyWatchFace.kt:336 | the date drawText: at (50, height / 3 - 35) in the date paint, yellow, size 40, left-aligned, anti-aliased (MyWatchFace.kt:126-134); stated in FrameDateText |
| Layout.FrameShapes | app/src/main/java/com/jaeder42/lcars/MyWatchFace.kt:322-330 | the 29 shapes of the six helper calls in drawing order (stated in FacePainted and FrameLayout) |
| Layout.FrameColors | app/src/main/java/com/jaeder42/lcars/MyWatchFace.kt:322-330 | the active colour of each of the 29 shapes in drawing order (written out in FrameColorsListed) |
| Layout.Face | app/src/main/java/com/jaeder42/lcars/MyWatchFace.kt:317-338 | what drawWatchFace draws: the six helper runs in source order, then the time and date texts (properties in FacePainted, FaceAssembled) |
| Layout.Frame | app/src/main/java/com/jaeder42/lcars/MyWatchFace.kt:224-338 | what one onDraw draws: the black background, then the face with the texts of one clock sample (properties in FrameLayout and the lemmas after it) |
| Layout.ShapeStyle | app/src/main/java/com/jaeder42/lcars/MyWatchFace.kt:242-244 | definition: the closed form of the square paint's style at a shape, its assigned colour anti-aliased in active mode and white without anti-aliasing in ambient mode; the drawing helpers are proved to produce it, and ActiveColorsInOrder and AmbientAllWhite state the promises about it |
| Layout.Painted | app/src/main/java/com/jaeder42/lcars/MyWatchFace.kt:286-308 | one primitive per shape |
| Layout.LeftTopGeometry | app/src/main/java/com/jaeder42/lcars/MyWatchFace.kt:237-256 | arc, bar, arc on the left edge; angles and sweeps; the bar a gap below the upper arc's end and (at start 0) a gap above the lower arc's start; the lower arc ends at a third of the height |
| Layout.LeftBottomGeometry | app/src/main/java/com/jaeder42/lcars/MyWatchFace.kt:258-283 | two arcs around four rectangles stacked with 5-unit gaps in the big/small/big/small pattern, 100 units together and centred in the lower two thirds; the closing arc ends 10 above the bottom |
| Layout.HorizontalGeometry | app/src/main/java/com/jaeder42/lcars/MyWatchFace.kt:286-308 | five 10-unit-high rectangles at start, from x = 40 with 5-unit gaps, the last reaching the surface width |
| Layout.LeftTopListed | app/src/main/java/com/jaeder42/lcars/MyWatchFace.kt:237-256 | the upper left panel is its three shapes in red, purple, red (each under the ambient rule) |
| Layout.LeftBottomListed | app/src/main/java/com/jaeder42/lcars/MyWatchFace.kt:258-283 | the lower left panel is its six shapes in red, orange ×4, red |
| Layout.HorizontalListed | app/src/main/java/com/jaeder42/lcars/MyWatchFace.kt:286-308 | a band is its five rectangles in red, purple, orange, red, purple |
| Layout.FrameColorsListed | app/src/main/java/com/jaeder42/lcars/MyWatchFace.kt:322-330 | the 29 active colours in drawing order |
| Layout.FacePainted | app/src/main/java/com/jaeder42/lcars/MyWatchFace.kt:317-338 | the face is the 29 frame shapes painted in the frame colours, then the two texts |
| Layout.FaceAssembled | app/src/main/java/com/jaeder42/lcars/MyWatchFace.kt:322-336 | the six helpers' runs appended in source order, then the two texts, make up the face |
| Layout.FrameAssembled | app/src/main/java/com/jaeder42/lcars/MyWatchFace.kt:228-229 | the background followed by the face is the frame |
| Layout.FrameLayout | app/src/main/java/com/jaeder42/lcars/MyWatchFace.kt:224-338 | a frame has 32 primitives: the black fill, 29 shapes each with its own geometry and colour style, then the time text and the date text |
| Layout.ActiveColorsInOrder | app/src/main/java/com/jaeder42/lcars/MyWatchFace.kt:237-308 | in active mode the 29 shapes carry the listed colours, all anti-aliased |
| Layout.AmbientAllWhite | app/src/main/java/com/jaeder42/lcars/MyWatchFace.kt:167-179 | in ambient mode all 29 shapes are white with anti-aliasing off |
| Layout.AmbientIsActiveRecoloured | app/src/main/java/com/jaeder42/lcars/MyWatchFace.kt:167-179 | the ambient frame is the active frame with every shape recoloured white and un-anti-aliased; geometry, background and texts are the same |
| Layout.FrameTimeText | app/src/main/java/com/jaeder42/lcars/MyWatchFace.kt:333 | the frame's 31st primitive is the time text of the sample in the time paint, five characters that read back as hour and minute |
| Layout.FrameDateText | app/src/main/java/com/jaeder42/lcars/MyWatchFace.kt:336 | the frame's last primitive is the date text of the same sample in the date paint, reading back as year, one-based month and day |
| Lifecycle.Init | app/src/main/java/com/jaeder42/lcars/MyWatchFace.kt:87-136 | the engine after onCreate: not visible, not ambient, not muted, receiver not registered, nothing pending, no effects yet |
| Lifecycle.Next | app/src/main/java/com/jaeder42/lcars/MyWatchFace.kt:138-401 | one callback: onVisibilityChanged, onAmbientModeChanged, onInterruptionFilterChanged, onTapCommand, onTimeTick, the receiver's onReceive, delivery of the first pending MSG_UPDATE_TIME, onDestroy, each as the source does it |
| Lifecycle.Inv | app/src/main/java/com/jaeder42/lcars/MyWatchFace.kt:356-389 | the invariant: at most one pending tick, a pending tick only while the timer should run, registrations = unregistrations + the guard flag (proved in InitInv, NextInv, RunInv) |
| Lifecycle.ShouldTimerBeRunning | app/src/main/java/com/jaeder42/lcars/MyWatchFace.kt:387-389 | shouldTimerBeRunning: visible and not ambient (used by UpdateTimer, HandleUpdateTimeMessage and Inv; TimerFollowsMode and RunArmed state that the pending tick follows it) |
| Lifecycle.RateRemainder | app/src/main/java/com/jaeder42/lcars/MyWatchFace.kt:398 | Long `%` truncates: the remainder has the dividend's sign, is below 1000 in magnitude, and the dividend minus it is a multiple of 1000 |
| Lifecycle.NextTickDelay | app/src/main/java/com/jaeder42/lcars/MyWatchFace.kt:398 | t + delay is always a multiple of 1000; for t ≥ 0 the delay lies in [1, 1000], before the epoch in [1000, 1999] |
| Lifecycle.Invalidate | app/src/main/java/com/jaeder42/lcars/MyWatchFace.kt:153 | one invalidation more, nothing else changed |
| Lifecycle.RegisterReceiver | app/src/main/java/com/jaeder42/lcars/MyWatchFace.kt:356-363 | registers only when the flag is clear; the flag ends set; nothing else changes |
| Lifecycle.UnregisterReceiver | app/src/main/java/com/jaeder42/lcars/MyWatchFace.kt:365-371 | unregisters only when the flag is set; the flag ends clear; nothing else changes |
| Lifecycle.UpdateTimer | app/src/main/java/com/jaeder42/lcars/MyWatchFace.kt:376-381 | afterwards exactly one undelayed tick is pending exactly when the timer should run, and none otherwise |
| Lifecycle.HandleUpdateTimeMessage | app/src/main/java/com/jaeder42/lcars/MyWatchFace.kt:394-401 | always invalidates; appends the next-second delay only when the timer should run |
| Lifecycle.InitInv | app/src/main/java/com/jaeder42/lcars/MyWatchFace.kt:87-98 | the created engine satisfies the invariant with nothing pending |
| Lifecycle.NextInv | app/src/main/java/com/jaeder42/lcars/MyWatchFace.kt:138-401 | every callback keeps: at most one pending tick, a pending tick only while the timer should run, registrations = unregistrations + flag |
| Lifecycle.RunInv | app/src/main/java/com/jaeder42/lcars/MyWatchFace.kt:356-389 | the invariant holds over any sequence of callbacks |
| Lifecycle.TimerFollowsMode | app/src/main/java/com/jaeder42/lcars/MyWatchFace.kt:376-389 | after a visibility or ambient change a tick is pending iff visible and not ambient, and at most one is pending |
| Lifecycle.NextArmed | app/src/main/java/com/jaeder42/lcars/MyWatchFace.kt:376-401 | every callback but onDestroy keeps "pending iff visible and not ambient" |
| Lifecycle.RunArmed | app/src/main/java/com/jaeder42/lcars/MyWatchFace.kt:376-401 | until destruction, a tick is pending exactly while visible and not ambient |
| Lifecycle.AmbientStaysCancelled | app/src/main/java/com/jaeder42/lcars/MyWatchFace.kt:156-165 | once ambient with nothing pending, no tick is pending until ambient mode is left |
| Lifecycle.EnterAmbientCancels | app/src/main/java/com/jaeder42/lcars/MyWatchFace.kt:156-165 | entering ambient mode cancels the tick and does not invalidate |
| Lifecycle.ReceiverIdempotent | app/src/main/java/com/jaeder42/lcars/MyWatchFace.kt:356-371 | a second registerReceiver, or a second unregisterReceiver, changes nothing |
| Lifecycle.VisibleTwiceRegistersOnce | app/src/main/java/com/jaeder42/lcars/MyWatchFace.kt:340-363 | becoming visible registers once if not yet registered; becoming visible again registers no more |
| Lifecycle.FilterChangesOnlyOnDifference | app/src/main/java/com/jaeder42/lcars/MyWatchFace.kt:181-190 | mute mode follows the filter; the state changes (and is invalidated) iff the mute value differs; repeating the filter is a no-op |
| Lifecycle.TickDelivery | app/src/main/java/com/jaeder42/lcars/MyWatchFace.kt:394-401 | a tick is only pending while the timer should run, so its delivery always invalidates and re-arms exactly one tick, aligned to the second, with a delay in [1, 1000] for t ≥ 0 |
| Lifecycle.DestroyCancels | app/src/main/java/com/jaeder42/lcars/MyWatchFace.kt:138-141 | onDestroy leaves no tick pending and leaves the receiver flag as it was |
| WatchFace.Engine.constructor | app/src/main/java/com/jaeder42/lcars/MyWatchFace.kt:87-136 | the engine starts in Lifecycle.Init, valid, with the square paint purple and anti-aliased |
| WatchFace.Engine.Invalidate | app/src/main/java/com/jaeder42/lcars/MyWatchFace.kt:153 | the state becomes Lifecycle.Invalidate of the old one |
| WatchFace.Engine.OnDestroy | app/src/main/java/com/jaeder42/lcars/MyWatchFace.kt:138-141 | moves the engine by Lifecycle.Next on Destroy, keeping it valid |
| WatchFace.Engine.OnTimeTick | app/src/main/java/com/jaeder42/lcars/MyWatchFace.kt:151-154 | moves the engine by Lifecycle.Next on TimeTick |
| WatchFace.Engine.OnTimeZoneChanged | app/src/main/java/com/jaeder42/lcars/MyWatchFace.kt:80-85 | moves the engine by Lifecycle.Next on the receiver's broadcast |
| WatchFace.Engine.OnAmbientModeChanged | app/src/main/java/com/jaeder42/lcars/MyWatchFace.kt:156-165 | moves the engine by Lifecycle.Next on the mode change and restyles the square paint for the mode |
| WatchFace.Engine.UpdateWatchHandStyle | app/src/main/java/com/jaeder42/lcars/MyWatchFace.kt:167-179 | the square paint becomes white and un-anti-aliased in ambient mode, purple and anti-aliased otherwise |
| WatchFace.Engine.OnInterruptionFilterChanged | app/src/main/java/com/jaeder42/lcars/MyWatchFace.kt:181-190 | moves the engine by Lifecycle.Next on the filter |
| WatchFace.Engine.OnSurfaceChanged | app/src/main/java/com/jaeder42/lcars/MyWatchFace.kt:192-200 | records the surface size and leaves the lifecycle state unchanged |
| WatchFace.Engine.OnTapCommand | app/src/main/java/com/jaeder42/lcars/MyWatchFace.kt:207-221 | moves the engine by Lifecycle.Next on a tap: one invalidation |
| WatchFace.Engine.OnVisibilityChanged | app/src/main/java/com/jaeder42/lcars/MyWatchFace.kt:340-354 | moves the engine by Lifecycle.Next on the visibility change |
| WatchFace.Engine.RegisterReceiver | app/src/main/java/com/jaeder42/lcars/MyWatchFace.kt:356-363 | the state becomes Lifecycle.RegisterReceiver of the old one |
| WatchFace.Engine.UnregisterReceiver | app/src/main/java/com/jaeder42/lcars/MyWatchFace.kt:365-371 | the state becomes Lifecycle.UnregisterReceiver of the old one |
| WatchFace.Engine.UpdateTimer | app/src/main/java/com/jaeder42/lcars/MyWatchFace.kt:376-381 | the state becomes Lifecycle.UpdateTimer of the old one |
| WatchFace.Engine.ShouldTimerBeRunning | app/src/main/java/com/jaeder42/lcars/MyWatchFace.kt:387-389 | shouldTimerBeRunning on the engine's fields: Lifecycle.ShouldTimerBeRunning of the engine's state, which WatchFace.Engine.UpdateTimer and HandleUpdateTimeMessage test |
| WatchFace.Engine.HandleUpdateTimeMessage | app/src/main/java/com/jaeder42/lcars/MyWatchFace.kt:394-401 | the state becomes Lifecycle.HandleUpdateTimeMessage of the old one at time now |
| WatchFace.Engine.HandleMessage | app/src/main/java/com/jaeder42/lcars/MyWatchFace.kt:39-46 | taking the first pending message and handling it moves the engine by Lifecycle.Next on UpdateTimeMessage |
| WatchFace.Engine.OnDraw | app/src/main/java/com/jaeder42/lcars/MyWatchFace.kt:224-230 | appends exactly Layout.Frame for the engine's size, mode and the one clock sample, keeping the engine valid; the square paint ends purple in active mode and keeps its colour in ambient mode, its anti-aliasing unchanged |
| WatchFace.Engine.DrawBackground | app/src/main/java/com/jaeder42/lcars/MyWatchFace.kt:232-234 | appends the black fill |
| WatchFace.Engine.DrawLeftTop | app/src/main/java/com/jaeder42/lcars/MyWatchFace.kt:237-256 | appends Layout.LeftTop and leaves the paint red in active mode, untouched in ambient mode |
| WatchFace.Engine.DrawLeftBottom | app/src/main/java/com/jaeder42/lcars/MyWatchFace.kt:258-283 | appends Layout.LeftBottom and leaves the paint red in active mode, untouched in ambient mode |
| WatchFace.Engine.DrawHorizontal | app/src/main/java/com/jaeder42/lcars/MyWatchFace.kt:286-308 | appends Layout.Horizontal and leaves the paint purple in active mode, untouched in ambient mode |
| WatchFace.Engine.DrawWatchFace | app/src/main/java/com/jaeder42/lcars/MyWatchFace.kt:317-338 | appends the face with the time and date texts of the clock sample; the square paint ends purple in active mode and keeps its colour in ambient mode, its anti-aliasing unchanged |
| WatchFace.Engine.DrawFace | app/src/main/java/com/jaeder42/lcars/MyWatchFace.kt:322-336 | appends the six helpers' runs in order, then the two given texts in their paints: exactly Layout.Face; the square paint ends purple in active mode and keeps its colour in ambient mode, its anti-aliasing unchanged |

## Left out

- The Android host classes `CanvasWatchFaceService`, `WatchFaceStyle`, `Handler`, `Message` and `WeakReference` are not modelled. The handler is a queue of message delays in the engine's state. `HandleMessage` delivers the first message. A handler whose engine has been collected (the `WeakReference` check) is not modelled.
- The real `registerReceiver`/`unregisterReceiver` calls and `invalidate()` are host calls. They are counted in the state, not performed.
- `TimeZone.getDefault()` and `System.currentTimeMillis()` are inputs. The default zone is a parameter of the visibility and broadcast callbacks, and the time is the `now` of a delivered tick.
- Converting milliseconds to calendar fields is not modelled. `onDraw` takes the sampled fields (`Layout.Clock`) as its input.
- `drawArc`, `drawRect`, `drawText` and `drawColor` do not rasterise. The recording `Canvas` keeps each call as a primitive.
- Float arithmetic in the geometry is real arithmetic, so rounding is not modelled.
- Paint stroke width, paint style, `clearShadowLayer` and the text paints' stroke width are not part of a primitive.
- `onPropertiesChanged` is not modelled, because it only stores `mLowBitAmbient` and `mBurnInProtection`, which nothing reads.
- The unused values are not modelled: the `seconds` computed in `drawWatchFace`, and `mCenterX`/`mCenterY` from `onSurfaceChanged`.
- The tap-type branches of `onTapCommand` are not modelled, because they are empty. Only its final `invalidate()` is.
- Mute mode is stored and compared but has no visual effect in the code, so none is modelled.
- Kotlin `Long` overflow of `System.currentTimeMillis()` is not modelled. `Int` overflow of calendar fields is not modelled either; fields are unbounded integers.
- Lifecycle.RunArmed: "pending iff visible and not ambient" is stated only for runs without onDestroy. onDestroy cancels the tick but leaves the flags as they are, so after it the equivalence no longer holds. Lifecycle.DestroyCancels states what onDestroy does.
- The time-zone broadcast (`TimeZoneChanged`) is accepted in every state, also while the receiver is unregistered. In the source the host delivers it only while the receiver is registered (MyWatchFace.kt:80-85, 356-371). So the model admits more runs than the host produces, and every lemma about runs also holds for the runs the host can produce.
