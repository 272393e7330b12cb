/** The watch face's Engine: the fields its callbacks update, the drawing helpers
    that recolour the one shared square paint between draw calls, and the callbacks
    themselves. Each callback is proved to move the engine as Lifecycle.Next says, and
    onDraw to record exactly the primitives of Layout.Frame. */
module WatchFace {
  import opened Graphics
  import Layout
  import Lifecycle
  import Format

  class Engine {
    var visible: bool                     // the host's isVisible
    var ambient: bool                     // mAmbient
    var muteMode: bool                    // mMuteMode
    var registeredTimeZoneReceiver: bool  // mRegisteredTimeZoneReceiver
    var zone: string                      // mCalendar.timeZone
    var updateQueue: seq<int>             // mUpdateTimeHandler's MSG_UPDATE_TIME messages, by delay in ms
    var registrations: nat                // effects asked of the host
    var unregistrations: nat
    var invalidations: nat
    var width: real                       // mWidth
    var height: real                      // mHeight
    const squarePaint: Paint              // mSquarePaint

    /** The lifecycle part of the engine. */
    function State(): (s: Lifecycle.State)
      reads this
      ensures s.ambient == ambient && s.queue == updateQueue
    {
      Lifecycle.State(visible, ambient, muteMode, registeredTimeZoneReceiver, zone, updateQueue,
                      registrations, unregistrations, invalidations)
    }

    /** In ambient mode the square paint is white and not anti-aliased; otherwise it is anti-aliased. */
    predicate PaintMatchesMode()
      reads this, squarePaint
    {
      (ambient ==> squarePaint.Snapshot() == Style(White, false)) && (!ambient ==> squarePaint.antiAlias)
    }

    predicate Valid()
      reads this, squarePaint
    {
      Lifecycle.Inv(State()) && PaintMatchesMode()
    }

    /** onCreate, with the field initialisers: the calendar in the default zone and the
        square paint purple and anti-aliased. */
    constructor (defaultZone: string)
      ensures Valid() && State() == Lifecycle.Init(defaultZone)
      ensures fresh(squarePaint) && squarePaint.Snapshot() == Style(Purple, true)
      ensures width == 0.0 && height == 0.0
    {
      visible, ambient, muteMode, registeredTimeZoneReceiver := false, false, false, false;
      zone := defaultZone;
      updateQueue := [];
      registrations, unregistrations, invalidations := 0, 0, 0;
      width, height := 0.0, 0.0;
      squarePaint := new Paint(Purple, true);
    }

    method Invalidate()
      modifies this
      ensures State() == Lifecycle.Invalidate(old(State()))
      ensures width == old(width) && height == old(height)
    {
      invalidations := invalidations + 1;
    }

    method OnDestroy()
      requires Valid()
      modifies this
      ensures Valid() && State() == Lifecycle.Next(old(State()), Lifecycle.Destroy)
      ensures width == old(width) && height == old(height)
    {
      updateQueue := [];
    }

    method OnTimeTick()
      requires Valid()
      modifies this
      ensures Valid() && State() == Lifecycle.Next(old(State()), Lifecycle.TimeTick)
      ensures width == old(width) && height == old(height)
    {
      Invalidate();
    }

    /** The time-zone receiver's onReceive. */
    method OnTimeZoneChanged(defaultZone: string)
      requires Valid()
      modifies this
      ensures Valid() && State() == Lifecycle.Next(old(State()), Lifecycle.TimeZoneChanged(defaultZone))
      ensures width == old(width) && height == old(height)
    {
      zone := defaultZone;
      Invalidate();
    }

    /** onAmbientModeChanged: sets the mode, restyles the square paint and updates the timer;
        it does not invalidate. */
    method OnAmbientModeChanged(inAmbientMode: bool)
      requires Valid()
      modifies this, squarePaint
      ensures Valid() && State() == Lifecycle.Next(old(State()), Lifecycle.AmbientModeChanged(inAmbientMode))
      ensures squarePaint.Snapshot() == if inAmbientMode then Style(White, false) else Style(Purple, true)
      ensures width == old(width) && height == old(height)
    {
      ambient := inAmbientMode;
      UpdateWatchHandStyle();
      UpdateTimer();
    }

    method UpdateWatchHandStyle()
      modifies squarePaint
      ensures PaintMatchesMode()
      ensures squarePaint.Snapshot() == if ambient then Style(White, false) else Style(Purple, true)
    {
      if ambient {
        squarePaint.color := White;
        squarePaint.antiAlias := false;
      } else {
        squarePaint.color := Purple;
        squarePaint.antiAlias := true;
      }
    }

    method OnInterruptionFilterChanged(interruptionFilter: int)
      requires Valid()
      modifies this
      ensures Valid() && State() == Lifecycle.Next(old(State()), Lifecycle.InterruptionFilterChanged(interruptionFilter))
      ensures width == old(width) && height == old(height)
    {
      var inMuteMode := interruptionFilter == Lifecycle.INTERRUPTION_FILTER_NONE;
      if muteMode != inMuteMode {
        muteMode := inMuteMode;
        Invalidate();
      }
    }

    method OnSurfaceChanged(surfaceWidth: int, surfaceHeight: int)
      requires Valid()
      modifies this
      ensures Valid() && State() == old(State())
      ensures width == surfaceWidth as real && height == surfaceHeight as real
    {
      width := surfaceWidth as real;
      height := surfaceHeight as real;
    }

    /** onTapCommand: every tap type ends in the same invalidate. */
    method OnTapCommand(tapType: int, x: int, y: int, eventTime: int)
      requires Valid()
      modifies this
      ensures Valid() && State() == Lifecycle.Next(old(State()), Lifecycle.TapCommand)
      ensures width == old(width) && height == old(height)
    {
      Invalidate();
    }

    method OnVisibilityChanged(isVisible: bool, defaultZone: string)
      requires Valid()
      modifies this
      ensures Valid() && State() == Lifecycle.Next(old(State()), Lifecycle.VisibilityChanged(isVisible, defaultZone))
      ensures width == old(width) && height == old(height)
    {
      ghost var before := State();
      visible := isVisible;
      if isVisible {
        RegisterReceiver();
        zone := defaultZone;
        Invalidate();
      } else {
        UnregisterReceiver();
      }
      UpdateTimer();
      Lifecycle.NextInv(before, Lifecycle.VisibilityChanged(isVisible, defaultZone));
    }

    method RegisterReceiver()
      modifies this
      ensures State() == Lifecycle.RegisterReceiver(old(State()))
      ensures width == old(width) && height == old(height)
    {
      if registeredTimeZoneReceiver {
        return;
      }
      registeredTimeZoneReceiver := true;
      registrations := registrations + 1;
    }

    method UnregisterReceiver()
      modifies this
      ensures State() == Lifecycle.UnregisterReceiver(old(State()))
      ensures width == old(width) && height == old(height)
    {
      if !registeredTimeZoneReceiver {
        return;
      }
      registeredTimeZoneReceiver := false;
      unregistrations := unregistrations + 1;
    }

    /** updateTimer: removeMessages, then sendEmptyMessage if the timer should run. */
    method UpdateTimer()
      modifies this
      ensures State() == Lifecycle.UpdateTimer(old(State()))
      ensures width == old(width) && height == old(height)
    {
      updateQueue := [];
      if ShouldTimerBeRunning() {
        updateQueue := updateQueue + [0];
      }
    }

    /** shouldTimerBeRunning, read off the engine's fields. */
    predicate ShouldTimerBeRunning()
      reads this
    {
      Lifecycle.ShouldTimerBeRunning(State())
    }

    /** handleUpdateTimeMessage: invalidate, then re-arm with the rest of the current second. */
    method HandleUpdateTimeMessage(now: int)
      modifies this
      ensures State() == Lifecycle.HandleUpdateTimeMessage(old(State()), now)
      ensures width == old(width) && height == old(height)
    {
      Invalidate();
      if ShouldTimerBeRunning() {
        var delayMs := Lifecycle.INTERACTIVE_UPDATE_RATE_MS - Lifecycle.RateRemainder(now);
        updateQueue := updateQueue + [delayMs];
      }
    }

    /** The update handler delivering its first pending message (EngineHandler.handleMessage). */
    method HandleMessage(now: int)
      requires Valid() && updateQueue != []
      modifies this
      ensures Valid() && State() == Lifecycle.Next(old(State()), Lifecycle.UpdateTimeMessage(now))
      ensures width == old(width) && height == old(height)
    {
      ghost var before := State();
      updateQueue := updateQueue[1..];
      HandleUpdateTimeMessage(now);
      Lifecycle.NextInv(before, Lifecycle.UpdateTimeMessage(now));
    }

    /** onDraw: one clock sample, the background, then the face. */
    method OnDraw(canvas: Canvas, clock: Layout.Clock)
      requires Valid()
      modifies canvas, squarePaint
      ensures squarePaint.color == if ambient then old(squarePaint.color) else Purple
      ensures squarePaint.antiAlias == old(squarePaint.antiAlias)
      ensures Valid()
      ensures canvas.ops == old(canvas.ops) + Layout.Frame(width, height, ambient, clock)
    {
      DrawBackground(canvas);
      ghost var o1 := canvas.ops;
      DrawWatchFace(canvas, clock);
      Layout.FrameAssembled(old(canvas.ops), o1, canvas.ops, width, height, ambient, clock);
    }

    method DrawBackground(canvas: Canvas)
      modifies canvas
      ensures canvas.ops == old(canvas.ops) + [Fill(Black)]
    {
      canvas.DrawColor(Black);
    }

    method DrawLeftTop(canvas: Canvas, start: real)
      requires PaintMatchesMode()
      modifies canvas, squarePaint
      ensures width == old(width) && height == old(height) && ambient == old(ambient)
      ensures PaintMatchesMode() && squarePaint.antiAlias == old(squarePaint.antiAlias)
      ensures squarePaint.color == if ambient then old(squarePaint.color) else Red
      ensures canvas.ops == old(canvas.ops) + Layout.LeftTop(height, start, ambient)
    {
      var barWidth := 40.0;
      var totalHeight := height / 3.0 - 10.0;
      if !ambient {
        squarePaint.color := Red;
      }
      canvas.DrawArc(0.0, start, barWidth * 2.0, start + totalHeight - 10.0, 180.0, 90.0, true, squarePaint);
      if !ambient {
        squarePaint.color := Purple;
      }
      canvas.DrawRect(0.0, start + totalHeight / 2.0, barWidth, start + totalHeight / 2.0 + 10.0, squarePaint);
      if !ambient {
        squarePaint.color := Red;
      }
      canvas.DrawArc(0.0, height / 3.0 - totalHeight + 10.0, barWidth * 2.0, height / 3.0, 180.0, -90.0, true, squarePaint);
      Layout.LeftTopListed(height, start, ambient);
    }

    method DrawLeftBottom(canvas: Canvas, start: real)
      requires PaintMatchesMode()
      modifies canvas, squarePaint
      ensures width == old(width) && height == old(height) && ambient == old(ambient)
      ensures PaintMatchesMode() && squarePaint.antiAlias == old(squarePaint.antiAlias)
      ensures squarePaint.color == if ambient then old(squarePaint.color) else Red
      ensures canvas.ops == old(canvas.ops) + Layout.LeftBottom(height, start, ambient)
    {
      var leftMidHeight := 100.0;
      var offset := (height / 1.5 - leftMidHeight) / 2.0;
      var bigHeight := 40.0;
      var smallHeight := 10.0;
      var barWidth := 40.0;
      if !ambient {
        squarePaint.color := Red;
      }
      canvas.DrawArc(0.0, start + 10.0, barWidth * 2.0, start + 2.0 * offset - 20.0, 180.0, 90.0, true, squarePaint);
      if !ambient {
        squarePaint.color := Orange;
      }
      canvas.DrawRect(0.0, start + offset, barWidth, start + offset + bigHeight, squarePaint);
      canvas.DrawRect(0.0, start + offset + bigHeight + 5.0, barWidth, start + offset + bigHeight + smallHeight, squarePaint);
      canvas.DrawRect(0.0, start + offset + bigHeight + smallHeight + 5.0, barWidth,
                      start + offset + bigHeight + smallHeight + bigHeight, squarePaint);
      canvas.DrawRect(0.0, start + offset + bigHeight + smallHeight + bigHeight + 5.0, barWidth,
                      start + offset + bigHeight + smallHeight + bigHeight + smallHeight, squarePaint);
      if !ambient {
        squarePaint.color := Red;
      }
      canvas.DrawArc(0.0, height - 2.0 * offset + 20.0, barWidth * 2.0, height - 10.0, 180.0, -90.0, true, squarePaint);
      Layout.LeftBottomListed(height, start, ambient);
    }

    method DrawHorizontal(canvas: Canvas, start: real)
      requires PaintMatchesMode()
      modifies canvas, squarePaint
      ensures width == old(width) && height == old(height) && ambient == old(ambient)
      ensures PaintMatchesMode() && squarePaint.antiAlias == old(squarePaint.antiAlias)
      ensures squarePaint.color == if ambient then old(squarePaint.color) else Purple
      ensures canvas.ops == old(canvas.ops) + Layout.Horizontal(width, start, ambient)
    {
      var bandHeight := 10.0;
      if !ambient {
        squarePaint.color := Red;
      }
      canvas.DrawRect(40.0, start, 60.0, start + bandHeight, squarePaint);
      if !ambient {
        squarePaint.color := Purple;
      }
      canvas.DrawRect(65.0, start, 100.0, start + bandHeight, squarePaint);
      if !ambient {
        squarePaint.color := Orange;
      }
      canvas.DrawRect(105.0, start, 180.0, start + bandHeight, squarePaint);
      if !ambient {
        squarePaint.color := Red;
      }
      canvas.DrawRect(185.0, start, 205.0, start + bandHeight, squarePaint);
      if !ambient {
        squarePaint.color := Purple;
      }
      canvas.DrawRect(210.0, start, width, start + bandHeight, squarePaint);
      Layout.HorizontalListed(width, start, ambient);
    }

    /** drawWatchFace: formats the clock sample's time and date, then draws the face with them. */
    method DrawWatchFace(canvas: Canvas, clock: Layout.Clock)
      requires PaintMatchesMode()
      modifies canvas, squarePaint
      ensures squarePaint.color == if ambient then old(squarePaint.color) else Purple
      ensures squarePaint.antiAlias == old(squarePaint.antiAlias)
      ensures PaintMatchesMode()
      ensures canvas.ops == old(canvas.ops) + Layout.Face(width, height, ambient, Layout.TimeOf(clock), Layout.DateOf(clock))
    {
      var timeText := Format.DateTimeNumber(clock.hourOfDay) + "." + Format.DateTimeNumber(clock.minute);
      var dateText := Format.DateTimeNumber(clock.year) + "." + Format.DateTimeNumber(clock.month + 1) + "."
                      + Format.DateTimeNumber(clock.date);
      DrawFace(canvas, timeText, dateText);
    }

    /** The drawing part of drawWatchFace: the two upper bands around the upper left panel,
        the lower left panel and its two bands, then the time and date text. */
    method DrawFace(canvas: Canvas, timeText: string, dateText: string)
      requires PaintMatchesMode()
      modifies canvas, squarePaint
      ensures squarePaint.color == if ambient then old(squarePaint.color) else Purple
      ensures squarePaint.antiAlias == old(squarePaint.antiAlias)
      ensures PaintMatchesMode()
      ensures canvas.ops == old(canvas.ops) + Layout.Face(width, height, ambient, timeText, dateText)
    {
      DrawLeftTop(canvas, 0.0);
      ghost var o1 := canvas.ops;
      DrawHorizontal(canvas, 0.0);
      ghost var o2 := canvas.ops;
      DrawHorizontal(canvas, height / 3.0 - 10.0);
      ghost var o3 := canvas.ops;
      DrawLeftBottom(canvas, height / 3.0);
      ghost var o4 := canvas.ops;
      DrawHorizontal(canvas, height / 3.0 + 10.0);
      ghost var o5 := canvas.ops;
      DrawHorizontal(canvas, height - 20.0);
      ghost var o6 := canvas.ops;
      canvas.DrawText(timeText, width / 2.0 + 40.0, height / 1.5 + 20.0, Layout.TIME_PAINT);
      canvas.DrawText(dateText, 50.0, height / 3.0 - 35.0, Layout.DATE_PAINT);
      Layout.FaceAssembled(old(canvas.ops), o1, o2, o3, o4, o5, o6, canvas.ops, width, height, ambient, timeText, dateText);
    }
  }
}
