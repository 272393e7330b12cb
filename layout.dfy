/** The frame the watch face draws, as a value: the shapes each drawing helper
    lays out from the surface size, the colour the shared square paint holds at
    each of them, and the whole ordered list of primitives of one frame. */
module Layout {
  import opened Graphics
  import Format

  /** Width of the left bars; the arcs' ovals are twice as wide. */
  const BAR_WIDTH: real := 40.0
  /** Height of every band rectangle. */
  const BAND_HEIGHT: real := 10.0
  /** Height of the stack of rectangles in the lower left panel. */
  const LEFT_MID_HEIGHT: real := 100.0
  const BIG_HEIGHT: real := 40.0
  const SMALL_HEIGHT: real := 10.0
  /** The gap the layout leaves between neighbouring pieces. */
  const GAP: real := 5.0

  /** The calendar fields one frame reads; month is zero-based as in the calendar. */
  datatype Clock = Clock(year: int, month: int, date: int, hourOfDay: int, minute: int)

  const TIME_PAINT := TextStyle(Yellow, 70.0, Center, true)
  const DATE_PAINT := TextStyle(Yellow, 40.0, Left, true)

  /** The colour the code assigns before each shape of a helper, in drawing order. */
  const LEFT_TOP_COLORS := [Red, Purple, Red]
  const HORIZONTAL_COLORS := [Red, Purple, Orange, Red, Purple]
  const LEFT_BOTTOM_COLORS := [Red, Orange, Orange, Orange, Orange, Red]

  /** The vertical middle of an arc's oval, where a quarter-arc starting at 180 degrees ends. */
  function MidY(s: Shape): real { (s.top + s.bottom) / 2.0 }

  /** The style a shape is drawn with: in ambient mode every colour assignment is
      skipped, so the paint keeps the white, non-anti-aliased style ambient mode gave it. */
  function ShapeStyle(c: Color, ambient: bool): (s: Style)
    ensures ambient ==> s == Style(White, false)
    ensures !ambient ==> s == Style(c, true)
  {
    if ambient then Style(White, false) else Style(c, true)
  }

  function Painted(shapes: seq<Shape>, colors: seq<Color>, ambient: bool): (r: seq<Primitive>)
    requires |shapes| == |colors|
    ensures |r| == |shapes|
  {
    if shapes == [] then [] else [Draw(shapes[0], ShapeStyle(colors[0], ambient))] + Painted(shapes[1..], colors[1..], ambient)
  }

  /** drawLeftTop: a quarter arc opening upward, a short bar, and a quarter arc opening
      downward that ends at a third of the height. */
  function LeftTopShapes(height: real, start: real): seq<Shape>
  {
    var totalHeight := height / 3.0 - 10.0;
    [ Arc(0.0, start, BAR_WIDTH * 2.0, start + totalHeight - 10.0, 180.0, 90.0, true),
      Rect(0.0, start + totalHeight / 2.0, BAR_WIDTH, start + totalHeight / 2.0 + 10.0),
      Arc(0.0, height / 3.0 - totalHeight + 10.0, BAR_WIDTH * 2.0, height / 3.0, 180.0, -90.0, true) ]
  }

  /** drawLeftBottom: a quarter arc, four stacked rectangles (big, small, big, small) and a
      closing quarter arc, in the lower two thirds. */
  function LeftBottomShapes(height: real, start: real): seq<Shape>
  {
    var offset := (height / 1.5 - LEFT_MID_HEIGHT) / 2.0;
    var s := start + offset;
    [ Arc(0.0, start + 10.0, BAR_WIDTH * 2.0, start + 2.0 * offset - 20.0, 180.0, 90.0, true),
      Rect(0.0, s, BAR_WIDTH, s + BIG_HEIGHT),
      Rect(0.0, s + BIG_HEIGHT + 5.0, BAR_WIDTH, s + BIG_HEIGHT + SMALL_HEIGHT),
      Rect(0.0, s + BIG_HEIGHT + SMALL_HEIGHT + 5.0, BAR_WIDTH, s + BIG_HEIGHT + SMALL_HEIGHT + BIG_HEIGHT),
      Rect(0.0, s + BIG_HEIGHT + SMALL_HEIGHT + BIG_HEIGHT + 5.0, BAR_WIDTH,
           s + BIG_HEIGHT + SMALL_HEIGHT + BIG_HEIGHT + SMALL_HEIGHT),
      Arc(0.0, height - 2.0 * offset + 20.0, BAR_WIDTH * 2.0, height - 10.0, 180.0, -90.0, true) ]
  }

  /** drawHorizontal: five rectangles of one band, left to right from the left bar's edge
      to the right edge of the surface. */
  function HorizontalShapes(width: real, start: real): seq<Shape>
  {
    [ Rect(40.0, start, 60.0, start + BAND_HEIGHT),
      Rect(65.0, start, 100.0, start + BAND_HEIGHT),
      Rect(105.0, start, 180.0, start + BAND_HEIGHT),
      Rect(185.0, start, 205.0, start + BAND_HEIGHT),
      Rect(210.0, start, width, start + BAND_HEIGHT) ]
  }

  /** The upper left panel: both quarter arcs and the bar hug the left edge; the bar sits a gap
      below where the upper quarter arc ends and, in the frame (start 0), a gap above where
      the lower quarter arc begins; the lower arc ends at a third of the height. */
  lemma LeftTopGeometry(height: real, start: real)
    ensures var r := LeftTopShapes(height, start);
      (|r| == 3 && r[0].Arc? && r[1].Rect? && r[2].Arc?) &&
      (r[0].startAngle == 180.0 && r[0].sweepAngle == 90.0 && r[0].useCenter) &&
      (r[2].startAngle == 180.0 && r[2].sweepAngle == -90.0 && r[2].useCenter) &&
      (forall k :: 0 <= k < 3 ==> r[k].left == 0.0 && r[k].right == if r[k].Arc? then 2.0 * BAR_WIDTH else BAR_WIDTH) &&
      (r[0].top == start && r[2].bottom == height / 3.0) &&
      (r[1].bottom - r[1].top == BAND_HEIGHT) &&
      (MidY(r[0]) + GAP == r[1].top) &&
      (start == 0.0 ==> r[1].bottom + GAP == MidY(r[2]))
  {
  }

  /** The lower left panel: four rectangles stacked with equal gaps, 100 units tall together
      and centred in the two thirds of the height below start; the opening quarter arc ends a
      gap above the stack and, in the frame (start a third of the height), the closing one
      begins a gap below it and ends 10 units above the bottom. */
  lemma LeftBottomGeometry(height: real, start: real)
    ensures var r := LeftBottomShapes(height, start);
      (|r| == 6 && r[0].Arc? && r[5].Arc?) &&
      (forall k :: 1 <= k < 5 ==> r[k].Rect? && r[k].left == 0.0 && r[k].right == BAR_WIDTH) &&
      (r[0].sweepAngle == 90.0 && r[5].sweepAngle == -90.0) &&
      (forall k :: 1 <= k < 4 ==> r[k + 1].top == r[k].bottom + GAP) &&
      (r[1].bottom - r[1].top == BIG_HEIGHT && r[2].bottom - r[2].top == SMALL_HEIGHT - GAP) &&
      (r[3].bottom - r[3].top == BIG_HEIGHT - GAP && r[4].bottom - r[4].top == SMALL_HEIGHT - GAP) &&
      (r[4].bottom - r[1].top == LEFT_MID_HEIGHT) &&
      (r[1].top - start == (start + height / 1.5) - r[4].bottom) &&
      (MidY(r[0]) + GAP == r[1].top) &&
      (start == height / 3.0 ==> r[4].bottom + GAP == MidY(r[5])) &&
      (r[5].bottom == height - 10.0)
  {
  }

  /** A band: five rectangles of the band height at start, from the left bar's right edge,
      each a gap after the one before, the last reaching the right edge of the surface. */
  lemma HorizontalGeometry(width: real, start: real)
    ensures var r := HorizontalShapes(width, start);
      (|r| == 5) &&
      (forall k :: 0 <= k < 5 ==> r[k].Rect? && r[k].top == start && r[k].bottom == start + BAND_HEIGHT) &&
      (r[0].left == BAR_WIDTH && r[4].right == width) &&
      (forall k :: 0 <= k < 4 ==> r[k].left < r[k].right && r[k + 1].left == r[k].right + GAP)
  {
  }

  function LeftTop(height: real, start: real, ambient: bool): seq<Primitive>
  {
    Painted(LeftTopShapes(height, start), LEFT_TOP_COLORS, ambient)
  }

  function LeftBottom(height: real, start: real, ambient: bool): seq<Primitive>
  {
    Painted(LeftBottomShapes(height, start), LEFT_BOTTOM_COLORS, ambient)
  }

  function Horizontal(width: real, start: real, ambient: bool): seq<Primitive>
  {
    Painted(HorizontalShapes(width, start), HORIZONTAL_COLORS, ambient)
  }

  /** Painted shapes, one by one: the primitive at each index is its shape in its colour's style. */
  lemma PaintedElements(shapes: seq<Shape>, colors: seq<Color>, ambient: bool)
    requires |shapes| == |colors|
    ensures forall i :: 0 <= i < |shapes| ==> Painted(shapes, colors, ambient)[i] == Draw(shapes[i], ShapeStyle(colors[i], ambient))
  {
    forall i | 0 <= i < |shapes|
      ensures Painted(shapes, colors, ambient)[i] == Draw(shapes[i], ShapeStyle(colors[i], ambient))
    {
      PaintedAt(shapes, colors, ambient, i);
    }
  }

  /** The upper left panel as drawLeftTop draws it: each shape with the colour assigned just before it. */
  lemma LeftTopListed(height: real, start: real, ambient: bool)
    ensures var s := LeftTopShapes(height, start);
      LeftTop(height, start, ambient) ==
        [Draw(s[0], ShapeStyle(Red, ambient)), Draw(s[1], ShapeStyle(Purple, ambient)), Draw(s[2], ShapeStyle(Red, ambient))]
  {
    PaintedElements(LeftTopShapes(height, start), LEFT_TOP_COLORS, ambient);
  }

  /** The lower left panel as drawLeftBottom draws it. */
  lemma LeftBottomListed(height: real, start: real, ambient: bool)
    ensures var s := LeftBottomShapes(height, start);
      LeftBottom(height, start, ambient) ==
        [Draw(s[0], ShapeStyle(Red, ambient)), Draw(s[1], ShapeStyle(Orange, ambient)), Draw(s[2], ShapeStyle(Orange, ambient)),
         Draw(s[3], ShapeStyle(Orange, ambient)), Draw(s[4], ShapeStyle(Orange, ambient)), Draw(s[5], ShapeStyle(Red, ambient))]
  {
    PaintedElements(LeftBottomShapes(height, start), LEFT_BOTTOM_COLORS, ambient);
  }

  /** A band as drawHorizontal draws it. */
  lemma HorizontalListed(width: real, start: real, ambient: bool)
    ensures var s := HorizontalShapes(width, start);
      Horizontal(width, start, ambient) ==
        [Draw(s[0], ShapeStyle(Red, ambient)), Draw(s[1], ShapeStyle(Purple, ambient)), Draw(s[2], ShapeStyle(Orange, ambient)),
         Draw(s[3], ShapeStyle(Red, ambient)), Draw(s[4], ShapeStyle(Purple, ambient))]
  {
    PaintedElements(HorizontalShapes(width, start), HORIZONTAL_COLORS, ambient);
  }

  /** The 29 shapes of drawWatchFace, in drawing order. */
  function FrameShapes(width: real, height: real): seq<Shape>
  {
    LeftTopShapes(height, 0.0) + HorizontalShapes(width, 0.0) + HorizontalShapes(width, height / 3.0 - 10.0)
    + LeftBottomShapes(height, height / 3.0)
    + HorizontalShapes(width, height / 3.0 + 10.0) + HorizontalShapes(width, height - 20.0)
  }

  /** The active-mode colour of each of the 29 shapes, in drawing order. */
  function FrameColors(): seq<Color>
  {
    LEFT_TOP_COLORS + HORIZONTAL_COLORS + HORIZONTAL_COLORS + LEFT_BOTTOM_COLORS + HORIZONTAL_COLORS + HORIZONTAL_COLORS
  }

  /** The time text of a clock sample: hour of day and minute. */
  function TimeOf(clock: Clock): string
  {
    Format.TimeText(clock.hourOfDay, clock.minute)
  }

  /** The date text of a clock sample: year, month and day of month. */
  function DateOf(clock: Clock): string
  {
    Format.DateText(clock.year, clock.month, clock.date)
  }

  function TimeTextAt(width: real, height: real, timeText: string): Primitive
  {
    Text(timeText, width / 2.0 + 40.0, height / 1.5 + 20.0, TIME_PAINT)
  }

  function DateTextAt(height: real, dateText: string): Primitive
  {
    Text(dateText, 50.0, height / 3.0 - 35.0, DATE_PAINT)
  }

  /** drawWatchFace: the panels and bands, then the time and date text. */
  function Face(width: real, height: real, ambient: bool, timeText: string, dateText: string): seq<Primitive>
  {
    LeftTop(height, 0.0, ambient) + Horizontal(width, 0.0, ambient) + Horizontal(width, height / 3.0 - 10.0, ambient)
    + LeftBottom(height, height / 3.0, ambient)
    + Horizontal(width, height / 3.0 + 10.0, ambient) + Horizontal(width, height - 20.0, ambient)
    + [TimeTextAt(width, height, timeText), DateTextAt(height, dateText)]
  }

  /** onDraw: the background, then the face with the texts of one clock sample. */
  function Frame(width: real, height: real, ambient: bool, clock: Clock): seq<Primitive>
  {
    [Fill(Black)] + Face(width, height, ambient, TimeOf(clock), DateOf(clock))
  }

  /** Each painted shape is drawn with the style of its own colour. */
  lemma {:induction false} PaintedAt(shapes: seq<Shape>, colors: seq<Color>, ambient: bool, i: nat)
    requires |shapes| == |colors| && i < |shapes|
    ensures Painted(shapes, colors, ambient)[i] == Draw(shapes[i], ShapeStyle(colors[i], ambient))
  {
    if i > 0 {
      PaintedAt(shapes[1..], colors[1..], ambient, i - 1);
    }
  }

  /** Painting two runs of shapes one after the other is painting their concatenation. */
  lemma {:induction false} PaintedAppend(s1: seq<Shape>, c1: seq<Color>, s2: seq<Shape>, c2: seq<Color>, ambient: bool)
    requires |s1| == |c1| && |s2| == |c2|
    ensures Painted(s1 + s2, c1 + c2, ambient) == Painted(s1, c1, ambient) + Painted(s2, c2, ambient)
  {
    if s1 != [] {
      PaintedAppend(s1[1..], c1[1..], s2, c2, ambient);
      assert (s1 + s2)[1..] == s1[1..] + s2 && (c1 + c2)[1..] == c1[1..] + c2;
    } else {
      assert s1 + s2 == s2 && c1 + c2 == c2;
    }
  }

  /** The active-mode colours of the 29 shapes written out one by one. */
  lemma FrameColorsListed()
    ensures FrameColors() ==
      [Red, Purple, Red,
       Red, Purple, Orange, Red, Purple,
       Red, Purple, Orange, Red, Purple,
       Red, Orange, Orange, Orange, Orange, Red,
       Red, Purple, Orange, Red, Purple,
       Red, Purple, Orange, Red, Purple]
  {
  }

  /** A frame is the background, then 29 shapes drawn with the square paint in the
      colours of FrameColors (all white without anti-aliasing in ambient mode), then
      the time text and the date text. */
  lemma {:induction false} FrameLayout(width: real, height: real, ambient: bool, clock: Clock)
    ensures var f := Frame(width, height, ambient, clock);
      |f| == 32 && f[0] == Fill(Black) &&
      |FrameShapes(width, height)| == |FrameColors()| == 29 &&
      f == [Fill(Black)] + Painted(FrameShapes(width, height), FrameColors(), ambient)
           + [TimeTextAt(width, height, TimeOf(clock)), DateTextAt(height, DateOf(clock))] &&
      (forall i :: 1 <= i < 30 ==> f[i] == Draw(FrameShapes(width, height)[i - 1], ShapeStyle(FrameColors()[i - 1], ambient))) &&
      f[30] == TimeTextAt(width, height, TimeOf(clock)) && f[31] == DateTextAt(height, DateOf(clock))
  {
    FacePainted(width, height, ambient, TimeOf(clock), DateOf(clock));
    PaintedElements(FrameShapes(width, height), FrameColors(), ambient);
  }

  /** Face written out as its definition. A separate lemma so that FacePainted reasons about the
      unfolded list once, which keeps that proof cheap for the solver. */
  lemma FaceUnfold(width: real, height: real, ambient: bool, timeText: string, dateText: string)
    ensures Face(width, height, ambient, timeText, dateText) ==
      LeftTop(height, 0.0, ambient) + Horizontal(width, 0.0, ambient) + Horizontal(width, height / 3.0 - 10.0, ambient)
      + LeftBottom(height, height / 3.0, ambient)
      + Horizontal(width, height / 3.0 + 10.0, ambient) + Horizontal(width, height - 20.0, ambient)
      + [TimeTextAt(width, height, timeText), DateTextAt(height, dateText)]
  {
  }

  /** The face is the 29 frame shapes painted in the frame colours, then the two texts. */
  lemma FacePainted(width: real, height: real, ambient: bool, timeText: string, dateText: string)
    ensures Face(width, height, ambient, timeText, dateText) ==
      Painted(FrameShapes(width, height), FrameColors(), ambient) + [TimeTextAt(width, height, timeText), DateTextAt(height, dateText)]
  {
    var a, b, c := LeftTop(height, 0.0, ambient), Horizontal(width, 0.0, ambient), Horizontal(width, height / 3.0 - 10.0, ambient);
    var d, e, g := LeftBottom(height, height / 3.0, ambient), Horizontal(width, height / 3.0 + 10.0, ambient), Horizontal(width, height - 20.0, ambient);
    var t, u := TimeTextAt(width, height, timeText), DateTextAt(height, dateText);
    FaceUnfold(width, height, ambient, timeText, dateText);
    Regroup([], a, b, c, d, e, g, [t, u]);
    PaintedSix(LeftTopShapes(height, 0.0), LEFT_TOP_COLORS, HorizontalShapes(width, 0.0), HorizontalShapes(width, height / 3.0 - 10.0),
               LeftBottomShapes(height, height / 3.0), LEFT_BOTTOM_COLORS,
               HorizontalShapes(width, height / 3.0 + 10.0), HorizontalShapes(width, height - 20.0),
               HORIZONTAL_COLORS, ambient);
  }

  /** What drawWatchFace leaves on a canvas, one helper at a time: the six runs of the
      panels and bands appended in order and then the two texts add up to the face. */
  lemma FaceAssembled(o0: seq<Primitive>, o1: seq<Primitive>, o2: seq<Primitive>, o3: seq<Primitive>,
                      o4: seq<Primitive>, o5: seq<Primitive>, o6: seq<Primitive>, o7: seq<Primitive>,
                      width: real, height: real, ambient: bool, timeText: string, dateText: string)
    requires o1 == o0 + LeftTop(height, 0.0, ambient)
    requires o2 == o1 + Horizontal(width, 0.0, ambient)
    requires o3 == o2 + Horizontal(width, height / 3.0 - 10.0, ambient)
    requires o4 == o3 + LeftBottom(height, height / 3.0, ambient)
    requires o5 == o4 + Horizontal(width, height / 3.0 + 10.0, ambient)
    requires o6 == o5 + Horizontal(width, height - 20.0, ambient)
    requires o7 == o6 + [Text(timeText, width / 2.0 + 40.0, height / 1.5 + 20.0, TIME_PAINT)]
                      + [Text(dateText, 50.0, height / 3.0 - 35.0, DATE_PAINT)]
    ensures o7 == o0 + Face(width, height, ambient, timeText, dateText)
  {
    var t, u := TimeTextAt(width, height, timeText), DateTextAt(height, dateText);
    AppendTwo(o6, t, u);
    Regroup(o0, LeftTop(height, 0.0, ambient), Horizontal(width, 0.0, ambient),
            Horizontal(width, height / 3.0 - 10.0, ambient), LeftBottom(height, height / 3.0, ambient),
            Horizontal(width, height / 3.0 + 10.0, ambient), Horizontal(width, height - 20.0, ambient), [t, u]);
  }

  /** What onDraw leaves on a canvas: the background, then the face, add up to the frame. */
  lemma FrameAssembled(o0: seq<Primitive>, o1: seq<Primitive>, o2: seq<Primitive>,
                       width: real, height: real, ambient: bool, clock: Clock)
    requires o1 == o0 + [Fill(Black)]
    requires o2 == o1 + Face(width, height, ambient, TimeOf(clock), DateOf(clock))
    ensures o2 == o0 + Frame(width, height, ambient, clock)
  {
  }

  lemma AppendTwo<T>(x: seq<T>, t: T, u: T)
    ensures x + [t] + [u] == x + [t, u]
  {
  }

  lemma Regroup<T>(x: seq<T>, a: seq<T>, b: seq<T>, c: seq<T>, d: seq<T>, e: seq<T>, g: seq<T>, t: seq<T>)
    ensures x + (a + b + c + d + e + g + t) == x + (a + b + c + d + e + g) + t
    ensures x + a + b + c + d + e + g + t == x + (a + b + c + d + e + g + t)
  {
  }

  /** Painting the six helpers' runs of a frame one after another (the four bands share one list of colours). */
  lemma PaintedSix(s1: seq<Shape>, c1: seq<Color>, s2: seq<Shape>, s3: seq<Shape>, s4: seq<Shape>, c4: seq<Color>,
                   s5: seq<Shape>, s6: seq<Shape>, hc: seq<Color>, ambient: bool)
    requires |s1| == |c1| && |s4| == |c4| && |s2| == |s3| == |s5| == |s6| == |hc|
    ensures Painted(s1 + s2 + s3 + s4 + s5 + s6, c1 + hc + hc + c4 + hc + hc, ambient)
      == Painted(s1, c1, ambient) + Painted(s2, hc, ambient) + Painted(s3, hc, ambient)
         + Painted(s4, c4, ambient) + Painted(s5, hc, ambient) + Painted(s6, hc, ambient)
  {
    PaintedAppend(s1, c1, s2, hc, ambient);
    PaintedAppend(s1 + s2, c1 + hc, s3, hc, ambient);
    PaintedAppend(s1 + s2 + s3, c1 + hc + hc, s4, c4, ambient);
    PaintedAppend(s1 + s2 + s3 + s4, c1 + hc + hc + c4, s5, hc, ambient);
    PaintedAppend(s1 + s2 + s3 + s4 + s5, c1 + hc + hc + c4 + hc, s6, hc, ambient);
  }

  /** The ambient frame is the active frame with every shape recoloured white and
      anti-aliasing off; geometry, background and text are the same. */
  lemma AmbientIsActiveRecoloured(width: real, height: real, clock: Clock)
    ensures var a, b := Frame(width, height, true, clock), Frame(width, height, false, clock);
      |a| == |b| &&
      forall i :: 0 <= i < |a| ==>
        if b[i].Draw? then a[i] == Draw(b[i].shape, Style(White, false)) && b[i].style.antiAlias
        else a[i] == b[i]
  {
    FrameLayout(width, height, true, clock);
    FrameLayout(width, height, false, clock);
  }

  /** In active mode the 29 shapes carry, in order: red, purple, red on the upper left panel;
      red, purple, orange, red, purple on each of the first two bands; red, four times orange
      and red on the lower left panel; the band colours again on the last two bands. All are
      anti-aliased. */
  lemma ActiveColorsInOrder(width: real, height: real, clock: Clock)
    ensures var f := Frame(width, height, false, clock);
      var expected := [Red, Purple, Red,
                       Red, Purple, Orange, Red, Purple,
                       Red, Purple, Orange, Red, Purple,
                       Red, Orange, Orange, Orange, Orange, Red,
                       Red, Purple, Orange, Red, Purple,
                       Red, Purple, Orange, Red, Purple];
      forall i :: 1 <= i < 30 ==> f[i].Draw? && f[i].style == Style(expected[i - 1], true)
  {
    FrameLayout(width, height, false, clock);
    FrameColorsListed();
  }

  /** In ambient mode every shape is white and not anti-aliased. */
  lemma AmbientAllWhite(width: real, height: real, clock: Clock)
    ensures var f := Frame(width, height, true, clock);
      forall i :: 1 <= i < 30 ==> f[i].Draw? && f[i].style == Style(White, false)
  {
    FrameLayout(width, height, true, clock);
  }

  /** The frame's time text is the sample's hour and minute, readable back from the text. */
  lemma FrameTimeText(width: real, height: real, ambient: bool, clock: Clock)
    requires 0 <= clock.hourOfDay < 24 && 0 <= clock.minute < 60
    ensures var t := Frame(width, height, ambient, clock)[30];
      t.Text? && t.content == Format.TimeText(clock.hourOfDay, clock.minute) && t.paint == TIME_PAINT && |t.content| == 5 && t.content[2] == '.' &&
      Format.IsDecimal(t.content[..2]) && Format.Value(t.content[..2]) == clock.hourOfDay &&
      Format.IsDecimal(t.content[3..]) && Format.Value(t.content[3..]) == clock.minute
  {
    FrameLayout(width, height, ambient, clock);
    Format.TimeTextReadsBack(clock.hourOfDay, clock.minute);
  }

  /** The frame's date text is the sample's year, one-based month and day, readable back from the text. */
  lemma FrameDateText(width: real, height: real, ambient: bool, clock: Clock)
    requires clock.year >= 0 && 0 <= clock.month < 12 && 1 <= clock.date <= 31
    ensures var t := Frame(width, height, ambient, clock)[31]; var r := t.content; var n := |r|;
      t.Text? && r == Format.DateText(clock.year, clock.month, clock.date) && t.paint == DATE_PAINT &&
      n >= 8 && r[n - 6] == '.' && r[n - 3] == '.' &&
      Format.IsDecimal(r[..n - 6]) && Format.Value(r[..n - 6]) == clock.year &&
      Format.IsDecimal(r[n - 5..n - 3]) && Format.Value(r[n - 5..n - 3]) == clock.month + 1 &&
      Format.IsDecimal(r[n - 2..]) && Format.Value(r[n - 2..]) == clock.date
  {
    FrameLayout(width, height, ambient, clock);
    Format.DateTextReadsBack(clock.year, clock.month, clock.date);
  }
}
