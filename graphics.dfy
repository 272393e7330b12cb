/** The drawing vocabulary the watch face uses: its colours, the style a Paint
    carries at the moment of a draw call, and a Canvas that records each call as
    a primitive instead of rasterising it. */
module Graphics {

  /** The colours the face draws with. */
  datatype Color = Black | White | Purple | Red | Orange | Yellow

  /** The colour table: the 32-bit ARGB value each colour stands for (Color.BLACK, Color.WHITE and
      the parsed "#rrggbb" constants of the engine). Primitives carry the Color itself. */
  function Argb(c: Color): (v: int)
    ensures 0 <= v < 0x1_0000_0000 && v / 0x100_0000 == 0xFF
  {
    match c
    case Black => 0xFF00_0000
    case White => 0xFFFF_FFFF
    case Purple => 0xFF9E_9FCA
    case Red => 0xFFCC_5F60
    case Orange => 0xFFFD_9800
    case Yellow => 0xFFF6_CB92
  }

  /** What a shape-drawing call takes from its Paint: the colour and the anti-alias flag. */
  datatype Style = Style(color: Color, antiAlias: bool)

  datatype Align = Left | Center

  /** The fixed paints of the two text runs. */
  datatype TextStyle = TextStyle(color: Color, size: real, align: Align, antiAlias: bool)

  /** The geometry of a shape-drawing call: drawArc's oval bounds and angles, or drawRect's edges. */
  datatype Shape =
    | Arc(left: real, top: real, right: real, bottom: real,
          startAngle: real, sweepAngle: real, useCenter: bool)
    | Rect(left: real, top: real, right: real, bottom: real)

  /** One recorded draw call. */
  datatype Primitive =
    | Fill(fill: Color)
    | Draw(shape: Shape, style: Style)
    | Text(content: string, x: real, y: real, paint: TextStyle)

  /** A mutable Paint, as mSquarePaint: its colour and anti-alias flag change between draw calls. */
  class Paint {
    var color: Color
    var antiAlias: bool

    constructor (color: Color, antiAlias: bool)
      ensures this.color == color && this.antiAlias == antiAlias
    {
      this.color := color;
      this.antiAlias := antiAlias;
    }

    function Snapshot(): (s: Style)
      reads this
      ensures s.color == color && s.antiAlias == antiAlias
    {
      Style(color, antiAlias)
    }
  }

  /** A canvas that records, in order, every call made on it. */
  class Canvas {
    var ops: seq<Primitive>

    constructor ()
      ensures ops == []
    {
      ops := [];
    }

    /** drawColor: fills the whole canvas. */
    method DrawColor(c: Color)
      modifies this
      ensures ops == old(ops) + [Fill(c)]
    {
      ops := ops + [Fill(c)];
    }

    /** drawArc: the paint's current style is what the arc is drawn with. */
    method DrawArc(left: real, top: real, right: real, bottom: real,
                   startAngle: real, sweepAngle: real, useCenter: bool, paint: Paint)
      modifies this
      ensures ops == old(ops) + [Draw(Arc(left, top, right, bottom, startAngle, sweepAngle, useCenter), paint.Snapshot())]
    {
      ops := ops + [Draw(Arc(left, top, right, bottom, startAngle, sweepAngle, useCenter), paint.Snapshot())];
    }

    method DrawRect(left: real, top: real, right: real, bottom: real, paint: Paint)
      modifies this
      ensures ops == old(ops) + [Draw(Rect(left, top, right, bottom), paint.Snapshot())]
    {
      ops := ops + [Draw(Rect(left, top, right, bottom), paint.Snapshot())];
    }

    method DrawText(content: string, x: real, y: real, paint: TextStyle)
      modifies this
      ensures ops == old(ops) + [Text(content, x, y, paint)]
    {
      ops := ops + [Text(content, x, y, paint)];
    }
  }
}
