/** The three shape variants (circle, square, freehand line), how each is
    recoloured, how a freehand line grows and re-rolls its colour, and what
    each draws: the calls it makes on a drawing context, and what those calls
    put on screen. */
module Shapes {
  import opened Geometry

  /** The data of a freehand line: its points in drawing order, its colour,
      and whether it re-rolls its colour while it is being drawn (a flag fixed
      when the line is created). */
  datatype Line = Line(points: seq<Point>, color: Color, rainbowMode: bool)

  datatype Shape =
    | Circle(center: Point, radius: int, color: Color)
    | Square(topLeft: Point, sideLength: int, color: Color)
    | Freehand(line: Line)

  function ColorOf(s: Shape): Color
  {
    match s
    case Circle(_, _, c) => c
    case Square(_, _, c) => c
    case Freehand(l) => l.color
  }

  /** A shape with its colour blanked out: what recolouring must not touch. */
  function Outline(s: Shape): Shape
  {
    match s
    case Circle(p, r, _) => Circle(p, r, Black)
    case Square(p, n, _) => Square(p, n, Black)
    case Freehand(l) => Freehand(l.(color := Black))
  }

  /** Shape::SetColor, as each variant overrides it: the colour is overwritten
      and the geometry (and a line's points and flag) is kept. */
  function SetColor(s: Shape, c: Color): (r: Shape)
    ensures ColorOf(r) == c
    ensures Outline(r) == Outline(s)
    ensures r.Circle? == s.Circle? && r.Square? == s.Square?
  {
    match s
    case Circle(p, r, _) => Circle(p, r, c)
    case Square(p, n, _) => Square(p, n, c)
    case Freehand(l) => Freehand(l.(color := c))
  }

  /** FreehandLine::AddPoint on the line's data. */
  function AddPoint(l: Line, p: Point): Line
  {
    l.(points := l.points + [p])
  }

  /** Three results of the C library's rand(), which are never negative. */
  datatype Roll = Roll(red: nat, green: nat, blue: nat)

  /** The colour made of three rand() results, each taken modulo 256. */
  function RandomColor(roll: Roll): Color
  {
    Color(roll.red % 256, roll.green % 256, roll.blue % 256)
  }

  /** FreehandLine::UpdateRainbowColor on the line's data: a random colour if
      the line was created in rainbow mode, no change otherwise. */
  function UpdateRainbowColor(l: Line, roll: Roll): Line
  {
    if l.rainbowMode then l.(color := RandomColor(roll)) else l
  }

  lemma UpdateRainbowColorEffect(l: Line, roll: Roll)
    ensures UpdateRainbowColor(l, roll).points == l.points
    ensures UpdateRainbowColor(l, roll).rainbowMode == l.rainbowMode
    ensures UpdateRainbowColor(l, roll).color != l.color ==> l.rainbowMode
    ensures l.rainbowMode ==> UpdateRainbowColor(l, roll).color == RandomColor(roll)
  {
  }

  // ---------------------------------------------------------------------
  // Drawing: the calls a shape makes on a drawing context

  datatype Pen = Pen(color: Color, width: int)

  /** The width of the pen a freehand line is drawn with. */
  const LineWidth := 2

  /** The drawing-context calls the shapes make: brush and pen selection,
      a circle, a rectangle, a connected polyline. */
  datatype DcCall =
    | SetBrush(fill: Color)
    | SetPen(pen: Pen)
    | DrawCircle(center: Point, radius: int)
    | DrawRectangle(topLeft: Point, width: int, height: int)
    | DrawLines(points: seq<Point>)

  /** Shape::Draw for each variant. A line always selects its pen, and draws
      only when it has more than one point. */
  function Draw(s: Shape): seq<DcCall>
  {
    match s
    case Circle(p, r, c) => [SetBrush(c), DrawCircle(p, r)]
    case Square(p, n, c) => [SetBrush(c), DrawRectangle(p, n, n)]
    case Freehand(l) =>
      [SetPen(Pen(l.color, LineWidth))] + (if |l.points| > 1 then [DrawLines(l.points)] else [])
  }

  /** The calls of drawing the shapes one after another, in list order. */
  function DrawAll(shapes: seq<Shape>): seq<DcCall>
  {
    if shapes == [] then [] else Draw(shapes[0]) + DrawAll(shapes[1..])
  }

  lemma {:induction false} DrawAllAppend(a: seq<Shape>, b: seq<Shape>)
    ensures DrawAll(a + b) == DrawAll(a) + DrawAll(b)
  {
    if a == [] {
      assert a + b == b;
    } else {
      assert (a + b)[1..] == a[1..] + b;
      DrawAllAppend(a[1..], b);
    }
  }

  lemma DrawAllOne(s: Shape)
    ensures DrawAll([s]) == Draw(s)
  {
    assert [s][1..] == [];
  }

  // ---------------------------------------------------------------------
  // What the calls put on screen, given the context's pen and brush

  /** The pen and the brush a drawing context currently holds. */
  datatype Dc = Dc(pen: Pen, brush: Color)

  /** A filled circle or rectangle is filled with the brush and outlined with
      the pen; a polyline is stroked with the pen. */
  datatype Primitive =
    | FilledCircle(center: Point, radius: int, fill: Color, outline: Pen)
    | FilledRectangle(topLeft: Point, width: int, height: int, fill: Color, outline: Pen)
    | Polyline(points: seq<Point>, pen: Pen)

  function Select(dc: Dc, call: DcCall): Dc
  {
    match call
    case SetBrush(c) => dc.(brush := c)
    case SetPen(p) => dc.(pen := p)
    case _ => dc
  }

  function Emit(dc: Dc, call: DcCall): seq<Primitive>
  {
    match call
    case DrawCircle(p, r) => [FilledCircle(p, r, dc.brush, dc.pen)]
    case DrawRectangle(p, w, h) => [FilledRectangle(p, w, h, dc.brush, dc.pen)]
    case DrawLines(ps) => [Polyline(ps, dc.pen)]
    case _ => []
  }

  /** The primitives a sequence of calls puts on screen, from context dc. */
  function Paint(calls: seq<DcCall>, dc: Dc): seq<Primitive>
  {
    if calls == [] then [] else Emit(dc, calls[0]) + Paint(calls[1..], Select(dc, calls[0]))
  }

  /** The context's pen and brush after a sequence of calls. */
  function After(calls: seq<DcCall>, dc: Dc): Dc
  {
    if calls == [] then dc else After(calls[1..], Select(dc, calls[0]))
  }

  lemma {:induction false} PaintAppend(a: seq<DcCall>, b: seq<DcCall>, dc: Dc)
    ensures Paint(a + b, dc) == Paint(a, dc) + Paint(b, After(a, dc))
    ensures After(a + b, dc) == After(b, After(a, dc))
  {
    if a == [] {
      assert a + b == b;
    } else {
      assert (a + b)[1..] == a[1..] + b;
      PaintAppend(a[1..], b, Select(dc, a[0]));
    }
  }

  /** What a shape puts on screen when drawn with outline pen `pen`,
      stated independently of the calls it makes. */
  function Appearance(s: Shape, pen: Pen): seq<Primitive>
  {
    match s
    case Circle(p, r, c) => [FilledCircle(p, r, c, pen)]
    case Square(p, n, c) => [FilledRectangle(p, n, n, c, pen)]
    case Freehand(l) =>
      if |l.points| <= 1 then [] else [Polyline(l.points, Pen(l.color, LineWidth))]
  }

  lemma PaintShape(s: Shape, dc: Dc)
    ensures Paint(Draw(s), dc) == Appearance(s, dc.pen)
    ensures After(Draw(s), dc) == if s.Freehand? then dc.(pen := Pen(s.line.color, LineWidth))
                                  else dc.(brush := ColorOf(s))
  {
    match s
    case Circle(p, r, c) =>
      var d := Select(dc, SetBrush(c));
      assert Draw(s)[1..] == [DrawCircle(p, r)];
      assert Paint([DrawCircle(p, r)], d) == [FilledCircle(p, r, c, dc.pen)];
      assert After([DrawCircle(p, r)], d) == d;
    case Square(p, n, c) =>
      var d := Select(dc, SetBrush(c));
      assert Draw(s)[1..] == [DrawRectangle(p, n, n)];
      assert Paint([DrawRectangle(p, n, n)], d) == [FilledRectangle(p, n, n, c, dc.pen)];
      assert After([DrawRectangle(p, n, n)], d) == d;
    case Freehand(l) =>
      var d := Select(dc, SetPen(Pen(l.color, LineWidth)));
      if |l.points| > 1 {
        assert Draw(s)[1..] == [DrawLines(l.points)];
        assert Paint([DrawLines(l.points)], d) == [Polyline(l.points, Pen(l.color, LineWidth))];
        assert After([DrawLines(l.points)], d) == d;
      } else {
        assert Draw(s)[1..] == [];
      }
  }

  /** A freehand line puts a polyline on screen exactly when it has more than
      one point; that polyline runs through all its points, in order, with a
      pen of its colour and width 2. */
  lemma LinePolyline(l: Line, dc: Dc)
    ensures var shown := Paint(Draw(Freehand(l)), dc);
      (|shown| > 0 <==> |l.points| > 1) &&
      (|shown| > 0 ==> shown == [Polyline(l.points, Pen(l.color, 2))])
  {
    PaintShape(Freehand(l), dc);
  }

  /** A stamp drawn right after a freehand line is outlined with that line's
      pen: the line's colour, width 2, whatever the stamp's own colour. */
  lemma {:induction false} StampOutlineFollowsLine(l: Line, stamp: Shape, dc: Dc)
    requires !stamp.Freehand?
    ensures var shown := Paint(Draw(Freehand(l)) + Draw(stamp), dc);
      |shown| > 0 && !shown[|shown| - 1].Polyline? && shown[|shown| - 1].fill == ColorOf(stamp) &&
      shown[|shown| - 1].outline == Pen(l.color, LineWidth)
  {
    PaintAppend(Draw(Freehand(l)), Draw(stamp), dc);
    PaintShape(Freehand(l), dc);
    PaintShape(stamp, After(Draw(Freehand(l)), dc));
  }
}
