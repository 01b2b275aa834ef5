/** The objects whose fields the handlers update in place: the freehand line
    being drawn, and the canvas itself. Each method is specified by the
    function of module Drawing or Shapes that says what it does to the
    object's value. */
module PaintApp {
  import opened Geometry
  import opened Optional
  import opened Shapes
  import Drawing

  /** A freehand line under construction. Its point list grows in place and
      its colour is overwritten in place; its rainbow flag is fixed at
      creation. */
  class FreehandLine {
    var points: seq<Point>
    var color: Color
    const rainbowMode: bool

    function Value(): Line
      reads this
    {
      Line(points, color, rainbowMode)
    }

    constructor (color: Color, rainbowMode: bool)
      ensures Value() == Line([], color, rainbowMode)
    {
      this.points := [];
      this.color := color;
      this.rainbowMode := rainbowMode;
    }

    method AddPoint(point: Point)
      modifies this
      ensures Value() == Shapes.AddPoint(old(Value()), point)
    {
      points := points + [point];
    }

    method SetColor(color: Color)
      modifies this
      ensures Freehand(Value()) == Shapes.SetColor(Freehand(old(Value())), color)
    {
      this.color := color;
    }

    /** `roll` stands for the three rand() calls. */
    method UpdateRainbowColor(roll: Roll)
      modifies this
      ensures Value() == Shapes.UpdateRainbowColor(old(Value()), roll)
    {
      if rainbowMode {
        color := RandomColor(roll);
      }
    }
  }

  /** The drawing canvas. Committed shapes are held as values: once a line is
      committed the canvas keeps no other reference to it and never changes
      it again. */
  class PaintCanvas {
    var shapes: seq<Shape>
    var currentLine: FreehandLine?
    var currentColor: Color
    var rainbowMode: bool
    var eraserMode: bool
    var circleMode: bool
    var squareMode: bool
    const shapeSize: int := Drawing.ShapeSize

    /** The canvas's value. */
    function State(): Drawing.Canvas
      reads this, currentLine
    {
      Drawing.Canvas(shapes,
                     if currentLine == null then None else Some(currentLine.Value()),
                     currentColor,
                     Drawing.Modes(rainbowMode, eraserMode, circleMode, squareMode))
    }

    constructor ()
      ensures State() == Drawing.Initial
    {
      shapes := [];
      currentLine := null;
      currentColor := Black;
      rainbowMode, eraserMode, circleMode, squareMode := false, false, false, false;
    }

    /** Repaint: the calls of drawing each committed shape in list order, then
      the line being drawn. Changes nothing. */
    method OnPaint() returns (calls: seq<DcCall>)
      ensures calls == Drawing.Render(State())
    {
      calls := [];
      for i := 0 to |shapes|
        invariant calls == DrawAll(shapes[..i])
      {
        DrawAllAppend(shapes[..i], [shapes[i]]);
        DrawAllOne(shapes[i]);
        assert shapes[..i + 1] == shapes[..i] + [shapes[i]];
        calls := calls + Draw(shapes[i]);
      }
      assert shapes[..|shapes|] == shapes;
      if currentLine != null {
        calls := calls + Draw(Freehand(currentLine.Value()));
      }
    }

    method OnLeftDown(pos: Point)
      modifies this, currentLine
      ensures State() == Drawing.OnLeftDown(old(State()), pos)
      ensures currentLine == null || currentLine == old(currentLine) || fresh(currentLine)
    {
      if circleMode {
        var circle := Circle(pos, shapeSize, currentColor);
        shapes := shapes + [circle];
      } else if squareMode {
        var square := Square(pos, shapeSize, currentColor);
        shapes := shapes + [square];
      } else if eraserMode {
        currentLine := new FreehandLine(White, false);
      } else {
        currentLine := new FreehandLine(currentColor, rainbowMode);
      }
      if currentLine != null {
        currentLine.AddPoint(pos);
      }
    }

    method OnLeftUp(pos: Point)
      modifies this, currentLine
      ensures State() == Drawing.OnLeftUp(old(State()), pos)
      ensures currentLine == null
    {
      if currentLine != null {
        currentLine.AddPoint(pos);
        shapes := shapes + [Freehand(currentLine.Value())];
        currentLine := null;
      }
    }

    /** `roll` stands for the three rand() calls a rainbow re-roll makes. */
    method OnMouseMove(pos: Point, roll: Roll)
      modifies this, currentLine
      ensures State() == Drawing.OnMouseMove(old(State()), pos, roll)
      ensures currentLine == old(currentLine)
    {
      if currentLine != null {
        if rainbowMode {
          currentLine.UpdateRainbowColor(roll);
        }
        currentLine.AddPoint(pos);
      }
    }

    method SetColor(color: Color)
      modifies this
      ensures State() == Drawing.SetColor(old(State()), color)
      ensures currentLine == old(currentLine)
    {
      currentColor := color;
      eraserMode := false;
      rainbowMode := false;
      circleMode := false;
      squareMode := false;
    }

    method EnableRainbowMode()
      modifies this
      ensures State() == Drawing.EnableRainbowMode(old(State()))
      ensures currentLine == old(currentLine)
    {
      rainbowMode := true;
      circleMode := false;
      squareMode := false;
    }

    method EnableEraserMode()
      modifies this
      ensures State() == Drawing.EnableEraserMode(old(State()))
      ensures currentLine == old(currentLine)
    {
      eraserMode := true;
      circleMode := false;
      squareMode := false;
    }

    method EnableCircleMode()
      modifies this
      ensures State() == Drawing.EnableCircleMode(old(State()))
      ensures currentLine == old(currentLine)
    {
      circleMode := true;
      eraserMode := false;
      rainbowMode := false;
      squareMode := false;
    }

    method EnableSquareMode()
      modifies this
      ensures State() == Drawing.EnableSquareMode(old(State()))
      ensures currentLine == old(currentLine)
    {
      squareMode := true;
      eraserMode := false;
      rainbowMode := false;
      circleMode := false;
    }
  }

  /** Choosing green on a new canvas and dragging from (10,10) through (20,10)
      to (30,10) commits one green line through the three points, without the
      rainbow flag, and leaves no line in progress. */
  method GreenStroke(roll: Roll) returns (committed: seq<Shape>, drawing: bool)
    ensures committed == [Freehand(Line([Point(10, 10), Point(20, 10), Point(30, 10)], Green, false))]
    ensures !drawing
  {
    var canvas := new PaintCanvas();
    canvas.SetColor(Green);
    canvas.OnLeftDown(Point(10, 10));
    canvas.OnMouseMove(Point(20, 10), roll);
    canvas.OnLeftUp(Point(30, 10));
    assert [] + [Point(10, 10)] + [Point(20, 10)] + [Point(30, 10)]
        == [Point(10, 10), Point(20, 10), Point(30, 10)];
    committed := canvas.shapes;
    drawing := canvas.currentLine != null;
  }

  /** Repainting twice with nothing in between gives the same calls. This
      follows from OnPaint's contract: it has no modifies clause, so the
      second call sees the state the first one saw. */
  method RepaintTwice(canvas: PaintCanvas) returns (first: seq<DcCall>, second: seq<DcCall>)
    ensures first == second
  {
    first := canvas.OnPaint();
    second := canvas.OnPaint();
  }
}
