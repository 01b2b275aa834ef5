/** The paint canvas as a value: its committed shapes, the line being drawn,
    the current colour and the four mode flags; how each pointer handler and
    each setter changes it; what a repaint draws; and what holds of every
    sequence of events. */
module Drawing {
  import opened Geometry
  import opened Optional
  import opened Shapes

  /** The size of stamped circles (radius) and squares (side length). */
  const ShapeSize := 50

  datatype Modes = Modes(rainbow: bool, eraser: bool, circle: bool, square: bool)

  const NoModes := Modes(false, false, false, false)

  /** The canvas state. `current` is the line being drawn, if any. */
  datatype Canvas = Canvas(shapes: seq<Shape>, current: Option<Line>, color: Color, modes: Modes)

  /** A new canvas: nothing drawn, black, every mode off. */
  const Initial := Canvas([], None, Black, NoModes)

  // ---------------------------------------------------------------------
  // The five setters

  function SetColor(s: Canvas, c: Color): Canvas
  {
    s.(color := c, modes := NoModes)
  }

  /** Leaves the eraser flag as it is. */
  function EnableRainbowMode(s: Canvas): Canvas
  {
    s.(modes := s.modes.(rainbow := true, circle := false, square := false))
  }

  /** Leaves the rainbow flag as it is. */
  function EnableEraserMode(s: Canvas): Canvas
  {
    s.(modes := s.modes.(eraser := true, circle := false, square := false))
  }

  function EnableCircleMode(s: Canvas): Canvas
  {
    s.(modes := Modes(false, false, true, false))
  }

  function EnableSquareMode(s: Canvas): Canvas
  {
    s.(modes := Modes(false, false, false, true))
  }

  // ---------------------------------------------------------------------
  // The pointer handlers

  /** The line a freehand pointer-down starts: white and never recoloured in
      eraser mode, otherwise the current colour with the canvas's rainbow flag. */
  function NewLine(s: Canvas): Line
  {
    if s.modes.eraser then Line([], White, false) else Line([], s.color, s.modes.rainbow)
  }

  /** Pointer-down. Circle mode is tested first, then square mode, then eraser
      mode. A stamp is committed at once, and a line left over from an earlier
      pointer-down still gets the point; a freehand pointer-down replaces any
      leftover line without committing it. */
  function OnLeftDown(s: Canvas, pos: Point): Canvas
  {
    if s.modes.circle || s.modes.square then
      var stamp := if s.modes.circle then Circle(pos, ShapeSize, s.color)
                   else Square(pos, ShapeSize, s.color);
      s.(shapes := s.shapes + [stamp],
         current := if s.current.Some? then Some(AddPoint(s.current.value, pos)) else None)
    else
      s.(current := Some(AddPoint(NewLine(s), pos)))
  }

  /** Pointer-up: the line being drawn, if any, gets the point and is committed. */
  function OnLeftUp(s: Canvas, pos: Point): Canvas
  {
    match s.current
    case None => s
    case Some(l) => s.(shapes := s.shapes + [Freehand(AddPoint(l, pos))], current := None)
  }

  /** Pointer-move: the line being drawn, if any, re-rolls its colour when the
      canvas is in rainbow mode, then gets the point. */
  function OnMouseMove(s: Canvas, pos: Point, roll: Roll): Canvas
  {
    match s.current
    case None => s
    case Some(l) =>
      var l' := if s.modes.rainbow then UpdateRainbowColor(l, roll) else l;
      s.(current := Some(AddPoint(l', pos)))
  }

  // ---------------------------------------------------------------------
  // Repaint

  /** The calls of a repaint: the committed shapes in list order, then the
      line being drawn. */
  function Render(s: Canvas): seq<DcCall>
  {
    DrawAll(s.shapes) + if s.current.Some? then Draw(Freehand(s.current.value)) else []
  }

  // ---------------------------------------------------------------------
  // Event sequences

  datatype Event =
    | LeftDown(pos: Point)
    | MouseMove(pos: Point, roll: Roll)
    | LeftUp(pos: Point)
    | ChooseColor(c: Color)
    | ChooseRainbow
    | ChooseEraser
    | ChooseCircle
    | ChooseSquare

  function Step(s: Canvas, e: Event): Canvas
  {
    match e
    case LeftDown(p) => OnLeftDown(s, p)
    case MouseMove(p, roll) => OnMouseMove(s, p, roll)
    case LeftUp(p) => OnLeftUp(s, p)
    case ChooseColor(c) => SetColor(s, c)
    case ChooseRainbow => EnableRainbowMode(s)
    case ChooseEraser => EnableEraserMode(s)
    case ChooseCircle => EnableCircleMode(s)
    case ChooseSquare => EnableSquareMode(s)
  }

  /** The state after handling the events in order. */
  function Run(s: Canvas, es: seq<Event>): Canvas
    decreases |es|
  {
    if es == [] then s else Run(Step(s, es[0]), es[1..])
  }

  lemma {:induction false} RunAppend(s: Canvas, a: seq<Event>, b: seq<Event>)
    ensures Run(s, a + b) == Run(Run(s, a), b)
    decreases |a|
  {
    if a == [] {
      assert a + b == b;
    } else {
      assert (a + b)[1..] == a[1..] + b;
      RunAppend(Step(s, a[0]), a[1..], b);
    }
  }

  lemma RunOne(s: Canvas, e: Event)
    ensures Run(s, [e]) == Step(s, e)
  {
    assert [e][1..] == [];
  }

  // ---------------------------------------------------------------------
  // Modes

  /** The mode combinations the setters can produce: never both stamps, and
      a stamp mode only with rainbow and eraser off. */
  predicate ModesConsistent(m: Modes)
  {
    !(m.circle && m.square) && ((m.circle || m.square) ==> !m.rainbow && !m.eraser)
  }

  /** Every event keeps the mode flags consistent; pointer events leave them
      as they are. */
  lemma StepModes(s: Canvas, e: Event)
    requires ModesConsistent(s.modes)
    ensures ModesConsistent(Step(s, e).modes)
    ensures (e.LeftDown? || e.MouseMove? || e.LeftUp?) ==> Step(s, e).modes == s.modes
  {
  }

  lemma {:induction false} RunModes(s: Canvas, es: seq<Event>)
    requires ModesConsistent(s.modes)
    ensures ModesConsistent(Run(s, es).modes)
    decreases |es|
  {
    if es != [] {
      StepModes(s, es[0]);
      RunModes(Step(s, es[0]), es[1..]);
    }
  }

  /** No sequence of events from a new canvas sets both stamp modes, or a
      stamp mode together with rainbow or eraser. */
  lemma ReachableModesConsistent(es: seq<Event>)
    ensures ModesConsistent(Run(Initial, es).modes)
  {
    RunModes(Initial, es);
  }

  /** Setter calls that reach a given consistent combination. */
  function SettersFor(m: Modes): seq<Event>
  {
    if m.circle then [ChooseCircle]
    else if m.square then [ChooseSquare]
    else (if m.rainbow then [ChooseRainbow] else []) + (if m.eraser then [ChooseEraser] else [])
  }

  /** Every consistent combination is reached from a new canvas, including
      rainbow together with eraser. */
  lemma ConsistentModesReachable(m: Modes)
    requires ModesConsistent(m)
    ensures Run(Initial, SettersFor(m)).modes == m
  {
    var es := SettersFor(m);
    if m.circle || m.square {
      RunOne(Initial, es[0]);
    } else if m.rainbow && m.eraser {
      RunAppend(Initial, [ChooseRainbow], [ChooseEraser]);
      RunOne(Initial, ChooseRainbow);
      RunOne(EnableRainbowMode(Initial), ChooseEraser);
    } else if m.rainbow || m.eraser {
      assert es == [if m.rainbow then ChooseRainbow else ChooseEraser];
      RunOne(Initial, es[0]);
    } else {
      assert es == [];
    }
  }

  /** With rainbow and eraser both set and no stamp mode, eraser wins: the
      stroke is white and never recoloured. */
  lemma EraserWins(s: Canvas, pos: Point)
    requires s.modes.eraser && !s.modes.circle && !s.modes.square
    ensures OnLeftDown(s, pos).current == Some(Line([pos], White, false))
  {
    assert [] + [pos] == [pos];
  }

  // ---------------------------------------------------------------------
  // Colour

  /** The colour given by the last colour choice in es, or c if there is none. */
  function LastChosenColor(c: Color, es: seq<Event>): Color
  {
    if es == [] then c
    else if es[|es| - 1].ChooseColor? then es[|es| - 1].c
    else LastChosenColor(c, es[..|es| - 1])
  }

  /** Only SetColor changes the current colour, and it sets it to its
      argument: after any events, the colour is the last one chosen, or the
      starting colour. */
  lemma {:induction false} RunColor(s: Canvas, es: seq<Event>)
    ensures Run(s, es).color == LastChosenColor(s.color, es)
  {
    if es != [] {
      var n := |es| - 1;
      assert es == es[..n] + [es[n]];
      RunAppend(s, es[..n], [es[n]]);
      RunOne(Run(s, es[..n]), es[n]);
      RunColor(s, es[..n]);
    }
  }

  lemma {:induction false} NothingChosen(c: Color, es: seq<Event>)
    requires forall i :: 0 <= i < |es| ==> !es[i].ChooseColor?
    ensures LastChosenColor(c, es) == c
  {
    if es != [] {
      NothingChosen(c, es[..|es| - 1]);
    }
  }

  /** A new canvas draws in black until a colour is chosen. */
  lemma BlackUntilChosen(es: seq<Event>)
    requires forall i :: 0 <= i < |es| ==> !es[i].ChooseColor?
    ensures Run(Initial, es).color == Black
  {
    RunColor(Initial, es);
    NothingChosen(Black, es);
  }

  /** SetColor sets the colour and turns every mode off, leaving the drawing
      alone. */
  lemma SetColorClearsModes(s: Canvas, c: Color)
    ensures var t := SetColor(s, c);
      t.color == c && !t.modes.rainbow && !t.modes.eraser && !t.modes.circle && !t.modes.square &&
      t.shapes == s.shapes && t.current == s.current
  {
  }

  // ---------------------------------------------------------------------
  // Stamps

  /** A pointer-down in a stamp mode appends exactly one circle (circle mode
      wins) or square of size 50 at the pointer in the current colour, and
      leaves no line in progress if there was none. */
  lemma Stamp(s: Canvas, pos: Point)
    requires s.modes.circle || s.modes.square
    ensures var t := OnLeftDown(s, pos);
      t.shapes == s.shapes + [if s.modes.circle then Circle(pos, 50, s.color) else Square(pos, 50, s.color)] &&
      t.color == s.color && t.modes == s.modes &&
      (s.current.None? ==> t.current.None?)
  {
  }

  /** A stamp extends a line left over from an earlier pointer-down. */
  lemma StampExtendsLeftover(s: Canvas, pos: Point)
    requires s.modes.circle || s.modes.square
    requires s.current.Some?
    ensures OnLeftDown(s, pos).current == Some(AddPoint(s.current.value, pos))
  {
  }

  /** A freehand pointer-down drops a leftover line: it is not committed. */
  lemma LeftoverDropped(s: Canvas, pos: Point)
    requires !s.modes.circle && !s.modes.square
    ensures OnLeftDown(s, pos).shapes == s.shapes
    ensures OnLeftDown(s, pos).current == Some(AddPoint(NewLine(s), pos))
    ensures OnLeftDown(s, pos).current.value.points == [pos]
  {
  }

  /** A leftover line reaches a stamp: pointer-down, no pointer-up, circle
      mode, pointer-down again. */
  lemma LeftoverReachable(p: Point, q: Point)
    ensures var t := Run(Initial, [LeftDown(p), ChooseCircle, LeftDown(q)]);
      t.shapes == [Circle(q, 50, Black)] && t.current == Some(Line([p, q], Black, false))
  {
    var s1 := OnLeftDown(Initial, p);
    var s2 := EnableCircleMode(s1);
    RunAppend(Initial, [LeftDown(p)], [ChooseCircle, LeftDown(q)]);
    RunOne(Initial, LeftDown(p));
    RunAppend(s1, [ChooseCircle], [LeftDown(q)]);
    RunOne(s1, ChooseCircle);
    RunOne(s2, LeftDown(q));
    assert [] + [p] + [q] == [p, q];
  }

  // ---------------------------------------------------------------------
  // Strokes

  predicate AllMoves(es: seq<Event>)
  {
    forall i :: 0 <= i < |es| ==> es[i].MouseMove?
  }

  function Positions(es: seq<Event>): (ps: seq<Point>)
    requires AllMoves(es)
    ensures |ps| == |es|
  {
    seq(|es|, i requires 0 <= i < |es| => es[i].pos)
  }

  /** The colour of line l after the moves: the colour rolled at the last move
      if l re-rolls and the canvas is in rainbow mode, else l's own colour. */
  function ColorAfterMoves(l: Line, rainbow: bool, moves: seq<Event>): Color
    requires AllMoves(moves)
  {
    if l.rainbowMode && rainbow && |moves| > 0 then RandomColor(moves[|moves| - 1].roll) else l.color
  }

  /** Pointer-moves extend the line being drawn by their positions, in order,
      and change nothing else on the canvas; the line's colour is the one
      rolled at the last move when both the line and the canvas are in
      rainbow mode, and unchanged otherwise. */
  lemma {:induction false} Drag(s: Canvas, moves: seq<Event>)
    requires s.current.Some? && AllMoves(moves)
    ensures var t := Run(s, moves);
      t.shapes == s.shapes && t.color == s.color && t.modes == s.modes &&
      t.current == Some(Line(s.current.value.points + Positions(moves),
                             ColorAfterMoves(s.current.value, s.modes.rainbow, moves),
                             s.current.value.rainbowMode))
    decreases |moves|
  {
    var l := s.current.value;
    if moves == [] {
      assert l.points + Positions(moves) == l.points;
    } else {
      var s1 := Step(s, moves[0]);
      var rest := moves[1..];
      assert AllMoves(rest);
      Drag(s1, rest);
      assert Positions(moves) == [moves[0].pos] + Positions(rest);
      assert s1.current.value.points + Positions(rest) == l.points + Positions(moves);
      if rest != [] {
        assert moves[|moves| - 1] == rest[|rest| - 1];
      }
    }
  }

  /** Stroke lifecycle: outside the stamp modes, pointer-down, N moves and
      pointer-up commit exactly one new line holding the N + 2 positions in
      event order, in the colour and with the flag it was created with
      (re-rolled at each move if both are in rainbow mode), and leave no line
      in progress. A leftover line is dropped. */
  lemma StrokeLifecycle(s: Canvas, down: Point, moves: seq<Event>, up: Point)
    requires !s.modes.circle && !s.modes.square && AllMoves(moves)
    ensures var t := Run(s, [LeftDown(down)] + moves + [LeftUp(up)]);
      var l := NewLine(s);
      t.shapes == s.shapes + [Freehand(Line([down] + Positions(moves) + [up],
                                            ColorAfterMoves(l, s.modes.rainbow, moves), l.rainbowMode))] &&
      t.current.None? && t.color == s.color && t.modes == s.modes
  {
    var s1 := OnLeftDown(s, down);
    RunAppend(s, [LeftDown(down)] + moves, [LeftUp(up)]);
    RunAppend(s, [LeftDown(down)], moves);
    RunOne(s, LeftDown(down));
    Drag(s1, moves);
    RunOne(Run(s1, moves), LeftUp(up));
    var l := NewLine(s);
    assert s1.current.value == Line([down], l.color, l.rainbowMode);
    assert ColorAfterMoves(s1.current.value, s.modes.rainbow, moves) == ColorAfterMoves(l, s.modes.rainbow, moves);
  }

  /** A stroke commits N + 2 points. */
  lemma StrokePointCount(s: Canvas, down: Point, moves: seq<Event>, up: Point)
    requires !s.modes.circle && !s.modes.square && AllMoves(moves)
    ensures var t := Run(s, [LeftDown(down)] + moves + [LeftUp(up)]);
      |t.shapes| == |s.shapes| + 1 && t.shapes[|s.shapes|].Freehand? &&
      |t.shapes[|s.shapes|].line.points| == |moves| + 2
  {
    StrokeLifecycle(s, down, moves, up);
  }

  /** An eraser stroke is committed white and without the rainbow flag,
      whatever the current colour and the canvas's rainbow flag. */
  lemma EraserStroke(s: Canvas, down: Point, moves: seq<Event>, up: Point)
    requires s.modes.eraser && !s.modes.circle && !s.modes.square && AllMoves(moves)
    ensures var t := Run(s, [LeftDown(down)] + moves + [LeftUp(up)]);
      |t.shapes| == |s.shapes| + 1 && t.shapes[|s.shapes|] == Freehand(Line([down] + Positions(moves) + [up], White, false))
  {
    StrokeLifecycle(s, down, moves, up);
  }

  /** Outside rainbow mode a stroke keeps the current colour throughout. */
  lemma PlainStroke(s: Canvas, down: Point, moves: seq<Event>, up: Point)
    requires !s.modes.rainbow && !s.modes.eraser && !s.modes.circle && !s.modes.square
    requires AllMoves(moves)
    ensures var t := Run(s, [LeftDown(down)] + moves + [LeftUp(up)]);
      |t.shapes| == |s.shapes| + 1 && t.shapes[|s.shapes|] == Freehand(Line([down] + Positions(moves) + [up], s.color, false))
  {
    StrokeLifecycle(s, down, moves, up);
  }

  /** One pointer-move: the line gets the point; its colour changes only if
      the line and the canvas are both in rainbow mode, and then to the rolled
      colour; nothing else changes. */
  lemma MoveRecolors(s: Canvas, pos: Point, roll: Roll)
    requires s.current.Some?
    ensures var t := OnMouseMove(s, pos, roll);
      var l, l' := s.current.value, t.current.value;
      t.current.Some? && l'.points == l.points + [pos] && l'.rainbowMode == l.rainbowMode &&
      (l'.color != l.color ==> s.modes.rainbow && l.rainbowMode) &&
      (s.modes.rainbow && l.rainbowMode ==> l'.color == RandomColor(roll)) &&
      t.shapes == s.shapes && t.color == s.color && t.modes == s.modes
  {
    UpdateRainbowColorEffect(s.current.value, roll);
  }

  // ---------------------------------------------------------------------
  // The shape list

  /** Pointer-up and pointer-move with no line in progress change nothing. */
  lemma IdleEventsNoOp(s: Canvas, pos: Point, roll: Roll)
    requires s.current.None?
    ensures OnLeftUp(s, pos) == s && OnMouseMove(s, pos, roll) == s
  {
  }

  /** The shape list is append-only: events never reorder, change or remove
      a committed shape, and each event commits at most one. */
  lemma {:induction false} RunAppendOnly(s: Canvas, es: seq<Event>)
    ensures s.shapes <= Run(s, es).shapes
    ensures |Run(s, es).shapes| <= |s.shapes| + |es|
    decreases |es|
  {
    if es != [] {
      RunAppendOnly(Step(s, es[0]), es[1..]);
    }
  }

  /** Every committed line has at least two points, and a line in progress
      at least one: pointer-down gives a line its first point and pointer-up
      adds one more before committing it. */
  predicate PointCounts(s: Canvas)
  {
    (forall i :: 0 <= i < |s.shapes| && s.shapes[i].Freehand? ==> |s.shapes[i].line.points| >= 2) &&
    (s.current.Some? ==> |s.current.value.points| >= 1)
  }

  lemma StepCounts(s: Canvas, e: Event)
    requires PointCounts(s)
    ensures PointCounts(Step(s, e))
  {
  }

  /** After any events, every committed line has at least two points, even
      when stamps extended a leftover line on the way. */
  lemma {:induction false} RunCounts(s: Canvas, es: seq<Event>)
    requires PointCounts(s)
    ensures PointCounts(Run(s, es))
    decreases |es|
  {
    if es != [] {
      StepCounts(s, es[0]);
      RunCounts(Step(s, es[0]), es[1..]);
    }
  }

  /** A pointer-down and pointer-up at the same point commit a line holding
      that point twice, and the repaint draws it as a polyline. */
  lemma SamePointStroke(s: Canvas, p: Point)
    requires !s.modes.circle && !s.modes.square
    ensures var t := Run(s, [LeftDown(p), LeftUp(p)]);
      |t.shapes| == |s.shapes| + 1 &&
      t.shapes[|s.shapes|] == Freehand(Line([p, p], NewLine(s).color, NewLine(s).rainbowMode)) &&
      DrawLines([p, p]) in Render(t)
  {
    StrokeLifecycle(s, p, [], p);
    var t := Run(s, [LeftDown(p), LeftUp(p)]);
    assert [LeftDown(p)] + [] + [LeftUp(p)] == [LeftDown(p), LeftUp(p)];
    assert [p] + Positions([]) + [p] == [p, p];
    var l := Line([p, p], NewLine(s).color, NewLine(s).rainbowMode);
    assert t.shapes == s.shapes + [Freehand(l)];
    DrawAllAppend(s.shapes, [Freehand(l)]);
    DrawAllOne(Freehand(l));
    assert Draw(Freehand(l))[1] == DrawLines([p, p]);
    assert Render(t)[|DrawAll(s.shapes)| + 1] == DrawLines([p, p]);
  }

  /** Committing a line changes nothing on screen beyond the pointer-up's
      point: the repaint after pointer-up is the repaint of the line extended
      by that point. */
  lemma CommitKeepsPicture(s: Canvas, pos: Point)
    requires s.current.Some?
    ensures Render(OnLeftUp(s, pos)) == Render(s.(current := Some(AddPoint(s.current.value, pos))))
  {
    var l := AddPoint(s.current.value, pos);
    DrawAllAppend(s.shapes, [Freehand(l)]);
    DrawAllOne(Freehand(l));
  }

  /** A repaint after any events still begins with exactly the calls that
      drew the shapes committed before them. */
  lemma RenderKeepsEarlierShapes(s: Canvas, es: seq<Event>)
    ensures DrawAll(s.shapes) <= Render(Run(s, es))
  {
    var t := Run(s, es);
    RunAppendOnly(s, es);
    assert t.shapes == s.shapes + t.shapes[|s.shapes|..];
    DrawAllAppend(s.shapes, t.shapes[|s.shapes|..]);
  }
}
