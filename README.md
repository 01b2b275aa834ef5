# Paint canvas model

This project models the drawing canvas of a small interactive paint program. The canvas keeps a list of committed shapes: freehand lines, fixed-size circles and fixed-size squares. It also keeps the line being drawn, if there is one, a current colour, and four mode flags: rainbow, eraser, circle and square. Pointer-down, pointer-move and pointer-up change this state, and so do one colour setter and four mode setters. A repaint draws the committed shapes in list order and then the line being drawn.

Modules:

- `Geometry`: points, byte-valued RGB colours, and the colours the canvas uses.
- `Optional`: the optional value used for a pointer that may be null.
- `Shapes`: the three shape variants as values, and recolouring. It holds the data-level forms of a freehand line's `AddPoint` and `UpdateRainbowColor`. `Draw` gives the drawing-context calls each shape makes (brush or pen selection, then a circle, a rectangle or a polyline). `Paint` says which primitives those calls put on screen, given the context's pen and brush.
- `Drawing`: the canvas as a value. It has one function per handler and per setter, and `Render` for repaint. `Step` and `Run` apply events in order. The lemmas state what holds of every sequence of events.
- `PaintApp`: the two classes whose fields the program updates in place, `FreehandLine` and `PaintCanvas`. Each method's postcondition says that the object's new value is the matching `Shapes` or `Drawing` function of its old value.

The random colour of a rainbow stroke comes from three `rand()` calls. In this model it is a parameter, `Roll`: three non-negative integers, each reduced modulo 256. Every lemma holds for all rolls.

Behaviour of the code worth knowing, each stated by a lemma:

- `EnableRainbowMode` leaves the eraser flag set and `EnableEraserMode` leaves the rainbow flag set (Source.cpp:191-201), so rainbow and eraser can both be on. At pointer-down the eraser wins, because it is tested first (Source.cpp:152). `Drawing.ConsistentModesReachable` and `Drawing.EraserWins` state this.
- A freehand pointer-down replaces a line still in progress without committing it, and a stamp pointer-down adds its point to such a line (Source.cpp:153-160). A leftover line exists when a pointer-down gets no matching pointer-up.
- A circle or square is filled with its brush and outlined with the drawing context's current pen (Source.cpp:25-26 select only the brush). That pen is the pen of the last line drawn earlier in the same repaint, or else the context's initial pen (`Shapes.PaintShape`, `Shapes.StampOutlineFollowsLine`).
- Pointer-down adds the first point to a line and pointer-up adds one more before committing it, so every committed line has at least two points (`Drawing.RunCounts`). A pointer-down and pointer-up at the same point commit that point twice, and the line is drawn as a polyline (Source.cpp:71, `Drawing.SamePointStroke`).

## Model

| member | source | states |
|---|---|---|
| Shapes.SetColor | Source.cpp:29-31 | recolouring a shape (the same override at 50-52 and 76-78) gives it the new colour and keeps its variant, its geometry, and a line's points and flag |
| Shapes.UpdateRainbowColorEffect | Source.cpp:81-85 | a line's colour changes only if the line was created in rainbow mode, and then it becomes the rolled colour; the points and the flag are kept |
| Shapes.DrawAllAppend | Source.cpp:123-125 | drawing two lists of shapes one after the other makes the calls of the first list followed by those of the second |
| Shapes.PaintShape | Source.cpp:24-74 | a circle shows one filled circle and a square one filled square, each in its colour and outlined with the context's pen; a line shows one polyline of width 2 in its colour when it has more than one point, and nothing otherwise; a line leaves its pen selected, a stamp leaves its brush selected |
| Shapes.LinePolyline | Source.cpp:69-74 | a line shows something exactly when it has more than one point, and then it shows exactly one polyline through all its points in order, in its colour, with width 2 |
| Shapes.StampOutlineFollowsLine | Source.cpp:24-27 | a circle or square drawn right after a line is filled with its own colour and outlined with that line's pen, because its own Draw selects only the brush |
| Drawing.StepModes | Source.cpp:183-215 | every setter keeps the mode flags consistent, and pointer events do not change the flags |
| Drawing.RunModes | Source.cpp:183-215 | every sequence of events keeps the mode flags consistent: never both stamp modes, and a stamp mode only with rainbow and eraser off |
| Drawing.ReachableModesConsistent | Source.cpp:96-99 | starting from all flags off, no sequence of events makes the flags inconsistent |
| Drawing.ConsistentModesReachable | Source.cpp:191-201 | every consistent flag combination, rainbow together with eraser included, is reached from a new canvas |
| Drawing.EraserWins | Source.cpp:152-154 | in eraser mode outside the stamp modes, pointer-down starts a white line without the rainbow flag holding just the pointer position, whatever the rainbow flag and the colour are |
| Drawing.RunColor | Source.cpp:183-215 | after any events the current colour is the argument of the last SetColor, or the starting colour if there was none; no other event changes it |
| Drawing.BlackUntilChosen | Source.cpp:104 | a new canvas draws in black until SetColor is called |
| Drawing.SetColorClearsModes | Source.cpp:183-189 | SetColor sets the colour to its argument, turns all four flags off, and leaves the shapes and the line being drawn alone |
| Drawing.Stamp | Source.cpp:137-151 | in circle mode pointer-down appends exactly one circle of radius 50 at the pointer in the current colour; in square mode it appends one square of side 50 the same way; circle mode is tested first; the existing shapes, the colour and the modes are kept, and no line is left in progress if none was |
| Drawing.StampExtendsLeftover | Source.cpp:158-160 | a stamp pointer-down adds its point to a leftover line |
| Drawing.LeftoverDropped | Source.cpp:152-157 | a freehand pointer-down commits nothing, and it replaces any leftover line with a new line holding only the pointer position |
| Drawing.LeftoverReachable | Source.cpp:137-160 | pointer-down, circle mode, pointer-down leaves a committed circle and a line in progress that holds both positions |
| Drawing.Drag | Source.cpp:173-181 | pointer-moves add their positions to the line being drawn, in order, and change nothing else; the line's colour is the one rolled at the last move if both the line and the canvas are in rainbow mode, and is unchanged otherwise |
| Drawing.StrokeLifecycle | Source.cpp:152-171 | outside the stamp modes, pointer-down, N pointer-moves and pointer-up commit exactly one new line; its points are the down position, the N move positions and the up position, in event order; it has its creation colour and flag, re-rolled as in Drag; no line is left in progress; the colour and the modes are kept |
| Drawing.StrokePointCount | Source.cpp:152-181 | such a stroke commits a line of N + 2 points |
| Drawing.EraserStroke | Source.cpp:152-154 | an eraser stroke is committed white and without the rainbow flag, whatever the colour and the canvas's rainbow flag |
| Drawing.PlainStroke | Source.cpp:155-157 | outside rainbow, eraser and the stamp modes, a stroke is committed in the current colour |
| Drawing.MoveRecolors | Source.cpp:173-181 | one pointer-move adds its point to the line; the line's colour changes only if both the line and the canvas are in rainbow mode, and then it becomes the rolled colour; the shapes, the colour and the modes are kept |
| Drawing.IdleEventsNoOp | Source.cpp:164-181 | pointer-up and pointer-move with no line in progress change nothing |
| Drawing.RunAppendOnly | Source.cpp:137-171 | the shape list only grows at the end: after any events the old list is a prefix of the new one, and each event commits at most one shape |
| Drawing.CommitKeepsPicture | Source.cpp:164-169 | the repaint after pointer-up equals the repaint of the line in progress extended by the up point |
| Drawing.StepCounts | Source.cpp:137-181 | every event keeps each committed line at two points or more and a line in progress at one point or more |
| Drawing.RunCounts | Source.cpp:137-181 | after any sequence of events, stamps on leftover lines included, every committed line has at least two points and a line in progress at least one |
| Drawing.SamePointStroke | Source.cpp:152-171 | outside the stamp modes, pointer-down and pointer-up at the same point p commit a line holding [p, p], and the repaint then contains a polyline through [p, p] |
| Drawing.RenderKeepsEarlierShapes | Source.cpp:121-128 | after any events, a repaint still begins with exactly the calls that drew the shapes committed before them |
| PaintApp.FreehandLine.constructor | Source.cpp:63 | a new line has no points and the given colour and flag |
| PaintApp.FreehandLine.AddPoint | Source.cpp:65-67 | the point is appended at the end; the colour and the flag are kept |
| PaintApp.FreehandLine.SetColor | Source.cpp:76-78 | the colour is overwritten; the points and the flag are kept |
| PaintApp.FreehandLine.UpdateRainbowColor | Source.cpp:81-85 | the line gets the rolled colour if it was created in rainbow mode, and is unchanged otherwise |
| PaintApp.PaintCanvas.constructor | Source.cpp:92-104 | a new canvas has no shapes, no line in progress, colour black and every flag off |
| PaintApp.PaintCanvas.OnPaint | Source.cpp:121-135 | the calls made are those of each committed shape in list order, then those of the line in progress; nothing is changed, so repeated repaints agree |
| PaintApp.PaintCanvas.OnLeftDown | Source.cpp:137-162 | the new canvas value is the pointer-down transition of the old one; a line in progress afterwards is either the old one or a new object |
| PaintApp.PaintCanvas.OnLeftUp | Source.cpp:164-171 | the new canvas value is the pointer-up transition of the old one; no line is in progress afterwards |
| PaintApp.PaintCanvas.OnMouseMove | Source.cpp:173-181 | the new canvas value is the pointer-move transition of the old one, and the line object is the same |
| PaintApp.PaintCanvas.SetColor | Source.cpp:183-189 | sets the colour and clears all four flags; nothing else changes |
| PaintApp.PaintCanvas.EnableRainbowMode | Source.cpp:191-195 | sets rainbow, clears circle and square, and leaves eraser as it is |
| PaintApp.PaintCanvas.EnableEraserMode | Source.cpp:197-201 | sets eraser, clears circle and square, and leaves rainbow as it is |
| PaintApp.PaintCanvas.EnableCircleMode | Source.cpp:203-208 | sets circle and clears the other three flags |
| PaintApp.PaintCanvas.EnableSquareMode | Source.cpp:210-215 | sets square and clears the other three flags |
| PaintApp.GreenStroke | Source.cpp:137-189 | on a new canvas, SetColor(green), then a pointer-down at (10,10), a move to (20,10) and a pointer-up at (30,10) commit one green line through the three points, without the rainbow flag, and leave no line in progress |
| PaintApp.RepaintTwice | Source.cpp:121-135 | two repaints with nothing in between make the same calls; this follows from OnPaint having no modifies clause |

## Left out

- Window and event plumbing: the panel, event binding, `Refresh`, the paint context object, and brush and pen construction. Handlers are methods called with the pointer position. `Draw` returns abstract drawing-context calls instead of rasterising.
- Application start-up, the menus and their colour constants (Source.cpp:219-271). The green used in `PaintApp.GreenStroke` is the menu's green.
- The destructor and the `new`/`delete` bookkeeping (Source.cpp:112-119). When a leftover line is replaced, the old line simply stops being referenced. It is never committed.
- `currentCircle` and `currentSquare` (Source.cpp:93-94, 129-134). Each is set and cleared inside one branch of pointer-down, so it is always null when a handler returns. Their repaint branches never draw anything.
- The behaviour of `rand()`. Its three results are the `Roll` parameter. Only the reduction modulo 256 is modelled.
- Shape identity: committed shapes are stored as values, not as shared objects. The canvas never changes a committed shape. Once a line is committed, the canvas keeps no other reference to it. Circles and squares are created and committed in one step, and their only mutator, `SetColor`, is never called by the canvas. So the model loses no observable behaviour.
- The wxWidgets defaults of a fresh paint context (its pen and brush) are not modelled. They are the `Dc` parameter of `Paint`.
