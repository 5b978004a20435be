/** The command language of CommandParser as pure functions: the pen state,
    the drawing events a command emits, the nine command handlers, one line
    (parseCommand) and a whole program (runProgram).

    A handler either fails with an Error and changes nothing, or succeeds
    with a new pen state and the drawing events it emitted, in order. */
module Commands {
  import opened TextUtil
  import opened Tokenizer
  import opened Geometry

  /** The five pen colours the `pen` command knows. */
  datatype Color = Black | Red | Green | Blue | Yellow

  /** The nine recognised commands. */
  datatype Kind = Clear | Reset | MoveTo | DrawTo | Rectangle | Circle | Triangle | Fill | Pen

  /** The ArgumentExceptions the handlers throw, by the check that failed. */
  datatype Error =
    | EmptyCommand                  // "Empty command."
    | InvalidCommand                // "Invalid Command"
    | ParameterCount(kind: Kind)    // "Invalid number of parameters for ..."
    | NotAnInteger(kind: Kind)      // "Invalid parameters for ..."
    | NegativeCoordinate(kind: Kind) // "Negative parameters for ..."
    | XBeyondPanel                  // "XPoint is greater than the width of the Panel!"
    | YBeyondPanel                  // "YPoint is greater than the width of the Panel!"
    | NonPositiveSize(kind: Kind)   // "Negative or Zero ..."
    | RectangleBeyondPanel          // "Pen position and width is greater than the width of the Panel!"
    | TriangleBeyondPanel           // "Triangle exceeds panel bounds. Cannot be drawn."
    | InvalidColor                  // "Invalid color for the 'pen' command."
    | InvalidFillOption             // "Invalid parameter for 'fill' command."

  /** What a command draws on the panel, in the order it draws it. */
  datatype Event =
    | EraseDot(at: Point)                  // the 3x3 cursor dot at `at`, in the background colour
    | Dot(at: Point, color: Color)         // the 3x3 cursor dot at `at`, in the pen colour
    | Line(from: Point, to: Point, color: Color)
    | Rect(corner: Point, width: int, height: int, color: Color, filled: bool)
    | Ellipse(corner: Point, diameter: int, color: Color, filled: bool)
    | Polygon(vertices: seq<Point>, color: Color, filled: bool)
    | ClearCanvas                          // g.Clear in the background colour

  /** currentX/currentY, pen.Color and drawFill.Fill. */
  datatype PenState = PenState(cursor: Point, color: Color, fill: bool)

  datatype Outcome = Done(state: PenState, drawn: seq<Event>) | Failed(error: Error)

  datatype Result<T> = Ok(value: T) | Err(error: Error)

  // ---------------------------------------------------------------------------
  // Keywords

  function Keyword(k: Kind): string {
    match k
    case Clear => "clear"
    case Reset => "reset"
    case MoveTo => "moveto"
    case DrawTo => "drawto"
    case Rectangle => "rectangle"
    case Circle => "circle"
    case Triangle => "triangle"
    case Fill => "fill"
    case Pen => "pen"
  }

  /** The switch of parseCommand over the lower-cased command name. */
  function KindOf(name: string): (r: Option<Kind>)
    ensures r.Some? ==> Keyword(r.value) == name
  {
    if name == "clear" then Some(Clear)
    else if name == "reset" then Some(Reset)
    else if name == "moveto" then Some(MoveTo)
    else if name == "drawto" then Some(DrawTo)
    else if name == "rectangle" then Some(Rectangle)
    else if name == "circle" then Some(Circle)
    else if name == "triangle" then Some(Triangle)
    else if name == "fill" then Some(Fill)
    else if name == "pen" then Some(Pen)
    else None
  }

  function ColorName(c: Color): string {
    match c
    case Black => "black"
    case Red => "red"
    case Green => "green"
    case Blue => "blue"
    case Yellow => "yellow"
  }

  /** The switch of penColor over the lower-cased parameter. */
  function ColorOf(name: string): (r: Option<Color>)
    ensures r.Some? ==> ColorName(r.value) == name
  {
    if name == "red" then Some(Red)
    else if name == "black" then Some(Black)
    else if name == "green" then Some(Green)
    else if name == "blue" then Some(Blue)
    else if name == "yellow" then Some(Yellow)
    else None
  }

  /** The switch of fillColor over the lower-cased parameter. */
  function FillOf(name: string): (r: Option<bool>)
    ensures r.Some? ==> name == (if r.value then "on" else "off")
  {
    if name == "on" then Some(true)
    else if name == "off" then Some(false)
    else None
  }

  // ---------------------------------------------------------------------------
  // The handlers

  /** The checks moveTo and drawTo make, in the order they make them. */
  function Target(kind: Kind, panel: Panel, p: seq<string>): (r: Result<Point>)
    ensures r.Ok? ==> IsInsidePanel(r.value, panel)
  {
    if |p| != 2 then Err(ParameterCount(kind))
    else
      var x, y := ParseInt(p[0]), ParseInt(Trim(p[1]));
      if x.None? || y.None? then Err(NotAnInteger(kind))
      else if x.value < 0 || y.value < 0 then Err(NegativeCoordinate(kind))
      else if x.value > panel.width then Err(XBeyondPanel)
      else if y.value > panel.height then Err(YBeyondPanel)
      else Ok(Point(x.value, y.value))
  }

  /** moveTo: erase the old cursor dot, move, draw the new dot. */
  function ExecMoveTo(st: PenState, panel: Panel, p: seq<string>): Outcome {
    match Target(MoveTo, panel, p)
    case Err(e) => Failed(e)
    case Ok(q) => Done(st.(cursor := q), [EraseDot(st.cursor), Dot(q, st.color)])
  }

  /** drawTo: erase the old dot, draw a line to the target, draw the new dot, move. */
  function ExecDrawTo(st: PenState, panel: Panel, p: seq<string>): Outcome {
    match Target(DrawTo, panel, p)
    case Err(e) => Failed(e)
    case Ok(q) => Done(st.(cursor := q), [EraseDot(st.cursor), Line(st.cursor, q, st.color), Dot(q, st.color)])
  }

  /** reset: like moveTo (0,0), whatever the parameters. */
  function ExecReset(st: PenState): Outcome {
    Done(st.(cursor := Point(0, 0)), [EraseDot(st.cursor), Dot(Point(0, 0), st.color)])
  }

  /** clear: wipe the panel and put the cursor at (0,0), whatever the parameters. */
  function ExecClear(st: PenState): Outcome {
    Done(st.(cursor := Point(0, 0)), [ClearCanvas])
  }

  /** rectangle: a width-by-height rectangle with its corner at the cursor. */
  function ExecRectangle(st: PenState, panel: Panel, p: seq<string>): Outcome {
    if |p| != 2 then Failed(ParameterCount(Rectangle))
    else
      var w, h := ParseInt(p[0]), ParseInt(Trim(p[1]));
      if w.None? || h.None? then Failed(NotAnInteger(Rectangle))
      else if w.value <= 0 || h.value <= 0 then Failed(NonPositiveSize(Rectangle))
      else if !RectangleFits(st.cursor, w.value, panel) then Failed(RectangleBeyondPanel)
      else Done(st, [Rect(st.cursor, w.value, h.value, st.color, st.fill)])
  }

  /** circle: an ellipse of diameter 2*radius whose bounding box has its
      corner at the cursor; no bounds check. */
  function ExecCircle(st: PenState, p: seq<string>): Outcome {
    if |p| != 1 then Failed(ParameterCount(Circle))
    else
      var r := ParseInt(p[0]);
      if r.None? then Failed(NotAnInteger(Circle))
      else if r.value <= 0 then Failed(NonPositiveSize(Circle))
      else Done(st, [Ellipse(st.cursor, 2 * r.value, st.color, st.fill)])
  }

  /** triangle: the three vertices around the cursor, all inside the panel. */
  function ExecTriangle(st: PenState, panel: Panel, p: seq<string>): Outcome {
    if |p| != 1 then Failed(ParameterCount(Triangle))
    else
      var s := ParseInt(p[0]);
      if s.None? then Failed(NotAnInteger(Triangle))
      else if s.value <= 0 then Failed(NonPositiveSize(Triangle))
      else if !TriangleFits(st.cursor, s.value, panel) then Failed(TriangleBeyondPanel)
      else Done(st, [Polygon(TriangleVertices(st.cursor, s.value), st.color, st.fill)])
  }

  /** penColor: one of the five colour names, in any case. */
  function ExecPen(st: PenState, p: seq<string>): Outcome {
    if |p| != 1 then Failed(ParameterCount(Pen))
    else
      match ColorOf(ToLower(p[0]))
      case None => Failed(InvalidColor)
      case Some(c) => Done(st.(color := c), [])
  }

  /** fillColor: `on` or `off`, in any case. */
  function ExecFill(st: PenState, p: seq<string>): Outcome {
    if |p| != 1 then Failed(ParameterCount(Fill))
    else
      match FillOf(ToLower(p[0]))
      case None => Failed(InvalidFillOption)
      case Some(b) => Done(st.(fill := b), [])
  }

  /** The handler parseCommand dispatches to. */
  function Exec(k: Kind, st: PenState, panel: Panel, p: seq<string>): Outcome {
    match k
    case Clear => ExecClear(st)
    case Reset => ExecReset(st)
    case MoveTo => ExecMoveTo(st, panel, p)
    case DrawTo => ExecDrawTo(st, panel, p)
    case Rectangle => ExecRectangle(st, panel, p)
    case Circle => ExecCircle(st, p)
    case Triangle => ExecTriangle(st, panel, p)
    case Fill => ExecFill(st, p)
    case Pen => ExecPen(st, p)
  }

  // ---------------------------------------------------------------------------
  // One line and a whole program

  /** parseCommand: trim, reject an empty line, split into name and
      parameters, dispatch on the lower-cased name. */
  function ExecuteLine(st: PenState, panel: Panel, command: string): Outcome {
    var clean := Trim(command);
    if |clean| == 0 then Failed(EmptyCommand)
    else
      var t := Tokenize(clean);
      match KindOf(t.name)
      case None => Failed(InvalidCommand)
      case Some(k) => Exec(k, st, panel, t.parameters)
  }

  /** program.Split('\n', '\r'). */
  function SplitLines(program: string): seq<string> {
    Split(program, {'\n', '\r'})
  }

  /** A line runProgram and syntaxCheck skip: string.IsNullOrWhiteSpace(line.Trim()). */
  predicate IsSkipped(line: string) {
    IsBlank(Trim(line))
  }

  /** The pen state after a run, everything drawn, and the first error if any. */
  datatype Run = Run(state: PenState, drawn: seq<Event>, error: Option<Error>)

  /** runProgram over its lines: skip blank lines, execute the others in
      order, and stop at the first one that fails; what the earlier lines
      did stays done. */
  function ExecuteLines(st: PenState, panel: Panel, lines: seq<string>): Run
    decreases |lines|
  {
    if lines == [] then Run(st, [], None)
    else if IsSkipped(lines[0]) then ExecuteLines(st, panel, lines[1..])
    else
      match ExecuteLine(st, panel, lines[0])
      case Failed(e) => Run(st, [], Some(e))
      case Done(s, ev) =>
        var r := ExecuteLines(s, panel, lines[1..]);
        Run(r.state, ev + r.drawn, r.error)
  }

  /** runProgram. */
  function RunProgram(st: PenState, panel: Panel, program: string): Run {
    ExecuteLines(st, panel, SplitLines(program))
  }
}
