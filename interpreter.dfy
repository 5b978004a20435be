/** CommandParser as the object it is: the cursor, the pen colour, the fill
    flag and everything drawn so far are fields that the command handlers
    update in place. Each method is proved against the pure definition in
    Commands (or Validator, for the dry run): it fails with that
    definition's error and changes nothing, or it takes exactly the new
    state and appends exactly the drawing the definition gives. */
module Interpreter {
  import opened TextUtil
  import opened Tokenizer
  import opened Geometry
  import opened Commands
  import opened Validator
  import CommandLaws

  /** The object's state after an outcome: unchanged with the error when it
      failed; the new pen state and the canvas extended when it succeeded. */
  function Apply(o: Outcome, st: PenState, canvas: seq<Event>): Run {
    match o
    case Failed(e) => Run(st, canvas, Some(e))
    case Done(s, ev) => Run(s, canvas + ev, None)
  }

  /** The canvas and the outcome after running the remaining lines from
      `st` on a canvas that already holds `canvas`. */
  function Continue(st: PenState, panel: Panel, canvas: seq<Event>, lines: seq<string>): Run {
    var r := ExecuteLines(st, panel, lines);
    Run(r.state, canvas + r.drawn, r.error)
  }

  /** runProgram's loop skips a blank line. */
  lemma StepSkipped(st: PenState, panel: Panel, canvas: seq<Event>, lines: seq<string>, i: nat)
    requires i < |lines| && IsSkipped(lines[i])
    ensures Continue(st, panel, canvas, lines[i..]) == Continue(st, panel, canvas, lines[i + 1..])
  {
    assert lines[i..][0] == lines[i] && lines[i..][1..] == lines[i + 1..];
  }

  /** runProgram's loop stops at a line that fails, with its error. */
  lemma StepFailed(st: PenState, panel: Panel, canvas: seq<Event>, lines: seq<string>, i: nat, e: Error)
    requires i < |lines| && !IsSkipped(lines[i]) && ExecuteLine(st, panel, lines[i]) == Failed(e)
    ensures Continue(st, panel, canvas, lines[i..]) == Run(st, canvas, Some(e))
  {
    assert lines[i..][0] == lines[i];
    assert canvas + [] == canvas;
  }

  /** runProgram's loop goes on after a line that succeeds, with what it drew. */
  lemma StepDone(st: PenState, panel: Panel, canvas: seq<Event>, lines: seq<string>, i: nat, s: PenState, ev: seq<Event>)
    requires i < |lines| && !IsSkipped(lines[i]) && ExecuteLine(st, panel, lines[i]) == Done(s, ev)
    ensures Continue(st, panel, canvas, lines[i..]) == Continue(s, panel, canvas + ev, lines[i + 1..])
  {
    assert lines[i..][0] == lines[i] && lines[i..][1..] == lines[i + 1..];
    AppendAssociates(canvas, ev, ExecuteLines(s, panel, lines[i + 1..]).drawn);
  }

  lemma AppendAssociates(a: seq<Event>, b: seq<Event>, c: seq<Event>)
    ensures a + (b + c) == (a + b) + c
  {
  }

  /** syntaxCheck's loop skips a blank line. */
  lemma CheckSkipped(cursor: Point, fill: bool, panel: Panel, lines: seq<string>, i: nat)
    requires i < |lines| && IsSkipped(lines[i])
    ensures CheckLines(cursor, fill, panel, lines[i..]) == CheckLines(cursor, fill, panel, lines[i + 1..])
  {
    assert lines[i..][0] == lines[i] && lines[i..][1..] == lines[i + 1..];
  }

  /** syntaxCheck's loop stops at a rejected line with its error, and goes
      on after an accepted one with the fill flag that line leaves. */
  lemma CheckStep(cursor: Point, fill: bool, panel: Panel, lines: seq<string>, i: nat)
    requires i < |lines| && !IsSkipped(lines[i])
    ensures CheckLines(cursor, fill, panel, lines[i..]) ==
      match CheckLine(cursor, fill, panel, lines[i])
      case Rejected(e) => Checked(fill, Some(e))
      case Accepted(f) => CheckLines(cursor, f, panel, lines[i + 1..])
  {
    assert lines[i..][0] == lines[i] && lines[i..][1..] == lines[i + 1..];
  }

  class CommandParser {
    /** panel.Width and panel.Height. */
    const width: nat
    const height: nat
    /** currentX and currentY. */
    var x: int
    var y: int
    /** pen.Color and drawFill.Fill. */
    var color: Color
    var fill: bool
    /** Everything drawn on the panel so far, in order. */
    var canvas: seq<Event>

    function Panel(): Panel {
      Geometry.Panel(width, height)
    }

    function State(): PenState
      reads this
    {
      PenState(Point(x, y), color, fill)
    }

    /** The cursor lies inside the panel. */
    ghost predicate Valid()
      reads this
    {
      IsInsidePanel(Point(x, y), Panel())
    }

    /** The cursor starts at (0,0) in black, and its dot is drawn there. */
    constructor (width: nat, height: nat, fill: bool)
      ensures this.width == width && this.height == height
      ensures State() == PenState(Point(0, 0), Black, fill)
      ensures canvas == [Dot(Point(0, 0), Black)]
      ensures Valid()
    {
      this.width, this.height := width, height;
      x, y := 0, 0;
      color := Black;
      this.fill := fill;
      canvas := [Dot(Point(0, 0), Black)];
    }

    // -------------------------------------------------------------------------
    // The handlers

    /** moveTo. */
    method MoveTo(parameters: seq<string>) returns (err: Option<Error>)
      modifies this
      ensures Run(State(), canvas, err) == Apply(ExecMoveTo(old(State()), Panel(), parameters), old(State()), old(canvas))
      ensures old(Valid()) ==> Valid()
    {
      if |parameters| != 2 {
        return Some(ParameterCount(Kind.MoveTo));
      }
      var px, py := ParseInt(parameters[0]), ParseInt(Trim(parameters[1]));
      if px.None? || py.None? {
        return Some(NotAnInteger(Kind.MoveTo));
      }
      var nx, ny := px.value, py.value;
      if nx < 0 || ny < 0 {
        return Some(NegativeCoordinate(Kind.MoveTo));
      }
      if nx > width {
        return Some(XBeyondPanel);
      }
      if ny > height {
        return Some(YBeyondPanel);
      }
      canvas := canvas + [EraseDot(Point(x, y)), Dot(Point(nx, ny), color)];
      x, y := nx, ny;
      return None;
    }

    /** drawTo. */
    method DrawTo(parameters: seq<string>) returns (err: Option<Error>)
      modifies this
      ensures Run(State(), canvas, err) == Apply(ExecDrawTo(old(State()), Panel(), parameters), old(State()), old(canvas))
      ensures old(Valid()) ==> Valid()
    {
      if |parameters| != 2 {
        return Some(ParameterCount(Kind.DrawTo));
      }
      var px, py := ParseInt(parameters[0]), ParseInt(Trim(parameters[1]));
      if px.None? || py.None? {
        return Some(NotAnInteger(Kind.DrawTo));
      }
      var nx, ny := px.value, py.value;
      if nx < 0 || ny < 0 {
        return Some(NegativeCoordinate(Kind.DrawTo));
      }
      if nx > width {
        return Some(XBeyondPanel);
      }
      if ny > height {
        return Some(YBeyondPanel);
      }
      canvas := canvas + [EraseDot(Point(x, y)), Line(Point(x, y), Point(nx, ny), color), Dot(Point(nx, ny), color)];
      x, y := nx, ny;
      return None;
    }

    /** reset: the parameters are not used. */
    method Reset(parameters: seq<string>)
      modifies this
      ensures Run(State(), canvas, None) == Apply(ExecReset(old(State())), old(State()), old(canvas))
      ensures Valid()
    {
      canvas := canvas + [EraseDot(Point(x, y)), Dot(Point(0, 0), color)];
      x, y := 0, 0;
    }

    /** clear: the parameters are not used. */
    method Clear(parameters: seq<string>)
      modifies this
      ensures Run(State(), canvas, None) == Apply(ExecClear(old(State())), old(State()), old(canvas))
      ensures Valid()
    {
      canvas := canvas + [ClearCanvas];
      x, y := 0, 0;
    }

    /** rectangle. */
    method Rectangle(parameters: seq<string>) returns (err: Option<Error>)
      modifies this
      ensures Run(State(), canvas, err) == Apply(ExecRectangle(old(State()), Panel(), parameters), old(State()), old(canvas))
      ensures State() == old(State())
    {
      if |parameters| != 2 {
        return Some(ParameterCount(Kind.Rectangle));
      }
      var pw, ph := ParseInt(parameters[0]), ParseInt(Trim(parameters[1]));
      if pw.None? || ph.None? {
        return Some(NotAnInteger(Kind.Rectangle));
      }
      var w, h := pw.value, ph.value;
      if w <= 0 || h <= 0 {
        return Some(NonPositiveSize(Kind.Rectangle));
      }
      if x + w > width {
        return Some(RectangleBeyondPanel);
      }
      if y + w > height {
        return Some(RectangleBeyondPanel);
      }
      canvas := canvas + [Rect(Point(x, y), w, h, color, fill)];
      return None;
    }

    /** circle. */
    method Circle(parameters: seq<string>) returns (err: Option<Error>)
      modifies this
      ensures Run(State(), canvas, err) == Apply(ExecCircle(old(State()), parameters), old(State()), old(canvas))
      ensures State() == old(State())
    {
      if |parameters| != 1 {
        return Some(ParameterCount(Kind.Circle));
      }
      var pr := ParseInt(parameters[0]);
      if pr.None? {
        return Some(NotAnInteger(Kind.Circle));
      }
      var radius := pr.value;
      if radius <= 0 {
        return Some(NonPositiveSize(Kind.Circle));
      }
      canvas := canvas + [Ellipse(Point(x, y), radius * 2, color, fill)];
      return None;
    }

    /** triangle: the three vertices around the cursor, each checked with
        IsInsidePanel before anything is drawn. */
    method Triangle(parameters: seq<string>) returns (err: Option<Error>)
      modifies this
      ensures Run(State(), canvas, err) == Apply(ExecTriangle(old(State()), Panel(), parameters), old(State()), old(canvas))
      ensures State() == old(State())
    {
      if |parameters| != 1 {
        return Some(ParameterCount(Kind.Triangle));
      }
      var ps := ParseInt(parameters[0]);
      if ps.None? {
        return Some(NotAnInteger(Kind.Triangle));
      }
      var size := ps.value;
      if size <= 0 {
        return Some(NonPositiveSize(Kind.Triangle));
      }
      var heightOf, halfHeight, halfSide := TriangleHeight(size), TriangleHalfHeight(size), HalfSide(size);
      var top := Point(x, y - heightOf);
      var bottomLeft := Point(x - halfSide, y + halfHeight);
      var bottomRight := Point(x + halfSide, y + halfHeight);
      assert TriangleVertices(Point(x, y), size) == [top, bottomLeft, bottomRight];
      if !IsInsidePanel(top, Panel()) || !IsInsidePanel(bottomLeft, Panel()) || !IsInsidePanel(bottomRight, Panel()) {
        return Some(TriangleBeyondPanel);
      }
      canvas := canvas + [Polygon([top, bottomLeft, bottomRight], color, fill)];
      return None;
    }

    /** penColor. */
    method PenColor(parameters: seq<string>) returns (err: Option<Error>)
      modifies this
      ensures Run(State(), canvas, err) == Apply(ExecPen(old(State()), parameters), old(State()), old(canvas))
      ensures old(Valid()) ==> Valid()
    {
      if |parameters| != 1 {
        return Some(ParameterCount(Kind.Pen));
      }
      var name := ToLower(parameters[0]);
      if name == "red" {
        color := Red;
      } else if name == "black" {
        color := Black;
      } else if name == "green" {
        color := Green;
      } else if name == "blue" {
        color := Blue;
      } else if name == "yellow" {
        color := Yellow;
      } else {
        return Some(InvalidColor);
      }
      return None;
    }

    /** fillColor. */
    method FillColor(parameters: seq<string>) returns (err: Option<Error>)
      modifies this
      ensures Run(State(), canvas, err) == Apply(ExecFill(old(State()), parameters), old(State()), old(canvas))
      ensures old(Valid()) ==> Valid()
    {
      if |parameters| != 1 {
        return Some(ParameterCount(Kind.Fill));
      }
      var option := ToLower(parameters[0]);
      if option == "on" {
        fill := true;
      } else if option == "off" {
        fill := false;
      } else {
        return Some(InvalidFillOption);
      }
      return None;
    }

    // -------------------------------------------------------------------------
    // One command and whole programs

    /** The switch of parseCommand: the handler for each command name. */
    method Dispatch(k: Kind, parameters: seq<string>) returns (err: Option<Error>)
      modifies this
      ensures Run(State(), canvas, err) == Apply(Exec(k, old(State()), Panel(), parameters), old(State()), old(canvas))
      ensures old(Valid()) ==> Valid()
    {
      match k
      case Clear =>
        Clear(parameters);
        err := None;
      case Reset =>
        Reset(parameters);
        err := None;
      case MoveTo =>
        err := MoveTo(parameters);
      case DrawTo =>
        err := DrawTo(parameters);
      case Rectangle =>
        err := Rectangle(parameters);
      case Circle =>
        err := Circle(parameters);
      case Triangle =>
        err := Triangle(parameters);
      case Fill =>
        err := FillColor(parameters);
      case Pen =>
        err := PenColor(parameters);
    }

    /** parseCommand: an exception in the source is the returned error here. */
    method ParseCommand(command: string) returns (err: Option<Error>)
      modifies this
      ensures Run(State(), canvas, err) == Apply(ExecuteLine(old(State()), Panel(), command), old(State()), old(canvas))
      ensures old(Valid()) ==> Valid()
    {
      var clean := Trim(command);
      if |clean| == 0 {
        return Some(EmptyCommand);
      }
      var parts := Split(clean, {' '});
      var name := ToLower(parts[0]);
      var parameters := GetParameters(parts);
      assert !IsBlank(command) && Tokenize(clean) == Tokens(name, parameters);
      match KindOf(name)
      case None =>
        err := Some(InvalidCommand);
      case Some(k) =>
        CommandLaws.ExecuteLineTokens(State(), Panel(), command, k, parameters);
        err := Dispatch(k, parameters);
    }

    /** One turn of runProgram's loop: a blank line is skipped, any other
        is handed to parseCommand. */
    method RunLine(lines: seq<string>, i: nat) returns (err: Option<Error>)
      requires i < |lines|
      modifies this
      ensures err.Some? ==> Continue(old(State()), Panel(), old(canvas), lines[i..]) == Run(State(), canvas, err)
      ensures err.None? ==> Continue(old(State()), Panel(), old(canvas), lines[i..]) == Continue(State(), Panel(), canvas, lines[i + 1..])
      ensures old(Valid()) ==> Valid()
    {
      var cleanLine := Trim(lines[i]);
      if IsBlank(cleanLine) {
        StepSkipped(State(), Panel(), canvas, lines, i);
        return None;
      }
      ghost var st, drawn := State(), canvas;
      ghost var o := ExecuteLine(st, Panel(), lines[i]);
      err := ParseCommand(lines[i]);
      if err.Some? {
        StepFailed(st, Panel(), drawn, lines, i, err.value);
      } else {
        StepDone(st, Panel(), drawn, lines, i, o.state, o.drawn);
      }
    }

    /** runProgram: the lines in order, blank ones skipped, up to the first
        that fails; what the lines before it did stays done. */
    method RunProgram(program: string) returns (err: Option<Error>)
      modifies this
      ensures var r := Commands.RunProgram(old(State()), Panel(), program);
        State() == r.state && canvas == old(canvas) + r.drawn && err == r.error
      ensures old(Valid()) ==> Valid()
    {
      var lines := Split(program, {'\n', '\r'});
      ghost var start, before := State(), canvas;
      var i := 0;
      assert lines[0..] == lines;
      while i < |lines|
        invariant 0 <= i <= |lines|
        invariant Continue(start, Panel(), before, lines) == Continue(State(), Panel(), canvas, lines[i..])
        invariant old(Valid()) ==> Valid()
      {
        err := RunLine(lines, i);
        if err.Some? {
          return;
        }
        i := i + 1;
      }
      assert lines[i..] == [] && canvas + [] == canvas;
      assert Continue(State(), Panel(), canvas, lines[i..]) == Run(State(), canvas, None);
      return None;
    }

    /** syntaxCheck's loop body for line `i`: a blank line passes; any
        other is checked against the cursor and the fill flag as they stand,
        and a valid `fill` line writes the flag. */
    method CheckLineAt(lines: seq<string>, i: nat) returns (err: Option<Error>)
      requires i < |lines|
      modifies this`fill
      ensures err.Some? ==> CheckLines(Point(x, y), old(fill), Panel(), lines[i..]) == Checked(fill, err)
      ensures err.None? ==>
        CheckLines(Point(x, y), old(fill), Panel(), lines[i..]) == CheckLines(Point(x, y), fill, Panel(), lines[i + 1..])
    {
      var cleanLine := Trim(lines[i]);
      if IsBlank(cleanLine) {
        CheckSkipped(Point(x, y), fill, Panel(), lines, i);
        return None;
      }
      CheckStep(Point(x, y), fill, Panel(), lines, i);
      match CheckLine(Point(x, y), fill, Panel(), lines[i])
      case Rejected(e) =>
        return Some(e);
      case Accepted(f) =>
        fill := f;
        return None;
    }

    /** syntaxCheck: a dry run over the program that checks every line against
        the cursor as it stands now; it writes the fill flag and nothing else. */
    method SyntaxCheck(program: string) returns (err: Option<Error>)
      modifies this`fill
      ensures var c := Validator.SyntaxCheck(Point(x, y), old(fill), Panel(), program);
        fill == c.fill && err == c.error
    {
      var lines := Split(program, {'\n', '\r'});
      ghost var start := fill;
      var i := 0;
      assert lines[0..] == lines;
      while i < |lines|
        invariant 0 <= i <= |lines|
        invariant CheckLines(Point(x, y), start, Panel(), lines) == CheckLines(Point(x, y), fill, Panel(), lines[i..])
      {
        err := CheckLineAt(lines, i);
        if err.Some? {
          return;
        }
        i := i + 1;
      }
      assert lines[i..] == [];
      return None;
    }
  }
}
