/** syntaxCheck: the dry run that re-applies every command's checks to a
    whole program without drawing. It tokenizes each line exactly as
    parseCommand does, checks the line against the cursor as it stood
    before the dry run began (moves are never replayed), and, unlike a pure
    check, writes the fill flag whenever it meets a valid `fill on|off`. */
module Validator {
  import opened TextUtil
  import opened Tokenizer
  import opened Geometry
  import opened Commands

  /** The verdict on one line: accepted, with the fill flag as the line
      leaves it, or the first check that failed. */
  datatype Verdict = Accepted(fill: bool) | Rejected(error: Error)

  /** syntaxCheck's rules for one command, with the cursor and the fill flag
      as they stand. The pen colour plays no part. */
  function CheckCommand(k: Kind, cursor: Point, fill: bool, panel: Panel, p: seq<string>): Verdict {
    match k
    case Clear => Accepted(fill)
    case Reset => Accepted(fill)
    case MoveTo => CheckTarget(k, panel, p, fill)
    case DrawTo => CheckTarget(k, panel, p, fill)
    case Rectangle =>
      if |p| != 2 then Rejected(ParameterCount(k))
      else
        var w, h := ParseInt(p[0]), ParseInt(Trim(p[1]));
        if w.None? || h.None? then Rejected(NotAnInteger(k))
        else if w.value <= 0 || h.value <= 0 then Rejected(NonPositiveSize(k))
        else if cursor.x + w.value > panel.width then Rejected(RectangleBeyondPanel)
        else if cursor.y + w.value > panel.height then Rejected(RectangleBeyondPanel)
        else Accepted(fill)
    case Circle =>
      if |p| != 1 then Rejected(ParameterCount(k))
      else
        var r := ParseInt(p[0]);
        if r.None? then Rejected(NotAnInteger(k))
        else if r.value <= 0 then Rejected(NonPositiveSize(k))
        else Accepted(fill)
    case Triangle =>
      if |p| != 1 then Rejected(ParameterCount(k))
      else
        var s := ParseInt(p[0]);
        if s.None? then Rejected(NotAnInteger(k))
        else if s.value <= 0 then Rejected(NonPositiveSize(k))
        else
          var v := TriangleVertices(cursor, s.value);
          if !IsInsidePanel(v[0], panel) || !IsInsidePanel(v[1], panel) || !IsInsidePanel(v[2], panel) then
            Rejected(TriangleBeyondPanel)
          else Accepted(fill)
    case Pen =>
      if |p| != 1 then Rejected(ParameterCount(k))
      else if ColorOf(ToLower(p[0])).None? then Rejected(InvalidColor)
      else Accepted(fill)
    case Fill =>
      if |p| != 1 then Rejected(ParameterCount(k))
      else
        match FillOf(ToLower(p[0]))
        case None => Rejected(InvalidFillOption)
        case Some(b) => Accepted(b)
  }

  /** The shared moveto/drawto case; the second number is parsed untrimmed. */
  function CheckTarget(k: Kind, panel: Panel, p: seq<string>, fill: bool): Verdict {
    if |p| != 2 then Rejected(ParameterCount(k))
    else
      var x, y := ParseInt(p[0]), ParseInt(p[1]);
      if x.None? || y.None? then Rejected(NotAnInteger(k))
      else if x.value < 0 || y.value < 0 then Rejected(NegativeCoordinate(k))
      else if x.value > panel.width then Rejected(XBeyondPanel)
      else if y.value > panel.height then Rejected(YBeyondPanel)
      else Accepted(fill)
  }

  /** One non-blank line: tokenize the trimmed line and switch on its name. */
  function CheckLine(cursor: Point, fill: bool, panel: Panel, line: string): Verdict {
    var t := Tokenize(Trim(line));
    match KindOf(t.name)
    case None => Rejected(InvalidCommand)
    case Some(k) => CheckCommand(k, cursor, fill, panel, t.parameters)
  }

  /** The fill flag after the dry run, and the first error if any. */
  datatype Checked = Checked(fill: bool, error: Option<Error>)

  /** syntaxCheck over its lines: skip blank lines, check the others against
      the same cursor, carry the fill flag along, stop at the first error. */
  function CheckLines(cursor: Point, fill: bool, panel: Panel, lines: seq<string>): Checked
    decreases |lines|
  {
    if lines == [] then Checked(fill, None)
    else if IsSkipped(lines[0]) then CheckLines(cursor, fill, panel, lines[1..])
    else
      match CheckLine(cursor, fill, panel, lines[0])
      case Rejected(e) => Checked(fill, Some(e))
      case Accepted(f) => CheckLines(cursor, f, panel, lines[1..])
  }

  /** syntaxCheck. */
  function SyntaxCheck(cursor: Point, fill: bool, panel: Panel, program: string): Checked {
    CheckLines(cursor, fill, panel, SplitLines(program))
  }
}
