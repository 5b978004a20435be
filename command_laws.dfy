/** What the command language promises, stated over the text a user types:
    what each command does to the pen state and the panel, the order in
    which its checks report errors, the invariants every command keeps, and
    how runProgram composes the lines of a program. */
module CommandLaws {
  import opened TextUtil
  import opened Tokenizer
  import opened Geometry
  import opened Commands

  // ---------------------------------------------------------------------------
  // Keywords

  /** Every keyword selects its own command. */
  lemma KeywordSelectsCommand(k: Kind)
    ensures KindOf(Keyword(k)) == Some(k)
  {
    match k
    case Clear => case Reset => case MoveTo => case DrawTo => case Rectangle =>
    case Circle => case Triangle => case Fill => case Pen =>
  }

  /** The name is compared after lower-casing: a name selects a command
      exactly when it spells the keyword with each letter in either case. */
  lemma KeywordInAnyCase(k: Kind, name: string)
    ensures KindOf(ToLower(name)) == Some(k) <==>
      |name| == |Keyword(k)| &&
      forall i :: 0 <= i < |name| ==> name[i] == Keyword(k)[i] || name[i] == UpperChar(Keyword(k)[i])
  {
    KeywordSelectsCommand(k);
    ToLowerMatches(name, Keyword(k));
  }

  /** `pen` accepts exactly the five colour names, in any letter case. */
  lemma ColorNameInAnyCase(c: Color, name: string)
    ensures ColorOf(ColorName(c)) == Some(c)
    ensures ColorOf(ToLower(name)) == Some(c) <==>
      |name| == |ColorName(c)| &&
      forall i :: 0 <= i < |name| ==> name[i] == ColorName(c)[i] || name[i] == UpperChar(ColorName(c)[i])
  {
    ToLowerMatches(name, ColorName(c));
  }

  /** `fill` accepts exactly `on` and `off`, in any letter case. */
  lemma FillOptionInAnyCase(b: bool, word: string)
    ensures FillOf(ToLower(word)) == Some(b) <==>
      var option := if b then "on" else "off";
      |word| == |option| &&
      forall i :: 0 <= i < |word| ==> word[i] == option[i] || word[i] == UpperChar(option[i])
  {
    ToLowerMatches(word, if b then "on" else "off");
  }

  // ---------------------------------------------------------------------------
  // From parameters to handlers

  /** A line whose trimmed text tokenizes to a keyword and parameters runs
      that keyword's handler on those parameters. */
  lemma ExecuteLineTokens(st: PenState, panel: Panel, line: string, k: Kind, p: seq<string>)
    requires !IsBlank(line)
    requires Tokenize(Trim(line)) == Tokens(Keyword(k), p)
    ensures ExecuteLine(st, panel, line) == Exec(k, st, panel, p)
  {
    KeywordSelectsCommand(k);
  }

  predicate IsInt32(n: int) {
    Int32Min <= n <= Int32Max
  }

  lemma NumberIsWord(n: int)
    ensures IsWord(FormatInt(n))
  {
    FormatIntIsWord(n);
  }

  /** The decimal text of an Int32 is a word that parses back to it. */
  lemma NumberText(n: int)
    requires IsInt32(n)
    ensures IsWord(FormatInt(n)) && Trim(FormatInt(n)) == FormatInt(n)
    ensures ParseInt(FormatInt(n)) == Some(n)
  {
    NumberIsWord(n);
    WordFacts(FormatInt(n));
    TrimUntouched(FormatInt(n));
    ParseFormat(n);
  }

  /** moveTo and drawTo check, in this order, a negative coordinate, x beyond
      the width and y beyond the height; the point that passes is (x,y). */
  lemma TargetOfNumbers(kind: Kind, panel: Panel, x: int, y: int)
    requires IsInt32(x) && IsInt32(y)
    ensures Target(kind, panel, [FormatInt(x), FormatInt(y)]) ==
      if x < 0 || y < 0 then Err(NegativeCoordinate(kind))
      else if x > panel.width then Err(XBeyondPanel)
      else if y > panel.height then Err(YBeyondPanel)
      else Ok(Point(x, y))
  {
    NumberText(x);
    NumberText(y);
  }

  /** Missing or surplus parameters are reported before anything else. */
  lemma ParameterCountFirst(k: Kind, st: PenState, panel: Panel, p: seq<string>)
    requires k !in {Clear, Reset}
    requires |p| != (if k in {MoveTo, DrawTo, Rectangle} then 2 else 1)
    ensures Exec(k, st, panel, p) == Failed(ParameterCount(k))
  {
  }

  // ---------------------------------------------------------------------------
  // The commands, from their parameters

  /** `moveto x,y`: on success the cursor is exactly (x,y), the old dot is
      erased and a new one drawn there; nothing else changes. */
  lemma MoveToTokens(st: PenState, panel: Panel, line: string, x: int, y: int)
    requires IsInt32(x) && IsInt32(y) && !IsBlank(line)
    requires Tokenize(Trim(line)) == Tokens("moveto", [FormatInt(x), FormatInt(y)])
    ensures ExecuteLine(st, panel, line) ==
      if x < 0 || y < 0 then Failed(NegativeCoordinate(MoveTo))
      else if x > panel.width then Failed(XBeyondPanel)
      else if y > panel.height then Failed(YBeyondPanel)
      else Done(st.(cursor := Point(x, y)), [EraseDot(st.cursor), Dot(Point(x, y), st.color)])
  {
    ExecuteLineTokens(st, panel, line, MoveTo, [FormatInt(x), FormatInt(y)]);
    TargetOfNumbers(MoveTo, panel, x, y);
  }

  /** `drawto x,y`: the same checks as moveto; on success a line from the old
      cursor to (x,y) is drawn between erasing the old dot and drawing the new. */
  lemma DrawToTokens(st: PenState, panel: Panel, line: string, x: int, y: int)
    requires IsInt32(x) && IsInt32(y) && !IsBlank(line)
    requires Tokenize(Trim(line)) == Tokens("drawto", [FormatInt(x), FormatInt(y)])
    ensures ExecuteLine(st, panel, line) ==
      if x < 0 || y < 0 then Failed(NegativeCoordinate(DrawTo))
      else if x > panel.width then Failed(XBeyondPanel)
      else if y > panel.height then Failed(YBeyondPanel)
      else Done(st.(cursor := Point(x, y)),
                [EraseDot(st.cursor), Line(st.cursor, Point(x, y), st.color), Dot(Point(x, y), st.color)])
  {
    ExecuteLineTokens(st, panel, line, DrawTo, [FormatInt(x), FormatInt(y)]);
    TargetOfNumbers(DrawTo, panel, x, y);
  }

  /** `rectangle w,h`: both sizes positive, and the cursor plus the WIDTH
      within the panel on both axes; the rectangle is drawn at the cursor in
      the pen colour, filled as the fill flag says, and nothing moves. */
  lemma RectangleTokens(st: PenState, panel: Panel, line: string, w: int, h: int)
    requires IsInt32(w) && IsInt32(h) && !IsBlank(line)
    requires Tokenize(Trim(line)) == Tokens("rectangle", [FormatInt(w), FormatInt(h)])
    ensures ExecuteLine(st, panel, line) ==
      if w <= 0 || h <= 0 then Failed(NonPositiveSize(Rectangle))
      else if st.cursor.x + w > panel.width || st.cursor.y + w > panel.height then Failed(RectangleBeyondPanel)
      else Done(st, [Rect(st.cursor, w, h, st.color, st.fill)])
  {
    ExecuteLineTokens(st, panel, line, Rectangle, [FormatInt(w), FormatInt(h)]);
    RectangleOfNumbers(st, panel, w, h);
  }

  lemma RectangleOfNumbers(st: PenState, panel: Panel, w: int, h: int)
    requires IsInt32(w) && IsInt32(h)
    ensures ExecRectangle(st, panel, [FormatInt(w), FormatInt(h)]) ==
      if w <= 0 || h <= 0 then Failed(NonPositiveSize(Rectangle))
      else if st.cursor.x + w > panel.width || st.cursor.y + w > panel.height then Failed(RectangleBeyondPanel)
      else Done(st, [Rect(st.cursor, w, h, st.color, st.fill)])
  {
    NumberText(w);
    NumberText(h);
  }

  /** `circle r`: any positive radius is drawn, however large, with no check
      against the panel; nothing moves. */
  lemma CircleTokens(st: PenState, panel: Panel, line: string, r: int)
    requires IsInt32(r) && !IsBlank(line)
    requires Tokenize(Trim(line)) == Tokens("circle", [FormatInt(r)])
    ensures ExecuteLine(st, panel, line) ==
      if r <= 0 then Failed(NonPositiveSize(Circle))
      else Done(st, [Ellipse(st.cursor, 2 * r, st.color, st.fill)])
  {
    ExecuteLineTokens(st, panel, line, Circle, [FormatInt(r)]);
    NumberText(r);
  }

  /** `triangle s`: a positive size whose three vertices all lie inside the
      panel; exactly those three vertices are drawn and nothing moves. */
  lemma TriangleTokens(st: PenState, panel: Panel, line: string, s: int)
    requires IsInt32(s) && !IsBlank(line)
    requires Tokenize(Trim(line)) == Tokens("triangle", [FormatInt(s)])
    ensures ExecuteLine(st, panel, line) ==
      if s <= 0 then Failed(NonPositiveSize(Triangle))
      else if exists i :: 0 <= i < 3 && !IsInsidePanel(TriangleVertices(st.cursor, s)[i], panel) then
        Failed(TriangleBeyondPanel)
      else Done(st, [Polygon(TriangleVertices(st.cursor, s), st.color, st.fill)])
  {
    ExecuteLineTokens(st, panel, line, Triangle, [FormatInt(s)]);
    TriangleOfNumber(st, panel, s);
  }

  lemma TriangleOfNumber(st: PenState, panel: Panel, s: int)
    requires IsInt32(s)
    ensures ExecTriangle(st, panel, [FormatInt(s)]) ==
      if s <= 0 then Failed(NonPositiveSize(Triangle))
      else if exists i :: 0 <= i < 3 && !IsInsidePanel(TriangleVertices(st.cursor, s)[i], panel) then
        Failed(TriangleBeyondPanel)
      else Done(st, [Polygon(TriangleVertices(st.cursor, s), st.color, st.fill)])
  {
    NumberText(s);
    if s > 0 {
      var v := TriangleVertices(st.cursor, s);
      assert TriangleFits(st.cursor, s, panel) <==> forall i :: 0 <= i < 3 ==> IsInsidePanel(v[i], panel);
    }
  }

  /** `pen c`: one of the five colours, in any case, changes the pen colour
      and nothing else; any other word is an error. */
  lemma PenTokens(st: PenState, panel: Panel, line: string, word: string)
    requires !IsBlank(line)
    requires Tokenize(Trim(line)) == Tokens("pen", [word])
    ensures ExecuteLine(st, panel, line) ==
      match ColorOf(ToLower(word))
      case None => Failed(InvalidColor)
      case Some(c) => Done(st.(color := c), [])
  {
    ExecuteLineTokens(st, panel, line, Pen, [word]);
  }

  /** `fill on|off`, in any case, sets the fill flag and nothing else; any
      other word is an error. */
  lemma FillTokens(st: PenState, panel: Panel, line: string, word: string)
    requires !IsBlank(line)
    requires Tokenize(Trim(line)) == Tokens("fill", [word])
    ensures ExecuteLine(st, panel, line) ==
      match FillOf(ToLower(word))
      case None => Failed(InvalidFillOption)
      case Some(b) => Done(st.(fill := b), [])
  {
    ExecuteLineTokens(st, panel, line, Fill, [word]);
  }

  /** `reset` and `clear` accept whatever parameters follow them and always
      put the cursor at (0,0); reset redraws the cursor dot, clear wipes the panel. */
  lemma ResetAndClearIgnoreParameters(st: PenState, panel: Panel, line: string, p: seq<string>)
    requires !IsBlank(line)
    ensures Tokenize(Trim(line)) == Tokens("reset", p) ==>
      ExecuteLine(st, panel, line) == Done(st.(cursor := Point(0, 0)), [EraseDot(st.cursor), Dot(Point(0, 0), st.color)])
    ensures Tokenize(Trim(line)) == Tokens("clear", p) ==>
      ExecuteLine(st, panel, line) == Done(st.(cursor := Point(0, 0)), [ClearCanvas])
  {
  }

  /** A blank line given as a single command is the error "Empty command.";
      a name that is not one of the nine keywords is "Invalid Command". */
  lemma EmptyOrUnknownCommand(st: PenState, panel: Panel, line: string)
    ensures IsBlank(line) ==> ExecuteLine(st, panel, line) == Failed(EmptyCommand)
    ensures !IsBlank(line) && (forall k :: Tokenize(Trim(line)).name != Keyword(k)) ==>
      ExecuteLine(st, panel, line) == Failed(InvalidCommand)
  {
  }

  // ---------------------------------------------------------------------------
  // The same commands as typed

  /** The three ways the tokenizer accepts two numbers after a command name. */
  predicate WritesTwoNumbers(line: string, name: string, x: int, y: int) {
    var a, b := FormatInt(x), FormatInt(y);
    line == name + " " + a + "," + b || line == name + " " + a + ", " + b || line == name + " " + a + " " + b
  }

  /** `name x,y`, `name x, y` and `name x y` all give the parameters [x, y]. */
  lemma {:induction false} TwoNumbers(line: string, name: string, x: int, y: int)
    requires IsWord(name) && IsInt32(x) && IsInt32(y) && WritesTwoNumbers(line, name, x, y)
    ensures !IsBlank(line) && Trim(line) == line
    ensures Tokenize(line) == Tokens(ToLower(name), [FormatInt(x), FormatInt(y)])
  {
    NumberIsWord(x);
    NumberIsWord(y);
    TwoWords(line, name, FormatInt(x), FormatInt(y));
  }

  lemma {:induction false} TwoWords(line: string, name: string, a: string, b: string)
    requires IsWord(name) && IsWord(a) && IsWord(b)
    requires line == name + " " + a + "," + b || line == name + " " + a + ", " + b || line == name + " " + a + " " + b
    ensures !IsBlank(line) && Trim(line) == line
    ensures Tokenize(line) == Tokens(ToLower(name), [a, b])
  {
    if line == name + " " + a + "," + b {
      TokenizeComma(name, a, b);
    } else if line == name + " " + a + ", " + b {
      TokenizeCommaSpace(name, a, b);
    } else {
      TokenizeSpace(name, a, b);
    }
  }

  /** `name w` gives the parameters [w]. */
  lemma {:induction false} OneWord(name: string, w: string)
    requires IsWord(name) && IsWord(w)
    ensures var line := name + " " + w;
      !IsBlank(line) && Trim(line) == line && Tokenize(line) == Tokens(ToLower(name), [w])
  {
    TokenizeOneParameter(name, w);
  }

  /** `moveto x,y` as typed, under any spelling of the keyword. */
  lemma {:induction false} MoveToLine(st: PenState, panel: Panel, line: string, name: string, x: int, y: int)
    requires IsWord(name) && ToLower(name) == "moveto"
    requires IsInt32(x) && IsInt32(y) && WritesTwoNumbers(line, name, x, y)
    ensures ExecuteLine(st, panel, line) ==
      if x < 0 || y < 0 then Failed(NegativeCoordinate(MoveTo))
      else if x > panel.width then Failed(XBeyondPanel)
      else if y > panel.height then Failed(YBeyondPanel)
      else Done(st.(cursor := Point(x, y)), [EraseDot(st.cursor), Dot(Point(x, y), st.color)])
  {
    TwoNumbers(line, name, x, y);
    MoveToTokens(st, panel, line, x, y);
  }

  /** `drawto x,y` as typed. */
  lemma {:induction false} DrawToLine(st: PenState, panel: Panel, line: string, name: string, x: int, y: int)
    requires IsWord(name) && ToLower(name) == "drawto"
    requires IsInt32(x) && IsInt32(y) && WritesTwoNumbers(line, name, x, y)
    ensures ExecuteLine(st, panel, line) ==
      if x < 0 || y < 0 then Failed(NegativeCoordinate(DrawTo))
      else if x > panel.width then Failed(XBeyondPanel)
      else if y > panel.height then Failed(YBeyondPanel)
      else Done(st.(cursor := Point(x, y)),
                [EraseDot(st.cursor), Line(st.cursor, Point(x, y), st.color), Dot(Point(x, y), st.color)])
  {
    TwoNumbers(line, name, x, y);
    DrawToTokens(st, panel, line, x, y);
  }

  /** `rectangle w,h` as typed. */
  lemma {:induction false} RectangleLine(st: PenState, panel: Panel, line: string, name: string, w: int, h: int)
    requires IsWord(name) && ToLower(name) == "rectangle"
    requires IsInt32(w) && IsInt32(h) && WritesTwoNumbers(line, name, w, h)
    ensures ExecuteLine(st, panel, line) ==
      if w <= 0 || h <= 0 then Failed(NonPositiveSize(Rectangle))
      else if st.cursor.x + w > panel.width || st.cursor.y + w > panel.height then Failed(RectangleBeyondPanel)
      else Done(st, [Rect(st.cursor, w, h, st.color, st.fill)])
  {
    TwoNumbers(line, name, w, h);
    RectangleTokens(st, panel, line, w, h);
  }

  /** `circle r` as typed. */
  lemma {:induction false} CircleLine(st: PenState, panel: Panel, name: string, r: int)
    requires IsWord(name) && ToLower(name) == "circle" && IsInt32(r)
    ensures ExecuteLine(st, panel, name + " " + FormatInt(r)) ==
      if r <= 0 then Failed(NonPositiveSize(Circle))
      else Done(st, [Ellipse(st.cursor, 2 * r, st.color, st.fill)])
  {
    NumberText(r);
    OneWord(name, FormatInt(r));
    CircleTokens(st, panel, name + " " + FormatInt(r), r);
  }

  /** `triangle s` as typed. */
  lemma {:induction false} TriangleLine(st: PenState, panel: Panel, name: string, s: int)
    requires IsWord(name) && ToLower(name) == "triangle" && IsInt32(s)
    ensures ExecuteLine(st, panel, name + " " + FormatInt(s)) ==
      if s <= 0 then Failed(NonPositiveSize(Triangle))
      else if exists i :: 0 <= i < 3 && !IsInsidePanel(TriangleVertices(st.cursor, s)[i], panel) then
        Failed(TriangleBeyondPanel)
      else Done(st, [Polygon(TriangleVertices(st.cursor, s), st.color, st.fill)])
  {
    NumberText(s);
    OneWord(name, FormatInt(s));
    TriangleTokens(st, panel, name + " " + FormatInt(s), s);
  }

  /** `pen c` as typed. */
  lemma {:induction false} PenLine(st: PenState, panel: Panel, name: string, word: string)
    requires IsWord(name) && ToLower(name) == "pen" && IsWord(word)
    ensures ExecuteLine(st, panel, name + " " + word) ==
      match ColorOf(ToLower(word))
      case None => Failed(InvalidColor)
      case Some(c) => Done(st.(color := c), [])
  {
    OneWord(name, word);
    PenTokens(st, panel, name + " " + word, word);
  }

  /** `fill on|off` as typed. */
  lemma {:induction false} FillLine(st: PenState, panel: Panel, name: string, word: string)
    requires IsWord(name) && ToLower(name) == "fill" && IsWord(word)
    ensures ExecuteLine(st, panel, name + " " + word) ==
      match FillOf(ToLower(word))
      case None => Failed(InvalidFillOption)
      case Some(b) => Done(st.(fill := b), [])
  {
    OneWord(name, word);
    FillTokens(st, panel, name + " " + word, word);
  }

  // ---------------------------------------------------------------------------
  // Invariants of every command

  /** Only `pen` changes the colour, only `fill` the fill flag, and only
      moveto, drawto, reset and clear the cursor; rectangle, circle and
      triangle change nothing. */
  lemma CommandFrame(k: Kind, st: PenState, panel: Panel, p: seq<string>)
    requires Exec(k, st, panel, p).Done?
    ensures var s := Exec(k, st, panel, p).state;
      (s.color != st.color ==> k == Pen) &&
      (s.fill != st.fill ==> k == Fill) &&
      (s.cursor != st.cursor ==> k in {MoveTo, DrawTo, Reset, Clear}) &&
      (k in {Rectangle, Circle, Triangle} ==> s == st)
  {
  }

  /** A command leaves the cursor inside the panel if it was there. */
  lemma ExecKeepsCursorInPanel(k: Kind, st: PenState, panel: Panel, p: seq<string>)
    requires IsInsidePanel(st.cursor, panel)
    ensures Exec(k, st, panel, p).Done? ==> IsInsidePanel(Exec(k, st, panel, p).state.cursor, panel)
  {
  }

  lemma ExecuteLineKeepsCursorInPanel(st: PenState, panel: Panel, line: string)
    requires IsInsidePanel(st.cursor, panel)
    ensures ExecuteLine(st, panel, line).Done? ==> IsInsidePanel(ExecuteLine(st, panel, line).state.cursor, panel)
  {
    var clean := Trim(line);
    if |clean| != 0 {
      var t := Tokenize(clean);
      if KindOf(t.name).Some? {
        ExecKeepsCursorInPanel(KindOf(t.name).value, st, panel, t.parameters);
      }
    }
  }

  /** Hence the cursor stays inside the panel through a whole program. */
  lemma {:induction false} ExecuteLinesKeepsCursorInPanel(st: PenState, panel: Panel, lines: seq<string>)
    requires IsInsidePanel(st.cursor, panel)
    ensures IsInsidePanel(ExecuteLines(st, panel, lines).state.cursor, panel)
    decreases |lines|
  {
    if lines != [] {
      if IsSkipped(lines[0]) {
        ExecuteLinesKeepsCursorInPanel(st, panel, lines[1..]);
      } else {
        var o := ExecuteLine(st, panel, lines[0]);
        ExecuteLineKeepsCursorInPanel(st, panel, lines[0]);
        if o.Done? {
          ExecuteLinesKeepsCursorInPanel(o.state, panel, lines[1..]);
        }
      }
    }
  }

  // ---------------------------------------------------------------------------
  // Programs

  /** Running more lines after a run: nothing if the run failed, otherwise
      the lines run from where it stopped and their drawing is appended. */
  function AndThen(r: Run, panel: Panel, more: seq<string>): Run {
    if r.error.Some? then r
    else
      var r2 := ExecuteLines(r.state, panel, more);
      Run(r2.state, r.drawn + r2.drawn, r2.error)
  }

  lemma {:induction false} FirstOfAppend(st: PenState, panel: Panel, a: seq<string>, b: seq<string>)
    requires a != []
    ensures ExecuteLines(st, panel, a + b) ==
      if IsSkipped(a[0]) then ExecuteLines(st, panel, a[1..] + b)
      else
        match ExecuteLine(st, panel, a[0])
        case Failed(e) => Run(st, [], Some(e))
        case Done(s, ev) =>
          var r := ExecuteLines(s, panel, a[1..] + b);
          Run(r.state, ev + r.drawn, r.error)
  {
    assert (a + b)[0] == a[0];
    assert (a + b)[1..] == a[1..] + b;
  }

  /** Running `a + b` runs `a` and then, unless `a` failed, `b` from the state
      `a` left, keeping what both drew in order. */
  lemma {:induction false} ExecuteLinesAppend(st: PenState, panel: Panel, a: seq<string>, b: seq<string>)
    ensures ExecuteLines(st, panel, a + b) == AndThen(ExecuteLines(st, panel, a), panel, b)
    decreases |a|
  {
    if a == [] {
      assert a + b == b;
    } else {
      FirstOfAppend(st, panel, a, b);
      if IsSkipped(a[0]) {
        ExecuteLinesAppend(st, panel, a[1..], b);
      } else {
        var o := ExecuteLine(st, panel, a[0]);
        if o.Done? {
          ExecuteLinesAppend(o.state, panel, a[1..], b);
          var r1 := ExecuteLines(o.state, panel, a[1..]);
          if r1.error.None? {
            var r2 := ExecuteLines(r1.state, panel, b);
            assert o.drawn + (r1.drawn + r2.drawn) == (o.drawn + r1.drawn) + r2.drawn;
          }
        }
      }
    }
  }

  /** Once a line has failed, the lines after it never run: appending lines
      to a failed program changes nothing. */
  lemma FailureIgnoresLaterLines(st: PenState, panel: Panel, a: seq<string>, b: seq<string>)
    requires ExecuteLines(st, panel, a).error.Some?
    ensures ExecuteLines(st, panel, a + b) == ExecuteLines(st, panel, a)
  {
    ExecuteLinesAppend(st, panel, a, b);
  }
}
