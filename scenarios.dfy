/** Concrete programs on an 800x600 panel that pin down how the commands
    behave at the edges the checks leave open, and how far the dry run of
    syntaxCheck can drift from running the program. */
module Scenarios {
  import opened TextUtil
  import opened Tokenizer
  import opened Geometry
  import opened Commands
  import opened CommandLaws
  import opened Validator
  import opened ValidatorLaws

  const Board: Panel := Panel(800, 600)

  /** sqrt(7500) = 86.60...: the root for a triangle of side 50, halving by halving. */
  lemma RootOfSevenThousandFiveHundred()
    ensures ISqrt(7500) == 86
  {
    assert ISqrt(7) == 2;
    assert ISqrt(29) == 5;
    assert ISqrt(117) == 10;
    assert ISqrt(468) == 21;
    assert ISqrt(1875) == 43;
  }

  /** The triangle of side 50: height 43 (the floor of 43.30...), half
      height 21 and half side 25. */
  lemma TriangleOfSideFifty()
    ensures TriangleHeight(50) == 43 && TriangleHalfHeight(50) == 21 && HalfSide(50) == 25
  {
    RootOfSevenThousandFiveHundred();
  }

  /** On an 800x600 panel, a triangle of side 50 does not fit at (0,0),
      where its top would be at y = -43, and fits at (100,100). */
  lemma TriangleFitsAwayFromHome()
    ensures !TriangleFits(Point(0, 0), 50, Board)
    ensures TriangleFits(Point(100, 100), 50, Board)
  {
    TriangleOfSideFifty();
  }

  /** Two lines, neither blank, the second failing after the first ran:
      the run stops with the second line's error and keeps what the first drew. */
  lemma RunThenFail(st: PenState, panel: Panel, a: string, b: string, s: PenState, ev: seq<Event>, e: Error)
    requires !IsSkipped(a) && !IsSkipped(b)
    requires ExecuteLine(st, panel, a) == Done(s, ev) && ExecuteLine(s, panel, b) == Failed(e)
    ensures ExecuteLines(st, panel, [a, b]) == Run(s, ev, Some(e))
  {
    assert [a, b][1..] == [b];
    assert ev + [] == ev;
  }

  /** Two lines, neither blank, both running: the run ends without error. */
  lemma RunBoth(st: PenState, panel: Panel, a: string, b: string, s: PenState, ev: seq<Event>, s2: PenState, ev2: seq<Event>)
    requires !IsSkipped(a) && !IsSkipped(b)
    requires ExecuteLine(st, panel, a) == Done(s, ev) && ExecuteLine(s, panel, b) == Done(s2, ev2)
    ensures ExecuteLines(st, panel, [a, b]) == Run(s2, ev + ev2, None)
  {
    assert [a, b][1..] == [b] && [b][1..] == [];
    assert ExecuteLines(s, panel, [b]) == Run(s2, ev2, None) by {
      assert ev2 + [] == ev2;
    }
  }

  /** Two lines, neither blank, both accepted by syntaxCheck. */
  lemma CheckBoth(cursor: Point, fill: bool, panel: Panel, a: string, b: string, f: bool, f2: bool)
    requires !IsSkipped(a) && !IsSkipped(b)
    requires CheckLine(cursor, fill, panel, a) == Accepted(f) && CheckLine(cursor, f, panel, b) == Accepted(f2)
    ensures CheckLines(cursor, fill, panel, [a, b]) == Checked(f2, None)
  {
    assert [a, b][1..] == [b] && [b][1..] == [];
    assert CheckLines(cursor, f, panel, [b]) == Checked(f2, None);
  }

  /** Two lines, neither blank, the second rejected by syntaxCheck. */
  lemma CheckThenReject(cursor: Point, fill: bool, panel: Panel, a: string, b: string, f: bool, e: Error)
    requires !IsSkipped(a) && !IsSkipped(b)
    requires CheckLine(cursor, fill, panel, a) == Accepted(f) && CheckLine(cursor, f, panel, b) == Rejected(e)
    ensures CheckLines(cursor, fill, panel, [a, b]) == Checked(f, Some(e))
  {
    assert [a, b][1..] == [b];
  }

  /** A line as TwoNumbers and OneWord leave it: not blank, already
      trimmed, and tokenized to `name` and `p`. */
  predicate Typed(line: string, name: string, p: seq<string>) {
    !IsBlank(line) && Trim(line) == line && Tokenize(line) == Tokens(name, p)
  }

  /** Run from (0,0), the move to the far corner succeeds and the
      rectangle there is refused. */
  lemma ToCornerThenRectangleFails(st: PenState, panel: Panel, a: string, b: string, w: int)
    requires IsPanel(panel) && IsInt32(w) && 0 < w
    requires Typed(a, "moveto", [FormatInt(panel.width), FormatInt(panel.height)])
    requires Typed(b, "rectangle", [FormatInt(w), FormatInt(w)])
    ensures ExecuteLines(st, panel, [a, b]).error == Some(RectangleBeyondPanel)
  {
    var corner := st.(cursor := Point(panel.width, panel.height));
    MoveToTokens(st, panel, a, panel.width, panel.height);
    RectangleTokens(corner, panel, b, w, w);
    RunThenFail(st, panel, a, b, corner, [EraseDot(st.cursor), Dot(corner.cursor, st.color)], RectangleBeyondPanel);
  }

  /** Checked from (0,0), both lines pass. */
  lemma ToCornerThenRectangleChecks(st: PenState, panel: Panel, a: string, b: string, w: int)
    requires st.cursor == Point(0, 0) && IsPanel(panel) && IsInt32(w)
    requires 0 < w <= panel.width && w <= panel.height
    requires Typed(a, "moveto", [FormatInt(panel.width), FormatInt(panel.height)])
    requires Typed(b, "rectangle", [FormatInt(w), FormatInt(w)])
    ensures CheckLines(st.cursor, st.fill, panel, [a, b]).error == None
  {
    MoveToTokens(st, panel, a, panel.width, panel.height);
    RectangleTokens(st, panel, b, w, w);
    LineAccepted(st, panel, a);
    LineAccepted(st, panel, b);
    CheckBoth(st.cursor, st.fill, panel, a, b, st.fill, st.fill);
  }

  /** syntaxCheck accepts a program that fails when run: it checks the
      rectangle against (0,0), where it fits, but the program first moves
      the cursor to the far corner, where it does not. `moveto 800,600`
      then `rectangle 10,10` on an 800x600 panel is such a program
      (CornerProgram). */
  lemma CheckPassesButRunFails(st: PenState, panel: Panel, a: string, b: string, w: int)
    requires st.cursor == Point(0, 0) && IsPanel(panel) && IsInt32(w)
    requires 0 < w <= panel.width && w <= panel.height
    requires Typed(a, "moveto", [FormatInt(panel.width), FormatInt(panel.height)])
    requires Typed(b, "rectangle", [FormatInt(w), FormatInt(w)])
    ensures CheckLines(st.cursor, st.fill, panel, [a, b]).error == None
    ensures ExecuteLines(st, panel, [a, b]).error == Some(RectangleBeyondPanel)
  {
    ToCornerThenRectangleFails(st, panel, a, b, w);
    ToCornerThenRectangleChecks(st, panel, a, b, w);
  }

  /** Run, the move to (x,y) succeeds and the triangle there is drawn. */
  lemma AwayThenTriangleRuns(st: PenState, panel: Panel, a: string, b: string, x: int, y: int, s: int)
    requires IsInt32(x) && IsInt32(y) && IsInt32(s) && 0 < s
    requires 0 <= x <= panel.width && 0 <= y <= panel.height
    requires TriangleFits(Point(x, y), s, panel)
    requires Typed(a, "moveto", [FormatInt(x), FormatInt(y)])
    requires Typed(b, "triangle", [FormatInt(s)])
    ensures ExecuteLines(st, panel, [a, b]).error == None
  {
    var there := st.(cursor := Point(x, y));
    MoveToTokens(st, panel, a, x, y);
    TriangleTokens(there, panel, b, s);
    RunBoth(st, panel, a, b, there, [EraseDot(st.cursor), Dot(Point(x, y), st.color)],
      there, [Polygon(TriangleVertices(Point(x, y), s), st.color, st.fill)]);
  }

  /** Checked against the cursor as it stands, the triangle is refused. */
  lemma AwayThenTriangleRejected(st: PenState, panel: Panel, a: string, b: string, x: int, y: int, s: int)
    requires IsInt32(x) && IsInt32(y) && IsInt32(s) && 0 < s
    requires 0 <= x <= panel.width && 0 <= y <= panel.height
    requires !TriangleFits(st.cursor, s, panel)
    requires Typed(a, "moveto", [FormatInt(x), FormatInt(y)])
    requires Typed(b, "triangle", [FormatInt(s)])
    ensures CheckLines(st.cursor, st.fill, panel, [a, b]).error == Some(TriangleBeyondPanel)
  {
    MoveToTokens(st, panel, a, x, y);
    TriangleTokens(st, panel, b, s);
    assert ExecuteLine(st, panel, b) == Failed(TriangleBeyondPanel);
    LineAccepted(st, panel, a);
    LineRejected(st, panel, b);
    CheckThenReject(st.cursor, st.fill, panel, a, b, st.fill, TriangleBeyondPanel);
  }

  /** syntaxCheck rejects a program that runs: it checks the triangle
      against the cursor as it stands, where it does not fit, but the
      program first moves the cursor to (x,y), where it does. On an 800x600
      panel, from (0,0), `moveto 100,100` then `triangle 50` is such a
      program (AwayProgram). */
  lemma RunPassesButCheckFails(st: PenState, panel: Panel, a: string, b: string, x: int, y: int, s: int)
    requires IsInt32(x) && IsInt32(y) && IsInt32(s) && 0 < s
    requires 0 <= x <= panel.width && 0 <= y <= panel.height
    requires TriangleFits(Point(x, y), s, panel) && !TriangleFits(st.cursor, s, panel)
    requires Typed(a, "moveto", [FormatInt(x), FormatInt(y)])
    requires Typed(b, "triangle", [FormatInt(s)])
    ensures CheckLines(st.cursor, st.fill, panel, [a, b]).error == Some(TriangleBeyondPanel)
    ensures ExecuteLines(st, panel, [a, b]).error == None
  {
    AwayThenTriangleRuns(st, panel, a, b, x, y, s);
    AwayThenTriangleRejected(st, panel, a, b, x, y, s);
  }

  // ---------------------------------------------------------------------------
  // The two disagreements on concrete text, on an 800x600 panel from (0,0)

  lemma NumberTexts()
    ensures FormatInt(800) == "800" && FormatInt(600) == "600"
    ensures FormatInt(100) == "100" && FormatInt(50) == "50" && FormatInt(10) == "10"
  {
  }

  lemma KeywordTexts()
    ensures IsWord("moveto") && ToLower("moveto") == "moveto"
    ensures IsWord("rectangle") && ToLower("rectangle") == "rectangle"
    ensures IsWord("triangle") && ToLower("triangle") == "triangle"
  {
  }

  lemma TypedMoveTo(a: string, x: int, y: int)
    requires (a == "moveto 800,600" && x == 800 && y == 600) || (a == "moveto 100,100" && x == 100 && y == 100)
    ensures Typed(a, "moveto", [FormatInt(x), FormatInt(y)])
  {
    NumberTexts();
    KeywordTexts();
    TwoNumbers(a, "moveto", x, y);
  }

  lemma TypedRectangle(b: string)
    requires b == "rectangle 10,10"
    ensures Typed(b, "rectangle", [FormatInt(10), FormatInt(10)])
  {
    NumberTexts();
    KeywordTexts();
    TwoNumbers(b, "rectangle", 10, 10);
  }

  lemma TypedTriangle(b: string)
    requires b == "triangle 50"
    ensures Typed(b, "triangle", [FormatInt(50)])
  {
    NumberTexts();
    KeywordTexts();
    OneWord("triangle", "50");
    assert b == "triangle" + " " + "50";
  }

  /** `moveto 800,600` then `rectangle 10,10` passes syntaxCheck and fails when run. */
  lemma CornerProgram(a: string, b: string)
    requires a == "moveto 800,600" && b == "rectangle 10,10"
    ensures CheckLines(Point(0, 0), false, Board, [a, b]).error == None
    ensures ExecuteLines(PenState(Point(0, 0), Black, false), Board, [a, b]).error == Some(RectangleBeyondPanel)
  {
    TypedMoveTo(a, 800, 600);
    TypedRectangle(b);
    CheckPassesButRunFails(PenState(Point(0, 0), Black, false), Board, a, b, 10);
  }

  /** `moveto 100,100` then `triangle 50` runs and is rejected by syntaxCheck. */
  lemma AwayProgram(a: string, b: string)
    requires a == "moveto 100,100" && b == "triangle 50"
    ensures CheckLines(Point(0, 0), false, Board, [a, b]).error == Some(TriangleBeyondPanel)
    ensures ExecuteLines(PenState(Point(0, 0), Black, false), Board, [a, b]).error == None
  {
    TypedMoveTo(a, 100, 100);
    TypedTriangle(b);
    TriangleFitsAwayFromHome();
    RunPassesButCheckFails(PenState(Point(0, 0), Black, false), Board, a, b, 100, 100, 50);
  }
}
