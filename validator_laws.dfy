/** How syntaxCheck relates to running the program. Line by line, from the
    same cursor and fill flag, the dry run rejects exactly the lines that
    would fail, with the same error, and leaves the same fill flag. Over a
    whole program that agreement holds only while no line moves the cursor:
    the dry run keeps checking against the starting cursor, so it can accept
    a program that fails and reject one that succeeds. */
module ValidatorLaws {
  import opened TextUtil
  import opened Tokenizer
  import opened Geometry
  import opened Commands
  import opened CommandLaws
  import opened Validator

  /** The verdict and the outcome agree: rejected exactly when failed, with
      the same error, and an accepted line leaves the fill flag as running it would. */
  predicate Agree(v: Verdict, o: Outcome) {
    (v.Rejected? <==> o.Failed?) &&
    (v.Rejected? ==> v.error == o.error) &&
    (v.Accepted? ==> v.fill == o.state.fill)
  }

  /** For trimmed parameters, each command's dry-run rules agree with its handler. */
  lemma CommandAgrees(k: Kind, st: PenState, panel: Panel, p: seq<string>)
    requires forall i :: 0 <= i < |p| ==> IsTrimmed(p[i])
    ensures Agree(CheckCommand(k, st.cursor, st.fill, panel, p), Exec(k, st, panel, p))
  {
    match k
    case MoveTo =>
      TargetAgrees(k, panel, p, st.fill);
    case DrawTo =>
      TargetAgrees(k, panel, p, st.fill);
    case Rectangle =>
      RectangleAgrees(st, panel, p);
    case Triangle =>
      TriangleAgrees(st, panel, p);
    case Circle =>
    case Pen =>
    case Fill =>
    case Clear =>
    case Reset =>
  }

  lemma TargetAgrees(k: Kind, panel: Panel, p: seq<string>, fill: bool)
    requires |p| == 2 ==> IsTrimmed(p[1])
    ensures CheckTarget(k, panel, p, fill) ==
      match Target(k, panel, p)
      case Err(e) => Rejected(e)
      case Ok(_) => Accepted(fill)
  {
    if |p| == 2 {
      TrimUntouched(p[1]);
    }
  }

  lemma RectangleAgrees(st: PenState, panel: Panel, p: seq<string>)
    ensures Agree(CheckCommand(Rectangle, st.cursor, st.fill, panel, p), ExecRectangle(st, panel, p))
  {
    if |p| == 2 {
      var w, h := ParseInt(p[0]), ParseInt(Trim(p[1]));
      if w.Some? && h.Some? && w.value > 0 && h.value > 0 {
        assert RectangleFits(st.cursor, w.value, panel) <==>
          !(st.cursor.x + w.value > panel.width) && !(st.cursor.y + w.value > panel.height);
      }
    }
  }

  lemma TriangleAgrees(st: PenState, panel: Panel, p: seq<string>)
    ensures Agree(CheckCommand(Triangle, st.cursor, st.fill, panel, p), ExecTriangle(st, panel, p))
  {
  }

  /** A blank-free line is checked by the dry run exactly as it would run. */
  lemma LineAgrees(st: PenState, panel: Panel, line: string)
    requires !IsSkipped(line)
    ensures Agree(CheckLine(st.cursor, st.fill, panel, line), ExecuteLine(st, panel, line))
  {
    var clean := Trim(line);
    assert clean != [];
    var t := Tokenize(clean);
    if KindOf(t.name).Some? {
      CommandAgrees(KindOf(t.name).value, st, panel, t.parameters);
    }
  }

  /** A line that would run is accepted, leaving the fill flag it would leave. */
  lemma LineAccepted(st: PenState, panel: Panel, line: string)
    requires !IsSkipped(line) && ExecuteLine(st, panel, line).Done?
    ensures CheckLine(st.cursor, st.fill, panel, line) == Accepted(ExecuteLine(st, panel, line).state.fill)
  {
    LineAgrees(st, panel, line);
  }

  /** A line that would fail is rejected with the same error. */
  lemma LineRejected(st: PenState, panel: Panel, line: string)
    requires !IsSkipped(line) && ExecuteLine(st, panel, line).Failed?
    ensures CheckLine(st.cursor, st.fill, panel, line) == Rejected(ExecuteLine(st, panel, line).error)
  {
    LineAgrees(st, panel, line);
  }

  /** The commands that move the cursor. */
  predicate MovesCursor(k: Kind) {
    k == MoveTo || k == DrawTo || k == Reset || k == Clear
  }

  /** A line that is blank, unknown, or a command that leaves the cursor. */
  predicate StaysPut(line: string) {
    IsSkipped(line) || KindOf(Tokenize(Trim(line)).name).None? || !MovesCursor(KindOf(Tokenize(Trim(line)).name).value)
  }

  lemma LineStaysPut(st: PenState, panel: Panel, line: string)
    requires !IsSkipped(line) && StaysPut(line)
    ensures ExecuteLine(st, panel, line).Done? ==> ExecuteLine(st, panel, line).state.cursor == st.cursor
  {
    var t := Tokenize(Trim(line));
    if KindOf(t.name).Some? && Exec(KindOf(t.name).value, st, panel, t.parameters).Done? {
      CommandFrame(KindOf(t.name).value, st, panel, t.parameters);
    }
  }

  /** When no line moves the cursor, syntaxCheck reports exactly the error
      runProgram would stop at, and leaves the same fill flag. */
  lemma {:induction false} CheckAgreesWithoutMoves(st: PenState, panel: Panel, lines: seq<string>)
    requires forall i :: 0 <= i < |lines| ==> StaysPut(lines[i])
    ensures var c, r := CheckLines(st.cursor, st.fill, panel, lines), ExecuteLines(st, panel, lines);
      c.error == r.error && c.fill == r.state.fill
    decreases |lines|
  {
    if lines != [] {
      assert forall i :: 0 <= i < |lines[1..]| ==> StaysPut(lines[1..][i]) by {
        forall i | 0 <= i < |lines[1..]| ensures StaysPut(lines[1..][i]) {
          assert lines[1..][i] == lines[i + 1];
        }
      }
      if IsSkipped(lines[0]) {
        CheckAgreesWithoutMoves(st, panel, lines[1..]);
      } else {
        assert StaysPut(lines[0]);
        LineAgrees(st, panel, lines[0]);
        LineStaysPut(st, panel, lines[0]);
        var o := ExecuteLine(st, panel, lines[0]);
        if o.Done? {
          CheckAgreesWithoutMoves(o.state, panel, lines[1..]);
        }
      }
    }
  }
}
