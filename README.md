# CommandParser: the drawing-command interpreter

A verified model of `CommandParser`, the interpreter behind a small
drawing application. A user types commands such as `moveto 100,100`,
`pen red`, `fill on`, `rectangle 50,20` or `triangle 40`, one per line.
The interpreter tokenizes each line, dispatches on the lower-cased command
name, checks the parameters, and then moves the pen or draws on a panel.
`runProgram` runs a whole program and stops at the first failing line.
`syntaxCheck` is a dry run over the same program that re-applies the
checks without drawing.

The model has these modules:

- `TextUtil` (text.dfy): the .NET string primitives the interpreter relies
  on: `Split` on a set of separators, `Trim` (white space at both ends),
  ASCII `ToLower`, and `int.TryParse` restricted to the Int32 range.
  Each comes with its laws: split/join round trips, trim idempotence, and
  parse/format round trips.
- `Tokenizer` (tokenizer.dfy): `getParameters` and the line split of
  `parseCommand`. It proves how each way of writing parameters tokenizes:
  `a,b`, `a, b`, `a b`, the `a,b c` reordering, and surplus fields.
- `Geometry` (geometry.dfy): points, the panel, `IsInsidePanel`, and the
  triangle's vertices. The floating-point height `sqrt(3)/2*size` is
  computed exactly, as an integer square root, with proofs that the result
  is the floor the C# cast produces. Also the rectangle bounds check and
  its 32-bit overflow.
- `Commands` (commands.dfy): the pen state, the drawing events, the nine
  command handlers, one line (`parseCommand`) and a whole program
  (`runProgram`), as pure functions.
- `CommandLaws` (command_laws.dfy): what each command does, stated over the
  text a user types, plus the invariants every command keeps and how
  programs compose.
- `Validator` / `ValidatorLaws` (validator.dfy, validator_laws.dfy):
  `syntaxCheck` and how it relates to running the program.
- `Interpreter` (interpreter.dfy): the class `CommandParser`. Its fields are
  the cursor, the pen colour, the fill flag and the canvas, which its
  methods update in place. Every handler and both drivers are proved
  equal to the pure definitions.
- `Scenarios` (scenarios.dfy): programs where `syntaxCheck` and
  `runProgram` disagree, in both directions.

Integers are unbounded. `int.TryParse` is bounded to the Int32 range
explicitly. The source's int arithmetic is unchecked, and two places are
affected. The first is the rectangle bounds check, `currentX + width` and
`currentY + width`. The model checks these sums unbounded, which is the
evidently intended reading; the overflow is recorded under "Findings". The
second is the circle's `radius * 2` in the Circle shape class. Both are
listed under "Left out".

## Model

| member | source | states |
|---|---|---|
| TextUtil.Split | ASSEFinalProject/CommandParser.cs:53 | Splitting gives one more piece than there are separators, and no piece contains a separator |
| TextUtil.JoinSplit | ASSEFinalProject/CommandParser.cs:127 | Joining the pieces of a split with the separator gives back the original text |
| TextUtil.SplitJoin | ASSEFinalProject/CommandParser.cs:53 | Splitting a join of separator-free pieces gives back exactly those pieces |
| TextUtil.SplitSepFree | ASSEFinalProject/CommandParser.cs:95 | Text without a separator splits into itself alone |
| TextUtil.SplitAfterPiece | ASSEFinalProject/CommandParser.cs:95 | A separator-free piece followed by a separator splits off as the first piece |
| TextUtil.TrimStartDrops | ASSEFinalProject/CommandParser.cs:47 | TrimStart keeps a suffix; everything it drops is white space, and what it keeps does not start with white space |
| TextUtil.TrimEndDrops | ASSEFinalProject/CommandParser.cs:47 | TrimEnd keeps a prefix; everything it drops is white space, and what it keeps does not end with white space |
| TextUtil.Trim | ASSEFinalProject/CommandParser.cs:47-49 | The trimmed line is empty exactly when the line is all white space, and it neither starts nor ends with white space |
| TextUtil.TrimKeepsMiddle | ASSEFinalProject/CommandParser.cs:129 | Trim keeps the characters between the leading and the trailing white space unchanged |
| TextUtil.TrimBothEndsTrimmed | ASSEFinalProject/CommandParser.cs:47 | Trimming the start and then the end leaves no white space at either end |
| TextUtil.TrimEmptyIffBlank | ASSEFinalProject/CommandParser.cs:131 | The trimmed line is empty if and only if the line is blank |
| TextUtil.TrimUntouched | ASSEFinalProject/CommandParser.cs:115 | Trimming text without white space at its ends changes nothing |
| TextUtil.TrimIdempotent | ASSEFinalProject/CommandParser.cs:129 | Trimming twice is trimming once |
| TextUtil.ToLower | ASSEFinalProject/CommandParser.cs:55 | The lower-cased name has the same length and no upper-case ASCII letter, and each original character is the result's character in one case or the other |
| TextUtil.ToLowerIdempotent | ASSEFinalProject/CommandParser.cs:55 | Lower-casing twice is lower-casing once |
| TextUtil.ToLowerMatches | ASSEFinalProject/CommandParser.cs:55-59 | A lower-cased name equals a lower-case keyword iff each of its characters is that keyword's letter in either case |
| TextUtil.ParseInt | ASSEFinalProject/CommandParser.cs:397 | A successful parse is an Int32 whose text is an optional sign followed by digits |
| TextUtil.ParseIntIff | ASSEFinalProject/CommandParser.cs:397 | ParseInt succeeds iff the text is one or more digits after an optional `+` or `-` and its value lies in the Int32 range; the result is then that value, so `+10` and `020` are accepted (trailing NUL characters: see Left out) |
| TextUtil.LeadingZero | ASSEFinalProject/CommandParser.cs:397 | A leading zero does not change a number's value |
| TextUtil.DigitsRoundTrip | ASSEFinalProject/CommandParser.cs:397 | The decimal digits of a natural number parse back to that number |
| TextUtil.ParseFormat | ASSEFinalProject/CommandParser.cs:397 | Every Int32 written in decimal parses back to itself |
| TextUtil.FormatIntIsWord | ASSEFinalProject/CommandParser.cs:397 | A number's decimal text is non-empty digits with at most a leading minus |
| Tokenizer.Candidates | ASSEFinalProject/CommandParser.cs:95-113 | At most three candidate parameters are collected |
| Tokenizer.KeepTrimmed | ASSEFinalProject/CommandParser.cs:115 | The kept parameters are trimmed and non-empty, and no more numerous than the candidates |
| Tokenizer.GetParameters | ASSEFinalProject/CommandParser.cs:93-118 | getParameters returns at most three parameters, each non-empty and trimmed |
| Tokenizer.KeepWords | ASSEFinalProject/CommandParser.cs:115 | Candidates that are all words are kept unchanged |
| Tokenizer.WordFacts | ASSEFinalProject/CommandParser.cs:115 | A word holds no space, no comma and no white space at its ends |
| Tokenizer.WordEnds | ASSEFinalProject/CommandParser.cs:47 | A line that starts and ends with a word is its own trim |
| Tokenizer.JoinedWords | ASSEFinalProject/CommandParser.cs:53 | Two words joined by a non-space character contain no space |
| Tokenizer.TokenizeOf | ASSEFinalProject/CommandParser.cs:53-57 | Helper (unfolds the tokenizer): a line's name is its first space-separated field lower-cased, and its parameters are getParameters of all fields |
| Tokenizer.TokenizeNoParameters | ASSEFinalProject/CommandParser.cs:95 | A bare command name has no parameters |
| Tokenizer.TokenizeOneParameter | ASSEFinalProject/CommandParser.cs:95-103 | `name a` gives the single parameter a |
| Tokenizer.SplitTwo | ASSEFinalProject/CommandParser.cs:53 | `name a` splits on spaces into [name, a] |
| Tokenizer.SplitThree | ASSEFinalProject/CommandParser.cs:53 | `name a b` splits on spaces into [name, a, b] |
| Tokenizer.SplitFour | ASSEFinalProject/CommandParser.cs:53 | `name a b c` splits on spaces into four fields |
| Tokenizer.OneCandidate | ASSEFinalProject/CommandParser.cs:95-113 | With two fields, or more than three, a comma-free second field is the only parameter |
| Tokenizer.TokenizeComma | ASSEFinalProject/CommandParser.cs:95-112 | `name a,b` gives the parameters [a, b] |
| Tokenizer.CommaParameters | ASSEFinalProject/CommandParser.cs:95-112 | Two fields whose second is `a,b` give the parameters [a, b] |
| Tokenizer.CommaCandidates | ASSEFinalProject/CommandParser.cs:95 | `a,b` splits on the comma into [a, b] |
| Tokenizer.TokenizeCommaSpace | ASSEFinalProject/CommandParser.cs:95-115 | `name a, b` gives [a, b]: the empty field after the comma is dropped and b comes from the third field |
| Tokenizer.TrailingCommaParameters | ASSEFinalProject/CommandParser.cs:95-115 | Fields [name, `a,`, b] give the parameters [a, b] |
| Tokenizer.TrailingCommaCandidates | ASSEFinalProject/CommandParser.cs:95-113 | Fields [name, `a,`, b] give the candidates [a, b, empty], in that order |
| Tokenizer.KeepWordsThenEmpty | ASSEFinalProject/CommandParser.cs:115 | The empty candidate is dropped and the words are kept |
| Tokenizer.TwoCandidates | ASSEFinalProject/CommandParser.cs:105-108 | Fields [name, a, b] give the parameters [a, b] |
| Tokenizer.ThreeCandidates | ASSEFinalProject/CommandParser.cs:100-113 | Fields [name, `a,b`, c] give [a, c, b]: the third field goes before the second comma field |
| Tokenizer.TokenizeSpace | ASSEFinalProject/CommandParser.cs:105-108 | `name a b` gives the parameters [a, b] |
| Tokenizer.TokenizeThreeFields | ASSEFinalProject/CommandParser.cs:100-113 | `name a,b c` gives [a, c, b], in the order the candidates are appended |
| Tokenizer.TokenizeFourFields | ASSEFinalProject/CommandParser.cs:105 | `name a b c` keeps only a: with four fields, both the third and the fourth are ignored |
| Geometry.ISqrtBounds | ASSEFinalProject/CommandParser.cs:603 | The integer square root r satisfies r*r <= n < (r+1)*(r+1) |
| Geometry.ISqrtStep | ASSEFinalProject/CommandParser.cs:603 | The root of n is twice the root of n/4, or one more |
| Geometry.ISqrtUnique | ASSEFinalProject/CommandParser.cs:603 | Any r with r*r <= n < (r+1)*(r+1) is the integer square root |
| Geometry.MonotoneSquare | ASSEFinalProject/CommandParser.cs:603 | Helper (arithmetic, used by ISqrtUnique): squaring preserves order on naturals |
| Geometry.TriangleHeightIsFloor | ASSEFinalProject/CommandParser.cs:603-607 | The height is the floor of sqrt(3)/2*size: 2h <= sqrt(3)*size < 2h+2, squared |
| Geometry.HalfOfRoot | ASSEFinalProject/CommandParser.cs:603-607 | Halving the floor of a square root gives the floor of half of it |
| Geometry.TriangleHalfHeightIsFloor | ASSEFinalProject/CommandParser.cs:608-609 | The half height is the floor of sqrt(3)/4*size |
| Geometry.HalfOfFloor | ASSEFinalProject/CommandParser.cs:608-609 | Halving again gives the floor of a quarter of the root |
| Geometry.HalfOfTriangleHeight | ASSEFinalProject/CommandParser.cs:608 | (int)(height/2) equals (int)height halved |
| Geometry.TriangleFitsIff | ASSEFinalProject/CommandParser.cs:607-615 | From a cursor on the panel, the triangle fits iff its height is at most y, its half height fits below, and half its side fits on both sides |
| Geometry.RectangleFitsHorizontally | ASSEFinalProject/CommandParser.cs:536-539 | A rectangle that passes the check lies within the panel horizontally |
| Geometry.Wrap32 | ASSEFinalProject/CommandParser.cs:536 | 32-bit wrap-around lands in the Int32 range and leaves in-range sums unchanged |
| Geometry.RectangleFitsAgree | ASSEFinalProject/CommandParser.cs:536-544 | Without overflow, the check as written and the unbounded check agree |
| Geometry.RectangleOverflowSlipsThrough | ASSEFinalProject/CommandParser.cs:536-544 | With the cursor at (1,1), a width of Int32Max passes the check as written but does not fit |
| Commands.KindOf | ASSEFinalProject/CommandParser.cs:59-90 | A name selects a command only if it is that command's keyword |
| Commands.ColorOf | ASSEFinalProject/CommandParser.cs:647-666 | A name selects a colour only if it is that colour's name |
| Commands.FillOf | ASSEFinalProject/CommandParser.cs:681-691 | Only `on` and `off` are accepted, as true and false |
| Commands.Target | ASSEFinalProject/CommandParser.cs:392-415 | A target that passes the moveTo/drawTo checks lies inside the panel |
| CommandLaws.KeywordSelectsCommand | ASSEFinalProject/CommandParser.cs:59-87 | Every keyword selects its own command |
| CommandLaws.KeywordInAnyCase | ASSEFinalProject/CommandParser.cs:55-90 | A command name selects a command iff it spells the keyword with each letter in either case |
| CommandLaws.FillOptionInAnyCase | ASSEFinalProject/CommandParser.cs:681-691 | `fill` accepts a word iff it spells `on` or `off` with each letter in either case, giving true or false |
| CommandLaws.ColorNameInAnyCase | ASSEFinalProject/CommandParser.cs:647-666 | `pen` accepts exactly the five colour names, in any letter case |
| CommandLaws.ExecuteLineTokens | ASSEFinalProject/CommandParser.cs:45-91 | Helper (unfolds parseCommand): a line that tokenizes to a keyword and parameters runs that keyword's handler on them |
| CommandLaws.NumberIsWord | ASSEFinalProject/CommandParser.cs:397 | A number's decimal text is a word |
| CommandLaws.NumberText | ASSEFinalProject/CommandParser.cs:397 | An Int32's decimal text is a trimmed word that parses back to it |
| CommandLaws.TargetOfNumbers | ASSEFinalProject/CommandParser.cs:402-415 | moveTo/drawTo report a negative coordinate, then x beyond the width, then y beyond the height, in that order; otherwise the target is (x,y) |
| CommandLaws.ParameterCountFirst | ASSEFinalProject/CommandParser.cs:392-395 | A wrong parameter count is reported before any other check |
| CommandLaws.MoveToTokens | ASSEFinalProject/CommandParser.cs:390-427 | `moveto x,y` either fails with the first failing check, or erases the old dot, moves to (x,y) and draws the new dot, changing nothing else |
| CommandLaws.DrawToTokens | ASSEFinalProject/CommandParser.cs:466-509 | `drawto x,y` makes the same checks; on success it erases the old dot, draws the line, draws the new dot and moves |
| CommandLaws.RectangleTokens | ASSEFinalProject/CommandParser.cs:519-548 | `rectangle w,h` rejects non-positive sizes and, for both axes, cursor plus WIDTH beyond the panel; otherwise it draws at the cursor and nothing moves |
| CommandLaws.RectangleOfNumbers | ASSEFinalProject/CommandParser.cs:526-547 | The rectangle handler's outcome on two numbers |
| CommandLaws.CircleTokens | ASSEFinalProject/CommandParser.cs:557-576 | `circle r` draws any positive radius with diameter 2r at the cursor, with no bounds check |
| CommandLaws.TriangleTokens | ASSEFinalProject/CommandParser.cs:586-623 | `triangle s` draws exactly its three vertices when all lie inside the panel, and otherwise fails |
| CommandLaws.TriangleOfNumber | ASSEFinalProject/CommandParser.cs:593-622 | The triangle handler's outcome on one number |
| CommandLaws.PenTokens | ASSEFinalProject/CommandParser.cs:640-667 | `pen c` sets the colour c names, and fails on any other word |
| CommandLaws.FillTokens | ASSEFinalProject/CommandParser.cs:674-692 | `fill on/off` sets the fill flag, and fails on any other word |
| CommandLaws.ResetAndClearIgnoreParameters | ASSEFinalProject/CommandParser.cs:433-456 | reset and clear succeed whatever their parameters and put the cursor at (0,0) |
| CommandLaws.EmptyOrUnknownCommand | ASSEFinalProject/CommandParser.cs:47-49 | A blank line fails as empty, and an unknown name fails as invalid |
| CommandLaws.TwoNumbers | ASSEFinalProject/CommandParser.cs:93-118 | `name x,y`, `name x, y` and `name x y` all give the parameters [x, y] |
| CommandLaws.TwoWords | ASSEFinalProject/CommandParser.cs:93-118 | The three two-parameter spellings tokenize alike |
| CommandLaws.OneWord | ASSEFinalProject/CommandParser.cs:93-118 | `name w` gives the single parameter w |
| CommandLaws.MoveToLine | ASSEFinalProject/CommandParser.cs:390-427 | `moveto x,y` as typed, with the keyword in any case |
| CommandLaws.DrawToLine | ASSEFinalProject/CommandParser.cs:466-509 | `drawto x,y` as typed |
| CommandLaws.RectangleLine | ASSEFinalProject/CommandParser.cs:519-548 | `rectangle w,h` as typed |
| CommandLaws.CircleLine | ASSEFinalProject/CommandParser.cs:557-576 | `circle r` as typed |
| CommandLaws.TriangleLine | ASSEFinalProject/CommandParser.cs:586-623 | `triangle s` as typed |
| CommandLaws.PenLine | ASSEFinalProject/CommandParser.cs:640-667 | `pen c` as typed |
| CommandLaws.FillLine | ASSEFinalProject/CommandParser.cs:674-692 | `fill on/off` as typed |
| CommandLaws.CommandFrame | ASSEFinalProject/CommandParser.cs:390-692 | Only pen changes the colour, only fill changes the fill flag, and only moveto, drawto, reset and clear move the cursor; shapes change nothing |
| CommandLaws.ExecKeepsCursorInPanel | ASSEFinalProject/CommandParser.cs:402-415 | A command leaves an on-panel cursor on the panel |
| CommandLaws.ExecuteLineKeepsCursorInPanel | ASSEFinalProject/CommandParser.cs:45-91 | So does one line |
| CommandLaws.ExecuteLinesKeepsCursorInPanel | ASSEFinalProject/CommandParser.cs:124-138 | So does a whole program |
| CommandLaws.FirstOfAppend | ASSEFinalProject/CommandParser.cs:127-135 | Helper (unfolds runProgram's loop): running lines runs the first one, then the rest |
| CommandLaws.ExecuteLinesAppend | ASSEFinalProject/CommandParser.cs:124-138 | Running a + b runs a and then, unless a failed, runs b from where a left off, keeping both drawings in order |
| CommandLaws.FailureIgnoresLaterLines | ASSEFinalProject/CommandParser.cs:124-138 | Lines after a failure never run |
| ValidatorLaws.CommandAgrees | ASSEFinalProject/CommandParser.cs:182-330 | For the same cursor and fill flag, syntaxCheck's rules reject exactly the parameters the handler rejects, with the same error kind, and leave the same fill flag |
| ValidatorLaws.TargetAgrees | ASSEFinalProject/CommandParser.cs:188-215 | syntaxCheck's untrimmed second coordinate gives the same verdict as the handler's trimmed one |
| ValidatorLaws.RectangleAgrees | ASSEFinalProject/CommandParser.cs:216-241 | syntaxCheck's rectangle rules agree with the handler's |
| ValidatorLaws.TriangleAgrees | ASSEFinalProject/CommandParser.cs:258-287 | syntaxCheck's triangle rules agree with the handler's |
| ValidatorLaws.LineAgrees | ASSEFinalProject/CommandParser.cs:150-330 | A non-blank line is checked exactly as it would run |
| ValidatorLaws.LineAccepted | ASSEFinalProject/CommandParser.cs:150-330 | A line that would run is accepted, with the fill flag it would leave |
| ValidatorLaws.LineRejected | ASSEFinalProject/CommandParser.cs:150-330 | A line that would fail is rejected with the same error kind |
| ValidatorLaws.LineStaysPut | ASSEFinalProject/CommandParser.cs:519-692 | A line that is not moveto, drawto, reset or clear leaves the cursor where it was |
| ValidatorLaws.CheckAgreesWithoutMoves | ASSEFinalProject/CommandParser.cs:145-335 | When no line moves the cursor, syntaxCheck reports exactly the error kind runProgram stops at, and leaves the same fill flag |
| Interpreter.StepSkipped | ASSEFinalProject/CommandParser.cs:131 | Helper (loop step): runProgram skips a blank line |
| Interpreter.StepFailed | ASSEFinalProject/CommandParser.cs:133 | runProgram stops at a failing line, with its error and the canvas as it was |
| Interpreter.AppendAssociates | ASSEFinalProject/CommandParser.cs:133 | Helper (sequence arithmetic): appending to the canvas is associative, so drawing line by line equals drawing the program's events at once |
| Interpreter.StepDone | ASSEFinalProject/CommandParser.cs:133 | runProgram continues after a line that succeeds, with what that line drew |
| Interpreter.CheckSkipped | ASSEFinalProject/CommandParser.cs:152 | Helper (loop step): syntaxCheck skips a blank line |
| Interpreter.CheckStep | ASSEFinalProject/CommandParser.cs:152-330 | syntaxCheck stops at a rejected line and continues after an accepted one, with the fill flag it leaves |
| Interpreter.CommandParser.constructor | ASSEFinalProject/CommandParser.cs:27-38 | The cursor starts at (0,0) with a black pen, its dot is drawn there, and the fill flag is as given |
| Interpreter.CommandParser.MoveTo | ASSEFinalProject/CommandParser.cs:390-427 | Fails with ExecMoveTo's error and changes nothing, or takes its new state and appends exactly its drawing; keeps the cursor on the panel |
| Interpreter.CommandParser.DrawTo | ASSEFinalProject/CommandParser.cs:466-509 | Same, against ExecDrawTo |
| Interpreter.CommandParser.Reset | ASSEFinalProject/CommandParser.cs:433-445 | Erases the old dot, draws one at (0,0) and moves there, whatever the parameters |
| Interpreter.CommandParser.Clear | ASSEFinalProject/CommandParser.cs:451-456 | Clears the canvas and moves to (0,0), whatever the parameters |
| Interpreter.CommandParser.Rectangle | ASSEFinalProject/CommandParser.cs:519-548 | Same as MoveTo, against ExecRectangle; the pen state never changes |
| Interpreter.CommandParser.Circle | ASSEFinalProject/CommandParser.cs:557-576 | Same, against ExecCircle |
| Interpreter.CommandParser.Triangle | ASSEFinalProject/CommandParser.cs:586-623 | Same, against ExecTriangle |
| Interpreter.CommandParser.PenColor | ASSEFinalProject/CommandParser.cs:640-667 | Same, against ExecPen |
| Interpreter.CommandParser.FillColor | ASSEFinalProject/CommandParser.cs:674-692 | Same, against ExecFill |
| Interpreter.CommandParser.Dispatch | ASSEFinalProject/CommandParser.cs:59-90 | The switch runs exactly the handler of the command's kind |
| Interpreter.CommandParser.ParseCommand | ASSEFinalProject/CommandParser.cs:45-91 | parseCommand on the object does what ExecuteLine defines, and keeps the cursor on the panel |
| Interpreter.CommandParser.RunLine | ASSEFinalProject/CommandParser.cs:129-134 | One iteration of runProgram's loop advances the run as ExecuteLines does |
| Interpreter.CommandParser.RunProgram | ASSEFinalProject/CommandParser.cs:124-138 | runProgram leaves the pen state, the canvas (old canvas plus what was drawn) and the error that RunProgram defines |
| Interpreter.CommandParser.CheckLineAt | ASSEFinalProject/CommandParser.cs:150-330 | One iteration of syntaxCheck's loop advances the dry run as CheckLines does |
| Interpreter.CommandParser.SyntaxCheck | ASSEFinalProject/CommandParser.cs:145-335 | syntaxCheck writes only the fill flag, and reports the dry run's error |
| Scenarios.RootOfSevenThousandFiveHundred | ASSEFinalProject/CommandParser.cs:603 | The integer square root of 3*50*50 is 86 |
| Scenarios.TriangleOfSideFifty | ASSEFinalProject/CommandParser.cs:603-609 | A triangle of side 50 has height 43, half height 21 and half side 25 |
| Scenarios.TriangleFitsAwayFromHome | ASSEFinalProject/CommandParser.cs:607-615 | On 800x600, that triangle does not fit at (0,0) but fits at (100,100) |
| Scenarios.RunThenFail | ASSEFinalProject/CommandParser.cs:127-135 | Two lines, the second failing: the run stops with its error and keeps what the first drew |
| Scenarios.RunBoth | ASSEFinalProject/CommandParser.cs:127-135 | Two lines that both run: the run ends without error, with both drawings in order |
| Scenarios.CheckBoth | ASSEFinalProject/CommandParser.cs:148-334 | Two lines that both pass the dry run |
| Scenarios.CheckThenReject | ASSEFinalProject/CommandParser.cs:148-334 | Two lines, the second rejected by the dry run |
| Scenarios.ToCornerThenRectangleFails | ASSEFinalProject/CommandParser.cs:536-544 | Moving to the far corner and drawing a rectangle fails |
| Scenarios.ToCornerThenRectangleChecks | ASSEFinalProject/CommandParser.cs:232-240 | The same program passes syntaxCheck from (0,0) |
| Scenarios.CheckPassesButRunFails | ASSEFinalProject/CommandParser.cs:145-335 | syntaxCheck accepts a program that fails when run |
| Scenarios.AwayThenTriangleRuns | ASSEFinalProject/CommandParser.cs:124-138 | Moving away and drawing a triangle that fits there runs |
| Scenarios.AwayThenTriangleRejected | ASSEFinalProject/CommandParser.cs:278-286 | The same program is rejected by syntaxCheck, which checks the triangle at the unmoved cursor |
| Scenarios.RunPassesButCheckFails | ASSEFinalProject/CommandParser.cs:145-335 | syntaxCheck rejects a program that runs |
| Scenarios.NumberTexts | ASSEFinalProject/CommandParser.cs:397 | The decimal texts of the numbers the two programs below use |
| Scenarios.KeywordTexts | ASSEFinalProject/CommandParser.cs:55-79 | `moveto`, `rectangle` and `triangle` are words already in lower case |
| Scenarios.TypedMoveTo | ASSEFinalProject/CommandParser.cs:45-57 | `moveto 800,600` and `moveto 100,100` tokenize to the keyword and their two numbers |
| Scenarios.TypedRectangle | ASSEFinalProject/CommandParser.cs:45-57 | `rectangle 10,10` tokenizes to the keyword and [10, 10] |
| Scenarios.TypedTriangle | ASSEFinalProject/CommandParser.cs:45-57 | `triangle 50` tokenizes to the keyword and [50] |
| Scenarios.CornerProgram | ASSEFinalProject/CommandParser.cs:124-335 | On 800x600 from (0,0), `moveto 800,600` then `rectangle 10,10` passes syntaxCheck and fails with the rectangle error when run |
| Scenarios.AwayProgram | ASSEFinalProject/CommandParser.cs:124-335 | On 800x600 from (0,0), `moveto 100,100` then `triangle 50` runs without error and is rejected by syntaxCheck with the triangle error |

## Left out

- Error messages: each ArgumentException is modelled by the check that
  raised it (`Error`), not by its text. syntaxCheck's "Invalid Command Sent"
  and parseCommand's "Invalid Command" are both `InvalidCommand`. Likewise,
  syntaxCheck's moveto/drawto messages differ in wording from the handlers'
  (CommandParser.cs:193-203 against 394-404 and 470-480). The agreement
  lemmas compare error kinds, not texts.
- TextUtil.ToLower maps ASCII letters only, and leaves every other character
  unchanged. The source calls the parameterless `ToLower()`, which follows
  the current culture. The model assumes a culture that lower-cases 'A'..'Z'
  the ASCII way. Under a Turkish or Azerbaijani culture, `I` lower-cases to
  the dotless `ı` (U+0131). So `CIRCLE 10`, `TRIANGLE 50` or `FILL on` fail
  there as an invalid command, where CommandLaws.KeywordInAnyCase and
  TextUtil.ToLowerMatches accept them. Non-ASCII letters that .NET also
  lower-cases (such as U+212A KELVIN SIGN to `k`) are not modelled either.
- TextUtil.ParseInt reads an optional sign followed by decimal digits, and
  TextUtil.ParseIntIff states exactly that. `int.TryParse(string)` also
  accepts trailing NUL characters. Trim does not remove them, since `'\0'`
  is not white space, so the source reads `moveto 10,20\0` as (10,20). The
  model rejects that line as not an integer. Leading and trailing white space
  inside a parameter never reaches the parse, because getParameters trims
  every parameter.
- White space is the usual Unicode space separators, tabs and line breaks,
  as a fixed set of characters. Full Unicode categories are not modelled.
- The triangle's `double` arithmetic is replaced by exact integer
  arithmetic. The height is the integer square root of 3*size*size halved,
  which is the floor of sqrt(3)/2*size. The model does not capture cases
  where double rounding makes `(int)height` differ from that floor.
- Commands.ExecRectangle checks `cursor + width` with unbounded sums, and
  so do Interpreter.CommandParser.Rectangle and Validator.CheckCommand. They
  therefore refuse sizes that the source lets through by 32-bit wrap-around,
  such as `rectangle 2147483647,10` at (1,1). Geometry.Wrap32 and
  Geometry.RectangleFitsAsWritten exist only for the Findings row.
- Commands.ExecCircle records the diameter as the unbounded `2 * radius`.
  The Circle shape class (Circle.cs:43-48) computes `radius * 2` in 32-bit
  arithmetic, which wraps for a radius of 2^30 or more. Circle.cs is
  rendering and is not part of this model.
- The triangle's Int32 sums (`currentX + (int)halfSide`,
  `currentY + (int)(height/2)`) are unbounded in the model. For a cursor on
  a panel under 2^30 pixels a side they stay within the Int32 range, so
  nothing changes there.
- Rendering: the Graphics calls, brushes, pen width and the Rectangle,
  Circle and Triangle shape classes are reduced to drawing events appended
  to a canvas, in the order the code issues them.
- The save and load of program files, and the form and its UI, are left out.
- The pen is just its colour. DrawFill is just its boolean `Fill`. The
  panel is just its width and height. Interpreter.CommandParser takes the
  panel size as fixed for the object's lifetime (`const width`, `const
  height`), whereas the source reads `panel.Width` and `panel.Height` afresh
  at each check. A panel resized between commands is not modelled.
- Interpreter.CommandParser.SyntaxCheck checks each line through the pure
  `CheckLine` instead of restating its switch inline. The loop, the blank
  line skip and the write of the fill flag are kept.

## Findings

| source | as written | input that shows it | evidently intended | confidence | as-written member | corrected member |
|---|---|---|---|---|---|---|
| ASSEFinalProject/CommandParser.cs:536-544 | `currentX + width > panel.Width` (and the same with `currentY`) is computed in unchecked 32-bit arithmetic | cursor at (1,1) on an 800x600 panel, `rectangle 2147483647,10`: the sum wraps to -2147483648, so the check passes | reject a rectangle whose width takes it beyond the panel | not executed | Geometry.RectangleOverflowSlipsThrough | Geometry.RectangleFitsHorizontally |
