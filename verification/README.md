# Robots on a bounded grid, in Dafny

This project models `index.js`, a line-driven simulator of robots on a
rectangular grid.

- **Input.**
  - The first non-blank line gives the grid's upper-right corner.
  - After that, lines alternate between a robot's pose (`x y D`) and a line of instructions.
- **Instructions.** `L` and `R` turn the robot through the direction table in the key order N, E, S, W. `F` steps one cell ahead.
- **Lost robots and scents.**
  - After every instruction, the simulator checks whether the robot stands outside `[0, X] x [0, Y]`.
  - The first time that happens during a line, the robot is marked lost and its position is recorded as a *scent*.
  - A later `F` whose target cell carries a scent does nothing.
- **Output.** Each instruction line prints the final pose, followed by ` LOST` if the flag was set.
- **Blank lines** are skipped before any handler sees them.

Modules:

- `Wrappers`: `Option` and `Result`, the latter usable with `:-`.
- `Text`: the string handling the parser relies on.
  - JavaScript white space and `trim`.
  - Splitting on white-space runs (`Tokens`).
  - `parseInt(token, 10)` (`ParseInt`).
  - Printing an integer (`IntToString`).
- `Directions`: the direction table (`Keys`, `Delta`) and turning by index arithmetic (`RotateLeft`, `RotateRight`).
  - A robot's direction is a `Heading`.
  - A heading is either one of the four orientations or the unknown letter it was read as. The source stores the pose letter unchecked.
- `Robots`:
  - `Robot.move` (`Move`) and `Robot.isLost` (`IsLost`).
  - One turn of the `move` handler's loop (`Exec`) and the whole loop (`ExecAll`).
  - The printed line (`Format`).
- `StateMachine`:
  - The `init`, `start` and `move` handlers (`HandleInit`, `HandleStart`, `HandleMove`).
  - The `line` callback (`Dispatch`, `Step`).
  - A whole run over a list of lines (`Run`).
  - Errors are values rather than exceptions:
    - `Malformed` covers the exceptions the handlers throw for a line of the wrong shape.
    - `Crashed` covers the TypeError of `F` on a direction missing from the table.
    - Both carry the 1-based count of non-blank lines and the raw line.
- `Scenarios`: the three-robot example on the grid `5 3`, run instruction by instruction.

I/O is a parameter of the model:

- A run is a function from the list of input lines to the lines printed and the final context or failure.
- Stdin, stdout and stderr do not appear.

## Model

| member | source | states |
|---|---|---|
| Directions.ParseHeading | index.js:93-97 | the stored direction prints as the token it was read from; it is one of the table's orientations exactly when the token is `N`, `E`, `S` or `W` |
| Directions.IndexOf | index.js:30 | `indexOf` in the key order: -1 exactly for a letter missing from the table, otherwise the index whose key is the orientation |
| Directions.Turn | index.js:29-32 | the index arithmetic `L` and `R` share: with sign +1 a known orientation goes to its clockwise successor, with -1 to the orientation whose successor it is; from an unknown letter, index -1 lands on N for +1 and on S for -1 |
| Directions.RotateRight | index.js:27-32 | `R` gives the clockwise successor from the reference table; from an unknown letter the index -1 lands on N |
| Directions.RotateLeft | index.js:27-32 | `L` gives the orientation whose clockwise successor is the current one; from an unknown letter it lands on S |
| Directions.Delta | index.js:13-18 | every table entry is a unit step |
| Directions.LeftUndoesRight | index.js:27-32 | on the four table orientations, L after R is the identity (from an unknown letter both orders end at W) |
| Directions.RightUndoesLeft | index.js:27-32 | on the four table orientations, R after L is the identity |
| Directions.FourTurnsIdentity | index.js:19 | four right turns, or four left turns, return every orientation to itself |
| Directions.RightTurnRotatesDelta | index.js:13-18 | a right turn rotates the unit step a quarter turn clockwise |
| Directions.HeadingTextRoundTrip | index.js:96 | a heading as parsing produces it is read back as itself from its printed letter |
| Robots.IsLost | index.js:50-55 | a position is lost exactly when it lies outside `[0, X] x [0, Y]`, corners included in the grid |
| Robots.Ahead | index.js:34-36 | the cell `F` aims at is a different cell, at distance one |
| Robots.Move | index.js:26-48 | fails exactly for `F` on a direction missing from the table; `L`/`R` change only the heading; for `F`, the robot stays put exactly when a scent sits on the target cell, and otherwise moves there, on or off the grid; any other character changes nothing |
| Robots.Exec | index.js:115-121 | one loop turn moves as `Move` does; the flag ends set iff it was set or the robot now stands off the grid; when it flips, exactly the new position is appended as a scent; scents are only appended, at most one, and only off-grid points |
| Robots.ExecAll | index.js:114-122 | the whole line appends at most one scent, exactly when the flag flips, never alters earlier scents, and the flag never clears; a known direction never fails and stays known; a failure needs an unknown direction and an `F`; a robot that starts on the grid never adds a scent that was already recorded |
| Robots.Format | index.js:57-61 | the printed line starts with the x coordinate and a space and is longer than the direction; without the flag it ends with the direction as stored, and with the flag it is the same line followed by ` LOST` |
| Robots.LostIffLeftGrid | index.js:114-122 | the flag ends set iff the robot stood off the grid after some instruction, even if it ends back on the grid; the scent recorded is the first such position |
| Robots.BlockedStepChangesNothing | index.js:38-43 | an on-grid robot whose step is blocked by a scent keeps its pose, its flag and the scents |
| Robots.ScentOnlyBlocksExits | index.js:38-43 | when every scent is off the grid, a step onto a cell of the grid is never blocked, so only a step that would leave the grid can be |
| Robots.ScentSavesLaterRobot | index.js:115-121 | on grid `5 3`, a robot stepping north from `3 3` falls off and leaves a scent at `3 4`; a later robot making the same step with that scent recorded stays at `3 3` and is not marked lost |
| Robots.OffGridStartIsLostAtOnce | index.js:115-121 | a robot starting off the grid is marked lost by a first instruction other than `F`, even a turn, and leaves a scent at its own cell |
| Robots.ForwardBackOntoGrid | index.js:45-46 | a robot at `-1 0 E`, off the grid `5 3`, steps onto `0 0` with `F` and is not marked lost |
| Robots.NoForwardKeepsPosition | index.js:27-33 | a line without `F` never fails and never changes the position |
| Robots.FourTurnsRestorePose | index.js:27-32 | for a robot whose direction is one of the table's four, `RRRR` and `LLLL` bring it back to its pose |
| Text.Trim | index.js:112 | `trim` returns a piece of the line with only white space before and after it; a non-empty result starts and ends with a non-space character, and the result is empty iff the line is all white space |
| Text.BlankIffTrimEmpty | index.js:137 | the lines the callback skips are exactly those whose trimmed text is empty |
| Text.Tokens | index.js:68 | every token of a line is non-empty and free of white space; `Text.Gaps` and `Text.TokensOfLayout` say which tokens these are |
| Text.TokensOfLayout | index.js:68 | words put together with white-space gaps, non-empty between two words, split back into exactly those words |
| Text.Gaps | index.js:68 | every line is such a layout of its own tokens: the pieces between the tokens are white space, non-empty between two tokens, and tokens and gaps put back together give the line, so the tokens are exactly the maximal runs without white space |
| Text.TokensOfJoin | index.js:88 | splitting a line of words joined by spaces gives back the words |
| Text.NatToString | index.js:60 | a natural number prints as a non-empty run of digits without leading zero |
| Text.IntToString | index.js:60 | a printed integer has no white space and starts with `-` exactly when negative |
| Text.ParseInt | index.js:74-75 | `parseInt` yields a number exactly when a digit comes first, or right after a sign |
| Text.IntToStringRoundTrip | index.js:94-95 | parsing a printed integer gives the integer back |
| StateMachine.HandleInit | index.js:67-84 | succeeds iff there are exactly two tokens and both parse; then the grid corner is the two parsed numbers and it awaits a pose with an empty scent list; otherwise fails as `init` at its line with the raw line |
| StateMachine.GridLineRoundTrip | index.js:67-84 | a grid written as two integers is read back as that grid |
| StateMachine.HandleStart | index.js:87-104 | succeeds iff there are exactly three tokens and the first two parse; then the robot's x and y are the parsed numbers and its direction is the third token as read, and grid and scents are kept; otherwise fails as `start` |
| StateMachine.PoseRoundTrip | index.js:87-97 | a printed pose without ` LOST` is read back as the same robot; one with ` LOST` is rejected |
| StateMachine.HandleMove | index.js:111-126 | never rejects a line for its shape and never fails for a known direction; then awaits the next pose on the same grid with scents only appended, at most one, off the grid |
| StateMachine.FormatTokens | index.js:57-61 | the printed line splits into x, y and the direction, plus `LOST` exactly when the flag is set |
| StateMachine.PrintedLine | index.js:124 | the printed line has three or four tokens: x, y and the direction, then `LOST` as the fourth exactly for a lost robot |
| StateMachine.MoveReportsLost | index.js:114-124 | the printed line splits into three or four tokens: the final x, y and direction, then `LOST` as a fourth token exactly when the robot stood off the grid after some instruction; the line adds a scent exactly then |
| StateMachine.Dispatch | index.js:138 | a non-blank line advances the count by one and moves init to start, start to move, move to start; only move prints; shape errors come from init or start, crashes from move |
| StateMachine.Step | index.js:136-140 | a line whose `trim()` is empty changes neither state nor count and prints nothing; any other line that succeeds advances the count by one, hands control to the next handler in the init, start, move, start cycle and prints exactly when it was a `move` line; one that fails names that next count and the raw line |
| StateMachine.Run | index.js:136-140 | a run prints at most one line per non-blank input line, and one that does not fail counts exactly its non-blank lines |
| StateMachine.BlankLinesIgnored | index.js:136-140 | a run prints the same and ends the same with the blank lines removed |
| StateMachine.FailureNamesOffendingLine | index.js:130-138 | a failure carries the raw text of a non-blank input line and its number among the non-blank lines |
| StateMachine.StepPreservesValid | index.js:82 | one line keeps every scent off the grid, keeps the grid, and never removes a scent |
| StateMachine.RunPreservesValid | index.js:117-120 | over a whole run, every scent lies off the grid, the grid never changes and scents are only appended |
| StateMachine.StartErrorOnePastAsWritten | index.js:90 | after a grid line, a two-token pose line fails as line 2, while the message the source prints names line 3 |
| StateMachine.MessageAsWrittenNamesLine | index.js:90 | over any run that stops on a malformed line, the line number the source's message prints is that line's number among the non-blank lines for `init`, and one more for `start` |
| StateMachine.MessageNamesOffendingLine | index.js:70 | with the intended numbering, a malformed-line message names the offending line's number among the non-blank lines |
| Scenarios.FirstRobot | index.js:114-122 | on grid `5 3`, the robot `1 1 E` running `RFRFRFRF` ends at `1 1 E`, not lost and with no scent |
| Scenarios.FirstRobotPrints | index.js:124 | that robot prints `1 1 E` |
| Scenarios.SecondRobot | index.js:114-122 | on grid `5 3`, the robot `3 2 N` running `FRRFLLFFRRFLL` ends at `3 3 N`, lost, with the single scent `3 4` |
| Scenarios.SecondRobotPrints | index.js:124 | that robot prints `3 3 N LOST` |
| Scenarios.ThirdRobot | index.js:114-122 | on grid `5 3` with the scent `3 4`, the robot `0 3 W` running `LLFFFLFLFL` ends at `2 3 S`, not lost, adding no scent |
| Scenarios.ThirdRobotPrints | index.js:124 | that robot prints `2 3 S` |

## Left out

- Reading stdin with `readline`, writing stdout and stderr, and ending the process on an exception (index.js:5-10, 136). A run is a function over a list of lines instead.
- DEBUG tracing to stderr (index.js:3, 78-80, 99-101). It is diagnostic output only.
- The text of error messages. A failure carries the handler, the line number and the raw line, which is what the messages interpolate.
- The message the TypeError of `F` prints. It is a `Crashed` failure naming the missing letter.
- Text.ParseInt: a token with no digit right after its optional sign gives `NaN` in the source, and the handlers go on with `NaN` coordinates. In the model, such a token makes `init` or `start` fail as malformed, so a run the source continues in a degenerate way stops here instead.
- Text.ParseInt: IEEE-754 limits are not modelled. Integers are unbounded, so very long digit runs, which the source rounds, keep their exact value. Number printing never uses exponent notation.
- Strings are sequences of Unicode scalar values, whereas JavaScript's `split('')` works on UTF-16 code units. An instruction character outside the Basic Multilingual Plane is one ignored instruction here and two there, which gives the same outcome.
- Directions.ParseHeading: direction names that JavaScript finds on `Object.prototype` (such as `toString`) are treated like any other unknown letter. `F` then fails here, whereas in the source the lookup succeeds and yields `NaN` coordinates.
- The scent object in the source copies the robot's direction as well as its position. Only `x` and `y` are ever compared, so a scent is a `Point`.

Where the code and the usual description of the system differ, the model follows the code:

- The bounds test runs after every instruction, not only after an `F` that moved. A robot whose pose lies off the grid is therefore marked lost by its first instruction, even a turn, unless that instruction is an `F` that lands on the grid (`Robots.OffGridStartIsLostAtOnce`, `Robots.ForwardBackOntoGrid`).
- A scent is appended even if the same point is already recorded. This happens when a robot starts off the grid on a scent. Only for robots that start on the grid is the new scent always new (`Robots.ExecAll`).
- An empty instruction line cannot exist. The callback skips a blank line before any handler sees it, so after a pose line followed by a blank line, the next pose line is run as an instruction line: in `2 2 N`, the two digits and `N` are ignored instructions, and the spaces between them are ignored too (`StateMachine.Step`, `StateMachine.BlankLinesIgnored`).
- The grid corner is not checked to be non-negative. A negative corner gives a grid on which every position is off the grid.
- A blocked step never marks a robot lost only when the robot is on the grid (`Robots.BlockedStepChangesNothing`). A robot already off the grid is marked by the per-instruction test anyway.

## Findings

| source | as written | input that shows it | evidently intended | confidence | as-written member | corrected member |
|---|---|---|---|---|---|---|
| index.js:90 | the `start` handler's message uses the module-level counter, which the callback has already advanced past the current line, so the line number shown is one too high | the lines `5 3` then `1 1`: the second non-blank line has two tokens where three are needed, and the message names line 3 | the number of the offending line, as the `init` handler prints it (index.js:70) | not executed | StateMachine.StartErrorOnePastAsWritten | StateMachine.MessageNamesOffendingLine |
