/** The line-driven state machine of `index.js`: `init` reads the grid size,
    `start` reads a robot's pose, `move` runs an instruction line and prints
    the result, and blank lines are skipped before any handler sees them. */
module StateMachine {
  import opened Wrappers
  import opened Text
  import opened Directions
  import Robots

  /** The names of the three handlers, which error messages quote. */
  datatype Phase = Init | Start | Move

  /** The parsing context between two lines. The grid and the scent list
      exist from the end of `init` on; a robot exists between `start` and
      `move`. */
  datatype Machine =
    | AwaitSize
    | AwaitPose(grid: Robots.Grid, scents: seq<Robots.Point>)
    | AwaitInstructions(grid: Robots.Grid, scents: seq<Robots.Point>, robot: Robots.Robot)

  /** The machine and the number of non-blank lines handed to it so far. */
  datatype Context = Context(machine: Machine, lineNum: nat)

  const Initial: Context := Context(AwaitSize, 0)

  /** Why a run stops: a line of the wrong shape for its state, or the
      TypeError of `F` on a direction missing from the table. Both carry the
      1-based number of the non-blank line being handled and its raw text. */
  datatype Failure =
    | Malformed(phase: Phase, line: nat, raw: string)
    | Crashed(fault: Robots.Fault, line: nat, raw: string)

  function PhaseOf(m: Machine): Phase {
    match m
    case AwaitSize => Init
    case AwaitPose(_, _) => Start
    case AwaitInstructions(_, _, _) => Move
  }

  /** The cycle the handlers hand control around: init, start, move, start, ... */
  function Successor(p: Phase): Phase {
    match p
    case Init => Start
    case Start => Move
    case Move => Start
  }

  /** The `init` handler: exactly two tokens, the grid's upper-right corner;
      the scent list of the run starts empty here. */
  function HandleInit(line: string, n: nat): (res: Result<Machine, Failure>)
    ensures res.Success? ==> res.value.AwaitPose? && res.value.scents == []
    ensures res.Success? <==>
      var ts := Tokens(line);
      |ts| == 2 && ParseInt(ts[0]).Some? && ParseInt(ts[1]).Some?
    ensures res.Success? ==>
      res.value.grid == Robots.Grid(ParseInt(Tokens(line)[0]).value, ParseInt(Tokens(line)[1]).value)
    ensures res.Failure? ==> res.error == Malformed(Init, n, line)
  {
    var ts := Tokens(line);
    if |ts| != 2 then Failure(Malformed(Init, n, line))
    else
      match (ParseInt(ts[0]), ParseInt(ts[1]))
      case (Some(x), Some(y)) => Success(AwaitPose(Robots.Grid(x, y), []))
      case _ => Failure(Malformed(Init, n, line))
  }

  /** The `start` handler: exactly three tokens, two coordinates and a
      direction letter, stored as read. */
  function HandleStart(g: Robots.Grid, scents: seq<Robots.Point>, line: string, n: nat): (res: Result<Machine, Failure>)
    ensures res.Success? ==>
      && res.value.AwaitInstructions?
      && res.value.grid == g && res.value.scents == scents
    ensures res.Success? <==>
      var ts := Tokens(line);
      |ts| == 3 && ParseInt(ts[0]).Some? && ParseInt(ts[1]).Some?
    ensures res.Success? ==>
      && res.value.robot.x == ParseInt(Tokens(line)[0]).value
      && res.value.robot.y == ParseInt(Tokens(line)[1]).value
      && res.value.robot.heading == ParseHeading(Tokens(line)[2])
    ensures res.Success? ==> HeadingText(res.value.robot.heading) == Tokens(line)[2]
    ensures res.Failure? ==> res.error == Malformed(Start, n, line)
  {
    var ts := Tokens(line);
    if |ts| != 3 then Failure(Malformed(Start, n, line))
    else
      match (ParseInt(ts[0]), ParseInt(ts[1]))
      case (Some(x), Some(y)) =>
        Success(AwaitInstructions(g, scents, Robots.Robot(x, y, ParseHeading(ts[2]))))
      case _ => Failure(Malformed(Start, n, line))
  }

  /** The `move` handler: every character of the trimmed line is an
      instruction, whatever it is; the line is never rejected for its shape.
      It prints the final pose, marked ` LOST` when the line's flag was set. */
  function HandleMove(g: Robots.Grid, scents: seq<Robots.Point>, r: Robots.Robot, line: string, n: nat)
    : (res: Result<(Machine, string), Failure>)
    ensures r.heading.Known? ==> res.Success?
    ensures res.Failure? ==> r.heading.Unknown? && res.error.Crashed? && res.error.line == n
    ensures res.Success? ==>
      && res.value.0.AwaitPose? && res.value.0.grid == g
      && scents <= res.value.0.scents && |res.value.0.scents| <= |scents| + 1
      && (forall i :: |scents| <= i < |res.value.0.scents| ==> Robots.IsLost(res.value.0.scents[i], g))
  {
    var start := Robots.LineState(r, scents, false);
    match Robots.ExecAll(start, Trim(line), g)
    case Failure(f) => Failure(Crashed(f, n, line))
    case Success(t) => Success((AwaitPose(g, t.scents), Robots.Format(t.robot, t.lost)))
  }

  /** `states[context.state](context, line, lineNum++)`: hands a non-blank
      line to the handler of the current state under the next line number. */
  function Dispatch(c: Context, line: string): (res: Result<(Context, Option<string>), Failure>)
    ensures res.Success? ==>
      && res.value.0.lineNum == c.lineNum + 1
      && PhaseOf(res.value.0.machine) == Successor(PhaseOf(c.machine))
      && (res.value.1.Some? <==> c.machine.AwaitInstructions?)
    ensures res.Failure? ==> res.error.line == c.lineNum + 1 && res.error.raw == line
    ensures res.Failure? && res.error.Malformed? ==>
      res.error.phase == PhaseOf(c.machine) && !c.machine.AwaitInstructions?
    ensures res.Failure? && res.error.Crashed? ==> c.machine.AwaitInstructions?
  {
    var n := c.lineNum + 1;
    match c.machine
    case AwaitSize =>
      var m :- HandleInit(line, n);
      Success((Context(m, n), None))
    case AwaitPose(g, scents) =>
      var m :- HandleStart(g, scents, line, n);
      Success((Context(m, n), None))
    case AwaitInstructions(g, scents, r) =>
      var out :- HandleMove(g, scents, r, line, n);
      Success((Context(out.0, n), Some(out.1)))
  }

  /** The `line` callback: a blank line, one whose `trim()` is empty (see
      `BlankIffTrimEmpty`), changes nothing, neither the state nor the line
      count; any other line counts as the next line and moves the machine on
      to the next handler, or fails naming that line. */
  function Step(c: Context, line: string): (res: Result<(Context, Option<string>), Failure>)
    ensures IsBlank(line) ==> res == Success((c, None))
    ensures !IsBlank(line) && res.Success? ==>
      && res.value.0.lineNum == c.lineNum + 1
      && PhaseOf(res.value.0.machine) == Successor(PhaseOf(c.machine))
      && (res.value.1.Some? <==> c.machine.AwaitInstructions?)
    ensures !IsBlank(line) && res.Failure? ==>
      res.error.line == c.lineNum + 1 && res.error.raw == line
  {
    if IsBlank(line) then Success((c, None)) else Dispatch(c, line)
  }

  /** What a run produces: the lines printed, then either the final context
      or the failure that stopped it. Lines printed before a failure stay. */
  datatype Outcome = Outcome(outputs: seq<string>, result: Result<Context, Failure>)

  /** Feeds the lines to the machine one at a time, in order. */
  function Run(c: Context, lines: seq<string>): (o: Outcome)
    ensures |o.outputs| <= |NonBlank(lines)|
    ensures o.result.Success? ==> o.result.value.lineNum == c.lineNum + |NonBlank(lines)|
    decreases |lines|
  {
    if lines == [] then Outcome([], Success(c))
    else
      match Step(c, lines[0])
      case Failure(f) => Outcome([], Failure(f))
      case Success((c', out)) =>
        var rest := Run(c', lines[1..]);
        Outcome((if out.Some? then [out.value] else []) + rest.outputs, rest.result)
  }

  // ---- properties of runs ----

  /** The non-blank lines, in order. */
  function NonBlank(lines: seq<string>): (r: seq<string>)
    ensures |r| <= |lines|
    ensures forall i :: 0 <= i < |r| ==> !IsBlank(r[i])
  {
    if lines == [] then []
    else if IsBlank(lines[0]) then NonBlank(lines[1..])
    else [lines[0]] + NonBlank(lines[1..])
  }

  /** Blank lines might as well not be there: the run over the input with
      them removed prints the same lines and ends the same way. */
  lemma {:induction false} BlankLinesIgnored(c: Context, lines: seq<string>)
    ensures Run(c, lines) == Run(c, NonBlank(lines))
    decreases |lines|
  {
    if lines != [] {
      var l, rest := lines[0], lines[1..];
      if IsBlank(l) {
        assert NonBlank(lines) == NonBlank(rest);
        assert Run(c, lines) == Run(c, rest);
        BlankLinesIgnored(c, rest);
      } else {
        var nb := NonBlank(lines);
        assert nb == [l] + NonBlank(rest);
        assert nb[0] == l && nb[1..] == NonBlank(rest);
        match Step(c, l)
        case Failure(_) =>
        case Success((c', _)) =>
          BlankLinesIgnored(c', rest);
      }
    }
  }

  /** A failure names the line that caused it: its raw text, and its number
      among the non-blank lines counted from the start of the run. */
  lemma {:induction false} FailureNamesOffendingLine(c: Context, lines: seq<string>)
    requires Run(c, lines).result.Failure?
    ensures var f := Run(c, lines).result.error;
      exists k :: && 0 <= k < |lines| && lines[k] == f.raw && !IsBlank(lines[k])
                  && f.line == c.lineNum + |NonBlank(lines[..k + 1])|
    decreases |lines|
  {
    var l, rest := lines[0], lines[1..];
    var f := Run(c, lines).result.error;
    match Step(c, l)
    case Failure(e) =>
      assert f == e;
      assert lines[..1] == [l];
      assert NonBlank([l]) == [l] by {
        assert [l][1..] == [];
      }
      assert 0 <= 0 < |lines| && lines[0] == f.raw && !IsBlank(lines[0])
             && f.line == c.lineNum + |NonBlank(lines[..1])|;
    case Success((c', _)) =>
      assert Run(c, lines).result == Run(c', rest).result;
      FailureNamesOffendingLine(c', rest);
      var k :| && 0 <= k < |rest| && rest[k] == f.raw && !IsBlank(rest[k])
               && f.line == c'.lineNum + |NonBlank(rest[..k + 1])|;
      assert lines[k + 1] == f.raw && !IsBlank(lines[k + 1]) by {
        assert lines[k + 1] == rest[k];
      }
      assert f.line == c.lineNum + |NonBlank(lines[..(k + 1) + 1])| by {
        StepCountsLine(c, l);
        NonBlankPrefixShift(lines, k);
      }
  }

  lemma NonBlankPrefixShift(lines: seq<string>, k: nat)
    requires k + 2 <= |lines|
    ensures |NonBlank(lines[..k + 2])|
            == (if IsBlank(lines[0]) then 0 else 1) + |NonBlank(lines[1..][..k + 1])|
  {
    var pre := lines[..k + 2];
    assert pre[0] == lines[0] && pre[1..] == lines[1..][..k + 1];
  }

  lemma StepCountsLine(c: Context, line: string)
    requires Step(c, line).Success?
    ensures Step(c, line).value.0.lineNum == c.lineNum + (if IsBlank(line) then 0 else 1)
  {
  }

  /** The scents of a context: none before the grid size is read. */
  function ScentsOf(m: Machine): seq<Robots.Point> {
    if m.AwaitSize? then [] else m.scents
  }

  /** What every reachable context satisfies: every scent lies off the grid,
      and a waiting robot's direction is a token of its pose line. */
  ghost predicate Valid(c: Context) {
    match c.machine
    case AwaitSize => true
    case AwaitPose(g, scents) => Robots.ScentsOffGrid(scents, g)
    case AwaitInstructions(g, scents, r) =>
      && Robots.ScentsOffGrid(scents, g)
      && IsWord(HeadingText(r.heading)) && Canonical(r.heading)
  }

  /** One line keeps the context valid, keeps the grid, and only appends to
      the scents (the empty list is made once, by `init`). */
  lemma StepPreservesValid(c: Context, line: string)
    requires Valid(c)
    requires Step(c, line).Success?
    ensures var c' := Step(c, line).value.0;
      && Valid(c')
      && (!c.machine.AwaitSize? ==> !c'.machine.AwaitSize? && c'.machine.grid == c.machine.grid)
      && ScentsOf(c.machine) <= ScentsOf(c'.machine)
  {
    if !IsBlank(line) {
      var n := c.lineNum + 1;
      match c.machine
      case AwaitSize =>
      case AwaitPose(g, scents) => StartKeepsValid(g, scents, line, n);
      case AwaitInstructions(g, scents, r) => MoveKeepsValid(g, scents, r, line, n);
    }
  }

  /** The pose `start` stores is a word that reads back as itself. */
  lemma StartKeepsValid(g: Robots.Grid, scents: seq<Robots.Point>, line: string, n: nat)
    requires Robots.ScentsOffGrid(scents, g)
    requires HandleStart(g, scents, line, n).Success?
    ensures Valid(Context(HandleStart(g, scents, line, n).value, n))
  {
    var ts := Tokens(line);
    assert IsWord(ts[2]);
  }

  /** The scents `move` hands on are the old ones plus off-grid points. */
  lemma MoveKeepsValid(g: Robots.Grid, scents: seq<Robots.Point>, r: Robots.Robot, line: string, n: nat)
    requires Robots.ScentsOffGrid(scents, g)
    requires HandleMove(g, scents, r, line, n).Success?
    ensures Valid(Context(HandleMove(g, scents, r, line, n).value.0, n))
  {
    var m := HandleMove(g, scents, r, line, n).value.0;
    forall i | 0 <= i < |m.scents| ensures Robots.IsLost(m.scents[i], g) {
      if i < |scents| {
        assert m.scents[i] == scents[i];
      }
    }
  }

  /** A whole run keeps the context valid: every scent ever recorded lies off
      the grid, the grid never changes, and no scent is ever removed. */
  lemma {:induction false} RunPreservesValid(c: Context, lines: seq<string>)
    requires Valid(c)
    requires Run(c, lines).result.Success?
    ensures var c' := Run(c, lines).result.value;
      && Valid(c')
      && (!c.machine.AwaitSize? ==> !c'.machine.AwaitSize? && c'.machine.grid == c.machine.grid)
      && ScentsOf(c.machine) <= ScentsOf(c'.machine)
    decreases |lines|
  {
    if lines != [] {
      var c' := Step(c, lines[0]).value.0;
      StepPreservesValid(c, lines[0]);
      RunPreservesValid(c', lines[1..]);
    }
  }

  /** The printed line splits into the coordinates, the direction and, for a
      lost robot, the word `LOST`. */
  lemma FormatTokens(r: Robots.Robot, lost: bool)
    requires IsWord(HeadingText(r.heading))
    ensures Tokens(Robots.Format(r, lost)) ==
      [IntToString(r.x), IntToString(r.y), HeadingText(r.heading)] + (if lost then ["LOST"] else [])
  {
    var a, b, h := IntToString(r.x), IntToString(r.y), HeadingText(r.heading);
    var tail: seq<string> := if lost then ["LOST"] else [];
    var suffix := if lost then " LOST" else "";
    JoinPose(a, b, h, tail, suffix);
    assert Robots.Format(r, lost) == a + " " + b + " " + h + suffix;
    TokensOfJoin([a, b, h] + tail);
  }

  lemma JoinPose(a: string, b: string, h: string, tail: seq<string>, suffix: string)
    requires (tail == [] && suffix == "") || (tail == ["LOST"] && suffix == " LOST")
    ensures Join([a, b, h] + tail) == a + " " + b + " " + h + suffix
  {
    var ws := [a, b, h] + tail;
    assert Join([h] + tail) == h + suffix by {
      if tail != [] {
        assert ([h] + tail)[1..] == ["LOST"];
      }
    }
    assert ws[1..] == [b, h] + tail;
    assert ([b, h] + tail)[1..] == [h] + tail;
  }

  /** The pose a robot is printed in is read back as the same robot by the
      `start` handler, as long as it was not marked lost. */
  lemma PoseRoundTrip(g: Robots.Grid, scents: seq<Robots.Point>, r: Robots.Robot, n: nat)
    requires IsWord(HeadingText(r.heading)) && Canonical(r.heading)
    ensures HandleStart(g, scents, Robots.Format(r, false), n) == Success(AwaitInstructions(g, scents, r))
    ensures HandleStart(g, scents, Robots.Format(r, true), n).Failure?
  {
    FormatTokens(r, false);
    FormatTokens(r, true);
    IntToStringRoundTrip(r.x);
    IntToStringRoundTrip(r.y);
    HeadingTextRoundTrip(r.heading);
  }

  /** A grid line written as two integers separated by a space is read back
      by the `init` handler as that grid, with no scents yet. */
  lemma GridLineRoundTrip(x: int, y: int, n: nat)
    ensures HandleInit(IntToString(x) + " " + IntToString(y), n)
            == Success(AwaitPose(Robots.Grid(x, y), []))
  {
    var ws := [IntToString(x), IntToString(y)];
    assert ws[1..] == [IntToString(y)];
    assert Join(ws) == IntToString(x) + " " + IntToString(y);
    TokensOfJoin(ws);
    IntToStringRoundTrip(x);
    IntToStringRoundTrip(y);
  }

  /** The line printed for an instruction line has four tokens, the last
      being `LOST`, exactly when the robot stood off the grid after one of
      the instructions, even if it came back; that is also exactly when the
      line adds a scent. Its first three tokens are the final pose. */
  lemma MoveReportsLost(g: Robots.Grid, scents: seq<Robots.Point>, r: Robots.Robot, line: string, n: nat)
    requires IsWord(HeadingText(r.heading))
    requires HandleMove(g, scents, r, line, n).Success?
    ensures var (m, out) := HandleMove(g, scents, r, line, n).value;
      var v := Robots.Visited(Robots.LineState(r, scents, false), Trim(line), g);
      var lost := exists i :: 0 <= i < |v| && Robots.IsLost(v[i], g);
      && 3 <= |Tokens(out)| <= 4
      && (|Tokens(out)| == 4 && Tokens(out)[3] == "LOST" <==> lost)
      && (|m.scents| == |scents| + 1 <==> lost)
    ensures var (m, out) := HandleMove(g, scents, r, line, n).value;
      var t := Robots.ExecAll(Robots.LineState(r, scents, false), Trim(line), g).value;
      Tokens(out)[..3] == [IntToString(t.robot.x), IntToString(t.robot.y), HeadingText(t.robot.heading)]
  {
    var start := Robots.LineState(r, scents, false);
    var t := Robots.ExecAll(start, Trim(line), g).value;
    assert HandleMove(g, scents, r, line, n).value == (AwaitPose(g, t.scents), Robots.Format(t.robot, t.lost));
    Robots.LostIffLeftGrid(start, Trim(line), g);
    HeadingWord(t.robot.heading, r.heading);
    PrintedLine(t.robot, t.lost);
  }

  /** The tokens of a printed line: the pose, then `LOST` exactly for a lost robot. */
  lemma PrintedLine(r: Robots.Robot, lost: bool)
    requires IsWord(HeadingText(r.heading))
    ensures var ts := Tokens(Robots.Format(r, lost));
      && 3 <= |ts| <= 4
      && (|ts| == 4 && ts[3] == "LOST" <==> lost)
      && ts[..3] == [IntToString(r.x), IntToString(r.y), HeadingText(r.heading)]
  {
    FormatTokens(r, lost);
  }

  /** A heading that is either the one a robot started with or one of the
      table's orientations prints as a single token. */
  lemma HeadingWord(h: Heading, h0: Heading)
    requires IsWord(HeadingText(h0)) && (h == h0 || h.Known?)
    ensures IsWord(HeadingText(h))
  {
    if h.Known? {
      assert !IsSpace(Letter(h.o));
    }
  }

  // ---- error messages ----

  /** The line number the source's error message shows. The `init` handler
      prints the number it is passed; the `start` handler prints the global
      counter instead, which the `line` callback has already advanced past
      the current line. */
  function MessageLineAsWritten(f: Failure): nat
    requires f.Malformed?
  {
    if f.phase == Start then f.line + 1 else f.line
  }

  /** The line number an error message is meant to show: that of the
      offending line, counting non-blank lines from 1. */
  function MessageLine(f: Failure): nat
    requires f.Malformed?
  {
    f.line
  }

  /** After the grid line, a pose line with only two tokens is line 2 of the
      input, yet the message the source prints for it names line 3. */
  lemma StartErrorOnePastAsWritten(line: string)
    requires line == "1 1"
    ensures var c := Context(AwaitPose(Robots.Grid(5, 3), []), 1);
      && Step(c, line) == Failure(Malformed(Start, 2, line))
      && MessageLineAsWritten(Step(c, line).error) == 3
  {
    assert line == Join(["1", "1"]);
    TokensOfJoin(["1", "1"]);
    assert !IsSpace(line[0]);
  }

  /** With the intended line number, every malformed-line message names the
      offending line: its number among the non-blank lines of the input. */
  lemma MessageNamesOffendingLine(lines: seq<string>)
    requires Run(Initial, lines).result.Failure?
    requires Run(Initial, lines).result.error.Malformed?
    ensures var f := Run(Initial, lines).result.error;
      exists k :: && 0 <= k < |lines| && lines[k] == f.raw
                  && MessageLine(f) == |NonBlank(lines[..k + 1])|
  {
    FailureNamesOffendingLine(Initial, lines);
  }

  /** As written, every malformed-line message names the offending line's
      number among the non-blank lines, except that a `start` message names
      the number after it. */
  lemma MessageAsWrittenNamesLine(lines: seq<string>)
    requires Run(Initial, lines).result.Failure?
    requires Run(Initial, lines).result.error.Malformed?
    ensures var f := Run(Initial, lines).result.error;
      exists k :: && 0 <= k < |lines| && lines[k] == f.raw
                  && MessageLineAsWritten(f) == |NonBlank(lines[..k + 1])| + (if f.phase == Start then 1 else 0)
  {
    FailureNamesOffendingLine(Initial, lines);
  }
}
