/** The `Robot` class of `index.js` and the per-line execution policy of the
    `move` state: one instruction at a time, a bounds test after every
    instruction, and a scent left at the first position found off the grid. */
module Robots {
  import opened Wrappers
  import opened Text
  import opened Directions

  datatype Point = Point(x: int, y: int)

  /** The grid's upper-right corner; the lower-left corner is the origin. */
  datatype Grid = Grid(x: int, y: int)

  datatype Robot = Robot(x: int, y: int, heading: Heading)

  /** The TypeError raised when `F` looks up a direction the table lacks. */
  datatype Fault = NoDelta(letter: string)

  function Position(r: Robot): Point {
    Point(r.x, r.y)
  }

  /** `Robot.isLost`: the point lies outside `[0, g.x] x [0, g.y]`. */
  predicate IsLost(p: Point, g: Grid)
    ensures IsLost(p, g) <==> !(0 <= p.x <= g.x && 0 <= p.y <= g.y)
  {
    p.x > g.x || p.x < 0 || p.y > g.y || p.y < 0
  }

  /** Every scent recorded so far lies off the grid. */
  ghost predicate ScentsOffGrid(scents: seq<Point>, g: Grid) {
    forall i :: 0 <= i < |scents| ==> IsLost(scents[i], g)
  }

  /** The cell one unit step ahead of the robot. */
  function Ahead(r: Robot): (p: Point)
    requires r.heading.Known?
    ensures p != Position(r)
    ensures (p.x - r.x) * (p.x - r.x) + (p.y - r.y) * (p.y - r.y) == 1
  {
    var d := Delta(r.heading.o);
    Point(r.x + d.0, r.y + d.1)
  }

  /** `Robot.move`: `L` and `R` turn in place; `F` steps one cell ahead unless
      a scent sits on exactly that cell, in which case nothing happens; it
      steps even when the cell is off the grid. Every other character is
      ignored. `F` with a direction outside the table fails. */
  function Move(r: Robot, instr: char, scents: seq<Point>): (res: Result<Robot, Fault>)
    ensures res.Failure? <==> instr == 'F' && r.heading.Unknown?
    ensures instr == 'L' ==> res == Success(r.(heading := Known(RotateLeft(r.heading))))
    ensures instr == 'R' ==> res == Success(r.(heading := Known(RotateRight(r.heading))))
    ensures instr == 'F' && res.Success? ==>
      && res.value.heading == r.heading
      && (Ahead(r) in scents <==> res.value == r)
      && (Ahead(r) !in scents ==> Position(res.value) == Ahead(r))
    ensures instr != 'L' && instr != 'R' && instr != 'F' ==> res == Success(r)
  {
    if instr == 'L' || instr == 'R' then
      var o := if instr == 'L' then RotateLeft(r.heading) else RotateRight(r.heading);
      Success(r.(heading := Known(o)))
    else if instr == 'F' then
      match r.heading
      case Unknown(l) => Failure(NoDelta(l))
      case Known(o) =>
        var p := Ahead(r);
        if p in scents then Success(r) else Success(r.(x := p.x, y := p.y))
    else
      Success(r)
  }

  /** `Robot.toString`, followed by ` LOST` when the lost flag is set. */
  function Format(r: Robot, lost: bool): (s: string)
    ensures lost ==> s == Format(r, false) + " LOST"
    ensures IntToString(r.x) + " " <= s && |HeadingText(r.heading)| < |s|
    ensures !lost ==> s[|s| - |HeadingText(r.heading)|..] == HeadingText(r.heading)
  {
    IntToString(r.x) + " " + IntToString(r.y) + " " + HeadingText(r.heading)
    + (if lost then " LOST" else "")
  }

  /** What one instruction line works on: the robot, the scents of the run,
      and the line's `lost` flag. */
  datatype LineState = LineState(robot: Robot, scents: seq<Point>, lost: bool)

  /** How scents and the lost flag may evolve: scents are only appended, at
      most one per line, exactly when the flag goes from false to true, and
      the appended scent lies off the grid. The flag never goes back. */
  ghost predicate Evolves(s: LineState, s': LineState, g: Grid) {
    && s.scents <= s'.scents
    && |s'.scents| <= |s.scents| + 1
    && (s.lost ==> s'.lost)
    && (|s'.scents| == |s.scents| + 1 <==> !s.lost && s'.lost)
    && (forall i :: |s.scents| <= i < |s'.scents| ==> IsLost(s'.scents[i], g))
  }

  /** One turn of the loop in the `move` handler: move, then, while the flag
      is still clear, test the bounds and on the first failure set the flag
      and record the robot's position as a scent. */
  function Exec(s: LineState, instr: char, g: Grid): (res: Result<LineState, Fault>)
    ensures res.Failure? <==> instr == 'F' && s.robot.heading.Unknown?
    ensures res.Success? ==>
      && Move(s.robot, instr, s.scents) == Success(res.value.robot)
      && Evolves(s, res.value, g)
      && (res.value.lost <==> s.lost || IsLost(Position(res.value.robot), g))
      && (!s.lost && res.value.lost ==> res.value.scents == s.scents + [Position(res.value.robot)])
  {
    var r :- Move(s.robot, instr, s.scents);
    if !s.lost && IsLost(Position(r), g) then
      Success(LineState(r, s.scents + [Position(r)], true))
    else
      Success(s.(robot := r))
  }

  /** The whole loop of the `move` handler over the instructions of a line. */
  function ExecAll(s: LineState, instrs: string, g: Grid): (res: Result<LineState, Fault>)
    ensures res.Success? ==> Evolves(s, res.value, g)
    ensures s.robot.heading.Known? ==> res.Success? && res.value.robot.heading.Known?
    ensures res.Success? ==> res.value.robot.heading == s.robot.heading || res.value.robot.heading.Known?
    ensures res.Failure? ==> s.robot.heading.Unknown? && 'F' in instrs
    ensures res.Success? && !s.lost && !IsLost(Position(s.robot), g) && res.value.lost ==>
      res.value.scents[|s.scents|] !in s.scents
    decreases |instrs|
  {
    if instrs == [] then Success(s)
    else
      var s' :- Exec(s, instrs[0], g);
      ExecAll(s', instrs[1..], g)
  }

  /** The positions the robot occupies after each instruction of a line, up to
      the instruction that fails, if one does. */
  ghost function Visited(s: LineState, instrs: string, g: Grid): seq<Point>
    decreases |instrs|
  {
    if instrs == [] then []
    else
      match Exec(s, instrs[0], g)
      case Failure(_) => []
      case Success(s') => [Position(s'.robot)] + Visited(s', instrs[1..], g)
  }

  /** The line's flag ends up set exactly when the robot stood off the grid
      after some instruction, even if it is back on the grid at the end; the
      scent the line leaves is the first such position. */
  lemma {:induction false} LostIffLeftGrid(s: LineState, instrs: string, g: Grid)
    requires ExecAll(s, instrs, g).Success?
    ensures var v := Visited(s, instrs, g);
      && |v| == |instrs|
      && (ExecAll(s, instrs, g).value.lost <==>
            s.lost || exists i :: 0 <= i < |v| && IsLost(v[i], g))
    ensures var v := Visited(s, instrs, g);
      var t := ExecAll(s, instrs, g).value;
      !s.lost && t.lost ==>
        exists i :: && 0 <= i < |v| && IsLost(v[i], g)
                    && (forall j :: 0 <= j < i ==> !IsLost(v[j], g))
                    && t.scents[|s.scents|] == v[i]
  {
    LostIffVisitedOff(s, instrs, g);
    var i := ScentIsFirstExit(s, instrs, g);
    assert !s.lost && ExecAll(s, instrs, g).value.lost ==> FirstExit(Visited(s, instrs, g), i, g);
  }

  /** The flag half of `LostIffLeftGrid`, by induction on the line. */
  lemma {:induction false} LostIffVisitedOff(s: LineState, instrs: string, g: Grid)
    requires ExecAll(s, instrs, g).Success?
    ensures var v := Visited(s, instrs, g);
      && |v| == |instrs|
      && (ExecAll(s, instrs, g).value.lost <==>
            s.lost || exists i :: 0 <= i < |v| && IsLost(v[i], g))
    decreases |instrs|
  {
    if instrs != [] {
      var s' := Exec(s, instrs[0], g).value;
      var rest := instrs[1..];
      LostIffVisitedOff(s', rest, g);
      var v := Visited(s, instrs, g);
      var v' := Visited(s', rest, g);
      assert v == [Position(s'.robot)] + v';
      var t := ExecAll(s, instrs, g).value;
      assert t == ExecAll(s', rest, g).value;
      assert s'.lost <==> s.lost || IsLost(v[0], g);
      if t.lost && !s.lost {
        if s'.lost {
          assert IsLost(v[0], g);
        } else {
          var i :| 0 <= i < |v'| && IsLost(v'[i], g);
          assert v[i + 1] == v'[i];
        }
      }
      if exists i :: 0 <= i < |v| && IsLost(v[i], g) {
        var i :| 0 <= i < |v| && IsLost(v[i], g);
        if i > 0 {
          assert v'[i - 1] == v[i];
        }
        assert t.lost;
      }
    }
  }

  /** The scent half of `LostIffLeftGrid`, by induction on the line: `i` is
      the index of the first off-grid position when the flag flips. */
  lemma {:induction false} ScentIsFirstExit(s: LineState, instrs: string, g: Grid) returns (i: int)
    requires ExecAll(s, instrs, g).Success?
    ensures !s.lost && ExecAll(s, instrs, g).value.lost ==>
      && FirstExit(Visited(s, instrs, g), i, g)
      && ExecAll(s, instrs, g).value.scents[|s.scents|] == Visited(s, instrs, g)[i]
    decreases |instrs|
  {
    i := 0;
    if instrs != [] {
      var s' := Exec(s, instrs[0], g).value;
      var rest := instrs[1..];
      var i' := ScentIsFirstExit(s', rest, g);
      var v := Visited(s, instrs, g);
      var v' := Visited(s', rest, g);
      assert v == [Position(s'.robot)] + v';
      var t := ExecAll(s, instrs, g).value;
      assert t == ExecAll(s', rest, g).value;
      if t.lost && !s.lost {
        if s'.lost {
          assert s'.scents == s.scents + [v[0]];
          assert s'.scents <= t.scents;
        } else {
          assert |s'.scents| == |s.scents| && !IsLost(v[0], g);
          FirstExitShifts(v, v', g, i');
          i := i' + 1;
        }
      }
    }
  }

  /** Position `i` of `v` is off the grid and none before it is. */
  ghost predicate FirstExit(v: seq<Point>, i: int, g: Grid) {
    && 0 <= i < |v| && IsLost(v[i], g)
    && (forall j :: 0 <= j < i ==> !IsLost(v[j], g))
  }

  /** A first exit moves one place on when an on-grid position is put in front. */
  lemma FirstExitShifts(v: seq<Point>, v': seq<Point>, g: Grid, i: int)
    requires |v| == |v'| + 1 && v[1..] == v' && !IsLost(v[0], g)
    requires FirstExit(v', i, g)
    ensures FirstExit(v, i + 1, g) && v[i + 1] == v'[i]
  {
    assert forall j :: 1 <= j < i + 1 ==> v[j] == v'[j - 1];
  }

  /** A robot on the grid whose step ahead is blocked by a scent does not move,
      stays on the grid, and leaves the line's flag and the scents alone. */
  lemma BlockedStepChangesNothing(s: LineState, g: Grid)
    requires s.robot.heading.Known? && Ahead(s.robot) in s.scents
    requires !IsLost(Position(s.robot), g)
    ensures Exec(s, 'F', g) == Success(s)
  {
  }

  /** With every scent off the grid, a scent can only stop a step that would
      have left the grid: a step onto a cell of the grid is never blocked. */
  lemma ScentOnlyBlocksExits(r: Robot, scents: seq<Point>, g: Grid)
    requires ScentsOffGrid(scents, g)
    requires r.heading.Known? && !IsLost(Ahead(r), g)
    ensures Ahead(r) !in scents
  {
  }

  /** The usual three-robot example on the grid `5 3`: the second robot walks
      north off the grid from `3 3` and leaves a scent at `3 4`; when the
      third robot tries the same step from `3 3`, the scent holds it back and
      it is not marked lost. */
  lemma ScentSavesLaterRobot()
    ensures Exec(LineState(Robot(3, 3, Known(N)), [], false), 'F', Grid(5, 3))
            == Success(LineState(Robot(3, 4, Known(N)), [Point(3, 4)], true))
    ensures Exec(LineState(Robot(3, 3, Known(N)), [Point(3, 4)], false), 'F', Grid(5, 3))
            == Success(LineState(Robot(3, 3, Known(N)), [Point(3, 4)], false))
  {
    var r := Robot(3, 3, Known(N));
    assert Ahead(r) == Point(3, 4);
    assert Move(r, 'F', []) == Success(Robot(3, 4, Known(N)));
    var empty: seq<Point> := [];
    assert empty + [Point(3, 4)] == [Point(3, 4)];
  }

  /** A robot that starts off the grid is marked lost by its first
      instruction when that is not `F`, even a turn, and leaves a scent
      where it stands (`ForwardBackOntoGrid`: an `F` can bring it back). */
  lemma OffGridStartIsLostAtOnce(s: LineState, instr: char, g: Grid)
    requires !s.lost && IsLost(Position(s.robot), g)
    requires instr != 'F'
    ensures Exec(s, instr, g).Success?
    ensures Exec(s, instr, g).value.lost
    ensures Exec(s, instr, g).value.scents == s.scents + [Position(s.robot)]
  {
  }

  /** A robot just west of the grid `5 3`, facing east, steps onto `0 0` with
      `F` and is not marked lost. */
  lemma ForwardBackOntoGrid()
    ensures IsLost(Point(-1, 0), Grid(5, 3))
    ensures Exec(LineState(Robot(-1, 0, Known(E)), [], false), 'F', Grid(5, 3))
         == Success(LineState(Robot(0, 0, Known(E)), [], false))
  {
  }

  /** A line of turns and ignored characters leaves the position unchanged. */
  lemma {:induction false} NoForwardKeepsPosition(s: LineState, instrs: string, g: Grid)
    requires 'F' !in instrs
    ensures ExecAll(s, instrs, g).Success?
    ensures Position(ExecAll(s, instrs, g).value.robot) == Position(s.robot)
    decreases |instrs|
  {
    if instrs != [] {
      var s' := Exec(s, instrs[0], g).value;
      assert instrs[0] in instrs;
      assert forall c :: c in instrs[1..] ==> c in instrs;
      NoForwardKeepsPosition(s', instrs[1..], g);
    }
  }

  /** Four `R` (or four `L`) in a row bring any robot back to its pose. */
  lemma FourTurnsRestorePose(s: LineState, g: Grid)
    requires s.robot.heading.Known?
    ensures ExecAll(s, "RRRR", g).Success? && ExecAll(s, "RRRR", g).value.robot == s.robot
    ensures ExecAll(s, "LLLL", g).Success? && ExecAll(s, "LLLL", g).value.robot == s.robot
  {
    FourTurnsIdentity(s.robot.heading.o);
  }
}
