/** The three-robot example on the grid `5 3`. Each step lemma evaluates a
    single turn of the `move` handler's loop; `RunsThrough` strings the
    steps of an instruction line together. */
module Scenarios {
  import opened Wrappers
  import opened Text
  import opened Directions
  import opened Robots

  /** A line runs through the given states when each instruction takes the
      state before it to the state after it. */
  lemma {:induction false} RunsThrough(ss: seq<LineState>, p: string, g: Grid)
    requires |ss| == |p| + 1
    requires forall k :: 0 <= k < |p| ==> Exec(ss[k], p[k], g) == Success(ss[k + 1])
    ensures ExecAll(ss[0], p, g) == Success(ss[|p|])
    decreases |p|
  {
    if p != [] {
      var ss', p' := ss[1..], p[1..];
      forall k | 0 <= k < |p'|
        ensures Exec(ss'[k], p'[k], g) == Success(ss'[k + 1])
      {
        assert ss'[k] == ss[k + 1] && ss'[k + 1] == ss[k + 2] && p'[k] == p[k + 1];
      }
      RunsThrough(ss', p', g);
      assert Exec(ss[0], p[0], g) == Success(ss[1]);
    }
  }

  lemma FirstStep0()
    ensures Exec(LineState(Robot(1, 1, Known(E)), [], false), 'R', Grid(5, 3))
         == Success(LineState(Robot(1, 1, Known(S)), [], false))
  {
  }

  lemma FirstStep1()
    ensures Exec(LineState(Robot(1, 1, Known(S)), [], false), 'F', Grid(5, 3))
         == Success(LineState(Robot(1, 0, Known(S)), [], false))
  {
  }

  lemma FirstStep2()
    ensures Exec(LineState(Robot(1, 0, Known(S)), [], false), 'R', Grid(5, 3))
         == Success(LineState(Robot(1, 0, Known(W)), [], false))
  {
  }

  lemma FirstStep3()
    ensures Exec(LineState(Robot(1, 0, Known(W)), [], false), 'F', Grid(5, 3))
         == Success(LineState(Robot(0, 0, Known(W)), [], false))
  {
  }

  lemma FirstStep4()
    ensures Exec(LineState(Robot(0, 0, Known(W)), [], false), 'R', Grid(5, 3))
         == Success(LineState(Robot(0, 0, Known(N)), [], false))
  {
  }

  lemma FirstStep5()
    ensures Exec(LineState(Robot(0, 0, Known(N)), [], false), 'F', Grid(5, 3))
         == Success(LineState(Robot(0, 1, Known(N)), [], false))
  {
  }

  lemma FirstStep6()
    ensures Exec(LineState(Robot(0, 1, Known(N)), [], false), 'R', Grid(5, 3))
         == Success(LineState(Robot(0, 1, Known(E)), [], false))
  {
  }

  lemma FirstStep7()
    ensures Exec(LineState(Robot(0, 1, Known(E)), [], false), 'F', Grid(5, 3))
         == Success(LineState(Robot(1, 1, Known(E)), [], false))
  {
  }

  /** The first robot of the example turns and steps around a square and
      comes back to where it started, on the grid throughout. */
  lemma FirstRobot(p: string)
    requires p == "RFRFRFRF"
    ensures ExecAll(LineState(Robot(1, 1, Known(E)), [], false), p, Grid(5, 3))
         == Success(LineState(Robot(1, 1, Known(E)), [], false))
  {
    var ss := [
      LineState(Robot(1, 1, Known(E)), [], false),
      LineState(Robot(1, 1, Known(S)), [], false),
      LineState(Robot(1, 0, Known(S)), [], false),
      LineState(Robot(1, 0, Known(W)), [], false),
      LineState(Robot(0, 0, Known(W)), [], false),
      LineState(Robot(0, 0, Known(N)), [], false),
      LineState(Robot(0, 1, Known(N)), [], false),
      LineState(Robot(0, 1, Known(E)), [], false),
      LineState(Robot(1, 1, Known(E)), [], false)];
    forall k | 0 <= k < 4
      ensures Exec(ss[k], p[k], Grid(5, 3)) == Success(ss[k + 1])
    {
      if k == 0 {
        FirstStep0();
      } else if k == 1 {
        FirstStep1();
      } else if k == 2 {
        FirstStep2();
      } else {
        FirstStep3();
      }
    }
    forall k | 4 <= k < 8
      ensures Exec(ss[k], p[k], Grid(5, 3)) == Success(ss[k + 1])
    {
      if k == 4 {
        FirstStep4();
      } else if k == 5 {
        FirstStep5();
      } else if k == 6 {
        FirstStep6();
      } else {
        FirstStep7();
      }
    }
    RunsThrough(ss, p, Grid(5, 3));
  }

  /** The line printed for it. */
  lemma FirstRobotPrints()
    ensures Format(Robot(1, 1, Known(E)), false) == "1 1 E"
  {
    assert IntToString(1) == "1";
  }

  lemma SecondStep0()
    ensures Exec(LineState(Robot(3, 2, Known(N)), [], false), 'F', Grid(5, 3))
         == Success(LineState(Robot(3, 3, Known(N)), [], false))
  {
  }

  lemma SecondStep1()
    ensures Exec(LineState(Robot(3, 3, Known(N)), [], false), 'R', Grid(5, 3))
         == Success(LineState(Robot(3, 3, Known(E)), [], false))
  {
  }

  lemma SecondStep2()
    ensures Exec(LineState(Robot(3, 3, Known(E)), [], false), 'R', Grid(5, 3))
         == Success(LineState(Robot(3, 3, Known(S)), [], false))
  {
  }

  lemma SecondStep3()
    ensures Exec(LineState(Robot(3, 3, Known(S)), [], false), 'F', Grid(5, 3))
         == Success(LineState(Robot(3, 2, Known(S)), [], false))
  {
  }

  lemma SecondStep4()
    ensures Exec(LineState(Robot(3, 2, Known(S)), [], false), 'L', Grid(5, 3))
         == Success(LineState(Robot(3, 2, Known(E)), [], false))
  {
  }

  lemma SecondStep5()
    ensures Exec(LineState(Robot(3, 2, Known(E)), [], false), 'L', Grid(5, 3))
         == Success(LineState(Robot(3, 2, Known(N)), [], false))
  {
  }

  lemma SecondStep6()
    ensures Exec(LineState(Robot(3, 2, Known(N)), [], false), 'F', Grid(5, 3))
         == Success(LineState(Robot(3, 3, Known(N)), [], false))
  {
  }

  lemma SecondStep7()
    ensures Exec(LineState(Robot(3, 3, Known(N)), [], false), 'F', Grid(5, 3))
         == Success(LineState(Robot(3, 4, Known(N)), [Point(3, 4)], true))
  {
    var before: seq<Point> := [];
    assert before + [Point(3, 4)] == [Point(3, 4)];
  }

  lemma SecondStep8()
    ensures Exec(LineState(Robot(3, 4, Known(N)), [Point(3, 4)], true), 'R', Grid(5, 3))
         == Success(LineState(Robot(3, 4, Known(E)), [Point(3, 4)], true))
  {
  }

  lemma SecondStep9()
    ensures Exec(LineState(Robot(3, 4, Known(E)), [Point(3, 4)], true), 'R', Grid(5, 3))
         == Success(LineState(Robot(3, 4, Known(S)), [Point(3, 4)], true))
  {
  }

  lemma SecondStep10()
    ensures Exec(LineState(Robot(3, 4, Known(S)), [Point(3, 4)], true), 'F', Grid(5, 3))
         == Success(LineState(Robot(3, 3, Known(S)), [Point(3, 4)], true))
  {
  }

  lemma SecondStep11()
    ensures Exec(LineState(Robot(3, 3, Known(S)), [Point(3, 4)], true), 'L', Grid(5, 3))
         == Success(LineState(Robot(3, 3, Known(E)), [Point(3, 4)], true))
  {
  }

  lemma SecondStep12()
    ensures Exec(LineState(Robot(3, 3, Known(E)), [Point(3, 4)], true), 'L', Grid(5, 3))
         == Success(LineState(Robot(3, 3, Known(N)), [Point(3, 4)], true))
  {
  }

  /** The second robot walks north off the grid at `3 4`, leaves its scent
      there, and comes back to `3 3`; its line still reports it lost. */
  lemma SecondRobot(p: string)
    requires p == "FRRFLLFFRRFLL"
    ensures ExecAll(LineState(Robot(3, 2, Known(N)), [], false), p, Grid(5, 3))
         == Success(LineState(Robot(3, 3, Known(N)), [Point(3, 4)], true))
  {
    var ss := [
      LineState(Robot(3, 2, Known(N)), [], false),
      LineState(Robot(3, 3, Known(N)), [], false),
      LineState(Robot(3, 3, Known(E)), [], false),
      LineState(Robot(3, 3, Known(S)), [], false),
      LineState(Robot(3, 2, Known(S)), [], false),
      LineState(Robot(3, 2, Known(E)), [], false),
      LineState(Robot(3, 2, Known(N)), [], false),
      LineState(Robot(3, 3, Known(N)), [], false),
      LineState(Robot(3, 4, Known(N)), [Point(3, 4)], true),
      LineState(Robot(3, 4, Known(E)), [Point(3, 4)], true),
      LineState(Robot(3, 4, Known(S)), [Point(3, 4)], true),
      LineState(Robot(3, 3, Known(S)), [Point(3, 4)], true),
      LineState(Robot(3, 3, Known(E)), [Point(3, 4)], true),
      LineState(Robot(3, 3, Known(N)), [Point(3, 4)], true)];
    forall k | 0 <= k < 4
      ensures Exec(ss[k], p[k], Grid(5, 3)) == Success(ss[k + 1])
    {
      if k == 0 {
        SecondStep0();
      } else if k == 1 {
        SecondStep1();
      } else if k == 2 {
        SecondStep2();
      } else {
        SecondStep3();
      }
    }
    forall k | 4 <= k < 8
      ensures Exec(ss[k], p[k], Grid(5, 3)) == Success(ss[k + 1])
    {
      if k == 4 {
        SecondStep4();
      } else if k == 5 {
        SecondStep5();
      } else if k == 6 {
        SecondStep6();
      } else {
        SecondStep7();
      }
    }
    forall k | 8 <= k < 12
      ensures Exec(ss[k], p[k], Grid(5, 3)) == Success(ss[k + 1])
    {
      if k == 8 {
        SecondStep8();
      } else if k == 9 {
        SecondStep9();
      } else if k == 10 {
        SecondStep10();
      } else {
        SecondStep11();
      }
    }
    forall k | 12 <= k < 13
      ensures Exec(ss[k], p[k], Grid(5, 3)) == Success(ss[k + 1])
    {
      SecondStep12();
    }
    RunsThrough(ss, p, Grid(5, 3));
  }

  /** The line printed for it. */
  lemma SecondRobotPrints()
    ensures Format(Robot(3, 3, Known(N)), true) == "3 3 N LOST"
  {
    assert IntToString(3) == "3";
  }

  lemma ThirdStep0()
    ensures Exec(LineState(Robot(0, 3, Known(W)), [Point(3, 4)], false), 'L', Grid(5, 3))
         == Success(LineState(Robot(0, 3, Known(S)), [Point(3, 4)], false))
  {
  }

  lemma ThirdStep1()
    ensures Exec(LineState(Robot(0, 3, Known(S)), [Point(3, 4)], false), 'L', Grid(5, 3))
         == Success(LineState(Robot(0, 3, Known(E)), [Point(3, 4)], false))
  {
  }

  lemma ThirdStep2()
    ensures Exec(LineState(Robot(0, 3, Known(E)), [Point(3, 4)], false), 'F', Grid(5, 3))
         == Success(LineState(Robot(1, 3, Known(E)), [Point(3, 4)], false))
  {
  }

  lemma ThirdStep3()
    ensures Exec(LineState(Robot(1, 3, Known(E)), [Point(3, 4)], false), 'F', Grid(5, 3))
         == Success(LineState(Robot(2, 3, Known(E)), [Point(3, 4)], false))
  {
  }

  lemma ThirdStep4()
    ensures Exec(LineState(Robot(2, 3, Known(E)), [Point(3, 4)], false), 'F', Grid(5, 3))
         == Success(LineState(Robot(3, 3, Known(E)), [Point(3, 4)], false))
  {
  }

  lemma ThirdStep5()
    ensures Exec(LineState(Robot(3, 3, Known(E)), [Point(3, 4)], false), 'L', Grid(5, 3))
         == Success(LineState(Robot(3, 3, Known(N)), [Point(3, 4)], false))
  {
  }

  lemma ThirdStep6()
    ensures Exec(LineState(Robot(3, 3, Known(N)), [Point(3, 4)], false), 'F', Grid(5, 3))
         == Success(LineState(Robot(3, 3, Known(N)), [Point(3, 4)], false))
  {
  }

  lemma ThirdStep7()
    ensures Exec(LineState(Robot(3, 3, Known(N)), [Point(3, 4)], false), 'L', Grid(5, 3))
         == Success(LineState(Robot(3, 3, Known(W)), [Point(3, 4)], false))
  {
  }

  lemma ThirdStep8()
    ensures Exec(LineState(Robot(3, 3, Known(W)), [Point(3, 4)], false), 'F', Grid(5, 3))
         == Success(LineState(Robot(2, 3, Known(W)), [Point(3, 4)], false))
  {
  }

  lemma ThirdStep9()
    ensures Exec(LineState(Robot(2, 3, Known(W)), [Point(3, 4)], false), 'L', Grid(5, 3))
         == Success(LineState(Robot(2, 3, Known(S)), [Point(3, 4)], false))
  {
  }

  /** The third robot starts with the second robot's scent recorded; the
      scent holds it back at `3 3`, so it is never lost. */
  lemma ThirdRobot(p: string)
    requires p == "LLFFFLFLFL"
    ensures ExecAll(LineState(Robot(0, 3, Known(W)), [Point(3, 4)], false), p, Grid(5, 3))
         == Success(LineState(Robot(2, 3, Known(S)), [Point(3, 4)], false))
  {
    var ss := [
      LineState(Robot(0, 3, Known(W)), [Point(3, 4)], false),
      LineState(Robot(0, 3, Known(S)), [Point(3, 4)], false),
      LineState(Robot(0, 3, Known(E)), [Point(3, 4)], false),
      LineState(Robot(1, 3, Known(E)), [Point(3, 4)], false),
      LineState(Robot(2, 3, Known(E)), [Point(3, 4)], false),
      LineState(Robot(3, 3, Known(E)), [Point(3, 4)], false),
      LineState(Robot(3, 3, Known(N)), [Point(3, 4)], false),
      LineState(Robot(3, 3, Known(N)), [Point(3, 4)], false),
      LineState(Robot(3, 3, Known(W)), [Point(3, 4)], false),
      LineState(Robot(2, 3, Known(W)), [Point(3, 4)], false),
      LineState(Robot(2, 3, Known(S)), [Point(3, 4)], false)];
    forall k | 0 <= k < 4
      ensures Exec(ss[k], p[k], Grid(5, 3)) == Success(ss[k + 1])
    {
      if k == 0 {
        ThirdStep0();
      } else if k == 1 {
        ThirdStep1();
      } else if k == 2 {
        ThirdStep2();
      } else {
        ThirdStep3();
      }
    }
    forall k | 4 <= k < 8
      ensures Exec(ss[k], p[k], Grid(5, 3)) == Success(ss[k + 1])
    {
      if k == 4 {
        ThirdStep4();
      } else if k == 5 {
        ThirdStep5();
      } else if k == 6 {
        ThirdStep6();
      } else {
        ThirdStep7();
      }
    }
    forall k | 8 <= k < 10
      ensures Exec(ss[k], p[k], Grid(5, 3)) == Success(ss[k + 1])
    {
      if k == 8 {
        ThirdStep8();
      } else {
        ThirdStep9();
      }
    }
    RunsThrough(ss, p, Grid(5, 3));
  }

  /** The line printed for it. */
  lemma ThirdRobotPrints()
    ensures Format(Robot(2, 3, Known(S)), false) == "2 3 S"
  {
    assert IntToString(2) == "2" && IntToString(3) == "3";
  }
}
