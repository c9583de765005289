/**
 * Two scripts worked through the model, with a displacement that is exact at right angles
 * (as the browser's cosine and sine are at 0, 90, 180 and 270 degrees, up to rounding) and a
 * number parser that reads the operands used here.
 */
module TurtleExamples {
  import opened Wrappers
  import opened Text
  import opened Script
  import opened Turtle

  /** Capital letters and digits: such a word is its own upper case and holds no white space. */
  predicate Capitals(w: string) {
    w != [] && forall i :: 0 <= i < |w| ==> 'A' <= w[i] <= 'Z' || '0' <= w[i] <= '9'
  }

  lemma CapitalsAreWords(w: string)
    requires Capitals(w)
    ensures IsWord(w) && Upper(w) == w
  {
  }

  lemma ParseTwoWords(cmd: string, arg: string)
    requires Capitals(cmd) && Capitals(arg)
    ensures ParseLine(cmd + " " + arg) == Instr(cmd, [arg])
  {
    CapitalsAreWords(cmd);
    CapitalsAreWords(arg);
    var ws := [cmd, arg];
    assert Unwords(ws[1..]) == arg;
    assert Unwords(ws) == cmd + " " + arg;
    ParseUnwords(ws);
    assert ws[1..] == [arg];
  }

  lemma ParseOneWord(cmd: string)
    requires Capitals(cmd)
    ensures ParseLine(cmd) == Instr(cmd, [])
  {
    CapitalsAreWords(cmd);
    var ws := [cmd];
    assert Unwords(ws) == cmd;
    ParseUnwords(ws);
  }

  lemma ParseTurn()
    ensures ParseLine("DIREITA 90") == Instr("DIREITA", ["90"])
  {
    ParseTwoWords("DIREITA", "90");
    assert "DIREITA" + " " + "90" == "DIREITA 90";
  }

  lemma ParseOneCell()
    ensures ParseLine("ANDA 1") == Instr("ANDA", ["1"])
  {
    ParseTwoWords("ANDA", "1");
    assert "ANDA" + " " + "1" == "ANDA 1";
  }

  lemma ParseTenCells()
    ensures ParseLine("ANDA 10") == Instr("ANDA", ["10"])
  {
    ParseTwoWords("ANDA", "10");
    assert "ANDA" + " " + "10" == "ANDA 10";
  }

  lemma ParseBareMove()
    ensures ParseLine("ANDA") == Instr("ANDA", [])
  {
    ParseOneWord("ANDA");
  }

  /** A line reading `ANDA` moves by 0 from the start pose and still counts as an action. */
  lemma StepBareMove(disp: Displacement, parse: FloatParser, raw: string)
    requires ExactAtRightAngles(disp)
    requires ParseLine(raw) == Instr("ANDA", [])
    ensures Step(disp, parse, HOME, raw) == Stepped(HOME, Acted)
  {
    assert Decode(parse, Instr("ANDA", [])) == Forward(0.0);
    assert disp(90.0, 0.0) == Vec(0.0, 0.0);
  }

  /** A line reading `DIREITA 90` turns the start pose to face down the board. */
  lemma StepTurn(disp: Displacement, parse: FloatParser, raw: string)
    requires parse("90") == Some(90.0)
    requires ParseLine(raw) == Instr("DIREITA", ["90"])
    ensures Step(disp, parse, HOME, raw) == Stepped(Pose(0.0, 0.0, 180.0), Acted)
  {
    assert Decode(parse, Instr("DIREITA", ["90"])) == TurnRight(90.0);
  }

  /** A line reading `ANDA 1` facing 180 degrees moves one cell down. */
  lemma StepDown(disp: Displacement, parse: FloatParser, raw: string)
    requires ExactAtRightAngles(disp)
    requires parse("1") == Some(1.0)
    requires ParseLine(raw) == Instr("ANDA", ["1"])
    ensures Step(disp, parse, Pose(0.0, 0.0, 180.0), raw) == Stepped(Pose(0.0, 1.0, 180.0), Acted)
  {
    assert Decode(parse, Instr("ANDA", ["1"])) == Forward(1.0);
    assert disp(180.0, 1.0) == Vec(0.0, 1.0);
  }

  /** A line reading `ANDA 10` from the start pose would leave the board, so it fails. */
  lemma StepOffBoard(disp: Displacement, parse: FloatParser, raw: string)
    requires ExactAtRightAngles(disp)
    requires parse("10") == Some(10.0)
    requires ParseLine(raw) == Instr("ANDA", ["10"])
    ensures Step(disp, parse, HOME, raw) == Stepped(HOME, Failed)
  {
    assert Decode(parse, Instr("ANDA", ["10"])) == Forward(10.0);
    assert disp(90.0, 10.0) == Vec(10.0, 0.0);
  }

  /** A run whose first line acts: that line's animation pause, then the rest from the new pose. */
  lemma ExecActed(step: Stepper, p: Pose, lines: seq<string>, q: Pose)
    requires lines != [] && step(p, lines[0]) == Stepped(q, Acted)
    ensures var rest := Exec(step, q, lines[1..]);
            Exec(step, p, lines) == Outcome(rest.pose, rest.failed, [ANIMATION_SPEED] + rest.pauses)
  {
  }

  /** `ANDA 1` alone, facing 180 degrees from the origin: one cell down. */
  lemma DownOne(disp: Displacement, parse: FloatParser, lines: seq<string>)
    requires ExactAtRightAngles(disp)
    requires parse("1") == Some(1.0)
    requires |lines| == 1 && ParseLine(lines[0]) == Instr("ANDA", ["1"])
    ensures Exec(Dispatch(disp, parse), Pose(0.0, 0.0, 180.0), lines)
            == Outcome(Pose(0.0, 1.0, 180.0), false, [ANIMATION_SPEED])
  {
    var step := Dispatch(disp, parse);
    var turned := Pose(0.0, 0.0, 180.0);
    var down := Pose(0.0, 1.0, 180.0);
    StepDown(disp, parse, lines[0]);
    assert step(turned, lines[0]) == Stepped(down, Acted);
    assert lines[1..] == [];
    assert Exec(step, down, lines[1..]) == Outcome(down, false, []);
    ExecActed(step, turned, lines, down);
  }

  /** `DIREITA 90` then `ANDA 1` from the start pose: one cell down, facing 180 degrees. */
  lemma TurnThenDown(disp: Displacement, parse: FloatParser, lines: seq<string>)
    requires ExactAtRightAngles(disp)
    requires parse("90") == Some(90.0) && parse("1") == Some(1.0)
    requires |lines| == 2
    requires ParseLine(lines[0]) == Instr("DIREITA", ["90"])
    requires ParseLine(lines[1]) == Instr("ANDA", ["1"])
    ensures Exec(Dispatch(disp, parse), HOME, lines)
            == Outcome(Pose(0.0, 1.0, 180.0), false, [ANIMATION_SPEED, ANIMATION_SPEED])
  {
    StepTurn(disp, parse, lines[0]);
    DownOne(disp, parse, lines[1..]);
    ExecActed(Dispatch(disp, parse), HOME, lines, Pose(0.0, 0.0, 180.0));
  }

  /**
   * A script whose lines read `ANDA`, `DIREITA 90`, `ANDA 1` (in any letter case and spacing;
   * `ParseBareMove`, `ParseTurn` and `ParseOneCell` show the plain lines do), run from the start
   * pose: the bare `ANDA` moves by 0, the turn points the turtle down the board, and the last
   * move ends one cell down, at (0, 1) facing 180 degrees; every line gets the 600 ms pause.
   */
  lemma TurnThenMove(disp: Displacement, parse: FloatParser, lines: seq<string>)
    requires ExactAtRightAngles(disp)
    requires parse("90") == Some(90.0) && parse("1") == Some(1.0)
    requires |lines| == 3
    requires ParseLine(lines[0]) == Instr("ANDA", [])
    requires ParseLine(lines[1]) == Instr("DIREITA", ["90"])
    requires ParseLine(lines[2]) == Instr("ANDA", ["1"])
    ensures Exec(Dispatch(disp, parse), HOME, lines)
            == Outcome(Pose(0.0, 1.0, 180.0), false, [ANIMATION_SPEED, ANIMATION_SPEED, ANIMATION_SPEED])
  {
    var step := Dispatch(disp, parse);
    StepBareMove(disp, parse, lines[0]);
    TurnThenDown(disp, parse, lines[1..]);
    ExecActed(step, HOME, lines, HOME);
  }

  /**
   * A script whose first line reads `ANDA 10` (`ParseTenCells` shows the plain line does) would
   * leave the 8-cell board: the run stops at that line with the turtle still home and the
   * 1000 ms error pause, and no later line is dispatched.
   */
  lemma MoveOffBoard(disp: Displacement, parse: FloatParser, lines: seq<string>)
    requires ExactAtRightAngles(disp)
    requires parse("10") == Some(10.0)
    requires lines != [] && ParseLine(lines[0]) == Instr("ANDA", ["10"])
    ensures Exec(Dispatch(disp, parse), HOME, lines) == Outcome(HOME, true, [ERROR_PAUSE])
  {
    StepOffBoard(disp, parse, lines[0]);
  }
}
