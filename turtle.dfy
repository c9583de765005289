/**
 * The turtle logic the two turtle pages share: the pose, the bounds-checked move, the rotation,
 * the dispatch of one script line, and the run of a list of lines that stops at the first
 * move that would leave the board.
 */
module Turtle {
  import opened Wrappers
  import opened Text
  import opened Script

  /** Position on the 8x8 board (cell units) and heading in degrees; 90 points right. */
  datatype Pose = Pose(x: real, y: real, angle: real)

  datatype Vec = Vec(dx: real, dy: real)

  /**
   * `(cos((angle - 90) * PI / 180) * dist, sin((angle - 90) * PI / 180) * dist)`, computed by the
   * browser's floating-point `Math.cos` and `Math.sin`; given, not modelled.
   */
  type Displacement = (real, real) -> Vec

  const EPSILON: real := 0.001
  /** The bounds check uses the literal 7, not `gridSize - 1`. */
  const EDGE: real := 7.0
  const HOME: Pose := Pose(0.0, 0.0, 90.0)

  // Pauses, in milliseconds.
  const START_PAUSE: nat := 500
  const BLANK_PAUSE: nat := 100
  const UNKNOWN_PAUSE: nat := 200
  const ANIMATION_SPEED: nat := 600
  const ERROR_PAUSE: nat := 1000

  /** The tolerance box a committed position must stay in. */
  predicate OnBoard(x: real, y: real) {
    -EPSILON <= x <= EDGE + EPSILON && -EPSILON <= y <= EDGE + EPSILON
  }

  /**
   * A displacement that is exact at the four right-angle headings, as cosine and sine are:
   * heading 0 moves up (negative y), 90 right, 180 down, 270 left.
   */
  ghost predicate ExactAtRightAngles(disp: Displacement) {
    forall d: real ::
      && disp(0.0, d) == Vec(0.0, -d)
      && disp(90.0, d) == Vec(d, 0.0)
      && disp(180.0, d) == Vec(0.0, d)
      && disp(270.0, d) == Vec(-d, 0.0)
  }

  // ---------------------------------------------------------------- moveTurtle, rotateTurtle

  datatype Moved = Moved(pose: Pose, ok: bool)

  /** `moveTurtle(dist)`: the candidate position is checked before anything is committed. */
  function Move(disp: Displacement, p: Pose, dist: real): (m: Moved)
    ensures m.pose.angle == p.angle
    ensures m.ok <==> OnBoard(p.x + disp(p.angle, dist).dx, p.y + disp(p.angle, dist).dy)
    ensures m.ok ==> m.pose.x - p.x == disp(p.angle, dist).dx && m.pose.y - p.y == disp(p.angle, dist).dy
    ensures !m.ok ==> m.pose == p
    ensures OnBoard(p.x, p.y) ==> OnBoard(m.pose.x, m.pose.y)
  {
    var d := disp(p.angle, dist);
    var nextX := p.x + d.dx;
    var nextY := p.y + d.dy;
    if nextX < -EPSILON || nextX > EDGE + EPSILON || nextY < -EPSILON || nextY > EDGE + EPSILON
    then Moved(p, false)
    else Moved(Pose(nextX, nextY, p.angle), true)
  }

  /** `rotateTurtle(deg)`: the heading grows by `deg`, with no wrapping; position is untouched. */
  function Rotate(p: Pose, deg: real): (r: Pose)
    ensures r.x == p.x && r.y == p.y
    ensures r.angle - p.angle == deg
  {
    p.(angle := p.angle + deg)
  }

  /** Turning by `d` and then by `-d` restores the pose exactly. */
  lemma RotateBack(p: Pose, d: real)
    ensures Rotate(Rotate(p, d), -d) == p
  {
  }

  // ---------------------------------------------------------------- one line

  /** What a line asks for: nothing (blank), one of the four commands, or an unknown word. */
  datatype Op = Nothing | Forward(dist: real) | Backward(dist: real) | TurnRight(deg: real) | TurnLeft(deg: real) | Unknown

  /** The `switch` on the upper-cased command word, with the operand `parseFloat(parts[1]) || 0`. */
  function Decode(parse: FloatParser, line: Line): Op {
    match line
    case Blank => Nothing
    case Instr(cmd, operands) =>
      var v := OperandOrZero(parse, operands);
      if cmd == "ANDA" then Forward(v)
      else if cmd == "TRAS" || cmd == "TRÁS" then Backward(v)
      else if cmd == "DIREITA" then TurnRight(v)
      else if cmd == "ESQUERDA" then TurnLeft(v)
      else Unknown
  }

  /** How a dispatched line ended; it decides the pause that follows the line. */
  datatype Kind = Paused | Acted | Ignored | Failed

  function PauseOf(k: Kind): nat {
    match k
    case Paused => BLANK_PAUSE
    case Acted => ANIMATION_SPEED
    case Ignored => UNKNOWN_PAUSE
    case Failed => ERROR_PAUSE
  }

  datatype Stepped = Stepped(pose: Pose, kind: Kind)

  /** Carrying out one decoded line; a failed move reports failure and keeps the pose. */
  function Perform(disp: Displacement, p: Pose, op: Op): (s: Stepped)
    ensures s.kind != Acted ==> s.pose == p
    ensures s.kind == Paused <==> op.Nothing?
    ensures s.kind == Ignored <==> op.Unknown?
    ensures s.kind == Failed ==> op.Forward? || op.Backward?
    ensures OnBoard(p.x, p.y) ==> OnBoard(s.pose.x, s.pose.y)
  {
    match op
    case Nothing => Stepped(p, Paused)
    case Forward(d) =>
      var m := Move(disp, p, d);
      if m.ok then Stepped(m.pose, Acted) else Stepped(p, Failed)
    case Backward(d) =>
      var m := Move(disp, p, -d);
      if m.ok then Stepped(m.pose, Acted) else Stepped(p, Failed)
    case TurnRight(d) => Stepped(Rotate(p, d), Acted)
    case TurnLeft(d) => Stepped(Rotate(p, -d), Acted)
    case Unknown => Stepped(p, Ignored)
  }

  /** The effect of one script line on the pose: the body of the `for` loop, pauses aside. */
  function Step(disp: Displacement, parse: FloatParser, p: Pose, raw: string): Stepped {
    Perform(disp, p, Decode(parse, ParseLine(raw)))
  }

  /** The pause a line gets when it does not fail; it depends on the text alone. */
  function LinePause(parse: FloatParser, raw: string): nat {
    match Decode(parse, ParseLine(raw))
    case Nothing => BLANK_PAUSE
    case Unknown => UNKNOWN_PAUSE
    case _ => ANIMATION_SPEED
  }

  /** Blank lines, unknown words and failed moves leave the pose alone, and no line leaves the board. */
  lemma StepKeepsPose(disp: Displacement, parse: FloatParser, p: Pose, raw: string)
    ensures var s := Step(disp, parse, p, raw);
            && (s.kind != Acted ==> s.pose == p)
            && (OnBoard(p.x, p.y) ==> OnBoard(s.pose.x, s.pose.y))
  {
  }

  /** Only a blank line decodes to nothing, and only ANDA, TRAS and TRÁS decode to moves. */
  lemma DecodeKinds(parse: FloatParser, line: Line)
    ensures Decode(parse, line).Nothing? <==> line.Blank?
    ensures Decode(parse, line).Forward? ==> line.Instr? && line.cmd == "ANDA"
    ensures Decode(parse, line).Backward? ==> line.Instr? && line.cmd in {"TRAS", "TRÁS"}
  {
  }

  /** A line is a pause exactly when it is blank or white space only. */
  lemma StepBlank(disp: Displacement, parse: FloatParser, p: Pose, raw: string)
    ensures Step(disp, parse, p, raw).kind == Paused <==> AllSpace(raw)
  {
    DecodeKinds(parse, ParseLine(raw));
  }

  /** A line that does not fail gets the pause its text calls for, whatever the pose. */
  lemma StepPause(disp: Displacement, parse: FloatParser, p: Pose, raw: string)
    ensures var s := Step(disp, parse, p, raw);
            s.kind != Failed ==> PauseOf(s.kind) == LinePause(parse, raw)
  {
  }

  /** Only ANDA, TRAS and TRÁS can fail. */
  lemma StepFailsOnlyMoving(disp: Displacement, parse: FloatParser, p: Pose, raw: string)
    ensures Step(disp, parse, p, raw).kind == Failed ==> ParseLine(raw).Instr? && ParseLine(raw).cmd in {"ANDA", "TRAS", "TRÁS"}
  {
    DecodeKinds(parse, ParseLine(raw));
  }

  /**
   * The dispatch table: the operand is the parsed number, or 0 when it is missing or not a number;
   * ANDA v moves by v, TRAS v and TRÁS v by -v, DIREITA v turns by v, ESQUERDA v by -v, and any
   * other word changes nothing.
   */
  lemma DecodeTable(parse: FloatParser, cmd: string, operands: seq<string>)
    ensures var v := if |operands| > 0 && parse(operands[0]).Some? then parse(operands[0]).value else 0.0;
            var op := Decode(parse, Instr(cmd, operands));
            && (cmd == "ANDA" ==> op == Forward(v))
            && (cmd == "TRAS" || cmd == "TRÁS" ==> op == Backward(v))
            && (cmd == "DIREITA" ==> op == TurnRight(v))
            && (cmd == "ESQUERDA" ==> op == TurnLeft(v))
            && (cmd != "ANDA" && cmd != "TRAS" && cmd != "TRÁS" && cmd != "DIREITA" && cmd != "ESQUERDA" ==> op == Unknown)
  {
  }

  // ---------------------------------------------------------------- a list of lines

  /** The semantics of one line, as a value: `Step` for a given displacement and number parser. */
  type Stepper = (Pose, string) -> Stepped

  function Dispatch(disp: Displacement, parse: FloatParser): Stepper {
    (p, raw) => Step(disp, parse, p, raw)
  }

  /** Where a run of lines left the turtle, whether a move failed, and one pause per line dispatched. */
  datatype Outcome = Outcome(pose: Pose, failed: bool, pauses: seq<nat>)

  /** The lines dispatched in order; the first failing line ends the run with the pose it had before. */
  function Exec(step: Stepper, p: Pose, lines: seq<string>): (r: Outcome)
    ensures |r.pauses| <= |lines|
    ensures !r.failed ==> |r.pauses| == |lines|
    ensures r.failed ==> |r.pauses| >= 1 && r.pauses[|r.pauses| - 1] == ERROR_PAUSE
    decreases |lines|
  {
    if lines == [] then Outcome(p, false, [])
    else
      var s := step(p, lines[0]);
      if s.kind == Failed then Outcome(p, true, [ERROR_PAUSE])
      else
        var rest := Exec(step, s.pose, lines[1..]);
        Outcome(rest.pose, rest.failed, [PauseOf(s.kind)] + rest.pauses)
  }

  /**
   * Running `a` and then `b` is running `a + b`, except that once a line of `a` failed,
   * nothing in `b` is dispatched.
   */
  lemma {:induction false} ExecAppend(step: Stepper, p: Pose, a: seq<string>, b: seq<string>)
    ensures var ra := Exec(step, p, a);
            var rb := Exec(step, ra.pose, b);
            Exec(step, p, a + b) == if ra.failed then ra else Outcome(rb.pose, rb.failed, ra.pauses + rb.pauses)
    decreases |a|
  {
    if a == [] {
      assert a + b == b;
    } else {
      assert (a + b)[0] == a[0];
      assert (a + b)[1..] == a[1..] + b;
      var s := step(p, a[0]);
      if s.kind != Failed {
        ExecAppend(step, s.pose, a[1..], b);
      }
    }
  }

  /** One more line after a run that has not failed: the step of that line from where the run stopped. */
  lemma ExecSnoc(step: Stepper, p: Pose, lines: seq<string>, raw: string)
    requires !Exec(step, p, lines).failed
    ensures var r := Exec(step, p, lines);
            var s := step(r.pose, raw);
            Exec(step, p, lines + [raw])
              == if s.kind == Failed then Outcome(r.pose, true, r.pauses + [ERROR_PAUSE])
                 else Outcome(s.pose, false, r.pauses + [PauseOf(s.kind)])
  {
    ExecAppend(step, p, lines, [raw]);
    var r := Exec(step, p, lines);
    var s := step(r.pose, raw);
    assert [raw][1..] == [];
  }

  /** `ExecSnoc` for the prefix of `lines` a loop has reached: line `i` dispatched next. */
  lemma ExecNextLine(step: Stepper, p: Pose, lines: seq<string>, i: nat)
    requires i < |lines| && !Exec(step, p, lines[..i]).failed
    ensures var r := Exec(step, p, lines[..i]);
            var s := step(r.pose, lines[i]);
            Exec(step, p, lines[..i + 1])
              == if s.kind == Failed then Outcome(r.pose, true, r.pauses + [ERROR_PAUSE])
                 else Outcome(s.pose, false, r.pauses + [PauseOf(s.kind)])
  {
    assert lines[..i + 1] == lines[..i] + [lines[i]];
    ExecSnoc(step, p, lines[..i], lines[i]);
  }

  /** After the first failing line, no later line changes anything. */
  lemma ExecStopsAtFailure(step: Stepper, p: Pose, lines: seq<string>, k: nat)
    requires k <= |lines| && Exec(step, p, lines[..k]).failed
    ensures Exec(step, p, lines) == Exec(step, p, lines[..k])
  {
    assert lines == lines[..k] + lines[k..];
    ExecAppend(step, p, lines[..k], lines[k..]);
  }

  /**
   * A failed run names its failing line: the last one dispatched. Every line before it ran
   * without failure, and the pose is the one it had just before that line.
   */
  lemma {:induction false} ExecFailure(step: Stepper, p: Pose, lines: seq<string>)
    requires Exec(step, p, lines).failed
    ensures var r := Exec(step, p, lines);
            var k := |r.pauses| - 1;
            var before := Exec(step, p, lines[..k]);
            && !before.failed
            && before.pose == r.pose
            && step(before.pose, lines[k]).kind == Failed
            && r.pauses == before.pauses + [ERROR_PAUSE]
    decreases |lines|
  {
    var s := step(p, lines[0]);
    if s.kind == Failed {
      assert lines[..0] == [];
    } else {
      var rest := Exec(step, s.pose, lines[1..]);
      ExecFailure(step, s.pose, lines[1..]);
      var k := |rest.pauses| - 1;
      var pre := lines[..k + 1];
      assert pre[0] == lines[0];
      assert pre[1..] == lines[1..][..k];
      assert lines[k + 1] == lines[1..][k];
    }
  }

  /**
   * The pacing: with `pause` giving the pause of every line that does not fail, each dispatched
   * line gets its pause, except a failing line, which gets 1000 ms and is the last.
   */
  lemma {:induction false} ExecPauses(step: Stepper, pause: string -> nat, p: Pose, lines: seq<string>, k: nat)
    requires forall q, raw :: step(q, raw).kind != Failed ==> PauseOf(step(q, raw).kind) == pause(raw)
    requires k < |Exec(step, p, lines).pauses|
    ensures var r := Exec(step, p, lines);
            r.pauses[k] == if r.failed && k == |r.pauses| - 1 then ERROR_PAUSE else pause(lines[k])
    decreases |lines|
  {
    var s := step(p, lines[0]);
    if s.kind != Failed && k > 0 {
      ExecPauses(step, pause, s.pose, lines[1..], k - 1);
    }
  }

  /** A run that starts on the board ends on the board, when every line keeps the turtle on it. */
  lemma {:induction false} ExecStaysOnBoard(step: Stepper, p: Pose, lines: seq<string>)
    requires forall q: Pose, raw :: OnBoard(q.x, q.y) ==> OnBoard(step(q, raw).pose.x, step(q, raw).pose.y)
    requires OnBoard(p.x, p.y)
    ensures var r := Exec(step, p, lines); OnBoard(r.pose.x, r.pose.y)
    decreases |lines|
  {
    if lines != [] {
      var s := step(p, lines[0]);
      if s.kind != Failed {
        ExecStaysOnBoard(step, s.pose, lines[1..]);
      }
    }
  }

  /** A run fails only if some line can fail. */
  lemma {:induction false} ExecWithoutFailingLines(step: Stepper, p: Pose, lines: seq<string>)
    requires forall q, i :: 0 <= i < |lines| ==> step(q, lines[i]).kind != Failed
    ensures !Exec(step, p, lines).failed
    decreases |lines|
  {
    if lines != [] {
      var s := step(p, lines[0]);
      assert forall q, i :: 0 <= i < |lines| - 1 ==> step(q, lines[1..][i]) == step(q, lines[i + 1]);
      ExecWithoutFailingLines(step, s.pose, lines[1..]);
    }
  }

  // ---------------------------------------------------------------- the turtle's own run

  /** Pacing of a turtle run: 100 ms blank, 600 ms a command, 200 ms anything else, 1000 ms the failing move. */
  lemma TurtlePauses(disp: Displacement, parse: FloatParser, p: Pose, lines: seq<string>, k: nat)
    requires k < |Exec(Dispatch(disp, parse), p, lines).pauses|
    ensures var r := Exec(Dispatch(disp, parse), p, lines);
            r.pauses[k] == if r.failed && k == |r.pauses| - 1 then ERROR_PAUSE else LinePause(parse, lines[k])
  {
    var step := Dispatch(disp, parse);
    var pause := raw => LinePause(parse, raw);
    forall q, raw ensures step(q, raw).kind != Failed ==> PauseOf(step(q, raw).kind) == pause(raw) {
      StepPause(disp, parse, q, raw);
    }
    ExecPauses(step, pause, p, lines, k);
  }

  /** A turtle that starts inside the tolerance box never leaves it: moves are rejected, not clamped. */
  lemma TurtleStaysOnBoard(disp: Displacement, parse: FloatParser, p: Pose, lines: seq<string>)
    requires OnBoard(p.x, p.y)
    ensures var r := Exec(Dispatch(disp, parse), p, lines); OnBoard(r.pose.x, r.pose.y)
  {
    var step := Dispatch(disp, parse);
    forall q: Pose, raw | OnBoard(q.x, q.y) ensures OnBoard(step(q, raw).pose.x, step(q, raw).pose.y) {
      StepKeepsPose(disp, parse, q, raw);
    }
    ExecStaysOnBoard(step, p, lines);
  }

  /** A script with no ANDA, TRAS or TRÁS line never fails, whatever it turns. */
  lemma TurningNeverFails(disp: Displacement, parse: FloatParser, p: Pose, lines: seq<string>)
    requires forall i :: 0 <= i < |lines| ==> !ParseLine(lines[i]).Instr? || ParseLine(lines[i]).cmd !in {"ANDA", "TRAS", "TRÁS"}
    ensures !Exec(Dispatch(disp, parse), p, lines).failed
  {
    var step := Dispatch(disp, parse);
    forall q, i | 0 <= i < |lines| ensures step(q, lines[i]).kind != Failed {
      StepFailsOnlyMoving(disp, parse, q, lines[i]);
    }
    ExecWithoutFailingLines(step, p, lines);
  }

  // ---------------------------------------------------------------- a run with a possible reset

  /**
   * The lines a run dispatches when a reset arrives during pause number `resetAt` (pause 0 is the
   * one before the first line, pause k + 1 the one after line k): the reset is seen at the next
   * check of `isExecuting`, so the lines after that pause are not dispatched.
   */
  function RunUntil(step: Stepper, lines: seq<string>, resetAt: nat): Outcome {
    Exec(step, HOME, lines[..Min(resetAt, |lines|)])
  }

  /** A loop that dispatches lines until the end, a reset or a failure, and stops after line `i`, has run exactly the lines a reset at pause `resetAt` lets through. */
  lemma RunStops(step: Stepper, lines: seq<string>, resetAt: nat, i: nat)
    requires i <= |lines| && i <= resetAt
    requires i == |lines| || i == resetAt || Exec(step, HOME, lines[..i]).failed
    ensures RunUntil(step, lines, resetAt) == Exec(step, HOME, lines[..i])
  {
    var n := Min(resetAt, |lines|);
    if i == n {
      assert lines[..n] == lines[..i];
    } else {
      assert lines[..n][..i] == lines[..i];
      ExecStopsAtFailure(step, HOME, lines[..n], i);
    }
  }
}
