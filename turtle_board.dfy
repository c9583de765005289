/**
 * TartarugaWeb/script.js: the turtle page without the game. Its module-level `turtle` and
 * `isExecuting` become the fields of one `Board`; `Math.cos`/`Math.sin` and `parseFloat` are
 * given to the constructor. Every `await delay(ms)` is a `Pause`, during which the page's reset
 * button handler may run.
 */
module TurtleBoard {
  import opened Wrappers
  import opened Text
  import opened Script
  import opened Turtle

  /** The pause after the loop, before the page returns to edit mode. */
  const END_PAUSE: nat := 1000

  class Board {
    const disp: Displacement
    const parse: FloatParser
    var turtle: Pose
    var isExecuting: bool

    /** The page as loaded: `resetTurtle()` has run and nothing is executing. */
    constructor (disp: Displacement, parse: FloatParser)
      ensures this.disp == disp && this.parse == parse
      ensures turtle == HOME && !isExecuting
    {
      this.disp := disp;
      this.parse := parse;
      turtle := HOME;
      isExecuting := false;
    }

    /** `moveTurtle`: commits the candidate position only when it is on the board. */
    method MoveTurtle(dist: real) returns (ok: bool)
      modifies this`turtle
      ensures Moved(turtle, ok) == Move(disp, old(turtle), dist)
    {
      var d := disp(turtle.angle, dist);
      var nextX := turtle.x + d.dx;
      var nextY := turtle.y + d.dy;
      if nextX < -EPSILON || nextX > EDGE + EPSILON || nextY < -EPSILON || nextY > EDGE + EPSILON {
        return false;
      }
      turtle := turtle.(x := nextX, y := nextY);
      return true;
    }

    /** `rotateTurtle` */
    method RotateTurtle(deg: real)
      modifies this`turtle
      ensures turtle == Rotate(old(turtle), deg)
    {
      turtle := turtle.(angle := turtle.angle + deg);
    }

    /** `resetTurtle` */
    method ResetTurtle()
      modifies this`turtle
      ensures turtle == HOME
    {
      turtle := HOME;
    }

    /** `fullReset`, the reset button: stops a run at its next check and puts the turtle home. */
    method FullReset()
      modifies this
      ensures turtle == HOME && !isExecuting
    {
      isExecuting := false;
      ResetTurtle();
    }

    /**
     * `await delay(ms)`: the pause is recorded in the trace; if it is pause number `resetAt`,
     * the reset button is pressed while it lasts.
     */
    method Pause(trace: seq<nat>, ms: nat, resetAt: nat) returns (t: seq<nat>)
      modifies this
      ensures t == trace + [ms]
      ensures |trace| == resetAt ==> turtle == HOME && !isExecuting
      ensures |trace| != resetAt ==> turtle == old(turtle) && isExecuting == old(isExecuting)
    {
      t := trace + [ms];
      if |trace| == resetAt {
        FullReset();
      }
    }

    /** The `switch` on the command word of a non-blank line. */
    method Execute(cmd: string, operands: seq<string>) returns (actionTaken: bool, success: bool)
      modifies this`turtle
      ensures Perform(disp, old(turtle), Decode(parse, Instr(cmd, operands)))
              == Stepped(turtle, if !success then Failed else if actionTaken then Acted else Ignored)
    {
      var val := OperandOrZero(parse, operands);
      actionTaken := false;
      success := true;
      if cmd == "ANDA" {
        success := MoveTurtle(val);
        actionTaken := true;
      } else if cmd == "TRAS" || cmd == "TRÁS" {
        success := MoveTurtle(-val);
        actionTaken := true;
      } else if cmd == "DIREITA" {
        RotateTurtle(val);
        actionTaken := true;
      } else if cmd == "ESQUERDA" {
        RotateTurtle(-val);
        actionTaken := true;
      }
    }

    /**
     * The body of the `for` loop for one line: dispatch it, then the pause its outcome calls for.
     * The reset button may be pressed during that pause.
     */
    method DispatchLine(raw: string, trace: seq<nat>, resetAt: nat) returns (t: seq<nat>, errorOccurred: bool)
      modifies this
      ensures var s := Step(disp, parse, old(turtle), raw);
              && errorOccurred == (s.kind == Failed)
              && t == trace + [PauseOf(s.kind)]
              && (if |trace| == resetAt then turtle == HOME && !isExecuting
                  else turtle == s.pose && isExecuting == old(isExecuting))
    {
      var line := ParseLine(raw);
      errorOccurred := false;
      if line.Instr? {
        var actionTaken, success := Execute(line.cmd, line.operands);
        if !success {
          errorOccurred := true;
          t := Pause(trace, ERROR_PAUSE, resetAt);
        } else if actionTaken {
          t := Pause(trace, ANIMATION_SPEED, resetAt);
        } else {
          t := Pause(trace, UNKNOWN_PAUSE, resetAt);
        }
      } else {
        t := Pause(trace, BLANK_PAUSE, resetAt);
      }
    }

    /**
     * The state of the `for` loop of `runCommandsAsync` once it has handled lines `0 .. i - 1`:
     * the pauses so far follow the opening one in `trace`, and unless a reset was seen, the
     * turtle is where those lines put it.
     */
    ghost predicate Reached(lines: seq<string>, i: nat, trace: seq<nat>, t: seq<nat>, errorOccurred: bool, resetAt: nat)
      reads this
    {
      && i <= |lines| && i <= resetAt
      && var out := Exec(Dispatch(disp, parse), HOME, lines[..i]);
      && errorOccurred == out.failed
      && t == trace + out.pauses && |t| == |trace| + i
      && (isExecuting <==> i < resetAt)
      && turtle == if isExecuting then out.pose else HOME
    }

    /** One turn of the `for` loop: line `i` is dispatched and its pause taken. */
    method Advance(lines: seq<string>, i: nat, trace: seq<nat>, t: seq<nat>, resetAt: nat)
      returns (t': seq<nat>, errorOccurred: bool)
      requires i < |lines| && isExecuting && |trace| == 1 && Reached(lines, i, trace, t, false, resetAt)
      modifies this
      ensures Reached(lines, i + 1, trace, t', errorOccurred, resetAt)
    {
      ghost var step := Dispatch(disp, parse);
      ghost var prev := Exec(step, HOME, lines[..i]);
      ghost var s := step(prev.pose, lines[i]);
      assert s == Step(disp, parse, prev.pose, lines[i]);
      StepKeepsPose(disp, parse, prev.pose, lines[i]);
      ExecNextLine(step, HOME, lines, i);
      t', errorOccurred := DispatchLine(lines[i], t, resetAt);
      ghost var out := Exec(step, HOME, lines[..i + 1]);
      assert out.pauses == prev.pauses + [PauseOf(s.kind)] && out.pose == s.pose;
      assert t' == trace + prev.pauses + [PauseOf(s.kind)];
      assert trace + prev.pauses + [PauseOf(s.kind)] == trace + out.pauses;
    }

    /**
     * The `for` loop of `runCommandsAsync`, entered after the opening pause with the turtle home:
     * it checks `isExecuting` before each line and stops after the first failing move.
     */
    method DispatchLines(lines: seq<string>, trace: seq<nat>, resetAt: nat) returns (t: seq<nat>)
      requires |trace| == 1 && turtle == HOME && (isExecuting <==> 0 < resetAt)
      modifies this
      ensures var r := RunUntil(Dispatch(disp, parse), lines, resetAt);
              && t == trace + r.pauses
              && (isExecuting <==> |t| <= resetAt)
              && turtle == if isExecuting then r.pose else HOME
    {
      var errorOccurred := false;
      var i := 0;
      t := trace;
      while i < |lines| && isExecuting && !errorOccurred
        invariant Reached(lines, i, trace, t, errorOccurred, resetAt)
      {
        t, errorOccurred := Advance(lines, i, trace, t, resetAt);
        i := i + 1;
      }
      RunStops(Dispatch(disp, parse), lines, resetAt, i);
    }

    /**
     * `runCommandsAsync`: ignored while a run is in progress; otherwise the turtle is put home,
     * the lines are dispatched until the first failing move, and the page always ends idle.
     */
    method Run(script: string, resetAt: nat) returns (trace: seq<nat>)
      modifies this
      ensures old(isExecuting) ==> trace == [] && turtle == old(turtle) && isExecuting
      ensures !old(isExecuting) ==>
                var r := RunUntil(Dispatch(disp, parse), SplitLines(script), resetAt);
                && trace == [START_PAUSE] + r.pauses + [END_PAUSE]
                && turtle == (if resetAt < |trace| then HOME else r.pose)
                && !isExecuting
    {
      if isExecuting {
        return [];
      }
      isExecuting := true;
      var lines := SplitLines(script);
      ResetTurtle();
      trace := Pause([], START_PAUSE, resetAt);
      trace := DispatchLines(lines, trace, resetAt);
      trace := Pause(trace, END_PAUSE, resetAt);
      isExecuting := false;
    }
  }
}
