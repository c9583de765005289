/**
 * JogoTartaruga/script.js: the turtle page with the apple game. Its module-level `turtle`,
 * `gameState`, `apple` and `isExecuting` become the fields of one `Game`; `Math.cos`/`Math.sin`
 * and `parseFloat` are given to the constructor and `Math.random` to `StartGame`. Every
 * `await delay(ms)` is a `Pause`, during which the page's reset button handler may run.
 */
module TurtleGame {
  import opened Wrappers
  import opened Text
  import opened Script
  import opened Turtle

  /** The pause after the loop, before the win check. */
  const END_PAUSE: nat := 500
  const GRID_SIZE: int := 8

  datatype GameState = Idle | Playing

  /** A board cell; the apple's coordinates are always whole numbers. */
  datatype Cell = Cell(x: int, y: int)

  /** The apple's position while no game is on. */
  const NO_APPLE: Cell := Cell(-1, -1)
  const ORIGIN: Cell := Cell(0, 0)

  /** What the win check told the player, if it ran. */
  datatype Verdict = NoVerdict | Won | Lost

  predicate InGrid(c: Cell) {
    0 <= c.x < GRID_SIZE && 0 <= c.y < GRID_SIZE
  }

  /** `Math.random()` draws in `[0, 1)`. */
  predicate IsDraw(d: (real, real)) {
    0.0 <= d.0 < 1.0 && 0.0 <= d.1 < 1.0
  }

  /** `Math.floor(Math.random() * gridSize)` for each coordinate. */
  function CellOf(d: (real, real)): (c: Cell)
    requires IsDraw(d)
    ensures InGrid(c)
  {
    Cell((d.0 * 8.0).Floor, (d.1 * 8.0).Floor)
  }

  /** Every draw lands on the origin cell (so the do-while loop draws again). */
  predicate AllAtOrigin(draws: seq<(real, real)>)
    requires forall k :: 0 <= k < |draws| ==> IsDraw(draws[k])
  {
    forall k :: 0 <= k < |draws| ==> CellOf(draws[k]) == ORIGIN
  }

  /** The index of the draw that ends the do-while loop: the first one off the origin cell. */
  function FirstFree(draws: seq<(real, real)>): (k: nat)
    requires forall k :: 0 <= k < |draws| ==> IsDraw(draws[k])
    requires !AllAtOrigin(draws)
    ensures k < |draws| && CellOf(draws[k]) != ORIGIN
    ensures AllAtOrigin(draws[..k])
  {
    if CellOf(draws[0]) != ORIGIN then 0
    else
      assert !AllAtOrigin(draws[1..]) by {
        var j :| 0 <= j < |draws| && CellOf(draws[j]) != ORIGIN;
        assert draws[1..][j - 1] == draws[j];
      }
      var k := FirstFree(draws[1..]);
      assert draws[..k + 1] == [draws[0]] + draws[1..][..k];
      k + 1
  }

  /**
   * The win test `sqrt((x - ax)^2 + (y - ay)^2) < 0.5`, stated without the square root: a
   * distance is below 0.5 exactly when its square is below 0.25.
   */
  predicate Hits(p: Pose, c: Cell) {
    var dx := p.x - c.x as real;
    var dy := p.y - c.y as real;
    dx * dx + dy * dy < 0.25
  }

  /** For a non-negative distance `d`, `d < 0.5` and `d * d < 0.25` agree. */
  lemma DistanceBelowHalf(d: real)
    requires d >= 0.0
    ensures d < 0.5 <==> d * d < 0.25
  {
    if d >= 0.5 {
      assert d * d >= 0.5 * d >= 0.25;
    } else {
      assert d * d <= 0.5 * d < 0.25;
    }
  }

  /** A turtle on whole-number coordinates reaches the apple exactly when it stands on its cell. */
  lemma HitsOnGrid(x: int, y: int, angle: real, c: Cell)
    ensures Hits(Pose(x as real, y as real, angle), c) <==> x == c.x && y == c.y
  {
    var dx := (x - c.x) as real;
    var dy := (y - c.y) as real;
    SquareOfWhole(x - c.x);
    SquareOfWhole(y - c.y);
    assert Hits(Pose(x as real, y as real, angle), c) <==> dx * dx + dy * dy < 0.25;
  }

  lemma SquareOfWhole(n: int)
    ensures n == 0 <==> (n as real) * (n as real) < 0.25
    ensures (n as real) * (n as real) >= 0.0
  {
    if n >= 1 {
      assert (n as real) * (n as real) >= (n as real) * 1.0;
    } else if n <= -1 {
      assert (n as real) * (n as real) >= -(n as real) * 1.0;
    }
  }

  class Game {
    const disp: Displacement
    const parse: FloatParser
    var turtle: Pose
    var gameState: GameState
    var apple: Cell
    var isExecuting: bool

    /**
     * What holds between runs: the turtle is on the board, no apple is out while idle, and
     * while playing the apple is on a cell of the board other than the start cell.
     */
    ghost predicate Valid()
      reads this
    {
      && OnBoard(turtle.x, turtle.y)
      && (gameState == Idle ==> apple == NO_APPLE)
      && (gameState == Playing ==> InGrid(apple) && apple != ORIGIN)
    }

    /** The state right after the reset button handler. */
    ghost predicate AfterReset()
      reads this
    {
      turtle == HOME && !isExecuting && gameState == Idle && apple == NO_APPLE
    }

    /** The page as loaded. */
    constructor (disp: Displacement, parse: FloatParser)
      ensures this.disp == disp && this.parse == parse
      ensures AfterReset() && Valid()
    {
      this.disp := disp;
      this.parse := parse;
      turtle := HOME;
      gameState := Idle;
      apple := NO_APPLE;
      isExecuting := false;
    }

    /** `moveTurtle`: commits the candidate position only when it is on the board. */
    method MoveTurtle(dist: real) returns (ok: bool)
      modifies this`turtle
      ensures Moved(turtle, ok) == Move(disp, old(turtle), dist)
    {
      var d := disp(turtle.angle, dist);
      var nextX := turtle.x + d.dx;
      var nextY := turtle.y + d.dy;
      if nextX < -EPSILON || nextX > EDGE + EPSILON || nextY < -EPSILON || nextY > EDGE + EPSILON {
        return false;
      }
      turtle := turtle.(x := nextX, y := nextY);
      return true;
    }

    /** `rotateTurtle` */
    method RotateTurtle(deg: real)
      modifies this`turtle
      ensures turtle == Rotate(old(turtle), deg)
    {
      turtle := turtle.(angle := turtle.angle + deg);
    }

    /** `resetTurtle` */
    method ResetTurtle()
      modifies this`turtle
      ensures turtle == HOME
    {
      turtle := HOME;
    }

    /** `fullReset`, the reset button: ends the game, removes the apple and puts the turtle home. */
    method FullReset()
      modifies this
      ensures AfterReset() && Valid()
    {
      gameState := Idle;
      isExecuting := false;
      ResetTurtle();
      apple := NO_APPLE;
    }

    /**
     * `startGame`: a full reset, then apples are drawn until one lands off the start cell.
     * `draws` are the successive pairs of `Math.random()` results; the loop ends at the first
     * draw off the origin, which must exist for the page to return at all.
     */
    method StartGame(draws: seq<(real, real)>)
      requires forall k :: 0 <= k < |draws| ==> IsDraw(draws[k])
      requires !AllAtOrigin(draws)
      modifies this
      ensures gameState == Playing && apple == CellOf(draws[FirstFree(draws)])
      ensures turtle == HOME && !isExecuting && Valid()
    {
      FullReset();
      gameState := Playing;
      var k := 0;
      apple := CellOf(draws[0]);
      while apple == ORIGIN
        invariant k < |draws| && apple == CellOf(draws[k])
        invariant AllAtOrigin(draws[..k])
        invariant gameState == Playing && turtle == HOME && !isExecuting
        decreases |draws| - k
      {
        assert draws[..k + 1] == draws[..k] + [draws[k]];
        assert AllAtOrigin(draws[..k + 1]);
        assert k + 1 < |draws|;
        k := k + 1;
        apple := CellOf(draws[k]);
      }
      FirstFreeIsFirst(draws, k);
    }

    /** `stopGame`: the game ends and everything is reset. */
    method StopGame()
      modifies this
      ensures AfterReset() && Valid()
    {
      gameState := Idle;
      apple := NO_APPLE;
      FullReset();
    }

    /**
     * `checkWinCondition`: nothing unless a game is on; otherwise the player wins when the
     * turtle is within half a cell of the apple and loses otherwise, and either way the game
     * is stopped.
     */
    method CheckWinCondition() returns (verdict: Verdict)
      modifies this
      ensures old(gameState) != Playing ==> verdict == NoVerdict && unchanged(this)
      ensures old(gameState) == Playing ==>
                && verdict == (if Hits(old(turtle), old(apple)) then Won else Lost)
                && AfterReset()
      ensures old(Valid()) ==> Valid()
    {
      if gameState != Playing {
        return NoVerdict;
      }
      var dx := turtle.x - apple.x as real;
      var dy := turtle.y - apple.y as real;
      if dx * dx + dy * dy < 0.25 {
        verdict := Won;
      } else {
        verdict := Lost;
      }
      StopGame();
    }

    /**
     * `await delay(ms)`: the pause is recorded in the trace; if it is pause number `resetAt`,
     * the reset button is pressed while it lasts.
     */
    method Pause(trace: seq<nat>, ms: nat, resetAt: nat) returns (t: seq<nat>)
      modifies this
      ensures t == trace + [ms]
      ensures |trace| == resetAt ==> AfterReset()
      ensures |trace| != resetAt ==> unchanged(this)
    {
      t := trace + [ms];
      if |trace| == resetAt {
        FullReset();
      }
    }

    /** The `switch` on the command word of a non-blank line. */
    method Execute(cmd: string, operands: seq<string>) returns (actionTaken: bool, success: bool)
      modifies this`turtle
      ensures Perform(disp, old(turtle), Decode(parse, Instr(cmd, operands)))
              == Stepped(turtle, if !success then Failed else if actionTaken then Acted else Ignored)
    {
      var val := OperandOrZero(parse, operands);
      actionTaken := false;
      success := true;
      if cmd == "ANDA" {
        success := MoveTurtle(val);
        actionTaken := true;
      } else if cmd == "TRAS" || cmd == "TRÁS" {
        success := MoveTurtle(-val);
        actionTaken := true;
      } else if cmd == "DIREITA" {
        RotateTurtle(val);
        actionTaken := true;
      } else if cmd == "ESQUERDA" {
        RotateTurtle(-val);
        actionTaken := true;
      }
    }

    /**
     * The body of the `for` loop for one line: dispatch it, then the pause its outcome calls for.
     * The reset button may be pressed during that pause.
     */
    method DispatchLine(raw: string, trace: seq<nat>, resetAt: nat) returns (t: seq<nat>, errorOccurred: bool)
      modifies this
      ensures var s := Step(disp, parse, old(turtle), raw);
              && errorOccurred == (s.kind == Failed)
              && t == trace + [PauseOf(s.kind)]
              && (if |trace| == resetAt then AfterReset()
                  else && turtle == s.pose && isExecuting == old(isExecuting)
                       && gameState == old(gameState) && apple == old(apple))
    {
      var line := ParseLine(raw);
      errorOccurred := false;
      if line.Instr? {
        var actionTaken, success := Execute(line.cmd, line.operands);
        if !success {
          errorOccurred := true;
          t := Pause(trace, ERROR_PAUSE, resetAt);
        } else if actionTaken {
          t := Pause(trace, ANIMATION_SPEED, resetAt);
        } else {
          t := Pause(trace, UNKNOWN_PAUSE, resetAt);
        }
      } else {
        t := Pause(trace, BLANK_PAUSE, resetAt);
      }
    }

    /**
     * The state of the `for` loop of `runCommandsAsync` once it has handled lines `0 .. i - 1`:
     * the pauses so far follow the opening ones in `trace`, and unless a reset was seen, the
     * turtle is where those lines put it and the game is as the loop found it.
     */
    ghost predicate Reached(lines: seq<string>, i: nat, trace: seq<nat>, t: seq<nat>, errorOccurred: bool,
                            resetAt: nat, g0: GameState, a0: Cell)
      reads this
    {
      && i <= |lines| && i <= resetAt
      && var out := Exec(Dispatch(disp, parse), HOME, lines[..i]);
      && errorOccurred == out.failed
      && t == trace + out.pauses && |t| == |trace| + i
      && (isExecuting <==> i < resetAt)
      && if isExecuting then turtle == out.pose && gameState == g0 && apple == a0 else AfterReset()
    }

    /** One turn of the `for` loop: line `i` is dispatched and its pause taken. */
    method Advance(lines: seq<string>, i: nat, trace: seq<nat>, t: seq<nat>, resetAt: nat, ghost g0: GameState, ghost a0: Cell)
      returns (t': seq<nat>, errorOccurred: bool)
      requires i < |lines| && isExecuting && |trace| == 1 && Reached(lines, i, trace, t, false, resetAt, g0, a0)
      modifies this
      ensures Reached(lines, i + 1, trace, t', errorOccurred, resetAt, g0, a0)
    {
      ghost var step := Dispatch(disp, parse);
      ghost var prev := Exec(step, HOME, lines[..i]);
      ghost var s := step(prev.pose, lines[i]);
      assert s == Step(disp, parse, prev.pose, lines[i]);
      StepKeepsPose(disp, parse, prev.pose, lines[i]);
      ExecNextLine(step, HOME, lines, i);
      t', errorOccurred := DispatchLine(lines[i], t, resetAt);
      ghost var out := Exec(step, HOME, lines[..i + 1]);
      assert out.pauses == prev.pauses + [PauseOf(s.kind)] && out.pose == s.pose;
      assert t' == trace + prev.pauses + [PauseOf(s.kind)];
      assert trace + prev.pauses + [PauseOf(s.kind)] == trace + out.pauses;
    }

    /**
     * The `for` loop of `runCommandsAsync`, entered after the opening pause with the turtle home:
     * it checks `isExecuting` before each line and stops after the first failing move.
     */
    method DispatchLines(lines: seq<string>, trace: seq<nat>, resetAt: nat) returns (t: seq<nat>, errorOccurred: bool)
      requires |trace| == 1 && turtle == HOME && (isExecuting <==> 0 < resetAt)
      requires !isExecuting ==> AfterReset()
      modifies this
      ensures var r := RunUntil(Dispatch(disp, parse), lines, resetAt);
              && t == trace + r.pauses
              && errorOccurred == r.failed
              && (isExecuting <==> |t| <= resetAt)
              && (if isExecuting then turtle == r.pose && gameState == old(gameState) && apple == old(apple)
                  else AfterReset())
    {
      errorOccurred := false;
      var i := 0;
      t := trace;
      while i < |lines| && isExecuting && !errorOccurred
        invariant Reached(lines, i, trace, t, errorOccurred, resetAt, old(gameState), old(apple))
      {
        t, errorOccurred := Advance(lines, i, trace, t, resetAt, old(gameState), old(apple));
        i := i + 1;
      }
      RunStops(Dispatch(disp, parse), lines, resetAt, i);
    }

    /**
     * What follows the loop: the closing pause, the win check when a game is on and no move
     * failed, and the return to edit mode, which only runs if nothing has already ended the run.
     */
    method Finish(trace: seq<nat>, errorOccurred: bool, resetAt: nat) returns (t: seq<nat>, verdict: Verdict)
      modifies this
      ensures t == trace + [END_PAUSE] && !isExecuting
      ensures var playing := old(gameState) == Playing && |trace| != resetAt;
              && verdict == (if playing && !errorOccurred then (if Hits(old(turtle), old(apple)) then Won else Lost) else NoVerdict)
              && gameState == (if playing && errorOccurred then Playing else Idle)
              && apple == (if |trace| == resetAt || (playing && !errorOccurred) then NO_APPLE else old(apple))
              && turtle == (if |trace| == resetAt || (playing && !errorOccurred) then HOME else old(turtle))
      ensures old(Valid()) ==> Valid()
    {
      t := Pause(trace, END_PAUSE, resetAt);
      verdict := NoVerdict;
      if gameState == Playing && !errorOccurred {
        verdict := CheckWinCondition();
      }
      if isExecuting {
        isExecuting := false;
      }
    }

    /**
     * `runCommandsAsync`: ignored while a run is in progress; otherwise the turtle is put home,
     * the lines are dispatched until the first failing move, and, when a game is on and no move
     * failed, the game is decided where the turtle stopped.
     */
    method Run(script: string, resetAt: nat) returns (trace: seq<nat>, verdict: Verdict)
      requires Valid()
      modifies this
      ensures Valid()
      ensures old(isExecuting) ==> trace == [] && verdict == NoVerdict && unchanged(this)
      ensures !old(isExecuting) ==>
                var r := RunUntil(Dispatch(disp, parse), SplitLines(script), resetAt);
                var reset := resetAt < |trace|;
                var playing := old(gameState) == Playing && !reset;
                && trace == [START_PAUSE] + r.pauses + [END_PAUSE]
                && verdict == (if playing && !r.failed then (if Hits(r.pose, old(apple)) then Won else Lost) else NoVerdict)
                && gameState == (if playing && r.failed then Playing else Idle)
                && apple == (if gameState == Playing then old(apple) else NO_APPLE)
                && turtle == (if reset || (playing && !r.failed) then HOME else r.pose)
                && !isExecuting
    {
      if isExecuting {
        return [], NoVerdict;
      }
      isExecuting := true;
      var lines := SplitLines(script);
      ResetTurtle();
      trace := Pause([], START_PAUSE, resetAt);
      var errorOccurred;
      trace, errorOccurred := DispatchLines(lines, trace, resetAt);
      TurtleStaysOnBoard(disp, parse, HOME, lines[..Min(resetAt, |lines|)]);
      trace, verdict := Finish(trace, errorOccurred, resetAt);
    }
  }

  /** The do-while loop stopped at draw `k`: that is the first draw off the origin. */
  lemma FirstFreeIsFirst(draws: seq<(real, real)>, k: nat)
    requires forall j :: 0 <= j < |draws| ==> IsDraw(draws[j])
    requires k < |draws| && CellOf(draws[k]) != ORIGIN && AllAtOrigin(draws[..k])
    ensures !AllAtOrigin(draws) && FirstFree(draws) == k
  {
    var f := FirstFree(draws);
    forall j | 0 <= j < k ensures CellOf(draws[j]) == ORIGIN {
      assert draws[..k][j] == draws[j];
    }
    forall j | 0 <= j < f ensures CellOf(draws[j]) == ORIGIN {
      assert draws[..f][j] == draws[j];
    }
  }
}
