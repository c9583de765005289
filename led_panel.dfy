/**
 * LigaLED/script.js: three LEDs (yellow, green, red) driven by a script. The page keeps each
 * LED's state as a CSS class on its container; here the three states are booleans, the fields
 * of one `Panel` together with `isExecuting`. `parseInt` and `parseFloat` are given to the
 * constructor. Every `await delay(ms)` is a `Pause`, during which the page's reset button
 * handler may run.
 */
module LedPanel {
  import opened Wrappers
  import opened Text
  import opened Script

  // Pauses, in milliseconds.
  const BLANK_PAUSE: real := 100.0
  const STEP_PAUSE: real := 500.0
  const MS_PER_SECOND: real := 1000.0

  datatype Led = Yellow | Green | Red

  /** The on/off state of the three LEDs. */
  datatype Lamps = Lamps(yellow: bool, green: bool, red: bool)

  const ALL_OFF: Lamps := Lamps(false, false, false)

  /** `getLedContainer`: LEDs are numbered 1, 2 and 3; any other number names no LED. */
  function Container(id: int): (c: Option<Led>)
    ensures c.Some? <==> 1 <= id <= 3
  {
    if id == 1 then Some(Yellow)
    else if id == 2 then Some(Green)
    else if id == 3 then Some(Red)
    else None
  }

  /** `getActiveClass`: the CSS class that shows an LED as on, or `''` for no LED. */
  function ActiveClass(id: int): (cls: string)
    ensures cls != "" <==> Container(id).Some?
  {
    if id == 1 then "active-yellow"
    else if id == 2 then "active-green"
    else if id == 3 then "active-red"
    else ""
  }

  /** Each LED has its own number and its own class. */
  lemma ContainersDistinct(i: int, j: int)
    requires Container(i).Some? && Container(j).Some?
    ensures Container(i) == Container(j) <==> i == j
    ensures ActiveClass(i) == ActiveClass(j) <==> i == j
  {
  }

  function IsOn(l: Lamps, led: Led): bool {
    match led
    case Yellow => l.yellow
    case Green => l.green
    case Red => l.red
  }

  /** One LED switched on or off; the other two keep their state. */
  function Switch(l: Lamps, led: Led, on: bool): (r: Lamps)
    ensures IsOn(r, led) == on
    ensures forall other: Led :: other != led ==> IsOn(r, other) == IsOn(l, other)
  {
    match led
    case Yellow => l.(yellow := on)
    case Green => l.(green := on)
    case Red => l.(red := on)
  }

  /** Two lamp states are the same when every LED is in the same state. */
  lemma LampsExt(a: Lamps, b: Lamps)
    requires forall led: Led :: IsOn(a, led) == IsOn(b, led)
    ensures a == b
  {
    assert IsOn(a, Yellow) == IsOn(b, Yellow);
    assert IsOn(a, Green) == IsOn(b, Green);
    assert IsOn(a, Red) == IsOn(b, Red);
  }

  /** Switching an LED to the state it already has changes nothing. */
  lemma SwitchSame(l: Lamps, led: Led)
    ensures Switch(l, led, IsOn(l, led)) == l
  {
    var r := Switch(l, led, IsOn(l, led));
    LampsExt(r, l);
  }

  // ---------------------------------------------------------------- one line

  /** What a line did to the LEDs and the pause that follows it. */
  datatype Applied = Applied(lamps: Lamps, delay: real)

  /**
   * `ACIONAR id a`: both operands go through `parseInt`; the LED is set only when both are
   * numbers, the action is 0 or 1 and the id names an LED.
   */
  function Acionar(parseInt: IntParser, l: Lamps, operands: seq<string>): Lamps {
    var ledId := Operand(parseInt, operands, 0);
    var action := Operand(parseInt, operands, 1);
    if ledId.Some? && action.Some? && (action.value == 0 || action.value == 1) && Container(ledId.value).Some?
    then Switch(l, Container(ledId.value).value, action.value == 1)
    else l
  }

  /** The effect of one script line: the body of the `for` loop, with its `stepDelay`. */
  function ApplyLine(parseInt: IntParser, parseFloat: FloatParser, l: Lamps, raw: string): Applied {
    match ParseLine(raw)
    case Blank => Applied(l, BLANK_PAUSE)
    case Instr(cmd, operands) =>
      if cmd == "ACIONAR" then Applied(Acionar(parseInt, l, operands), STEP_PAUSE)
      else if cmd == "ESPERAR" then
        var seconds := Operand(parseFloat, operands, 0);
        Applied(l, if seconds.Some? then seconds.value * MS_PER_SECOND else STEP_PAUSE)
      else if cmd == "LIMPAR" then Applied(ALL_OFF, STEP_PAUSE)
      else Applied(l, STEP_PAUSE)
  }

  /** The pause after a line depends on its text alone, never on the LEDs. */
  function LineDelay(parseFloat: FloatParser, raw: string): real {
    match ParseLine(raw)
    case Blank => BLANK_PAUSE
    case Instr(cmd, operands) =>
      if cmd == "ESPERAR" && Operand(parseFloat, operands, 0).Some?
      then Operand(parseFloat, operands, 0).value * MS_PER_SECOND
      else STEP_PAUSE
  }

  lemma ApplyLineDelay(parseInt: IntParser, parseFloat: FloatParser, l: Lamps, raw: string)
    ensures ApplyLine(parseInt, parseFloat, l, raw).delay == LineDelay(parseFloat, raw)
  {
  }

  /**
   * `ACIONAR id a` with a valid LED number and an action of 0 or 1 sets that LED on exactly
   * when the action is 1; the other two LEDs keep their state.
   */
  lemma AcionarSets(parseInt: IntParser, parseFloat: FloatParser, l: Lamps, raw: string, id: int, action: int)
    requires ParseLine(raw).Instr? && ParseLine(raw).cmd == "ACIONAR"
    requires |ParseLine(raw).operands| >= 2
    requires parseInt(ParseLine(raw).operands[0]) == Some(id) && parseInt(ParseLine(raw).operands[1]) == Some(action)
    requires 1 <= id <= 3 && (action == 0 || action == 1)
    ensures var r := ApplyLine(parseInt, parseFloat, l, raw).lamps;
            && IsOn(r, Container(id).value) == (action == 1)
            && forall other: Led :: other != Container(id).value ==> IsOn(r, other) == IsOn(l, other)
  {
  }

  /**
   * `ACIONAR` whose LED number or action is not a number, whose action is neither 0 nor 1, or
   * whose number names no LED, leaves every LED as it was.
   */
  lemma AcionarInvalid(parseInt: IntParser, parseFloat: FloatParser, l: Lamps, raw: string)
    requires ParseLine(raw).Instr? && ParseLine(raw).cmd == "ACIONAR"
    requires var ops := ParseLine(raw).operands;
             var ledId := Operand(parseInt, ops, 0);
             var action := Operand(parseInt, ops, 1);
             || ledId.None? || action.None?
             || (action.value != 0 && action.value != 1)
             || !(1 <= ledId.value <= 3)
    ensures ApplyLine(parseInt, parseFloat, l, raw).lamps == l
  {
  }

  /** Only ACIONAR and LIMPAR lines touch the LEDs; ESPERAR, unknown words and blank lines do not. */
  lemma OnlyAcionarAndLimparChange(parseInt: IntParser, parseFloat: FloatParser, l: Lamps, raw: string)
    requires ApplyLine(parseInt, parseFloat, l, raw).lamps != l
    ensures ParseLine(raw).Instr? && ParseLine(raw).cmd in {"ACIONAR", "LIMPAR"}
  {
  }

  /** LIMPAR turns all three LEDs off, from any state; so a second LIMPAR changes nothing. */
  lemma LimparClears(parseInt: IntParser, parseFloat: FloatParser, l: Lamps, raw: string)
    requires ParseLine(raw).Instr? && ParseLine(raw).cmd == "LIMPAR"
    ensures var a := ApplyLine(parseInt, parseFloat, l, raw);
            && a.lamps == ALL_OFF
            && ApplyLine(parseInt, parseFloat, a.lamps, raw) == a
  {
  }

  // ---------------------------------------------------------------- a list of lines

  /** The LED state after the lines are applied in order, starting from `l`. */
  function LedRun(parseInt: IntParser, parseFloat: FloatParser, l: Lamps, lines: seq<string>): Lamps
    decreases |lines|
  {
    if lines == [] then l
    else LedRun(parseInt, parseFloat, ApplyLine(parseInt, parseFloat, l, lines[0]).lamps, lines[1..])
  }

  /** The pauses of the lines applied in order, one per line. */
  function Delays(parseFloat: FloatParser, lines: seq<string>): (ds: seq<real>)
    ensures |ds| == |lines|
    ensures forall k :: 0 <= k < |lines| ==> ds[k] == LineDelay(parseFloat, lines[k])
  {
    if lines == [] then []
    else Delays(parseFloat, lines[..|lines| - 1]) + [LineDelay(parseFloat, lines[|lines| - 1])]
  }

  /** The pauses after one more line: those so far, then that line's. */
  lemma DelaysNext(parseFloat: FloatParser, lines: seq<string>, i: nat)
    requires i < |lines|
    ensures Delays(parseFloat, lines[..i + 1]) == Delays(parseFloat, lines[..i]) + [LineDelay(parseFloat, lines[i])]
  {
    assert lines[..i + 1][..i] == lines[..i];
  }

  lemma {:induction false} LedRunAppend(parseInt: IntParser, parseFloat: FloatParser, l: Lamps, a: seq<string>, b: seq<string>)
    ensures LedRun(parseInt, parseFloat, l, a + b)
            == LedRun(parseInt, parseFloat, LedRun(parseInt, parseFloat, l, a), b)
    decreases |a|
  {
    if a == [] {
      assert a + b == b;
    } else {
      assert (a + b)[0] == a[0];
      assert (a + b)[1..] == a[1..] + b;
      var s := ApplyLine(parseInt, parseFloat, l, a[0]);
      LedRunAppend(parseInt, parseFloat, s.lamps, a[1..], b);
    }
  }

  /** One more line: its effect on the LEDs where the run left them. */
  lemma LedRunSnoc(parseInt: IntParser, parseFloat: FloatParser, l: Lamps, lines: seq<string>, raw: string)
    ensures LedRun(parseInt, parseFloat, l, lines + [raw])
            == ApplyLine(parseInt, parseFloat, LedRun(parseInt, parseFloat, l, lines), raw).lamps
  {
    LedRunAppend(parseInt, parseFloat, l, lines, [raw]);
  }

  /** `LedRunSnoc` for the prefix of `lines` a loop has reached: line `i` applied next. */
  lemma LedRunNext(parseInt: IntParser, parseFloat: FloatParser, l: Lamps, lines: seq<string>, i: nat)
    requires i < |lines|
    ensures LedRun(parseInt, parseFloat, l, lines[..i + 1])
            == ApplyLine(parseInt, parseFloat, LedRun(parseInt, parseFloat, l, lines[..i]), lines[i]).lamps
  {
    assert lines[..i + 1] == lines[..i] + [lines[i]];
    LedRunSnoc(parseInt, parseFloat, l, lines[..i], lines[i]);
  }

  /** A script whose last line is LIMPAR leaves every LED off, whatever came before. */
  lemma EndsWithLimpar(parseInt: IntParser, parseFloat: FloatParser, l: Lamps, lines: seq<string>)
    requires lines != [] && ParseLine(lines[|lines| - 1]).Instr? && ParseLine(lines[|lines| - 1]).cmd == "LIMPAR"
    ensures LedRun(parseInt, parseFloat, l, lines) == ALL_OFF
  {
    var n := |lines| - 1;
    assert lines == lines[..n] + [lines[n]];
    LedRunSnoc(parseInt, parseFloat, l, lines[..n], lines[n]);
  }

  /** A script with no ACIONAR and no LIMPAR line leaves the LEDs as they were. */
  lemma {:induction false} NoSwitchingKeeps(parseInt: IntParser, parseFloat: FloatParser, l: Lamps, lines: seq<string>)
    requires forall k :: 0 <= k < |lines| ==> !ParseLine(lines[k]).Instr? || ParseLine(lines[k]).cmd !in {"ACIONAR", "LIMPAR"}
    ensures LedRun(parseInt, parseFloat, l, lines) == l
    decreases |lines|
  {
    if lines != [] {
      assert !ParseLine(lines[0]).Instr? || ParseLine(lines[0]).cmd !in {"ACIONAR", "LIMPAR"};
      if ApplyLine(parseInt, parseFloat, l, lines[0]).lamps != l {
        OnlyAcionarAndLimparChange(parseInt, parseFloat, l, lines[0]);
      }
      assert forall k :: 0 <= k < |lines| - 1 ==> lines[1..][k] == lines[k + 1];
      NoSwitchingKeeps(parseInt, parseFloat, l, lines[1..]);
    }
  }

  // ---------------------------------------------------------------- the page

  class Panel {
    const parseInt: IntParser
    const parseFloat: FloatParser
    var lamps: Lamps
    var isExecuting: bool

    /** The page as loaded: every LED off, nothing executing. */
    constructor (parseInt: IntParser, parseFloat: FloatParser)
      ensures this.parseInt == parseInt && this.parseFloat == parseFloat
      ensures lamps == ALL_OFF && !isExecuting
    {
      this.parseInt := parseInt;
      this.parseFloat := parseFloat;
      lamps := ALL_OFF;
      isExecuting := false;
    }

    /**
     * `toggleLed(ledId, state)`: false, and no change, when `ledId` names no LED; otherwise that
     * LED is set on exactly when `state` is 1.
     */
    method ToggleLed(ledId: int, state: int) returns (ok: bool)
      modifies this`lamps
      ensures ok <==> Container(ledId).Some?
      ensures lamps == if ok then Switch(old(lamps), Container(ledId).value, state == 1) else old(lamps)
    {
      var isOn := state == 1;
      var container := Container(ledId);
      if container.None? {
        return false;
      }
      lamps := Switch(lamps, container.value, isOn);
      return true;
    }

    /** `turnOffAllLeds` */
    method TurnOffAllLeds()
      modifies this`lamps
      ensures lamps == ALL_OFF
    {
      lamps := ALL_OFF;
    }

    /** `fullReset`, the reset button: stops a run at its next check and turns every LED off. */
    method FullReset()
      modifies this
      ensures lamps == ALL_OFF && !isExecuting
    {
      isExecuting := false;
      TurnOffAllLeds();
    }

    /**
     * `await delay(ms)`: the pause is recorded in the trace; if it is pause number `resetAt`,
     * the reset button is pressed while it lasts.
     */
    method Pause(trace: seq<real>, ms: real, resetAt: nat) returns (t: seq<real>)
      modifies this
      ensures t == trace + [ms]
      ensures |trace| == resetAt ==> lamps == ALL_OFF && !isExecuting
      ensures |trace| != resetAt ==> lamps == old(lamps) && isExecuting == old(isExecuting)
    {
      t := trace + [ms];
      if |trace| == resetAt {
        FullReset();
      }
    }

    /** The body of the `for` loop for one line, ending with its pause. */
    method DispatchLine(raw: string, trace: seq<real>, resetAt: nat) returns (t: seq<real>)
      modifies this
      ensures var a := ApplyLine(parseInt, parseFloat, old(lamps), raw);
              && t == trace + [a.delay]
              && (if |trace| == resetAt then lamps == ALL_OFF && !isExecuting
                  else lamps == a.lamps && isExecuting == old(isExecuting))
    {
      var line := ParseLine(raw);
      if line.Instr? {
        var stepDelay := STEP_PAUSE;
        if line.cmd == "ACIONAR" {
          var ledId := Operand(parseInt, line.operands, 0);
          var action := Operand(parseInt, line.operands, 1);
          if ledId.Some? && action.Some? && (action.value == 0 || action.value == 1) {
            var success := ToggleLed(ledId.value, action.value);
          }
        } else if line.cmd == "ESPERAR" {
          var seconds := Operand(parseFloat, line.operands, 0);
          if seconds.Some? {
            stepDelay := seconds.value * MS_PER_SECOND;
          }
        } else if line.cmd == "LIMPAR" {
          TurnOffAllLeds();
        }
        t := Pause(trace, stepDelay, resetAt);
      } else {
        t := Pause(trace, BLANK_PAUSE, resetAt);
      }
    }

    /**
     * The state of the `for` loop of `runCommandsAsync` once it has handled lines `0 .. i - 1`
     * starting from the LED state `l0`: one pause per line, and unless a reset was seen, the
     * LEDs as those lines left them.
     */
    ghost predicate Reached(lines: seq<string>, i: nat, t: seq<real>, resetAt: nat, l0: Lamps)
      reads this
    {
      && i <= |lines| && i <= resetAt + 1
      && t == Delays(parseFloat, lines[..i])
      && (isExecuting <==> i <= resetAt)
      && lamps == if isExecuting then LedRun(parseInt, parseFloat, l0, lines[..i]) else ALL_OFF
    }

    /** One turn of the `for` loop: line `i` is applied and its pause taken. */
    method Advance(lines: seq<string>, i: nat, t: seq<real>, resetAt: nat, ghost l0: Lamps) returns (t': seq<real>)
      requires i < |lines| && isExecuting && Reached(lines, i, t, resetAt, l0)
      modifies this
      ensures Reached(lines, i + 1, t', resetAt, l0)
    {
      ghost var before := lamps;
      LedRunNext(parseInt, parseFloat, l0, lines, i);
      t' := DispatchLine(lines[i], t, resetAt);
      ApplyLineDelay(parseInt, parseFloat, before, lines[i]);
      DelaysNext(parseFloat, lines, i);
    }

    /**
     * `runCommandsAsync`: ignored while a run is in progress or when the script is blank;
     * otherwise the lines are applied to the LEDs as they are (nothing is reset first), each
     * followed by its pause, until the end or until a reset is seen.
     */
    method Run(script: string, resetAt: nat) returns (trace: seq<real>)
      modifies this
      ensures old(isExecuting) || AllSpace(script) ==> trace == [] && unchanged(this)
      ensures !old(isExecuting) && !AllSpace(script) ==>
                var lines := SplitLines(script);
                var ran := lines[..Min(resetAt + 1, |lines|)];
                && trace == Delays(parseFloat, ran)
                && lamps == (if resetAt < |lines| then ALL_OFF else LedRun(parseInt, parseFloat, old(lamps), lines))
                && !isExecuting
    {
      if isExecuting {
        return [];
      }
      if Trim(script) == [] {
        return [];
      }
      isExecuting := true;
      var lines := SplitLines(script);
      trace := [];
      var i := 0;
      while i < |lines| && isExecuting
        invariant Reached(lines, i, trace, resetAt, old(lamps))
      {
        trace := Advance(lines, i, trace, resetAt, old(lamps));
        i := i + 1;
      }
      if isExecuting {
        assert lines[..i] == lines;
        isExecuting := false;
      }
      assert lines[..Min(resetAt + 1, |lines|)] == lines[..i];
    }
  }
}
