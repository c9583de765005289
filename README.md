# Turtle and LED command interpreters

Three small browser pages share one interpreter for a line-oriented command language:

- **TartarugaWeb**: a turtle on an 8×8 board obeys `ANDA`, `TRAS`/`TRÁS`, `DIREITA` and `ESQUERDA`.
- **JogoTartaruga**: the same turtle, plus a game. An apple is placed on a random cell, and the run is
  won when the turtle ends on it.
- **LigaLED**: three LEDs obey `ACIONAR id a`, `LIMPAR` and `ESPERAR s`.

Each page keeps its state in module-level variables and runs a script with an `async` loop. The loop
trims, upper-cases and splits every line, dispatches it, waits a pacing delay and checks an
`isExecuting` flag that the reset button clears.

The model has these modules:

- `Text`: JavaScript's `trim`, `toUpperCase`, `split(/\s+/)` and `split('\n')` on `seq<char>`. It proves
  that splitting and joining are inverse.
- `Script`: one line as the loop sees it. A line is blank, or a command word with its operands.
- `Turtle`: the pose logic shared by both turtle pages. `Move` and `Rotate` model `moveTurtle` and
  `rotateTurtle`. `Step` dispatches one line, and `Exec` runs a list of lines up to the first failing
  move. `Exec` is the specification function the run loops are proved against.
- `TurtleBoard.Board` and `TurtleGame.Game`: classes whose fields are the pages' variables. Their
  methods mirror the source functions, and their `Run` methods keep the source's `for` loop with its
  `break`s.
- `LedPanel`: the LEDs as three booleans. The `Panel` class holds the run loop, which is proved
  against the fold `LedRun` and the delay list `Delays`.
- `TurtleExamples`: two scripts worked through the model.
- `JsNumber` and `BoundsCheck`: JavaScript numbers with infinities and `NaN`, and the bounds check
  of `moveTurtle` over them, as written and as intended.

Some behaviour outside the program is supplied as inputs:

- **Trigonometry.** `Math.cos`/`Math.sin` are a displacement function of heading and distance.
- **Number parsing.** `parseFloat`/`parseInt` are functions to `Option`, where `None` stands for
  `NaN`. This lets the code's `|| 0` and `isNaN` handling be written exactly.
- **Randomness.** `Math.random` is a sequence of draws.
- **Timing.** Each `await delay(ms)` appends `ms` to a returned trace. The input `resetAt` names the
  pause during which the reset button handler (`fullReset`) runs, so a run can be cancelled at any
  pause. A `resetAt` beyond the last pause means no reset happens.

In the code, `ANDA`, `DIREITA 90`, `ANDA 1` from (0, 0, 90°) ends at (0, 1, 180°)
(`TurtleExamples.TurnThenMove`).

The bounds check of `moveTurtle` is also modelled over JavaScript numbers, with infinities and
`NaN`, in `JsNumber` and `BoundsCheck`; see "## Findings".

## Model

| member | source | states |
|---|---|---|
| Text.IsSpace | TartarugaWeb/script.js:129 | the white space of `trim` and `\s`: the six ASCII controls and space, U+00A0, U+1680, U+2000-U+200A, U+2028, U+2029, U+202F, U+205F, U+3000 and U+FEFF |
| Text.TrimStart | TartarugaWeb/script.js:129 | the leading part of `trim`: never longer than the input, and the result is empty or starts with a non-space |
| Text.TrimEnd | TartarugaWeb/script.js:129 | the trailing part of `trim`: never longer than the input, and the result is empty or ends with a non-space |
| Text.TrimStartDrops | TartarugaWeb/script.js:129 | what leading trimming removes is all white space, and the rest is a suffix of the input |
| Text.TrimEndDrops | TartarugaWeb/script.js:129 | what trailing trimming removes is all white space, and the rest is a prefix of the input |
| Text.Trim | TartarugaWeb/script.js:129 | `trim` leaves no white space at either end, and is empty exactly when the line is white space only; `TrimDrops` shows it is the part of the line between its leading and trailing white space |
| Text.TrimDrops | TartarugaWeb/script.js:129 | `trim` returns the part of the line between a leading and a trailing run of white space |
| Text.TrimOfTrimmed | TartarugaWeb/script.js:129 | trimming a string with no white space at its ends returns it unchanged, so `trim` is idempotent |
| Text.UpperChar | TartarugaWeb/script.js:129 | `toUpperCase` of one character: a-z and the Latin-1 small letters U+00E0-U+00FE other than U+00F7 move up by 0x20, every other character is kept (`UpperCharKeepsSpace`, `UpperIdempotent`) |
| Text.Upper | TartarugaWeb/script.js:129 | `toUpperCase` maps each character on its own and keeps the length |
| Text.UpperCharKeepsSpace | TartarugaWeb/script.js:129 | upper-casing never makes or removes white space |
| Text.UpperIdempotent | TartarugaWeb/script.js:129 | upper-casing twice is the same as once |
| Text.UpperAppend | TartarugaWeb/script.js:129 | upper-casing distributes over concatenation |
| Text.RunLength | TartarugaWeb/script.js:136 | the length of the leading run of non-space characters, which ends at white space or the end |
| Text.Words | TartarugaWeb/script.js:136 | `split(/\s+/)` of a trimmed line gives non-empty words without white space; `WordsRuns` and `WordsDropSpaces` show it splits at every run of white space and drops the runs |
| Text.WordsDropSpaces | TartarugaWeb/script.js:136 | white space before the first word does not change the split |
| Text.WordsRuns | TartarugaWeb/script.js:136 | a word followed by a run of white space of any length comes out as one word, and the run is dropped |
| Text.WordsFirst | TartarugaWeb/script.js:136 | a word followed by white space or nothing is the first part of the split |
| Text.RunLengthOf | TartarugaWeb/script.js:136 | the leading run of a word followed by white space is exactly that word |
| Text.WordsUnwords | TartarugaWeb/script.js:136 | splitting words joined by single spaces gives the words back |
| Text.UnwordsEnds | TartarugaWeb/script.js:136 | words joined by spaces have no white space at either end |
| Text.WordsOfUnspaced | TartarugaWeb/script.js:136 | the first part of a split line is its leading run of non-space characters |
| Text.LineEnd | TartarugaWeb/script.js:104 | the index of the first newline, or the length when there is none |
| Text.SplitLines | TartarugaWeb/script.js:104 | `split('\n')` gives at least one line, and no line holds a newline |
| Text.JoinSplitLines | TartarugaWeb/script.js:104 | joining the split lines with newlines gives the script back |
| Text.SplitJoinLines | TartarugaWeb/script.js:104 | splitting newline-free lines joined by newlines gives the lines back |
| Text.LineEndOf | TartarugaWeb/script.js:104 | the first newline after a newline-free line is right after it |
| Script.ParseLine | TartarugaWeb/script.js:129-137 | a line is blank exactly when it is white space only, and otherwise its command and operands are words |
| Script.Operand | LigaLED/script.js:139-140 | a missing operand reads as `NaN`, and a present one is what the parser makes of it |
| Script.OperandOrZero | TartarugaWeb/script.js:138 | the operand default of `parseFloat`: the parsed number, or 0 when the operand is missing or not a number |
| Script.UpperUnwords | TartarugaWeb/script.js:129 | upper-case words joined by spaces stay as they are under `toUpperCase` |
| Script.ParseUnwords | TartarugaWeb/script.js:129-137 | a line of upper-case words separated by single spaces parses to its first word and the rest |
| Script.TrimStartUpper | TartarugaWeb/script.js:129 | trimming the start and upper-casing commute |
| Script.TrimEndUpper | TartarugaWeb/script.js:129 | trimming the end and upper-casing commute |
| Script.ParseLineIgnoresCase | TartarugaWeb/script.js:129 | a script line parses the same whatever its letter case |
| Turtle.Move | TartarugaWeb/script.js:36-64 | a candidate outside [-0.001, 7.001]² is refused and the pose kept; otherwise the position moves by exactly the displacement and the heading is kept; a pose on the board stays on it |
| Turtle.Rotate | TartarugaWeb/script.js:66-68 | the heading grows by the degrees given, with no wrapping, and the position is untouched |
| Turtle.RotateBack | JogoTartaruga/script.js:62-64 | turning by d and then by -d restores the pose |
| Turtle.Decode | TartarugaWeb/script.js:138-161 | the `switch` on the command word with the operand parsed by `parseFloat`, or 0 when that gives NaN or nothing; `DecodeTable` and `DecodeKinds` state it case by case |
| Turtle.Perform | TartarugaWeb/script.js:140-178 | only a move can fail; every outcome other than an action keeps the pose; blank means pause and unknown means ignored; the board is never left |
| Turtle.StepKeepsPose | TartarugaWeb/script.js:162-175 | a blank line, an unknown word or a failed move leaves the pose, and no line leaves the board |
| Turtle.Step | TartarugaWeb/script.js:129-168 | one loop body on the pose: parse, decode and perform the line; `StepKeepsPose`, `StepBlank` and `StepFailsOnlyMoving` state what it does |
| Turtle.LinePause | TartarugaWeb/script.js:170-178 | the pause after a line that did not fail: 100 ms for blank, 200 for an unknown word, 600 otherwise (`StepPause`, `TurtlePauses`) |
| Turtle.DecodeKinds | TartarugaWeb/script.js:132-161 | only a blank line decodes to nothing; only `ANDA` moves forward; only `TRAS`/`TRÁS` move back |
| Turtle.StepBlank | TartarugaWeb/script.js:132-178 | a line gets the blank pause exactly when it is white space only |
| Turtle.StepPause | TartarugaWeb/script.js:170-178 | a line that does not fail gets a pause decided by its text alone |
| Turtle.StepFailsOnlyMoving | TartarugaWeb/script.js:143-152 | a failing line is an `ANDA`, `TRAS` or `TRÁS` command |
| Turtle.DecodeTable | TartarugaWeb/script.js:138-161 | `ANDA v` moves by v, `TRAS`/`TRÁS v` by -v, `DIREITA v` turns by v and `ESQUERDA v` by -v, with v the parsed operand or 0; other words do nothing |
| Turtle.Exec | TartarugaWeb/script.js:126-181 | one pause per dispatched line, at most one per line, one per line when nothing fails, and a failed run ends with the 1000 ms pause |
| Turtle.ExecAppend | TartarugaWeb/script.js:126-181 | running two scripts in turn is running them joined, unless the first fails |
| Turtle.ExecSnoc | TartarugaWeb/script.js:126-181 | a run that has not failed extends by one line with that line's step and pause |
| Turtle.ExecNextLine | TartarugaWeb/script.js:126-181 | the same, stated for the lines up to index i |
| Turtle.ExecStopsAtFailure | TartarugaWeb/script.js:163-168 | once a prefix fails, no later line changes anything |
| Turtle.ExecFailure | TartarugaWeb/script.js:163-168 | a failed run stops at its first failing line, with the pose from before that line |
| Turtle.ExecPauses | TartarugaWeb/script.js:170-178 | every pause but a failure's is the one the line's text calls for |
| Turtle.ExecStaysOnBoard | TartarugaWeb/script.js:47-59 | a run whose every step keeps the turtle on the board keeps it there |
| Turtle.ExecWithoutFailingLines | TartarugaWeb/script.js:163-168 | a run of lines none of which can fail does not fail |
| Turtle.TurtlePauses | TartarugaWeb/script.js:170-178 | the turtle's pacing: 100 ms for blank lines, 200 for unknown words and 600 for commands |
| Turtle.TurtleStaysOnBoard | TartarugaWeb/script.js:47-59 | a script started on the board ends on the board |
| Turtle.TurningNeverFails | TartarugaWeb/script.js:153-160 | a script without `ANDA`, `TRAS` or `TRÁS` never stops early |
| Turtle.RunUntil | TartarugaWeb/script.js:124-168 | the run a reset during pause `resetAt` lets through: the lines before that pause, from (0, 0, 90), up to the first failure (`RunStops`) |
| Turtle.RunStops | TartarugaWeb/script.js:126-168 | the loop's three exits (end of script, reset seen, failure) all give the run up to that point |
| TurtleBoard.Board.constructor | TartarugaWeb/script.js:9-15 | the page loads with the turtle home at (0, 0, 90) and nothing running |
| TurtleBoard.Board.MoveTurtle | TartarugaWeb/script.js:36-64 | refuses an off-board candidate and keeps the pose, or commits the candidate |
| TurtleBoard.Board.RotateTurtle | TartarugaWeb/script.js:66-68 | adds the degrees to the heading |
| TurtleBoard.Board.ResetTurtle | TartarugaWeb/script.js:70-74 | puts the turtle at (0, 0, 90) from any pose |
| TurtleBoard.Board.FullReset | TartarugaWeb/script.js:76-82 | stops the run and puts the turtle home |
| TurtleBoard.Board.Pause | TartarugaWeb/script.js:121 | records the pause, and the reset happens during the pause named by `resetAt` |
| TurtleBoard.Board.Execute | TartarugaWeb/script.js:138-161 | the `switch` does what the dispatch table says, and reports failure and action as the specification step does |
| TurtleBoard.Board.DispatchLine | TartarugaWeb/script.js:129-178 | one loop body: the step of the line, its pause, and a reset during that pause |
| TurtleBoard.Board.Advance | TartarugaWeb/script.js:126-181 | one loop turn keeps the loop invariant: the trace and pose are those of the run so far, unless a reset was seen |
| TurtleBoard.Board.DispatchLines | TartarugaWeb/script.js:124-181 | the loop gives exactly the pauses and pose of the run up to the first failure or reset |
| TurtleBoard.Board.Run | TartarugaWeb/script.js:96-191 | ignored while running; otherwise starts from (0, 0, 90), gives 500, the loop's pauses and 1000, ends with the loop's pose unless reset, and always ends idle |
| TurtleGame.CellOf | JogoTartaruga/script.js:105-106 | `Math.floor(Math.random() * 8)` gives a cell on the grid |
| TurtleGame.FirstFree | JogoTartaruga/script.js:104-107 | the do-while stops at the first draw that is not the origin |
| TurtleGame.FirstFreeIsFirst | JogoTartaruga/script.js:104-107 | any draw off the origin with only origin draws before it is the one the retry loop keeps |
| TurtleGame.Hits | JogoTartaruga/script.js:129-132 | the win test without the square root: squared distance to the apple's cell below 0.25 (`DistanceBelowHalf`, `HitsOnGrid`) |
| TurtleGame.DistanceBelowHalf | JogoTartaruga/script.js:130-132 | a distance is below 0.5 exactly when its square is below 0.25 |
| TurtleGame.HitsOnGrid | JogoTartaruga/script.js:129-132 | a turtle on a whole-number position hits the apple exactly when it is on the apple's cell |
| TurtleGame.SquareOfWhole | JogoTartaruga/script.js:130-132 | a whole number's square is below 0.25 exactly when the number is 0 |
| TurtleGame.Game.Valid | JogoTartaruga/script.js:98-124 | between runs the turtle is on the board, no apple is out while idle, and while playing the apple is on a grid cell other than (0, 0) |
| TurtleGame.Game.constructor | JogoTartaruga/script.js:9-17 | the page loads idle, with the turtle home, no apple and nothing running |
| TurtleGame.Game.MoveTurtle | JogoTartaruga/script.js:42-60 | refuses an off-board candidate and keeps the pose, or commits the candidate |
| TurtleGame.Game.RotateTurtle | JogoTartaruga/script.js:62-64 | adds the degrees to the heading |
| TurtleGame.Game.ResetTurtle | JogoTartaruga/script.js:66-70 | puts the turtle at (0, 0, 90) from any pose |
| TurtleGame.Game.FullReset | JogoTartaruga/script.js:72-84 | idle, no apple at (-1, -1), turtle home and nothing running |
| TurtleGame.Game.StartGame | JogoTartaruga/script.js:98-107 | playing, with the apple on the first drawn grid cell other than (0, 0) |
| TurtleGame.Game.StopGame | JogoTartaruga/script.js:118-124 | idle, no apple, turtle home and nothing running |
| TurtleGame.Game.CheckWinCondition | JogoTartaruga/script.js:126-139 | nothing unless playing; otherwise won exactly when the squared distance to the apple is below 0.25, lost otherwise, and the game is stopped either way |
| TurtleGame.Game.Pause | JogoTartaruga/script.js:166 | records the pause, and the reset happens during the pause named by `resetAt` |
| TurtleGame.Game.Execute | JogoTartaruga/script.js:183-206 | the `switch` does what the dispatch table says |
| TurtleGame.Game.DispatchLine | JogoTartaruga/script.js:174-223 | one loop body: the step of the line, its pause, and a reset during that pause |
| TurtleGame.Game.Advance | JogoTartaruga/script.js:171-226 | one loop turn keeps the loop invariant, game state and apple included |
| TurtleGame.Game.DispatchLines | JogoTartaruga/script.js:169-226 | the loop gives exactly the pauses and pose of the run up to the first failure or reset |
| TurtleGame.Game.Finish | JogoTartaruga/script.js:228-244 | the closing 500 ms pause, then the win check only when playing with no failure, and the restore only when still running |
| TurtleGame.Game.Run | JogoTartaruga/script.js:142-245 | ignored while running; otherwise starts from (0, 0, 90), stops at the first failure, decides won or lost only for a game that did not fail or reset, and always ends idle with a valid board |
| LedPanel.Container | LigaLED/script.js:43-48 | an LED exists exactly for ids 1, 2 and 3 |
| LedPanel.ActiveClass | LigaLED/script.js:50-55 | a class name exists exactly for the ids that name an LED |
| LedPanel.ContainersDistinct | LigaLED/script.js:43-55 | different valid ids name different LEDs and classes |
| LedPanel.Switch | LigaLED/script.js:30-38 | the chosen LED is on exactly as asked, and the other two are kept |
| LedPanel.SwitchSame | LigaLED/script.js:30-38 | setting an LED to its own state changes nothing |
| LedPanel.Acionar | LigaLED/script.js:137-143 | `ACIONAR id a`: the LED is set only when both operands parse, a is 0 or 1 and id names an LED (`AcionarSets`, `AcionarInvalid`) |
| LedPanel.ApplyLine | LigaLED/script.js:124-163 | one loop body: the line's effect on the LEDs and its delay (`ApplyLineDelay`, `OnlyAcionarAndLimparChange`, `LimparClears`) |
| LedPanel.LineDelay | LigaLED/script.js:135-163 | 100 ms for a blank line, s×1000 for `ESPERAR s` with a number s, 500 otherwise (`ApplyLineDelay`) |
| LedPanel.ApplyLineDelay | LigaLED/script.js:135-163 | a line's delay depends on its text alone: 100 for blank, s×1000 for `ESPERAR s`, 500 otherwise |
| LedPanel.AcionarSets | LigaLED/script.js:137-143 | `ACIONAR id a` with a valid id and a in {0, 1} sets that LED on exactly when a is 1, keeping the others |
| LedPanel.AcionarInvalid | LigaLED/script.js:139-142 | `ACIONAR` with a non-number, an action outside {0, 1} or an unknown id changes nothing |
| LedPanel.OnlyAcionarAndLimparChange | LigaLED/script.js:137-158 | only `ACIONAR` and `LIMPAR` change the LEDs |
| LedPanel.LimparClears | LigaLED/script.js:156-158 | `LIMPAR` turns every LED off, from any state |
| LedPanel.LedRun | LigaLED/script.js:121-166 | the LEDs after the lines are applied in order (`LedRunAppend`, `LedRunSnoc`, `EndsWithLimpar`, `NoSwitchingKeeps`) |
| LedPanel.Delays | LigaLED/script.js:121-163 | one delay per line, each the one that line's text calls for |
| LedPanel.DelaysNext | LigaLED/script.js:121-163 | the delays for one more line are the old ones plus that line's |
| LedPanel.LedRunAppend | LigaLED/script.js:121-166 | the fold over two scripts in turn is the fold over them joined |
| LedPanel.LedRunSnoc | LigaLED/script.js:121-166 | one more line applies that line to the fold's result |
| LedPanel.LedRunNext | LigaLED/script.js:121-166 | the same, stated for the lines up to index i |
| LedPanel.EndsWithLimpar | LigaLED/script.js:156-158 | a script whose last line is `LIMPAR` leaves every LED off |
| LedPanel.NoSwitchingKeeps | LigaLED/script.js:137-158 | a script without `ACIONAR` or `LIMPAR` leaves the LEDs as they were |
| LedPanel.Panel.constructor | LigaLED/script.js:1-2 | the page loads with every LED off and nothing running |
| LedPanel.Panel.ToggleLed | LigaLED/script.js:21-41 | succeeds exactly for ids 1-3, then sets that LED; otherwise changes nothing |
| LedPanel.Panel.TurnOffAllLeds | LigaLED/script.js:57-61 | every LED off |
| LedPanel.Panel.FullReset | LigaLED/script.js:63-65 | every LED off and nothing running |
| LedPanel.Panel.Pause | LigaLED/script.js:160-162 | records the delay, and the reset happens during the pause named by `resetAt` |
| LedPanel.Panel.DispatchLine | LigaLED/script.js:124-163 | one loop body: the line's effect on the LEDs, its delay, and a reset during that delay |
| LedPanel.Panel.Advance | LigaLED/script.js:121-166 | one loop turn keeps the invariant: the delays so far, and the LEDs are the fold so far unless reset |
| LedPanel.Panel.Run | LigaLED/script.js:89-175 | ignored while running or for a blank script; otherwise the LEDs are the fold of every line over the state before the run (no reset first), or all off after a reset; always ends idle |
| JsNumber.Add | TartarugaWeb/script.js:47-48 | `+`: NaN when either side is NaN or the infinities are opposite, exact on finite numbers, finite only from finite numbers |
| JsNumber.Mul | TartarugaWeb/script.js:37-40 | `*`: NaN from NaN, exact on finite numbers, finite only from finite numbers |
| JsNumber.Less | TartarugaWeb/script.js:55 | `<`: false whenever either side is NaN, the order of the reals on finite numbers |
| JsNumber.OrZero | TartarugaWeb/script.js:138 | the `or 0` default: NaN and 0 give 0, every other number is kept, and the result is never NaN |
| JsNumber.AddMulCommute | TartarugaWeb/script.js:37-48 | `+` and `*` commute, NaN and the infinities included |
| JsNumber.LessOrder | TartarugaWeb/script.js:55 | `<` is a strict total order off NaN, and NaN is unordered with everything |
| BoundsCheck.Radians | TartarugaWeb/script.js:37 | the heading in radians is finite exactly when the heading is |
| BoundsCheck.RotateNum | TartarugaWeb/script.js:66-68 | turning keeps the position |
| BoundsCheck.MoveAsWritten | TartarugaWeb/script.js:36-64 | commits the candidate exactly when none of the four comparisons with the edges is true, and keeps the pose otherwise |
| BoundsCheck.MoveChecked | TartarugaWeb/script.js:36-64 | commits only a finite candidate inside [-0.001, 7.001]², keeps the pose otherwise, so a pose on the board stays on it |
| BoundsCheck.ChecksAgreeOnFinite | TartarugaWeb/script.js:55 | on finite numbers the written test refuses exactly what the intended one does not admit, and that is `Turtle.OnBoard` |
| BoundsCheck.AsWrittenDiffersOnlyOnNaN | TartarugaWeb/script.js:55 | the written and the intended move differ only on a candidate with a NaN coordinate |
| BoundsCheck.InfiniteHeadingEscapes | TartarugaWeb/script.js:36-64 | with a heading that is not finite, the move as written always succeeds and puts the turtle at (NaN, NaN), off the board |
| BoundsCheck.TurnByInfinityThenMove | TartarugaWeb/script.js:36-68 | `DIREITA 1E400`, `ANDA 1` from (0, 0, 90): the heading is Infinity and the move as written leaves the board, while the intended check refuses it |
| BoundsCheck.MoveIsChecked | TartarugaWeb/script.js:36-64 | on finite numbers the intended check commits the same pose as `Turtle.Move`, or refuses as it does |
| TurtleExamples.CapitalsAreWords | TartarugaWeb/script.js:129 | a word of capital letters and digits is its own upper case and holds no white space |
| TurtleExamples.ParseTwoWords | TartarugaWeb/script.js:129-137 | a command and one operand separated by a space parse to that command and operand |
| TurtleExamples.ParseOneWord | TartarugaWeb/script.js:129-137 | a single upper-case word parses to a command with no operands |
| TurtleExamples.ParseBareMove | TartarugaWeb/script.js:129-137 | the line `ANDA` parses to `ANDA` with no operand |
| TurtleExamples.ParseTurn | TartarugaWeb/script.js:129-137 | the line `DIREITA 90` parses to `DIREITA` with operand `90` |
| TurtleExamples.ParseOneCell | TartarugaWeb/script.js:129-137 | the line `ANDA 1` parses to `ANDA` with operand `1` |
| TurtleExamples.ParseTenCells | TartarugaWeb/script.js:129-137 | the line `ANDA 10` parses to `ANDA` with operand `10` |
| TurtleExamples.StepBareMove | TartarugaWeb/script.js:138-147 | a bare `ANDA` moves by 0 and still counts as an action |
| TurtleExamples.StepTurn | TartarugaWeb/script.js:153-156 | `DIREITA 90` from (0, 0, 90) faces 180 |
| TurtleExamples.StepDown | TartarugaWeb/script.js:36-64 | `ANDA 1` facing 180 moves one cell down the board |
| TurtleExamples.StepOffBoard | TartarugaWeb/script.js:47-59 | `ANDA 10` from home would leave the board and fails |
| TurtleExamples.ExecActed | TartarugaWeb/script.js:170-173 | a first line that acts gives the 600 ms pause, and the rest runs from the new pose |
| TurtleExamples.DownOne | TartarugaWeb/script.js:126-181 | `ANDA 1` alone, facing 180 from the origin, ends at (0, 1) with one 600 ms pause |
| TurtleExamples.TurnThenDown | TartarugaWeb/script.js:126-181 | `DIREITA 90`, `ANDA 1` from home ends at (0, 1, 180) with two 600 ms pauses |
| TurtleExamples.TurnThenMove | TartarugaWeb/script.js:126-181 | any script whose lines read `ANDA`, `DIREITA 90`, `ANDA 1` ends at (0, 1, 180) with three 600 ms pauses |
| TurtleExamples.MoveOffBoard | TartarugaWeb/script.js:163-168 | a script whose first line reads `ANDA 10` stops on that line with the turtle home, whatever follows |

## Left out

- DOM and canvas work is not modelled. This covers drawing the board, positioning the turtle and
  apple elements, building and highlighting the execution view, scrolling, and button labels and
  enabled states. None of it affects the interpreter's state. The garbled button label at
  LigaLED/script.js:78 goes with it.
- `alert` calls are not modelled. The game's win and loss messages are returned as a `Verdict`
  instead.
- `Math.cos`, `Math.sin`, `Math.sqrt` and `Math.pow` are not computed in floating point. The
  displacement is a function given to each turtle class, so every move property holds for any
  displacement. The win test is stated on the squared distance, over reals: squared distance below
  0.25. `TurtleGame.DistanceBelowHalf` shows this is the same as the source's `dist < 0.5`.
- The exact grammar of `parseFloat` and `parseInt` is not modelled. Each is a function to `Option`
  given to the class. Only the code's handling of their results is modelled: `|| 0` (which also maps
  a parsed 0 to 0) and the `isNaN` checks.
- `toUpperCase` is modelled for ASCII and for the Latin-1 small letters whose capital is also in
  Latin-1. So ÿ (capital U+0178) and µ (capital U+039C) are left unchanged, as are other scripts'
  letters and mappings that change a string's length.
- Characters outside Latin-1 whose capital is ASCII, such as ı (to I) and ſ (to S), are not
  upper-cased. A line `dıreıta 90` is an unknown word in the model but turns the turtle in the page.
- Turtle.Move: positions and headings are exact reals, not doubles. Two consequences follow. A
  heading that becomes infinite (`DIREITA 1E400`, since `parseFloat` gives Infinity) makes the next
  move commit (NaN, NaN) in the page, which the real-number model cannot express; `BoundsCheck`
  models it (see "## Findings"). And rounding is not modelled.
- Turtle.RotateBack: holds over reals only. In doubles, `DIREITA 1E17` then `ESQUERDA 1E17` from
  90° ends at 96°, because 90 + 1E17 rounds.
- Turtle.Perform: "the board is never left" holds over reals only; in the page an infinite heading
  lets a move leave the board with a NaN position (see "## Findings").
- Turtle.StepKeepsPose: "no line leaves the board" holds over reals only, for the same reason.
- Turtle.TurtleStaysOnBoard: holds over reals only, for the same reason.
- TurtleGame.Game.Run: the board part of `Valid` holds over reals only, for the same reason.
- `JsNumber` models the non-finite values and `NaN` but computes finite results exactly, so
  overflow to Infinity from finite operands is not modelled.
- `Math.random` is a sequence of draws in [0, 1)². `TurtleGame.Game.StartGame` requires some draw
  to land off the origin, since the source's retry loop would otherwise not end.
- Real asynchrony is not modelled. A reset is modelled only as happening during a pause, which is
  the only place the page can take a click. Two runs that overlap are not modelled either: a second
  run request while one is running is the ignored call.
- In all three pages the reset button is disabled during a run (TartarugaWeb/script.js:101,
  JogoTartaruga/script.js:147, LigaLED/script.js:85 through `disableControls` at line 96), and in the
  game the play button too.
  The model still lets a reset arrive during any pause: this is the cancellation the loops check
  for, and it is the worst case.
- `setTimeout` treats a negative delay as 0. `LedPanel.Delays` records the delay the code computes,
  such as s×1000 for a negative s, not the clamped wait.
- The parts of `fullReset` that clear the input box and restore the views are left out. So are
  `startGame`'s clearing of the input, and `init`.
- In TartarugaWeb the `errorOccurred` flag is set but never read. It is returned by the loop methods
  but affects nothing.

## Findings

| source | as written | input that shows it | evidently intended | confidence | as-written member | corrected member |
|---|---|---|---|---|---|---|
| TartarugaWeb/script.js:55 | the move is refused only when a comparison with an edge is true, and every comparison with NaN is false, so a NaN candidate is committed | `DIREITA 1E400` then `ANDA 1`: the heading is Infinity, `Math.cos` and `Math.sin` give NaN, and the turtle is placed at (NaN, NaN) | commit only a candidate whose coordinates are numbers inside [-0.001, 7.001] | high; not executed | BoundsCheck.TurnByInfinityThenMove | BoundsCheck.MoveChecked |
| JogoTartaruga/script.js:52 | the same negative test as the other turtle page | `DIREITA 1E400` then `ANDA 1`, as above | the same positive test | high; not executed | BoundsCheck.InfiniteHeadingEscapes | BoundsCheck.MoveChecked |
