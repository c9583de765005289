/**
 * What every page does to one line of the script before dispatching it:
 * `lines[i].trim().toUpperCase()`, then, for a non-blank line, `split(/\s+/)` into the
 * command word and its operands. Number parsing is left to the JavaScript runtime and is
 * taken here as a given function.
 */
module Script {
  import opened Wrappers
  import opened Text

  /** JavaScript's `parseFloat` on one token; `None` is `NaN`. */
  type FloatParser = string -> Option<real>

  /** JavaScript's `parseInt` on one token; `None` is `NaN`. */
  type IntParser = string -> Option<int>

  /** A line after trimming and upper-casing: blank, or a command word with its operands. */
  datatype Line = Blank | Instr(cmd: string, operands: seq<string>)

  function ParseLine(raw: string): (line: Line)
    ensures line.Blank? <==> AllSpace(raw)
    ensures line.Instr? ==> IsWord(line.cmd) && forall i :: 0 <= i < |line.operands| ==> IsWord(line.operands[i])
  {
    var trimmed := Trim(raw);
    var text := Upper(trimmed);
    if text == [] then Blank
    else
      UpperCharKeepsSpace(trimmed[0]);
      WordsOfUnspaced(text);
      var parts := Words(text);
      Instr(parts[0], parts[1..])
  }

  /** `parts[k + 1]` handed to a parser: a missing token (`undefined`) parses as `NaN`. */
  function Operand<T>(parse: string -> Option<T>, operands: seq<string>, k: nat): (v: Option<T>)
    ensures k >= |operands| ==> v == None
    ensures k < |operands| ==> v == parse(operands[k])
  {
    if k < |operands| then parse(operands[k]) else None
  }

  /** `parseFloat(parts[1]) || 0`: a missing or unparsable operand counts as zero. */
  function OperandOrZero(parse: FloatParser, operands: seq<string>): (v: real)
    ensures |operands| == 0 || parse(operands[0]) == None ==> v == 0.0
    ensures |operands| > 0 && parse(operands[0]).Some? ==> v == parse(operands[0]).value
  {
    match Operand(parse, operands, 0)
    case Some(x) => x
    case None => 0.0
  }

  // ---------------------------------------------------------------- properties

  lemma {:induction false} UpperUnwords(ws: seq<string>)
    requires forall i :: 0 <= i < |ws| ==> Upper(ws[i]) == ws[i]
    ensures Upper(Unwords(ws)) == Unwords(ws)
    decreases |ws|
  {
    if |ws| > 1 {
      UpperUnwords(ws[1..]);
      UpperAppend(ws[0], " " + Unwords(ws[1..]));
      UpperAppend(" ", Unwords(ws[1..]));
      assert ws[0] + " " + Unwords(ws[1..]) == ws[0] + (" " + Unwords(ws[1..]));
    }
  }

  /**
   * A line made of upper-case words separated by single spaces parses into exactly those words:
   * the first is the command, the rest are its operands.
   */
  lemma ParseUnwords(ws: seq<string>)
    requires ws != []
    requires forall i :: 0 <= i < |ws| ==> IsWord(ws[i]) && Upper(ws[i]) == ws[i]
    ensures ParseLine(Unwords(ws)) == Instr(ws[0], ws[1..])
  {
    UnwordsEnds(ws);
    TrimOfTrimmed(Unwords(ws));
    UpperUnwords(ws);
    WordsUnwords(ws);
  }

  lemma {:induction false} TrimStartUpper(s: string)
    ensures TrimStart(Upper(s)) == Upper(TrimStart(s))
    decreases |s|
  {
    if s != [] {
      UpperCharKeepsSpace(s[0]);
      if IsSpace(s[0]) {
        assert Upper(s)[1..] == Upper(s[1..]);
        TrimStartUpper(s[1..]);
      }
    }
  }

  lemma {:induction false} TrimEndUpper(s: string)
    ensures TrimEnd(Upper(s)) == Upper(TrimEnd(s))
    decreases |s|
  {
    if s != [] {
      UpperCharKeepsSpace(s[|s| - 1]);
      if IsSpace(s[|s| - 1]) {
        assert Upper(s)[..|s| - 1] == Upper(s[..|s| - 1]);
        TrimEndUpper(s[..|s| - 1]);
      }
    }
  }

  /** Command words are case-insensitive: a line and its upper-cased form parse the same. */
  lemma ParseLineIgnoresCase(raw: string)
    ensures ParseLine(Upper(raw)) == ParseLine(raw)
  {
    TrimStartUpper(raw);
    TrimEndUpper(TrimStart(raw));
    UpperIdempotent(Trim(raw));
  }
}
