/**
 * The program grid and the lexer's decision for one cell. The grid is the
 * list of rows `str.split('\n')` gives, read as `program[y][x]` with Python's
 * index rules; the decision is the body of `Lexer.tokens` and `Lexer.string`.
 */
module Scanning {
  import opened PyOps
  import opened Commands

  type Grid = seq<seq<CodePoint>>

  /**
   * Where `program[y][x]` reads: the (row, column) Python's index rules
   * resolve y and x to, or None where Python raises IndexError.
   */
  function Locate(program: Grid, x: int, y: int): (r: Option<(nat, nat)>)
    ensures r.Some? <==>
      -|program| <= y < |program| && -|program[PyIndex(y, |program|).value]| <= x < |program[PyIndex(y, |program|).value]|
    ensures r.Some? ==> r.value.0 < |program| && r.value.1 < |program[r.value.0]|
    ensures r.Some? ==> r.value.0 == PyIndex(y, |program|).value && r.value.1 == PyIndex(x, |program[r.value.0]|).value
  {
    match PyIndex(y, |program|)
    case None => None
    case Some(row) =>
      match PyIndex(x, |program[row]|)
      case None => None
      case Some(col) => Some((row, col))
  }

  /** `program[y][x]`, or None where Python raises IndexError. */
  function Cell(program: Grid, x: int, y: int): (r: Option<CodePoint>)
    ensures r.Some? <==> Locate(program, x, y).Some?
    ensures r.Some? ==> var (row, col) := Locate(program, x, y).value; r.value == program[row][col]
  {
    match Locate(program, x, y)
    case None => None
    case Some((row, col)) => Some(program[row][col])
  }

  /** `program[y][x] = c` on a grid of mutable rows, or None where Python raises IndexError. */
  function SetCell(program: Grid, x: int, y: int, c: CodePoint): (r: Option<Grid>)
    ensures r.Some? <==> Locate(program, x, y).Some?
  {
    match Locate(program, x, y)
    case None => None
    case Some((row, col)) =>
      var updated: seq<CodePoint> := program[row][col := c];
      Some(program[row := updated])
  }

  /**
   * A write reads back, keeps the grid's shape (so every coordinate resolves
   * as before), and leaves every other cell as it was.
   */
  lemma SetThenCell(program: Grid, x: int, y: int, c: CodePoint, x': int, y': int)
    requires SetCell(program, x, y, c).Some?
    ensures var p := SetCell(program, x, y, c).value;
      && Cell(p, x, y) == Some(c)
      && Locate(p, x', y') == Locate(program, x', y')
      && (Locate(program, x', y') != Locate(program, x, y) ==> Cell(p, x', y') == Cell(program, x', y'))
  {
    var p := SetCell(program, x, y, c).value;
    var (row, col) := Locate(program, x, y).value;
    assert |p| == |program|;
    assert forall k :: 0 <= k < |p| ==> |p[k]| == |program[k]|;
  }

  /** The lexer's tokens (`DigitToken`, `StringToken`, `CommandToken`, `EofToken`). */
  datatype Token =
    | Digit(n: nat)
    | StringChar(c: CodePoint)
    | CommandChar(c: CodePoint)
    | Eof

  /**
   * What the lexer makes of one cell: a token, a quote that opens or closes
   * string mode and yields nothing, or a SyntaxError.
   */
  datatype Scanned = Emit(token: Token) | QuoteMark | Failed(exc: Exception)

  /** Lines 94-107 outside string mode, lines 83-87 inside it. */
  function Classify(cell: Option<CodePoint>, inString: bool): Scanned {
    match cell
    case None => if inString then Failed(EndedInStringMode) else Emit(Eof)
    case Some(c) =>
      if inString then (if c == Quote then QuoteMark else Emit(StringChar(c)))
      else if IsDigit(c) then Emit(Digit(c - Zero))
      else if c == Quote then QuoteMark
      else if Lookup(c).Some? then Emit(CommandChar(c))
      else Failed(IllegalCharacter(c))
  }

  /**
   * Outside string mode a cell is a digit 0..9, a quote, a table command, or
   * an illegal character; the end token comes exactly from a missing cell.
   * Inside string mode every character but the quote is taken literally.
   * Read both ways: each kind of cell yields its own token and only that.
   */
  lemma ClassifyCases(cell: Option<CodePoint>, inString: bool)
    ensures var s := Classify(cell, inString);
      && (s == Emit(Eof) <==> cell.None? && !inString)
      && (s == Failed(EndedInStringMode) <==> cell.None? && inString)
      && (s.QuoteMark? <==> cell == Some(Quote))
      && (s.Emit? && s.token.Digit? ==> !inString && s.token.n <= 9 && cell == Some(Zero + s.token.n))
      && (s.Emit? && s.token.StringChar? ==> inString && cell == Some(s.token.c) && s.token.c != Quote)
      && (s.Emit? && s.token.CommandChar? ==> !inString && cell == Some(s.token.c) && Lookup(s.token.c).Some?)
      && (s.Failed? && s.exc.IllegalCharacter? ==>
            !inString && cell == Some(s.exc.c) && !IsDigit(s.exc.c) && s.exc.c != Quote && Lookup(s.exc.c).None?)
    ensures cell.Some? && inString && cell.value != Quote ==> Classify(cell, inString) == Emit(StringChar(cell.value))
    ensures cell.Some? && !inString && IsDigit(cell.value) ==> Classify(cell, inString) == Emit(Digit(cell.value - Zero))
    ensures cell.Some? && !inString && !IsDigit(cell.value) && cell.value != Quote ==>
      Classify(cell, inString) == (if Lookup(cell.value).Some? then Emit(CommandChar(cell.value))
                                   else Failed(IllegalCharacter(cell.value)))
  {
  }

  /** Every command token names a table entry, so get_command's no-op fallback is never taken. */
  lemma CommandTokensAreKeys(cell: Option<CodePoint>, inString: bool)
    requires Classify(cell, inString).Emit? && Classify(cell, inString).token.CommandChar?
    ensures Some(GetCommand(Classify(cell, inString).token.c)) == Lookup(Classify(cell, inString).token.c)
  {
  }
}
