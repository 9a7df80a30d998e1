/**
 * The `Lexer` object: the program rows, the cursor (xpos, ypos) and the
 * direction (dx, dy), all updated in place. Its generators `tokens` and
 * `string` become `Scan`, which classifies the current cell, plus the
 * `inString` flag that records which of the two generators is running.
 */
module Lexing {
  import opened PyOps
  import opened Commands
  import opened Scanning

  class Lexer {
    var program: Grid
    var xpos: int
    var ypos: int
    var dx: int
    var dy: int
    var inString: bool

    /** The direction is always one of the four unit steps. */
    ghost predicate Valid()
      reads this
    {
      Cardinal(dx, dy)
    }

    /** A lexer with no program yet, at (0, 0) heading right (the class attributes). */
    constructor ()
      ensures Valid()
      ensures program == [] && xpos == 0 && ypos == 0 && dx == 1 && dy == 0 && !inString
    {
      program, xpos, ypos, dx, dy, inString := [], 0, 0, 1, 0, false;
    }

    /** `read(str)`: the program becomes the text's lines; the cursor stays where it is. */
    method Read(text: seq<CodePoint>)
      modifies this`program
      ensures program == SplitLines(text)
      ensures |program| >= 1 && JoinLines(program) == text
      ensures forall row :: row in program ==> Newline !in row
    {
      program := SplitLines(text);
      JoinSplit(text);
    }

    /** `advance()`: one step along the current direction. */
    method Advance()
      modifies this`xpos, this`ypos
      ensures xpos == old(xpos) + dx && ypos == old(ypos) + dy
    {
      xpos := xpos + dx;
      ypos := ypos + dy;
    }

    /** `program[y][x]`, None standing for the IndexError Python raises. */
    method At(x: int, y: int) returns (c: Option<CodePoint>)
      ensures c == Cell(program, x, y)
    {
      var row := PyIndex(y, |program|);
      if row.None? {
        return None;
      }
      var col := PyIndex(x, |program[row.value]|);
      if col.None? {
        return None;
      }
      c := Some(program[row.value][col.value]);
    }

    /** `current_character`. */
    method CurrentCharacter() returns (c: Option<CodePoint>)
      ensures c == Cell(program, xpos, ypos)
    {
      c := At(xpos, ypos);
    }

    /**
     * One pass of the loop body of `tokens` (lines 95-107) or of `string`
     * (lines 83-87): what the current cell yields, before any advance.
     */
    method Scan() returns (s: Scanned)
      ensures s == Classify(Cell(program, xpos, ypos), inString)
    {
      var c := CurrentCharacter();
      if c.None? {
        s := if inString then Failed(EndedInStringMode) else Emit(Eof);
      } else if inString {
        s := if c.value == Quote then QuoteMark else Emit(StringChar(c.value));
      } else if IsDigit(c.value) {
        s := Emit(Digit(c.value - Zero));
      } else if c.value == Quote {
        s := QuoteMark;
      } else if Lookup(c.value).Some? {
        s := Emit(CommandChar(c.value));
      } else {
        s := Failed(IllegalCharacter(c.value));
      }
    }
  }
}
