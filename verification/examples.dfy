/**
 * Whole runs of the model on concrete programs: the one-command program,
 * the digits-and-dots program of the commented test (line 486) and the
 * factorial program of the active test (lines 491-492). A run is
 * followed step by step; each step is one lemma about one command at a
 * symbolic position, and the loops of the factorial program are proved
 * once for every stack they can meet.
 */
module Examples {
  import opened PyOps
  import opened Commands
  import opened Scanning
  import opened Semantics

  // ---------------------------------------------------------------------
  // Following a run
  // ---------------------------------------------------------------------

  /** A run going on from m, whose step continues to next, is the run going on from next with one step spent. */
  lemma {:induction false} Go(m: Machine, next: Machine, fuel: nat, rest: nat)
    requires Step(m, 0) == Continue(next) && fuel == rest + 1
    ensures RunOutput(m, fuel) == RunOutput(next, rest)
  {
    RunTakesStep(m, fuel, []);
  }

  /** A run going on from m, whose step halts, returns the output joined, whatever fuel is left. */
  lemma {:induction false} Stop(m: Machine, fuel: nat)
    requires Step(m, 0) == Halt(m) && fuel >= 1
    ensures RunOutput(m, fuel) == Finished(Joined(m.output))
  {
    RunTakesStep(m, fuel, []);
  }

  /** Outside string mode, a cell holding a command's character executes it, then the cursor advances. */
  lemma {:induction false} CommandStep(m: Machine, cmd: Command, next: Machine)
    requires !m.inString && Cell(m.program, m.x, m.y) == Some(Lexeme(cmd) as int) && cmd != End
    requires Execute(cmd, m, 0) == Ok(next)
    ensures Step(m, 0) == Continue(next.Advanced())
  {
    var c: CodePoint := Lexeme(cmd) as int;
    TableInverse(cmd, c);
    if IsDigit(c) || c == Quote {
      TableAvoidsDigitsAndQuote(c);
    }
  }

  /** The state of a run outside string mode: grid, position, heading, stack and output. */
  function MachineAt(g: Grid, x: int, y: int, dir: Direction, data: seq<int>, out: seq<seq<CodePoint>>): Machine {
    Machine(g, x, y, dir.Dx(), dir.Dy(), false, data, out)
  }

  /** What a run going on from m returns with `fuel` steps left; these programs consult no random draw. */
  function RunOutput(m: Machine, fuel: nat): RunResult {
    Resume(Continue(m), fuel, [])
  }

  /** The cell at column x of row y exists and holds the character c. */
  predicate Holds(g: Grid, x: int, y: int, c: char) {
    0 <= y < |g| && 0 <= x < |g[y]| && g[y][x] == c as int
  }

  /** A cell inside the grid holds the element at that row and column. */
  lemma {:induction false} CellOf(g: Grid, x: int, y: int)
    requires 0 <= y < |g| && 0 <= x < |g[y]|
    ensures Cell(g, x, y) == Some(g[y][x])
  {
  }

  // ---------------------------------------------------------------------
  // One step per command, at any position, on any stack
  // ---------------------------------------------------------------------

  /** A digit n pushes n. */
  lemma {:induction false} DigitAt(g: Grid, x: int, y: int, dir: Direction, nx: int, ny: int, data: seq<int>, out: seq<seq<CodePoint>>, n: nat, fuel: nat, rest: nat)
    requires n <= 9 && Holds(g, x, y, (Zero + n) as char) && nx == x + dir.Dx() && ny == y + dir.Dy() && fuel == rest + 1
    ensures RunOutput(MachineAt(g, x, y, dir, data, out), fuel) == RunOutput(MachineAt(g, nx, ny, dir, data + [n], out), rest)
  {
    CellOf(g, x, y);
    var next := MachineAt(g, nx, ny, dir, data + [n], out);
    assert Step(MachineAt(g, x, y, dir, data, out), 0) == Continue(next);
    Go(MachineAt(g, x, y, dir, data, out), next, fuel, rest);
  }

  /** A space does nothing. */
  lemma {:induction false} BlankAt(g: Grid, x: int, y: int, dir: Direction, nx: int, ny: int, data: seq<int>, out: seq<seq<CodePoint>>, fuel: nat, rest: nat)
    requires Holds(g, x, y, ' ') && nx == x + dir.Dx() && ny == y + dir.Dy() && fuel == rest + 1
    ensures RunOutput(MachineAt(g, x, y, dir, data, out), fuel) == RunOutput(MachineAt(g, nx, ny, dir, data, out), rest)
  {
    CellOf(g, x, y);
    var m := MachineAt(g, x, y, dir, data, out);
    var next := MachineAt(g, nx, ny, dir, data, out);
    assert Step(m, 0) == Continue(next) by {
      CommandStep(m, Noop, m);
    }
    Go(m, next, fuel, rest);
  }

  /** An arrow turns the run to its heading. */
  lemma {:induction false} HeadAt(g: Grid, x: int, y: int, dir: Direction, to: Direction, nx: int, ny: int, data: seq<int>, out: seq<seq<CodePoint>>, fuel: nat, rest: nat)
    requires Holds(g, x, y, Lexeme(Head(to))) && nx == x + to.Dx() && ny == y + to.Dy() && fuel == rest + 1
    ensures RunOutput(MachineAt(g, x, y, dir, data, out), fuel) == RunOutput(MachineAt(g, nx, ny, to, data, out), rest)
  {
    CellOf(g, x, y);
    var m := MachineAt(g, x, y, dir, data, out);
    var next := MachineAt(g, nx, ny, to, data, out);
    assert Step(m, 0) == Continue(next) by {
      CommandStep(m, Head(to), MachineAt(g, x, y, to, data, out));
    }
    Go(m, next, fuel, rest);
  }

  /** `:` copies the top. */
  lemma {:induction false} DuplicateAt(g: Grid, x: int, y: int, dir: Direction, nx: int, ny: int, pre: seq<int>, v: int, out: seq<seq<CodePoint>>, fuel: nat, rest: nat)
    requires Holds(g, x, y, ':') && nx == x + dir.Dx() && ny == y + dir.Dy() && fuel == rest + 1
    ensures RunOutput(MachineAt(g, x, y, dir, pre + [v], out), fuel) == RunOutput(MachineAt(g, nx, ny, dir, pre + [v, v], out), rest)
  {
    CellOf(g, x, y);
    var m := MachineAt(g, x, y, dir, pre + [v], out);
    var next := MachineAt(g, nx, ny, dir, pre + [v, v], out);
    assert Step(m, 0) == Continue(next) by {
      assert pre + [v] + [v] == pre + [v, v];
      CommandStep(m, Duplicate, MachineAt(g, x, y, dir, pre + [v, v], out));
    }
    Go(m, next, fuel, rest);
  }

  /** `-` replaces b, a (a on top) with b - a. */
  lemma {:induction false} SubtractAt(g: Grid, x: int, y: int, dir: Direction, nx: int, ny: int, pre: seq<int>, b: int, a: int, out: seq<seq<CodePoint>>, fuel: nat, rest: nat)
    requires Holds(g, x, y, '-') && nx == x + dir.Dx() && ny == y + dir.Dy() && fuel == rest + 1
    ensures RunOutput(MachineAt(g, x, y, dir, pre + [b, a], out), fuel) == RunOutput(MachineAt(g, nx, ny, dir, pre + [b - a], out), rest)
  {
    CellOf(g, x, y);
    var m := MachineAt(g, x, y, dir, pre + [b, a], out);
    var next := MachineAt(g, nx, ny, dir, pre + [b - a], out);
    assert Step(m, 0) == Continue(next) by {
      assert Popped(pre + [b, a], 2) == pre;
      CommandStep(m, Binary(Subtract), MachineAt(g, x, y, dir, pre + [b - a], out));
    }
    Go(m, next, fuel, rest);
  }

  /** `*` replaces b, a with a * b. */
  lemma {:induction false} MultiplyAt(g: Grid, x: int, y: int, dir: Direction, nx: int, ny: int, pre: seq<int>, b: int, a: int, out: seq<seq<CodePoint>>, fuel: nat, rest: nat)
    requires Holds(g, x, y, '*') && nx == x + dir.Dx() && ny == y + dir.Dy() && fuel == rest + 1
    ensures RunOutput(MachineAt(g, x, y, dir, pre + [b, a], out), fuel) == RunOutput(MachineAt(g, nx, ny, dir, pre + [a * b], out), rest)
  {
    CellOf(g, x, y);
    var m := MachineAt(g, x, y, dir, pre + [b, a], out);
    var next := MachineAt(g, nx, ny, dir, pre + [a * b], out);
    assert Step(m, 0) == Continue(next) by {
      assert Popped(pre + [b, a], 2) == pre;
      CommandStep(m, Binary(Multiply), MachineAt(g, x, y, dir, pre + [a * b], out));
    }
    Go(m, next, fuel, rest);
  }

  /** `\` exchanges the top two. */
  lemma {:induction false} SwapAt(g: Grid, x: int, y: int, dir: Direction, nx: int, ny: int, pre: seq<int>, b: int, a: int, out: seq<seq<CodePoint>>, fuel: nat, rest: nat)
    requires Holds(g, x, y, '\\') && nx == x + dir.Dx() && ny == y + dir.Dy() && fuel == rest + 1
    ensures RunOutput(MachineAt(g, x, y, dir, pre + [b, a], out), fuel) == RunOutput(MachineAt(g, nx, ny, dir, pre + [a, b], out), rest)
  {
    CellOf(g, x, y);
    var m := MachineAt(g, x, y, dir, pre + [b, a], out);
    var next := MachineAt(g, nx, ny, dir, pre + [a, b], out);
    assert Step(m, 0) == Continue(next) by {
      assert Popped(pre + [b, a], 2) == pre;
      CommandStep(m, Swap, MachineAt(g, x, y, dir, pre + [a, b], out));
    }
    Go(m, next, fuel, rest);
  }

  /** `$` drops the top. */
  lemma {:induction false} DiscardAt(g: Grid, x: int, y: int, dir: Direction, nx: int, ny: int, pre: seq<int>, v: int, out: seq<seq<CodePoint>>, fuel: nat, rest: nat)
    requires Holds(g, x, y, '$') && nx == x + dir.Dx() && ny == y + dir.Dy() && fuel == rest + 1
    ensures RunOutput(MachineAt(g, x, y, dir, pre + [v], out), fuel) == RunOutput(MachineAt(g, nx, ny, dir, pre, out), rest)
  {
    CellOf(g, x, y);
    var m := MachineAt(g, x, y, dir, pre + [v], out);
    var next := MachineAt(g, nx, ny, dir, pre, out);
    assert Step(m, 0) == Continue(next) by {
      assert Popped(pre + [v], 1) == pre;
      CommandStep(m, Discard, MachineAt(g, x, y, dir, pre, out));
    }
    Go(m, next, fuel, rest);
  }

  /** `_` pops v and turns right on a zero, left otherwise. */
  lemma {:induction false} HorizontalAt(g: Grid, x: int, y: int, dir: Direction, to: Direction, nx: int, ny: int, pre: seq<int>, v: int, out: seq<seq<CodePoint>>, fuel: nat, rest: nat)
    requires Holds(g, x, y, '_') && to == (if v == 0 then Right else Left) && nx == x + to.Dx() && ny == y + to.Dy() && fuel == rest + 1
    ensures RunOutput(MachineAt(g, x, y, dir, pre + [v], out), fuel) == RunOutput(MachineAt(g, nx, ny, to, pre, out), rest)
  {
    CellOf(g, x, y);
    var m := MachineAt(g, x, y, dir, pre + [v], out);
    var next := MachineAt(g, nx, ny, to, pre, out);
    assert Step(m, 0) == Continue(next) by {
      assert Popped(pre + [v], 1) == pre;
      CommandStep(m, ChooseHorizontal, MachineAt(g, x, y, to, pre, out));
    }
    Go(m, next, fuel, rest);
  }

  /** `.` pops v and appends its decimal numeral to the output. */
  lemma {:induction false} PrintAt(g: Grid, x: int, y: int, dir: Direction, nx: int, ny: int, pre: seq<int>, v: int, out: seq<seq<CodePoint>>, fuel: nat, rest: nat)
    requires Holds(g, x, y, '.') && nx == x + dir.Dx() && ny == y + dir.Dy() && fuel == rest + 1
    ensures RunOutput(MachineAt(g, x, y, dir, pre + [v], out), fuel) == RunOutput(MachineAt(g, nx, ny, dir, pre, out + [FormatInt(v)]), rest)
  {
    CellOf(g, x, y);
    var m := MachineAt(g, x, y, dir, pre + [v], out);
    var next := MachineAt(g, nx, ny, dir, pre, out + [FormatInt(v)]);
    assert Step(m, 0) == Continue(next) by {
      assert Popped(pre + [v], 1) == pre;
      CommandStep(m, OutputInteger, MachineAt(g, x, y, dir, pre, out + [FormatInt(v)]));
    }
    Go(m, next, fuel, rest);
  }

  /** `@` ends the run with the output joined. */
  lemma {:induction false} EndAt(g: Grid, x: int, y: int, dir: Direction, data: seq<int>, out: seq<seq<CodePoint>>, fuel: nat)
    requires Holds(g, x, y, '@') && fuel >= 1
    ensures RunOutput(MachineAt(g, x, y, dir, data, out), fuel) == Finished(Joined(out))
  {
    CellOf(g, x, y);
    var m := MachineAt(g, x, y, dir, data, out);
    assert Step(m, 0) == Halt(m) by {
      TableInverse(End, Lexeme(End) as int);
    }
    Stop(m, fuel);
  }

  /** Leaving the grid ends the run with the output joined. */
  lemma {:induction false} OffGridAt(g: Grid, x: int, y: int, dir: Direction, data: seq<int>, out: seq<seq<CodePoint>>, fuel: nat)
    requires Cell(g, x, y) == None && fuel >= 1
    ensures RunOutput(MachineAt(g, x, y, dir, data, out), fuel) == Finished(Joined(out))
  {
    var m := MachineAt(g, x, y, dir, data, out);
    assert Step(m, 0) == Halt(m);
    Stop(m, fuel);
  }

  // ---------------------------------------------------------------------
  // "@" and "123..."
  // ---------------------------------------------------------------------

  /** `@` alone halts at once with no output. */
  lemma {:induction false} HaltsAtOnce(fuel: nat)
    ensures Interpretation(Codes("@"), fuel + 1, []) == Finished([])
  {
    var text := Codes("@");
    assert text == [64];
    SplitOneLine(text);
    var g := [text];
    assert Load(text) == MachineAt(g, 0, 0, Right, [], []);
    EndAt(g, 0, 0, Right, [], [], fuel + 1);
  }

  /** The values of a run of digit characters, first digit deepest on the stack. */
  function DigitValues(t: seq<CodePoint>): seq<int> {
    if t == [] then [] else DigitValues(t[..|t| - 1]) + [t[|t| - 1] - Zero]
  }

  /** The characters in reverse order. */
  function Reversed(t: seq<CodePoint>): seq<CodePoint> {
    if t == [] then [] else [t[|t| - 1]] + Reversed(t[..|t| - 1])
  }

  /** n dots. */
  function Dots(n: nat): seq<CodePoint> {
    seq(n, _ => '.' as int)
  }

  /** Digits in the cells k..n-1 of row y, read rightward, push their values in order. */
  lemma {:induction false} PushAll(g: Grid, y: int, k: nat, n: nat, data: seq<int>, out: seq<seq<CodePoint>>, fuel: nat)
    requires 0 <= y < |g| && k <= n <= |g[y]|
    requires forall i :: k <= i < n ==> IsDigit(g[y][i])
    ensures RunOutput(MachineAt(g, k, y, Right, data, out), fuel + (n - k)) ==
      RunOutput(MachineAt(g, n, y, Right, data + DigitValues(g[y][k..n]), out), fuel)
    decreases n
  {
    var row := g[y];
    if n == k {
      assert data + DigitValues(row[k..n]) == data;
    } else {
      PushAll(g, y, k, n - 1, data, out, fuel + 1);
      var d := row[n - 1] - Zero;
      assert IsDigit(row[n - 1]);
      assert Holds(g, n - 1, y, (Zero + d) as char);
      DigitAt(g, n - 1, y, Right, n, y, data + DigitValues(row[k..n - 1]), out, d, fuel + 1, fuel);
      assert row[k..n][..n - k - 1] == row[k..n - 1];
      assert data + DigitValues(row[k..n - 1]) + [d] == data + DigitValues(row[k..n]);
    }
  }

  /** A single digit prints as itself. */
  lemma DigitNumeral(c: CodePoint)
    requires IsDigit(c)
    ensures FormatInt(c - Zero) == [c]
  {
  }

  /**
   * With the values of the digits t on the stack and a dot in each of the
   * |t| cells from x rightward, after which the row ends, the run prints
   * the digits in reverse and stops.
   */
  lemma {:induction false} PrintAll(g: Grid, x: nat, y: int, t: seq<CodePoint>, out: seq<seq<CodePoint>>, fuel: nat)
    requires 0 <= y < |g| && x + |t| == |g[y]|
    requires forall i :: 0 <= i < |t| ==> IsDigit(t[i])
    requires forall i :: x <= i < |g[y]| ==> g[y][i] == '.' as int
    ensures RunOutput(MachineAt(g, x, y, Right, DigitValues(t), out), fuel + |t| + 1) == Finished(Joined(out) + Reversed(t))
    decreases |t|
  {
    if t == [] {
      assert Cell(g, x, y) == None;
      OffGridAt(g, x, y, Right, [], out, fuel + 1);
    } else {
      var front, last := t[..|t| - 1], t[|t| - 1];
      var piece := FormatInt(last - Zero);
      assert IsDigit(last);
      DigitNumeral(last);
      assert DigitValues(t) == DigitValues(front) + [last - Zero];
      assert Holds(g, x, y, '.');
      PrintAt(g, x, y, Right, x + 1, y, DigitValues(front), last - Zero, out, fuel + |t| + 1, fuel + |front| + 1);
      PrintAll(g, x + 1, y, front, out + [piece], fuel);
      assert Joined(out + [piece]) == Joined(out) + [last] by {
        assert (out + [piece])[..|out|] == out;
      }
      assert Reversed(t) == [last] + Reversed(front);
      assert Joined(out) + [last] + Reversed(front) == Joined(out) + Reversed(t);
    }
  }

  /**
   * A row of digits s followed by as many dots prints s reversed: each
   * digit is pushed, each dot prints the value on top, and stepping off the
   * end of the row ends the run.
   */
  lemma {:induction false} DigitsThenDots(s: seq<CodePoint>, fuel: nat)
    requires forall i :: 0 <= i < |s| ==> IsDigit(s[i])
    ensures Interpretation(s + Dots(|s|), fuel + 2 * |s| + 1, []) == Finished(Reversed(s))
  {
    var text := s + Dots(|s|);
    assert Newline !in text by {
      forall i | 0 <= i < |text| ensures text[i] != Newline {
        if i < |s| { assert IsDigit(s[i]); } else { assert text[i] == Dots(|s|)[i - |s|]; }
      }
    }
    SplitOneLine(text);
    var g := [text];
    assert Load(text) == MachineAt(g, 0, 0, Right, [], []);
    PushAll(g, 0, 0, |s|, [], [], fuel + |s| + 1);
    assert g[0][0..|s|] == s;
    assert [] + DigitValues(s) == DigitValues(s);
    PrintAll(g, |s|, 0, s, [], fuel);
  }

  /** "123...", the program of the commented-out test: the digits come out in reverse. */
  lemma {:induction false} DigitsPrintedInReverse(fuel: nat)
    ensures Interpretation(Codes("123..."), fuel + 7, []) == Finished(Codes("321"))
  {
    var s := Codes("123");
    assert s == [Zero + 1, Zero + 2, Zero + 3];
    assert Codes("123...") == s + Dots(3);
    DigitsThenDots(s, fuel);
    assert Reversed(s) == Codes("321") by {
      assert s[..2] == [Zero + 1, Zero + 2];
      assert Reversed([Zero + 1, Zero + 2]) == [Zero + 2] + Reversed([Zero + 1]) by {
        assert [Zero + 1, Zero + 2][..1] == [Zero + 1];
      }
      assert Reversed([Zero + 1]) == [Zero + 1] by {
        assert [Zero + 1][..0] == [];
      }
      assert Codes("321") == [Zero + 3, Zero + 2, Zero + 1];
    }
  }

  // ---------------------------------------------------------------------
  // The factorial program
  // ---------------------------------------------------------------------

  /** The two lines of the program of the test at lines 491-492: a count-down loop, then a product loop. */
  const UpperRow: string := "08>:1-:v v *_$.@ "
  const LowerRow: string := "  ^    _$>\\:^"
  const FactorialProgram: string := UpperRow + "\n" + LowerRow

  /** The code points of a concatenation are the concatenated code points. */
  lemma {:induction false} CodesAppend(a: string, b: string)
    ensures Codes(a + b) == Codes(a) + Codes(b)
  {
    assert forall i | 0 <= i < |a + b| :: Codes(a + b)[i] == (Codes(a) + Codes(b))[i];
  }

  /** A string without a line break has no line break among its code points. */
  lemma {:induction false} CodesWithoutNewline(a: string)
    requires '\n' !in a
    ensures Newline !in Codes(a)
  {
  }

  /** The grid the factorial program loads into: its two lines. */
  predicate FactorialGrid(g: Grid) {
    |g| == 2 && g[0] == Codes(UpperRow) && g[1] == Codes(LowerRow)
  }

  lemma {:induction false} FactorialLoads()
    ensures FactorialGrid(Load(Codes(FactorialProgram)).program)
  {
    CodesAppend(UpperRow + "\n", LowerRow);
    CodesAppend(UpperRow, "\n");
    assert Codes("\n") == [Newline];
    CodesWithoutNewline(UpperRow);
    CodesWithoutNewline(LowerRow);
    SplitAtNewline(Codes(UpperRow), Codes(LowerRow));
    SplitOneLine(Codes(LowerRow));
  }

  /** Row 0 holds the first line. */
  lemma {:induction false} UpperCell(g: Grid, x: int)
    requires FactorialGrid(g) && 0 <= x < |UpperRow|
    ensures Holds(g, x, 0, UpperRow[x])
  {
  }

  /** Row 1 holds the second line. */
  lemma {:induction false} LowerCell(g: Grid, x: int)
    requires FactorialGrid(g) && 0 <= x < |LowerRow|
    ensures Holds(g, x, 1, LowerRow[x])
  {
  }

  /** "08>:" at the start of row 0. */
  lemma {:induction false} StartCells(g: Grid)
    requires FactorialGrid(g)
    ensures Holds(g, 0, 0, '0') && Holds(g, 1, 0, '8') && Holds(g, 2, 0, '>') && Holds(g, 3, 0, ':')
  {
    UpperCell(g, 0); UpperCell(g, 1); UpperCell(g, 2); UpperCell(g, 3);
  }

  /** "1-:v" next along row 0. */
  lemma {:induction false} DecrementCells(g: Grid)
    requires FactorialGrid(g)
    ensures Holds(g, 4, 0, '1') && Holds(g, 5, 0, '-') && Holds(g, 6, 0, ':') && Holds(g, 7, 0, 'v')
  {
    UpperCell(g, 4); UpperCell(g, 5); UpperCell(g, 6); UpperCell(g, 7);
  }

  /** "v *_" further along row 0. */
  lemma {:induction false} ProductCells(g: Grid)
    requires FactorialGrid(g)
    ensures Holds(g, 9, 0, 'v') && Holds(g, 10, 0, ' ') && Holds(g, 11, 0, '*') && Holds(g, 12, 0, '_')
  {
    UpperCell(g, 9); UpperCell(g, 10); UpperCell(g, 11); UpperCell(g, 12);
  }

  /** "$.@" at the end of row 0. */
  lemma {:induction false} EndCells(g: Grid)
    requires FactorialGrid(g)
    ensures Holds(g, 13, 0, '$') && Holds(g, 14, 0, '.') && Holds(g, 15, 0, '@')
  {
    UpperCell(g, 13); UpperCell(g, 14); UpperCell(g, 15);
  }

  /** "^    _" along row 1. */
  lemma {:induction false} ReturnCells(g: Grid)
    requires FactorialGrid(g)
    ensures Holds(g, 2, 1, '^') && Holds(g, 3, 1, ' ') && Holds(g, 4, 1, ' ')
    ensures Holds(g, 5, 1, ' ') && Holds(g, 6, 1, ' ') && Holds(g, 7, 1, '_')
  {
    LowerCell(g, 2); LowerCell(g, 3); LowerCell(g, 4); LowerCell(g, 5); LowerCell(g, 6); LowerCell(g, 7);
  }

  /** "$>\:^" along row 1. */
  lemma {:induction false} SwapCells(g: Grid)
    requires FactorialGrid(g)
    ensures Holds(g, 8, 1, '$') && Holds(g, 9, 1, '>') && Holds(g, 10, 1, '\\')
    ensures Holds(g, 11, 1, ':') && Holds(g, 12, 1, '^')
  {
    LowerCell(g, 8); LowerCell(g, 9); LowerCell(g, 10); LowerCell(g, 11); LowerCell(g, 12);
  }

  /** The cells the count-down loop visits. */
  predicate CountDownLayout(g: Grid) {
    && Holds(g, 2, 0, '>') && Holds(g, 3, 0, ':') && Holds(g, 4, 0, '1')
    && Holds(g, 5, 0, '-') && Holds(g, 6, 0, ':') && Holds(g, 7, 0, 'v')
    && Holds(g, 2, 1, '^') && Holds(g, 3, 1, ' ') && Holds(g, 4, 1, ' ')
    && Holds(g, 5, 1, ' ') && Holds(g, 6, 1, ' ') && Holds(g, 7, 1, '_')
    && Holds(g, 8, 1, '$') && Holds(g, 9, 1, '>')
  }

  /** The cells the product loop visits. */
  predicate ProductLayout(g: Grid) {
    && Holds(g, 9, 0, 'v') && Holds(g, 10, 0, ' ') && Holds(g, 11, 0, '*')
    && Holds(g, 12, 0, '_') && Holds(g, 9, 1, '>') && Holds(g, 10, 1, '\\')
    && Holds(g, 11, 1, ':') && Holds(g, 12, 1, '^')
  }

  /** [n, n-1, ..., j+1]: the stack the count-down loop leaves above its bottom 0. */
  function DownTo(n: int, j: int): seq<int>
    decreases n - j
  {
    if n <= j then [] else DownTo(n, j + 1) + [j + 1]
  }

  /** (j+1) * (j+2) * ... * n. */
  function Product(n: int, j: int): int
    decreases n - j
  {
    if n <= j then 1 else (j + 1) * Product(n, j + 1)
  }

  lemma {:induction false} DownToFront(n: int, j: int)
    requires j < n
    ensures DownTo(n, j) == [n] + DownTo(n - 1, j)
    decreases n - j
  {
    if j + 1 < n {
      DownToFront(n, j + 1);
    }
  }


  /** "08>": push 0 and 8, then head right into the loop. */
  lemma {:induction false} Prologue(g: Grid, fuel: nat, rest: nat)
    requires Holds(g, 0, 0, '0') && Holds(g, 1, 0, '8') && Holds(g, 2, 0, '>') && fuel == rest + 3
    ensures RunOutput(MachineAt(g, 0, 0, Right, [], []), fuel) == RunOutput(MachineAt(g, 3, 0, Right, [0] + [8], []), rest)
  {
    DigitAt(g, 0, 0, Right, 1, 0, [], [], 0, fuel, rest + 2);
    assert [] + [0] == [0];
    DigitAt(g, 1, 0, Right, 2, 0, [0], [], 8, rest + 2, rest + 1);
    HeadAt(g, 2, 0, Right, Right, 3, 0, [0] + [8], [], rest + 1, rest);
  }

  /** ":1-": copy k and take one from the copy. */
  lemma {:induction false} Decrement(g: Grid, pre: seq<int>, k: int, fuel: nat, rest: nat)
    requires Holds(g, 3, 0, ':') && Holds(g, 4, 0, '1') && Holds(g, 5, 0, '-') && fuel == rest + 3
    ensures RunOutput(MachineAt(g, 3, 0, Right, pre + [k], []), fuel) == RunOutput(MachineAt(g, 6, 0, Right, (pre + [k]) + [k - 1], []), rest)
  {
    DuplicateAt(g, 3, 0, Right, 4, 0, pre, k, [], fuel, rest + 2);
    DigitAt(g, 4, 0, Right, 5, 0, pre + [k, k], [], 1, rest + 2, rest + 1);
    assert pre + [k, k] + [1] == (pre + [k]) + [k, 1];
    SubtractAt(g, 5, 0, Right, 6, 0, pre + [k], k, 1, [], rest + 1, rest);
  }

  /** ":v_": copy the top v, go down to row 1, and turn on the copy: right at zero, left otherwise. */
  lemma {:induction false} CountDownTest(g: Grid, d: seq<int>, v: int, to: Direction, nx: int, fuel: nat, rest: nat)
    requires Holds(g, 6, 0, ':') && Holds(g, 7, 0, 'v') && Holds(g, 7, 1, '_')
    requires to == (if v == 0 then Right else Left) && nx == 7 + to.Dx() && fuel == rest + 3
    ensures RunOutput(MachineAt(g, 6, 0, Right, d + [v], []), fuel) == RunOutput(MachineAt(g, nx, 1, to, d + [v], []), rest)
  {
    DuplicateAt(g, 6, 0, Right, 7, 0, d, v, [], fuel, rest + 2);
    assert d + [v, v] == (d + [v]) + [v];
    HeadAt(g, 7, 0, Right, Down, 7, 1, (d + [v]) + [v], [], rest + 2, rest + 1);
    HorizontalAt(g, 7, 1, Down, to, nx, 1, d + [v], v, [], rest + 1, rest);
  }

  /** Turned left: along row 1, up, and right into the loop again. */
  lemma {:induction false} CountDownTurn(g: Grid, d: seq<int>, fuel: nat, rest: nat)
    requires Holds(g, 6, 1, ' ') && Holds(g, 5, 1, ' ') && Holds(g, 4, 1, ' ')
    requires Holds(g, 3, 1, ' ') && Holds(g, 2, 1, '^') && Holds(g, 2, 0, '>') && fuel == rest + 6
    ensures RunOutput(MachineAt(g, 6, 1, Left, d, []), fuel) == RunOutput(MachineAt(g, 3, 0, Right, d, []), rest)
  {
    BlankAt(g, 6, 1, Left, 5, 1, d, [], fuel, rest + 5);
    BlankAt(g, 5, 1, Left, 4, 1, d, [], rest + 5, rest + 4);
    BlankAt(g, 4, 1, Left, 3, 1, d, [], rest + 4, rest + 3);
    BlankAt(g, 3, 1, Left, 2, 1, d, [], rest + 3, rest + 2);
    HeadAt(g, 2, 1, Left, Up, 2, 0, d, [], rest + 2, rest + 1);
    HeadAt(g, 2, 0, Up, Right, 3, 0, d, [], rest + 1, rest);
  }

  /** Turned right at the zero: `$` drops it and `>` enters the product loop. */
  lemma {:induction false} CountDownExit(g: Grid, d: seq<int>, fuel: nat, rest: nat)
    requires Holds(g, 8, 1, '$') && Holds(g, 9, 1, '>') && fuel == rest + 2
    ensures RunOutput(MachineAt(g, 8, 1, Right, d + [0], []), fuel) == RunOutput(MachineAt(g, 10, 1, Right, d, []), rest)
  {
    DiscardAt(g, 8, 1, Right, 9, 1, d, 0, [], fuel, rest + 1);
    HeadAt(g, 9, 1, Right, Right, 10, 1, d, [], rest + 1, rest);
  }

  /** The count-down loop: from k on top it leaves k, k-1, ..., 1 and enters the product loop. */
  lemma {:induction false} CountDown(g: Grid, pre: seq<int>, k: int, fuel: nat, rest: nat)
    requires CountDownLayout(g) && k >= 1 && fuel == rest + 12 * k - 4
    ensures RunOutput(MachineAt(g, 3, 0, Right, pre + [k], []), fuel) == RunOutput(MachineAt(g, 10, 1, Right, pre + DownTo(k, 0), []), rest)
    decreases k
  {
    DownToFront(k, 0);
    if k == 1 {
      Decrement(g, pre, 1, fuel, rest + 5);
      assert (pre + [1]) + [1 - 1] == (pre + [1]) + [0];
      CountDownTest(g, pre + [1], 0, Right, 8, rest + 5, rest + 2);
      CountDownExit(g, pre + [1], rest + 2, rest);
      assert DownTo(1, 0) == [1];
    } else {
      var inner := rest + 12 * (k - 1) - 4;
      Decrement(g, pre, k, fuel, inner + 9);
      CountDownTest(g, pre + [k], k - 1, Left, 6, inner + 9, inner + 6);
      CountDownTurn(g, (pre + [k]) + [k - 1], inner + 6, inner);
      CountDown(g, pre + [k], k - 1, inner, rest);
      assert (pre + [k]) + DownTo(k - 1, 0) == pre + DownTo(k, 0);
    }
  }

  /** "\:^_": swap the next factor b over the product a, copy it, go up, and turn on b: left unless it is zero. */
  lemma {:induction false} ProductTest(g: Grid, pre: seq<int>, b: int, a: int, to: Direction, nx: int, fuel: nat, rest: nat)
    requires Holds(g, 10, 1, '\\') && Holds(g, 11, 1, ':') && Holds(g, 12, 1, '^') && Holds(g, 12, 0, '_')
    requires to == (if b == 0 then Right else Left) && nx == 12 + to.Dx() && fuel == rest + 4
    ensures RunOutput(MachineAt(g, 10, 1, Right, pre + [b, a], []), fuel) == RunOutput(MachineAt(g, nx, 0, to, pre + [a, b], []), rest)
  {
    SwapAt(g, 10, 1, Right, 11, 1, pre, b, a, [], fuel, rest + 3);
    assert pre + [a, b] == (pre + [a]) + [b];
    DuplicateAt(g, 11, 1, Right, 12, 1, pre + [a], b, [], rest + 3, rest + 2);
    assert (pre + [a]) + [b, b] == (pre + [a, b]) + [b];
    HeadAt(g, 12, 1, Right, Up, 12, 0, (pre + [a, b]) + [b], [], rest + 2, rest + 1);
    HorizontalAt(g, 12, 0, Up, to, nx, 0, pre + [a, b], b, [], rest + 1, rest);
  }

  /** Turned left: "* v" multiplies, then `v` and `>` come round to the swap again. */
  lemma {:induction false} ProductTurn(g: Grid, pre: seq<int>, b: int, a: int, fuel: nat, rest: nat)
    requires Holds(g, 11, 0, '*') && Holds(g, 10, 0, ' ') && Holds(g, 9, 0, 'v') && Holds(g, 9, 1, '>')
    requires fuel == rest + 4
    ensures RunOutput(MachineAt(g, 11, 0, Left, pre + [a, b], []), fuel) == RunOutput(MachineAt(g, 10, 1, Right, pre + [b * a], []), rest)
  {
    var d := pre + [b * a];
    MultiplyAt(g, 11, 0, Left, 10, 0, pre, a, b, [], fuel, rest + 3);
    BlankAt(g, 10, 0, Left, 9, 0, d, [], rest + 3, rest + 2);
    HeadAt(g, 9, 0, Left, Down, 9, 1, d, [], rest + 2, rest + 1);
    HeadAt(g, 9, 1, Down, Right, 10, 1, d, [], rest + 1, rest);
  }

  /** One pass of the product loop: a non-zero factor f under the product a is multiplied into it. */
  lemma {:induction false} ProductRound(g: Grid, pre: seq<int>, f: int, a: int, fuel: nat, rest: nat)
    requires ProductLayout(g) && f != 0 && fuel == rest + 8
    ensures RunOutput(MachineAt(g, 10, 1, Right, pre + [f, a], []), fuel) == RunOutput(MachineAt(g, 10, 1, Right, pre + [f * a], []), rest)
  {
    ProductTest(g, pre, f, a, Left, 11, fuel, rest + 4);
    ProductTurn(g, pre, f, a, rest + 4, rest);
  }

  /** Taking the factor j + 1 off the stack and multiplying it into a leaves the same final product. */
  lemma {:induction false} ProductStep(n: int, j: int, a: int, b: int)
    requires j < n && b == (j + 1) * a
    ensures [0] + DownTo(n, j) + [a] == ([0] + DownTo(n, j + 1)) + [j + 1, a]
    ensures [0] + [b * Product(n, j + 1)] == [0] + [a * Product(n, j)]
  {
    assert b * Product(n, j + 1) == a * ((j + 1) * Product(n, j + 1));
  }

  /** The product loop: the factors j+1..n under the running product a multiply into it. */
  lemma {:induction false} ProductLoop(g: Grid, n: int, j: int, a: int, fuel: nat, rest: nat)
    requires ProductLayout(g) && 0 <= j <= n && fuel == rest + 8 * (n - j)
    ensures RunOutput(MachineAt(g, 10, 1, Right, [0] + DownTo(n, j) + [a], []), fuel)
      == RunOutput(MachineAt(g, 10, 1, Right, [0] + [a * Product(n, j)], []), rest)
    decreases n - j
  {
    if j < n {
      var pre := [0] + DownTo(n, j + 1);
      var b := (j + 1) * a;
      var inner := rest + 8 * (n - j - 1);
      ProductStep(n, j, a, b);
      ProductRound(g, pre, j + 1, a, fuel, inner);
      ProductLoop(g, n, j + 1, b, inner, rest);
    } else {
      assert [0] + DownTo(n, j) + [a] == [0] + [a * Product(n, j)];
    }
  }

  /** With a zero under the product p: turn right, drop the zero, print p, and stop at `@`. */
  lemma {:induction false} Epilogue(g: Grid, p: int, fuel: nat)
    requires Holds(g, 10, 1, '\\') && Holds(g, 11, 1, ':') && Holds(g, 12, 1, '^') && Holds(g, 12, 0, '_')
    requires Holds(g, 13, 0, '$') && Holds(g, 14, 0, '.') && Holds(g, 15, 0, '@')
    ensures RunOutput(MachineAt(g, 10, 1, Right, [0] + [p], []), fuel + 7) == Finished(FormatInt(p))
  {
    assert [] + [0, p] == [0] + [p] && [] + [p, 0] == [p] + [0] && [] + [p] == [p];
    ProductTest(g, [], 0, p, Right, 13, fuel + 7, fuel + 3);
    DiscardAt(g, 13, 0, Right, 14, 0, [p], 0, [], fuel + 3, fuel + 2);
    PrintAt(g, 14, 0, Right, 15, 0, [], p, [], fuel + 2, fuel + 1);
    EndAt(g, 15, 0, Right, [], [] + [FormatInt(p)], fuel + 1);
    assert Joined([] + [FormatInt(p)]) == FormatInt(p);
  }

  /** The cells the factorial program's path visits, all at their places on its grid. */
  lemma {:induction false} FactorialLayout(g: Grid)
    requires FactorialGrid(g)
    ensures CountDownLayout(g) && ProductLayout(g)
    ensures Holds(g, 0, 0, '0') && Holds(g, 1, 0, '8')
    ensures Holds(g, 13, 0, '$') && Holds(g, 14, 0, '.') && Holds(g, 15, 0, '@')
  {
    StartCells(g);
    DecrementCells(g);
    ProductCells(g);
    EndCells(g);
    ReturnCells(g);
    SwapCells(g);
  }

  /** On any grid laid out like the factorial program, the run from (0, 0) prints 8! and stops after 158 steps. */
  lemma {:induction false} FactorialRun(g: Grid, fuel: nat)
    requires CountDownLayout(g) && ProductLayout(g)
    requires Holds(g, 0, 0, '0') && Holds(g, 1, 0, '8')
    requires Holds(g, 13, 0, '$') && Holds(g, 14, 0, '.') && Holds(g, 15, 0, '@')
    ensures RunOutput(MachineAt(g, 0, 0, Right, [], []), fuel + 158) == Finished(FormatInt(Product(8, 1)))
  {
    Prologue(g, fuel + 158, fuel + 155);
    CountDown(g, [0], 8, fuel + 155, fuel + 63);
    assert [0] + DownTo(8, 0) == [0] + DownTo(8, 1) + [1];
    ProductLoop(g, 8, 1, 1, fuel + 63, fuel + 7);
    assert 1 * Product(8, 1) == Product(8, 1);
    Epilogue(g, Product(8, 1), fuel);
  }

  /** 2 * 3 * ... * 8 is 40320, printed as "40320". */
  lemma {:induction false} EightFactorial()
    ensures Product(8, 1) == 40320
    ensures FormatInt(Product(8, 1)) == Codes("40320")
  {
    assert Product(8, 1) == 40320;
  }

  /** The factorial program prints 8! = 40320 within 158 steps, and with any larger bound. */
  lemma {:induction false} FactorialOfEight(fuel: nat)
    ensures Interpretation(Codes(FactorialProgram), fuel + 158, []) == Finished(Codes("40320"))
  {
    var text := Codes(FactorialProgram);
    var g := Load(text).program;
    FactorialLoads();
    assert Load(text) == MachineAt(g, 0, 0, Right, [], []);
    FactorialLayout(g);
    FactorialRun(g, fuel);
    EightFactorial();
  }
}
