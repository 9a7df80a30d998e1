/**
 * What the interpreter promises, proved about the pure semantics: the stack
 * effect of every operator, the underflow cases, the direction invariant,
 * how the cursor moves, string mode, the ways a run ends, the output
 * order, and the write/read round trip of `p` and `g`.
 */
module Properties {
  import opened PyOps
  import opened Commands
  import opened Scanning
  import opened Semantics

  // ---------------------------------------------------------------------
  // Stack effects
  // ---------------------------------------------------------------------

  /**
   * A binary operator pops a (the top) then b and pushes one value: a + b,
   * b - a, a * b, b // a, b % a, or b > a as 0/1. The stack shrinks by one,
   * everything below the operands stays, and nothing but the stack changes.
   * With fewer than two values the unguarded pop raises IndexError.
   */
  lemma BinaryOperatorEffect(op: BinaryOp, m: Machine, draw: nat)
    ensures |m.data| < 2 <==> Execute(Binary(op), m, draw) == Raise(IndexError)
    ensures |m.data| >= 2 ==>
      var r := Execute(Binary(op), m, draw);
      var n := |m.data|;
      var a, b := m.data[n - 1], m.data[n - 2];
      && r.Ok?
      && r.value == m.(data := r.value.data)
      && |r.value.data| == n - 1
      && r.value.data[..n - 2] == m.data[..n - 2]
      && r.value.data[n - 2] == Operate(op, a, b)
      && (op == Add ==> r.value.data[n - 2] == a + b)
      && (op == Subtract ==> r.value.data[n - 2] == b - a)
      && (op == Multiply ==> r.value.data[n - 2] == a * b)
      && (op == GreaterThan ==> (r.value.data[n - 2] == 1 <==> b > a))
      && (op == Divide && a == 0 ==> r.value.data[n - 2] == 0)
      && (op == Modulo && a == 0 ==> r.value.data[n - 2] == 0)
  {
  }

  /**
   * `/` pushes the floor quotient and `%` the floor remainder: the two
   * together give back b, the remainder lies strictly between 0 and a's
   * side, and a zero divisor pushes 0.
   */
  lemma DivideAndModuloOnStack(m: Machine, draw: nat)
    requires |m.data| >= 2
    ensures var n := |m.data|;
      var a, b := m.data[n - 1], m.data[n - 2];
      var q := Execute(Binary(Divide), m, draw).value.data[n - 2];
      var r := Execute(Binary(Modulo), m, draw).value.data[n - 2];
      && (a == 0 ==> q == 0 && r == 0)
      && (a != 0 ==> b == a * q + r)
      && (a > 0 ==> 0 <= r < a && a * q <= b < a * q + a)
      && (a < 0 ==> a < r <= 0 && a * q + a < b <= a * q)
  {
    var n := |m.data|;
    DivideModuloAgree(m.data[n - 1], m.data[n - 2]);
  }

  /** `!` pops one value and pushes 1 exactly when it was 0, and 0 otherwise. */
  lemma NotEffect(m: Machine, draw: nat)
    ensures m.data == [] <==> Execute(Not, m, draw) == Raise(IndexError)
    ensures m.data != [] ==>
      var r := Execute(Not, m, draw);
      var n := |m.data|;
      && r.Ok? && r.value == m.(data := r.value.data)
      && r.value.data[..n - 1] == m.data[..n - 1] && |r.value.data| == n
      && (r.value.data[n - 1] == 1 <==> m.data[n - 1] == 0)
      && (r.value.data[n - 1] == 0 <==> m.data[n - 1] != 0)
  {
  }

  /** `:` never raises: it pushes a copy of the top, or 0 on an empty stack, and pops nothing. */
  lemma DuplicateEffect(m: Machine, draw: nat)
    ensures var r := Execute(Duplicate, m, draw);
      && r.Ok? && r.value == m.(data := r.value.data)
      && |r.value.data| == |m.data| + 1
      && r.value.data[..|m.data|] == m.data
      && r.value.data[|m.data|] == (if m.data == [] then 0 else m.data[|m.data| - 1])
  {
  }

  /**
   * `\` raises IndexError on an empty stack (its first pop is unguarded),
   * turns [v] into [v, 0] with 0 on top, and otherwise exchanges the top two.
   */
  lemma SwapEffect(m: Machine, draw: nat)
    ensures m.data == [] <==> Execute(Swap, m, draw) == Raise(IndexError)
    ensures |m.data| == 1 ==> Execute(Swap, m, draw) == Ok(m.(data := [m.data[0], 0]))
    ensures |m.data| >= 2 ==>
      var n := |m.data|;
      Execute(Swap, m, draw) == Ok(m.(data := m.data[..n - 2] + [m.data[n - 1], m.data[n - 2]]))
  {
  }

  /** On two or more values, swapping twice gives back the machine. */
  lemma SwapTwice(m: Machine, draw: nat)
    requires |m.data| >= 2
    ensures Execute(Swap, m, draw).Ok?
    ensures Execute(Swap, Execute(Swap, m, draw).value, draw) == Ok(m)
  {
    var n := |m.data|;
    var once := Execute(Swap, m, draw).value;
    assert once.data[..n - 2] == m.data[..n - 2];
    assert once.data[..n - 2] + [once.data[n - 1], once.data[n - 2]] == m.data;
  }

  /** `$` pops one value and discards it; on an empty stack it raises IndexError. */
  lemma DiscardEffect(m: Machine, draw: nat)
    ensures m.data == [] <==> Execute(Discard, m, draw) == Raise(IndexError)
    ensures m.data != [] ==> Execute(Discard, m, draw) == Ok(m.(data := m.data[..|m.data| - 1]))
  {
  }

  /**
   * `.` raises IndexError on an empty stack; otherwise it pops v, appends
   * the decimal numeral of v to the output and changes nothing else.
   */
  lemma OutputIntegerEffect(m: Machine, draw: nat)
    ensures m.data == [] <==> Execute(OutputInteger, m, draw) == Raise(IndexError)
    ensures m.data != [] ==>
      var v := m.data[|m.data| - 1];
      Execute(OutputInteger, m, draw) == Ok(m.(data := m.data[..|m.data| - 1], output := m.output + [FormatInt(v)]))
  {
  }

  /**
   * `,` raises IndexError on an empty stack and OverflowError when the top
   * is not a code point (having popped it); otherwise it pops v, appends
   * the one character with code v and changes nothing else.
   */
  lemma OutputAsciiEffect(m: Machine, draw: nat)
    ensures m.data == [] <==> Execute(OutputAscii, m, draw) == Raise(IndexError)
    ensures m.data != [] && !(0 <= m.data[|m.data| - 1] < 0x11_0000) ==>
      Execute(OutputAscii, m, draw) == Raise(OverflowError)
    ensures m.data != [] && 0 <= m.data[|m.data| - 1] < 0x11_0000 ==>
      var v := m.data[|m.data| - 1];
      Execute(OutputAscii, m, draw) == Ok(m.(data := m.data[..|m.data| - 1], output := m.output + [[v]]))
  {
  }

  /**
   * `g` raises IndexError with fewer than two values, and also when
   * (x, y) is not a cell; otherwise it pops y then x and pushes the code of
   * the character at (x, y), changing nothing else.
   */
  lemma GetEffect(m: Machine, x: int, y: int, draw: nat)
    ensures |m.data| < 2 ==> Execute(Get, m, draw) == Raise(IndexError)
    ensures Cell(m.program, x, y).None? ==> Execute(Get, m.(data := m.data + [x, y]), draw) == Raise(IndexError)
    ensures Cell(m.program, x, y).Some? ==>
      Execute(Get, m.(data := m.data + [x, y]), draw) == Ok(m.(data := m.data + [Cell(m.program, x, y).value]))
  {
    var d := m.data + [x, y];
    assert Top(d, 0) == y && Top(d, 1) == x && Popped(d, 2) == m.data;
  }

  // ---------------------------------------------------------------------
  // Direction
  // ---------------------------------------------------------------------

  /** No command can leave the direction off the four unit steps. */
  lemma ExecuteKeepsCardinal(cmd: Command, m: Machine, draw: nat)
    requires m.Valid()
    ensures Execute(cmd, m, draw).Ok? ==> Execute(cmd, m, draw).value.Valid()
  {
    match cmd
    case Head(d) => DirectionSteps(d, d);
    case ChooseHorizontal =>
    case ChooseVertical =>
    case ChooseRandom =>
    case _ =>
  }

  /** Nor can a step of the loop: the direction invariant holds throughout a run. */
  lemma StepKeepsCardinal(m: Machine, draw: nat)
    requires m.Valid()
    ensures Step(m, draw).Continue? ==> Step(m, draw).next.Valid()
    ensures Step(m, draw).Halt? ==> Step(m, draw).final.Valid()
  {
    var cell := Cell(m.program, m.x, m.y);
    if !m.inString && cell.Some? && Lookup(cell.value).Some? {
      ExecuteKeepsCardinal(GetCommand(cell.value), m, draw);
    }
  }

  /**
   * `_` raises IndexError on an empty stack; otherwise it pops v and heads
   * right exactly when v is 0, left otherwise.
   */
  lemma HorizontalChoice(m: Machine, draw: nat)
    ensures m.data == [] <==> Execute(ChooseHorizontal, m, draw) == Raise(IndexError)
    ensures m.data != [] ==>
      var r := Execute(ChooseHorizontal, m, draw);
      && r.Ok? && r.value == m.(data := m.data[..|m.data| - 1], dx := r.value.dx, dy := 0)
      && (r.value.dx == 1 <==> m.data[|m.data| - 1] == 0)
      && (r.value.dx == -1 <==> m.data[|m.data| - 1] != 0)
  {
  }

  /**
   * `|` raises IndexError on an empty stack; otherwise it pops v and heads
   * down (dy = 1) exactly when v is 0, up otherwise.
   */
  lemma VerticalChoice(m: Machine, draw: nat)
    ensures m.data == [] <==> Execute(ChooseVertical, m, draw) == Raise(IndexError)
    ensures m.data != [] ==>
      var r := Execute(ChooseVertical, m, draw);
      && r.Ok? && r.value == m.(data := m.data[..|m.data| - 1], dx := 0, dy := r.value.dy)
      && (r.value.dy == 1 <==> m.data[|m.data| - 1] == 0)
      && (r.value.dy == -1 <==> m.data[|m.data| - 1] != 0)
  {
  }

  // ---------------------------------------------------------------------
  // Cursor movement
  // ---------------------------------------------------------------------

  /**
   * After any digit, string character, quote or command other than `#`,
   * the cursor moves once by the direction in force after the command ran,
   * so `>`, `<`, `^`, `v`, `_`, `|` and `?` steer the very next move.
   */
  lemma StepMovesOnce(m: Machine, draw: nat)
    requires Step(m, draw).Continue?
    requires m.inString || Cell(m.program, m.x, m.y) != Some('#' as int)
    ensures var n := Step(m, draw).next;
      n.x == m.x + n.dx && n.y == m.y + n.dy
  {
    var cell := Cell(m.program, m.x, m.y);
    if !m.inString && cell.Some? && Lookup(cell.value).Some? {
      TableInverse(Skip, cell.value);
      ExecuteKeepsCursor(GetCommand(cell.value), m, draw);
    }
  }

  /** Of all commands only `#` moves the cursor while executing; it moves it one step. */
  lemma ExecuteKeepsCursor(cmd: Command, m: Machine, draw: nat)
    requires Execute(cmd, m, draw).Ok?
    ensures var n := Execute(cmd, m, draw).value;
      && (cmd != Skip ==> n.x == m.x && n.y == m.y)
      && (cmd == Skip ==> n.x == m.x + m.dx && n.y == m.y + m.dy && n.dx == m.dx && n.dy == m.dy)
  {
  }

  /** `#` moves the cursor twice along an unchanged direction, skipping exactly one cell. */
  lemma SkipMovesTwice(m: Machine, draw: nat)
    requires !m.inString && Cell(m.program, m.x, m.y) == Some('#' as int)
    ensures Step(m, draw) == Continue(m.(x := m.x + 2 * m.dx, y := m.y + 2 * m.dy))
  {
  }

  // ---------------------------------------------------------------------
  // How a run ends
  // ---------------------------------------------------------------------

  /** A read outside the program yields the end token: the run stops and returns the output so far. */
  lemma EndOfProgramHalts(m: Machine, fuel: nat, draws: seq<nat>)
    requires !m.inString && Cell(m.program, m.x, m.y).None? && fuel > 0
    ensures Step(m, FirstDraw(draws)) == Halt(m)
    ensures Run(m, fuel, draws) == Finished(Joined(m.output))
  {
  }

  /** `@` stops the loop before anything is executed or advanced. */
  lemma EndCommandHalts(m: Machine, fuel: nat, draws: seq<nat>)
    requires !m.inString && Cell(m.program, m.x, m.y) == Some('@' as int) && fuel > 0
    ensures Step(m, FirstDraw(draws)) == Halt(m)
    ensures Run(m, fuel, draws) == Finished(Joined(m.output))
  {
  }

  /** A character that is no digit, no quote and no command raises SyntaxError. */
  lemma IllegalCharacterAborts(m: Machine, fuel: nat, draws: seq<nat>, c: CodePoint)
    requires !m.inString && Cell(m.program, m.x, m.y) == Some(c) && fuel > 0
    requires !IsDigit(c) && c != Quote && Lookup(c).None?
    ensures Run(m, fuel, draws) == Aborted(IllegalCharacter(c))
  {
  }

  /** Drop the first n draws, one per step taken. */
  function DropDraws(draws: seq<nat>, n: nat): seq<nat> {
    if n == 0 then draws else DropDraws(LaterDraws(draws), n - 1)
  }

  /** Dropping one draw and then n more is dropping n + 1. */
  lemma {:induction false} DropDrawsLater(draws: seq<nat>, n: nat)
    ensures DropDraws(LaterDraws(draws), n) == DropDraws(draws, n + 1)
  {
  }

  /** Exactly n turns of the loop from m, each of which continues; None if one halts or crashes. */
  function Steps(m: Machine, n: nat, draws: seq<nat>): Option<Machine>
    decreases n, 0
  {
    if n == 0 then Some(m) else After(Step(m, FirstDraw(draws)), n - 1, LaterDraws(draws))
  }

  /** The remaining n turns after one with the given outcome. */
  function After(o: StepOutcome, n: nat, draws: seq<nat>): Option<Machine>
    decreases n, 1
  {
    match o
    case Continue(next) => Steps(next, n, draws)
    case _ => None
  }

  /**
   * A run is compositional: after n turns that all continue, a run with
   * n + k steps of fuel is a run with k steps from where they led.
   */
  lemma {:induction false} RunAfterSteps(m: Machine, n: nat, k: nat, draws: seq<nat>)
    requires Steps(m, n, draws).Some?
    ensures Run(m, n + k, draws) == Run(Steps(m, n, draws).value, k, DropDraws(draws, n))
    decreases n
  {
    if n > 0 {
      var o := Step(m, FirstDraw(draws));
      assert Steps(m, n, draws) == After(o, n - 1, LaterDraws(draws));
      assert Run(m, n + k, draws) == Resume(o, n - 1 + k, LaterDraws(draws));
      RunAfterSteps(o.next, n - 1, k, LaterDraws(draws));
      DropDrawsLater(draws, n - 1);
    }
  }

  // ---------------------------------------------------------------------
  // String mode, along the direction in force
  // ---------------------------------------------------------------------

  /**
   * The cell k steps ahead of the cursor along the direction, read with
   * Python's index rules (so a path may wrap through negative indices).
   */
  function Along(m: Machine, k: int): Option<CodePoint> {
    Cell(m.program, m.x + k * m.dx, m.y + k * m.dy)
  }

  /** One step ahead, the path is the same path, one cell shorter. */
  lemma AlongShift(m: Machine, m1: Machine, k: int)
    requires m1.program == m.program && m1.dx == m.dx && m1.dy == m.dy
    requires m1.x == m.x + m.dx && m1.y == m.y + m.dy
    ensures Along(m1, k) == Along(m, k + 1)
  {
    assert m1.x + k * m1.dx == m.x + (k + 1) * m.dx;
    assert m1.y + k * m1.dy == m.y + (k + 1) * m.dy;
  }

  /** Inside string mode a quote only leaves string mode; any other character is pushed. */
  lemma StringStep(m: Machine, draw: nat)
    requires m.inString && Along(m, 0).Some?
    ensures var c := Along(m, 0).value;
      Step(m, draw) == Continue(if c == Quote then m.(inString := false).Advanced()
                                else m.(data := m.data + [c]).Advanced())
  {
    assert Along(m, 0) == Cell(m.program, m.x, m.y);
  }

  /**
   * Inside string mode, with the characters s and then a quote on the path
   * ahead, each character of s is pushed as its code, the quote is consumed
   * without pushing, and scanning resumes outside string mode just past it.
   */
  lemma {:induction false} StringBody(m: Machine, s: seq<CodePoint>, draws: seq<nat>)
    requires m.inString && Quote !in s
    requires forall k :: 0 <= k <= |s| ==> Along(m, k) == Some((s + [Quote])[k])
    ensures Steps(m, |s| + 1, draws) ==
      Some(m.(x := m.x + (|s| + 1) * m.dx, y := m.y + (|s| + 1) * m.dy, inString := false, data := m.data + s))
    decreases |s|
  {
    assert Along(m, 0) == Some((s + [Quote])[0]);
    StringStep(m, FirstDraw(draws));
    if s == [] {
      assert m.data + s == m.data;
    } else {
      assert s[0] in s;
      var m1 := m.(data := m.data + [s[0]]).Advanced();
      assert Step(m, FirstDraw(draws)) == Continue(m1);
      forall k | 0 <= k <= |s[1..]|
        ensures Along(m1, k) == Some((s[1..] + [Quote])[k])
      {
        AlongShift(m, m1, k);
        assert Along(m, k + 1) == Some((s + [Quote])[k + 1]);
      }
      assert Quote !in s[1..] by { assert forall c :: c in s[1..] ==> c in s; }
      StringBody(m1, s[1..], LaterDraws(draws));
      assert m1.x + |s| * m.dx == m.x + (|s| + 1) * m.dx;
      assert m1.y + |s| * m.dy == m.y + (|s| + 1) * m.dy;
      assert m1.data + s[1..] == m.data + s;
    }
  }

  /**
   * A quoted run "s" on the path ahead takes |s| + 2 turns, pushes the
   * codes of s in order, one per enclosed character, and leaves the cursor
   * just past the closing quote outside string mode; neither quote pushes
   * anything.
   */
  lemma QuotedRun(m: Machine, s: seq<CodePoint>, draws: seq<nat>)
    requires !m.inString && Quote !in s
    requires forall k :: 0 <= k <= |s| + 1 ==> Along(m, k) == Some(([Quote] + s + [Quote])[k])
    ensures Steps(m, |s| + 2, draws) ==
      Some(m.(x := m.x + (|s| + 2) * m.dx, y := m.y + (|s| + 2) * m.dy, data := m.data + s))
  {
    assert Along(m, 0) == Some(([Quote] + s + [Quote])[0]);
    var m1 := m.(inString := true).Advanced();
    assert Step(m, FirstDraw(draws)) == Continue(m1);
    forall k | 0 <= k <= |s|
      ensures Along(m1, k) == Some((s + [Quote])[k])
    {
      AlongShift(m, m1, k);
      assert Along(m, k + 1) == Some(([Quote] + s + [Quote])[k + 1]);
    }
    StringBody(m1, s, LaterDraws(draws));
    assert m1.x + (|s| + 1) * m.dx == m.x + (|s| + 2) * m.dx;
    assert m1.y + (|s| + 1) * m.dy == m.y + (|s| + 2) * m.dy;
  }

  /**
   * Inside string mode, when the n cells ahead hold no quote and the path
   * then leaves the program, the run raises SyntaxError("Program ended in
   * string mode").
   */
  lemma {:induction false} StringRunsOff(m: Machine, n: nat, fuel: nat, draws: seq<nat>)
    requires m.inString
    requires forall k :: 0 <= k < n ==> Along(m, k).Some? && Along(m, k) != Some(Quote)
    requires Along(m, n).None?
    requires fuel > n
    ensures Run(m, fuel, draws) == Aborted(EndedInStringMode)
    decreases n
  {
    assert Along(m, 0) == Cell(m.program, m.x, m.y);
    if n > 0 {
      assert Along(m, 0).Some? && Along(m, 0) != Some(Quote);
      StringStep(m, FirstDraw(draws));
      var m1 := m.(data := m.data + [Along(m, 0).value]).Advanced();
      assert Step(m, FirstDraw(draws)) == Continue(m1);
      RunTakesStep(m, fuel, draws);
      forall k | 0 <= k <= n - 1
        ensures Along(m1, k) == Along(m, k + 1)
      {
        AlongShift(m, m1, k);
      }
      StringRunsOff(m1, n - 1, fuel - 1, LaterDraws(draws));
    }
  }

  /**
   * An opening quote followed by n quote-free cells, after which the path
   * leaves the program, makes the run raise SyntaxError.
   */
  lemma UnterminatedString(m: Machine, n: nat, fuel: nat, draws: seq<nat>)
    requires !m.inString && Along(m, 0) == Some(Quote)
    requires forall k :: 1 <= k <= n ==> Along(m, k).Some? && Along(m, k) != Some(Quote)
    requires Along(m, n + 1).None?
    requires fuel > n + 1
    ensures Run(m, fuel, draws) == Aborted(EndedInStringMode)
  {
    assert Along(m, 0) == Cell(m.program, m.x, m.y);
    var m1 := m.(inString := true).Advanced();
    assert Step(m, FirstDraw(draws)) == Continue(m1);
    RunTakesStep(m, fuel, draws);
    forall k | 0 <= k <= n
      ensures Along(m1, k) == Along(m, k + 1)
    {
      AlongShift(m, m1, k);
    }
    StringRunsOff(m1, n, fuel - 1, LaterDraws(draws));
  }

  // ---------------------------------------------------------------------
  // Output
  // ---------------------------------------------------------------------

  /** Joining is concatenation in emission order. */
  lemma JoinedAppend(pieces: seq<seq<CodePoint>>, piece: seq<CodePoint>)
    ensures Joined(pieces + [piece]) == Joined(pieces) + piece
  {
    assert (pieces + [piece])[..|pieces|] == pieces;
  }

  /**
   * A step never rewrites output already emitted: it appends exactly one
   * piece for `.` (the decimal numeral of the popped value) and for `,` (the
   * character with that code), and nothing otherwise.
   */
  lemma StepAppendsOutput(m: Machine, draw: nat)
    requires Step(m, draw).Continue?
    ensures var n := Step(m, draw).next;
      var cell := Cell(m.program, m.x, m.y);
      && (!m.inString && cell == Some('.' as int) ==>
            n.output == m.output + [FormatInt(m.data[|m.data| - 1])])
      && (!m.inString && cell == Some(',' as int) ==>
            n.output == m.output + [[m.data[|m.data| - 1]]])
      && (m.inString || (cell != Some('.' as int) && cell != Some(',' as int)) ==>
            n.output == m.output)
  {
    var cell := Cell(m.program, m.x, m.y);
    if !m.inString && cell.Some? && Lookup(cell.value).Some? {
      var cmd := GetCommand(cell.value);
      TableInverse(cmd, cell.value);
      if cmd != OutputInteger && cmd != OutputAscii {
        ExecuteKeepsOutput(cmd, m, draw);
      }
    }
  }

  /** Only `.` and `,` write output. */
  lemma ExecuteKeepsOutput(cmd: Command, m: Machine, draw: nat)
    requires cmd != OutputInteger && cmd != OutputAscii && Execute(cmd, m, draw).Ok?
    ensures Execute(cmd, m, draw).value.output == m.output
  {
  }

  // ---------------------------------------------------------------------
  // Self-modification
  // ---------------------------------------------------------------------

  /** `p` succeeds exactly when it has three values, chr(v) is defined and (x, y) is a cell. */
  lemma PutOutcome(m: Machine, v: int, x: int, y: int, draw: nat)
    ensures var r := Execute(Put, m.(data := m.data + [v, x, y]), draw);
      && (r.Ok? <==> 0 <= v < 0x11_0000 && Cell(m.program, x, y).Some?)
      && (!(0 <= v < 0x11_0000) ==> r == Raise(ValueError))
      && (0 <= v < 0x11_0000 && Cell(m.program, x, y).None? ==> r == Raise(IndexError))
      && (r.Ok? ==> r.value.data == m.data)
      && (r.Ok? ==> r.value == m.(program := SetCell(m.program, x, y, v).value))
  {
    var d := m.data + [v, x, y];
    assert Top(d, 0) == y && Top(d, 1) == x && Top(d, 2) == v;
    assert Popped(d, 3) == m.data;
  }

  /** With fewer than three values `p` raises IndexError before touching the grid. */
  lemma PutUnderflow(m: Machine, draw: nat)
    ensures |m.data| < 3 ==> Execute(Put, m, draw) == Raise(IndexError)
  {
  }

  /**
   * `v x y p` followed by `x y g` pushes v back, and the `p` changed no
   * other cell of the grid.
   */
  lemma PutThenGet(m: Machine, v: int, x: int, y: int, draw: nat, x': int, y': int)
    requires Execute(Put, m.(data := m.data + [v, x, y]), draw).Ok?
    ensures var stored := Execute(Put, m.(data := m.data + [v, x, y]), draw).value;
      && Execute(Get, stored.(data := stored.data + [x, y]), draw) == Ok(stored.(data := m.data + [v]))
      && (Locate(m.program, x', y') != Locate(m.program, x, y) ==>
            Cell(stored.program, x', y') == Cell(m.program, x', y'))
  {
    PutOutcome(m, v, x, y, draw);
    var stored := Execute(Put, m.(data := m.data + [v, x, y]), draw).value;
    SetThenCell(m.program, x, y, v, x', y');
    var d := stored.data + [x, y];
    assert Top(d, 0) == y && Top(d, 1) == x && Popped(d, 2) == m.data;
  }
}
