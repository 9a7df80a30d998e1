/**
 * The `BefungeInterpreter` object: its lexer, the data stack `_data` and the
 * output list `_output`, the commands acting on them, and the loop of
 * `interpret`. Every method is tied to the pure semantics by its
 * postcondition: the state after it is the state Semantics computes.
 */
module Interpreting {
  import opened PyOps
  import opened Commands
  import opened Scanning
  import opened Semantics
  import opened Lexing

  /** How a command's execute() ended. */
  datatype Outcome = Completed | Raised(exc: Exception)

  /** How one turn of the loop ended. */
  datatype Status = Running | Halted | Crashed(exc: Exception)

  class BefungeInterpreter {
    const lexer: Lexer
    var data: seq<int>
    var output: seq<seq<CodePoint>>

    ghost predicate Valid()
      reads this, lexer
    {
      lexer.Valid()
    }

    /** The interpreter and its lexer, seen as one machine state. */
    ghost function Snapshot(): Machine
      reads this, lexer
    {
      Machine(lexer.program, lexer.xpos, lexer.ypos, lexer.dx, lexer.dy, lexer.inString, data, output)
    }

    /** The state after execute() is what Semantics.Execute gives, or execute() raised what it raises. */
    ghost predicate Performed(cmd: Command, before: Machine, draw: nat, outcome: Outcome)
      reads this, lexer
    {
      match Semantics.Execute(cmd, before, draw)
      case Ok(after) => outcome == Completed && Snapshot() == after
      case Raise(e) => outcome == Raised(e)
    }

    /** The state after one turn is what Semantics.Step gives. */
    ghost predicate Stepped(before: Machine, draw: nat, status: Status)
      reads this, lexer
    {
      match Semantics.Step(before, draw)
      case Continue(after) => status == Running && Snapshot() == after
      case Halt(after) => status == Halted && Snapshot() == after
      case Crash(e) => status == Crashed(e)
    }

    constructor ()
      ensures Valid() && fresh(lexer)
      ensures Snapshot() == Machine([], 0, 0, 1, 0, false, [], [])
    {
      lexer := new Lexer();
      data := [];
      output := [];
    }

    /** `pop()`: the top value, or IndexError on an empty stack (which is left as it was). */
    method Pop() returns (r: Result<int>)
      modifies this`data
      ensures old(data) == [] ==> r == Raise(IndexError) && data == old(data)
      ensures old(data) != [] ==> r == Ok(Top(old(data), 0)) && data == Popped(old(data), 1)
    {
      if data == [] {
        return Raise(IndexError);
      }
      r := Ok(data[|data| - 1]);
      data := data[..|data| - 1];
    }

    /** `pop2()`: the top two values in pop order, or IndexError if there are fewer than two. */
    method Pop2() returns (r: Result<(int, int)>)
      modifies this`data
      ensures |old(data)| < 2 ==> r == Raise(IndexError)
      ensures |old(data)| >= 2 ==>
        r == Ok((Top(old(data), 0), Top(old(data), 1))) && data == Popped(old(data), 2)
    {
      var a := Pop();
      if a.Raise? {
        return Raise(a.exc);
      }
      var b := Pop();
      if b.Raise? {
        return Raise(b.exc);
      }
      r := Ok((a.value, b.value));
    }

    /** `push(value)`. */
    method Push(value: int)
      modifies this`data
      ensures data == old(data) + [value]
    {
      data := data + [value];
    }

    /** `peek()`: the top value without popping it, or IndexError on an empty stack. */
    method Peek() returns (r: Result<int>)
      ensures data == [] ==> r == Raise(IndexError)
      ensures data != [] ==> r == Ok(data[|data| - 1])
    {
      if data == [] {
        return Raise(IndexError);
      }
      r := Ok(data[|data| - 1]);
    }

    /** `output(value)`. */
    method Output(piece: seq<CodePoint>)
      modifies this`output
      ensures output == old(output) + [piece]
    {
      output := output + [piece];
    }

    /** AimCommand.execute: store the heading's step in the lexer. */
    method Aim(d: Direction)
      modifies lexer`dx, lexer`dy
      ensures lexer.Valid()
      ensures lexer.dx == d.Dx() && lexer.dy == d.Dy()
    {
      lexer.dx, lexer.dy := d.Dx(), d.Dy();
    }

    /** `command.execute()` for every command class (lines 156-392). */
    method Execute(cmd: Command, draw: nat) returns (outcome: Outcome)
      requires Valid()
      modifies this, lexer
      ensures Valid()
      ensures Performed(cmd, old(Snapshot()), draw, outcome)
    {
      match cmd
      case Noop =>
        outcome := Completed;
      case End =>
        outcome := Completed;
      case Head(d) =>
        Aim(d);
        outcome := Completed;
      case Binary(op) =>
        outcome := ExecuteBinary(op);
      case Not =>
        outcome := ExecuteNot();
      case OutputInteger =>
        outcome := ExecuteOutputInteger();
      case OutputAscii =>
        outcome := ExecuteOutputAscii();
      case Duplicate =>
        var top := Peek();
        var value := if top.Ok? then top.value else 0;
        Push(value);
        outcome := Completed;
      case ChooseHorizontal =>
        outcome := ExecuteChoice(true);
      case ChooseVertical =>
        outcome := ExecuteChoice(false);
      case ChooseRandom =>
        Aim(RandomHeading(draw));
        outcome := Completed;
      case Swap =>
        outcome := ExecuteSwap();
      case Discard =>
        var v := Pop();
        outcome := if v.Raise? then Raised(v.exc) else Completed;
      case Skip =>
        lexer.Advance();
        outcome := Completed;
      case Put =>
        outcome := ExecutePut();
      case Get =>
        outcome := ExecuteGet();
    }

    /** BinaryOperator.execute (lines 197-199): pop a, pop b, push operate(a, b). */
    method ExecuteBinary(op: BinaryOp) returns (outcome: Outcome)
      requires Valid()
      modifies this`data
      ensures Valid()
      ensures Performed(Binary(op), old(Snapshot()), 0, outcome)
    {
      var operands := Pop2();
      if operands.Raise? {
        return Raised(operands.exc);
      }
      var (a, b) := operands.value;
      Push(Operate(op, a, b));
      outcome := Completed;
    }

    /** Not.execute: pop a, push 1 if it was 0 and 0 otherwise. */
    method ExecuteNot() returns (outcome: Outcome)
      requires Valid()
      modifies this`data
      ensures Valid()
      ensures Performed(Not, old(Snapshot()), 0, outcome)
    {
      var a := Pop();
      if a.Raise? {
        return Raised(a.exc);
      }
      Push(Negate(a.value));
      outcome := Completed;
    }

    /** OutputInteger.execute: pop v and output its decimal numeral. */
    method ExecuteOutputInteger() returns (outcome: Outcome)
      requires Valid()
      modifies this`data, this`output
      ensures Valid()
      ensures Performed(OutputInteger, old(Snapshot()), 0, outcome)
    {
      var v := Pop();
      if v.Raise? {
        return Raised(v.exc);
      }
      Output(FormatInt(v.value));
      outcome := Completed;
    }

    /** OutputAscii.execute: pop v and output the character with code v. */
    method ExecuteOutputAscii() returns (outcome: Outcome)
      requires Valid()
      modifies this`data, this`output
      ensures Valid()
      ensures Performed(OutputAscii, old(Snapshot()), 0, outcome)
    {
      var v := Pop();
      if v.Raise? {
        return Raised(v.exc);
      }
      var piece := FormatChar(v.value);
      if piece.Raise? {
        return Raised(piece.exc);
      }
      Output(piece.value);
      outcome := Completed;
    }

    /**
     * ChooseHorizontalDirection.execute (`_`) and ChooseVerticalDirection.execute (`|`):
     * pop v and head right/down when it is 0, left/up otherwise.
     */
    method ExecuteChoice(horizontal: bool) returns (outcome: Outcome)
      requires Valid()
      modifies this`data, lexer`dx, lexer`dy
      ensures Valid()
      ensures Performed(if horizontal then ChooseHorizontal else ChooseVertical, old(Snapshot()), 0, outcome)
    {
      var v := Pop();
      if v.Raise? {
        return Raised(v.exc);
      }
      if horizontal {
        Aim(if v.value == 0 then Right else Left);
      } else {
        Aim(if v.value == 0 then Down else Up);
      }
      outcome := Completed;
    }

    /** Swap.execute: the first pop is unguarded, the second falls back to 0. */
    method ExecuteSwap() returns (outcome: Outcome)
      requires Valid()
      modifies this`data
      ensures Valid()
      ensures Performed(Swap, old(Snapshot()), 0, outcome)
    {
      ghost var before, d := Snapshot(), data;
      var last := Pop();
      if last.Raise? {
        return Raised(last.exc);
      }
      var second := Pop();
      var penultimate := if second.Ok? then second.value else 0;
      Push(last.value);
      Push(penultimate);
      if |d| == 1 {
        assert data == [Top(d, 0), 0];
      } else {
        assert data == Popped(d, 2) + [Top(d, 0), Top(d, 1)];
      }
      assert Snapshot() == before.(data := data);
      assert Semantics.Execute(Swap, before, 0) == Ok(before.(data := data));
      outcome := Completed;
    }

    /** Get.execute: pop y, pop x, push the code of the character at (x, y). */
    method ExecuteGet() returns (outcome: Outcome)
      requires Valid()
      modifies this`data
      ensures Valid()
      ensures Performed(Get, old(Snapshot()), 0, outcome)
    {
      var coordinates := Pop2();
      if coordinates.Raise? {
        return Raised(coordinates.exc);
      }
      var (y, x) := coordinates.value;
      var c := lexer.At(x, y);
      if c.None? {
        return Raised(IndexError);
      }
      Push(c.value);
      outcome := Completed;
    }

    /**
     * Put.execute as its docstring describes it: pop y, x and v, then store
     * chr(v) at (x, y). The code as written assigns into an immutable str;
     * see AsWritten.PutAsWritten.
     */
    method ExecutePut() returns (outcome: Outcome)
      requires Valid()
      modifies this`data, lexer`program
      ensures Valid()
      ensures Performed(Put, old(Snapshot()), 0, outcome)
    {
      var coordinates := Pop2();
      if coordinates.Raise? {
        return Raised(coordinates.exc);
      }
      var (y, x) := coordinates.value;
      var v := Pop();
      if v.Raise? {
        return Raised(v.exc);
      }
      var c := Chr(v.value);
      if c.Raise? {
        return Raised(c.exc);
      }
      var updated := SetCell(lexer.program, x, y, c.value);
      if updated.None? {
        return Raised(IndexError);
      }
      lexer.program := updated.value;
      outcome := Completed;
    }

    /**
     * One turn of `interpret`'s loop with the lexer's work around it: scan
     * the current cell, act on its token, then advance (line 108) unless the
     * run stops.
     */
    method Step(draw: nat) returns (status: Status)
      requires Valid()
      modifies this, lexer
      ensures Valid()
      ensures Stepped(old(Snapshot()), draw, status)
    {
      var scanned := lexer.Scan();
      match scanned
      case Failed(e) =>
        status := Crashed(e);
      case QuoteMark =>
        // the opening quote starts `string`, the closing one returns to `tokens`
        lexer.inString := !lexer.inString;
        lexer.Advance();
        status := Running;
      case Emit(token) =>
        match token
        case Eof =>
          status := Halted;
        case Digit(n) =>
          Push(n);
          lexer.Advance();
          status := Running;
        case StringChar(c) =>
          Push(c);
          lexer.Advance();
          status := Running;
        case CommandChar(c) =>
          var cmd := GetCommand(c);
          if cmd == End {
            return Halted;
          }
          var outcome := Execute(cmd, draw);
          if outcome.Raised? {
            return Crashed(outcome.exc);
          }
          lexer.Advance();
          status := Running;
    }

    /**
     * `interpret(str)` on this object, bounded by `fuel` turns: read the
     * text into the lexer and loop until a halt, an exception or the bound.
     * Stack, output and cursor carry over from any earlier call; the token
     * generator is new, so scanning starts outside string mode.
     */
    method Interpret(text: seq<CodePoint>, fuel: nat, draws: seq<nat>) returns (r: RunResult)
      requires Valid()
      modifies this, lexer
      ensures Valid()
      ensures r == Run(old(Snapshot()).(program := SplitLines(text), inString := false), fuel, draws)
      ensures var final := Settle(old(Snapshot()).(program := SplitLines(text), inString := false), fuel, draws);
        final.Some? ==> Snapshot() == final.value
    {
      lexer.Read(text);
      lexer.inString := false;
      ghost var start := Snapshot();
      ghost var target := Run(start, fuel, draws);
      ghost var cur := start;
      var left, pending := fuel, draws;
      while left > 0
        invariant Valid() && cur == Snapshot()
        invariant Run(cur, left, pending) == target
        invariant Settle(cur, left, pending) == Settle(start, fuel, draws)
        decreases left
      {
        RunTakesStep(cur, left, pending);
        var status := Step(FirstDraw(pending));
        match status
        case Halted =>
          HaltSettles(cur, pending, Snapshot(), left);
          return Finished(Joined(output));
        case Crashed(e) =>
          return Aborted(e);
        case Running =>
          ghost var previous, offered := cur, pending;
          left, pending, cur := left - 1, LaterDraws(pending), Snapshot();
          RunContinues(previous, offered, cur, left, pending, target);
      }
      r := OutOfFuel;
    }
  }

  /** The module-level `interpret(str)`: a new interpreter runs the text. */
  method Interpret(text: seq<CodePoint>, fuel: nat, draws: seq<nat>) returns (r: RunResult)
    ensures r == Interpretation(text, fuel, draws)
  {
    var interpreter := new BefungeInterpreter();
    r := interpreter.Interpret(text, fuel, draws);
  }
}
