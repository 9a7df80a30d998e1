/**
 * The interpreter's meaning as pure functions: the machine state (the
 * lexer's grid, cursor, direction and string mode, the interpreter's data
 * stack and output list), what each command does to it, one step of the
 * fetch/execute/advance loop, and a run bounded by a step count.
 */
module Semantics {
  import opened PyOps
  import opened Commands
  import opened Scanning

  /**
   * Everything a run reads and writes. The stack's top is its last element
   * (`list.append` / `list.pop`); `output` is the `_output` list of pieces.
   */
  datatype Machine = Machine(
    program: Grid,
    x: int, y: int,
    dx: int, dy: int,
    inString: bool,
    data: seq<int>,
    output: seq<seq<CodePoint>>)
  {
    predicate Valid() { Cardinal(dx, dy) }

    /** `advance()`: move one step along the direction. */
    function Advanced(): Machine {
      this.(x := x + dx, y := y + dy)
    }

    /** An AimCommand: the direction becomes d. */
    function Aimed(d: Direction): Machine {
      this.(dx := d.Dx(), dy := d.Dy())
    }
  }

  /** The state `interpret` starts from: the text read, the cursor at (0, 0) heading right. */
  function Load(text: seq<CodePoint>): (m: Machine)
    ensures m.Valid() && m.data == [] && m.output == [] && !m.inString
    ensures |m.program| >= 1 && JoinLines(m.program) == text && m.program == SplitLines(text)
    ensures m.x == 0 && m.y == 0 && m.dx == 1 && m.dy == 0
  {
    JoinSplit(text);
    Machine(SplitLines(text), 0, 0, 1, 0, false, [], [])
  }

  /** The element k places below the top of the stack. */
  function Top(s: seq<int>, k: nat): int
    requires k < |s|
  {
    s[|s| - 1 - k]
  }

  /** The stack with its top k elements popped. */
  function Popped(s: seq<int>, k: nat): seq<int>
    requires k <= |s|
  {
    s[..|s| - k]
  }

  /**
   * `command.execute()` (lines 156-392). A pop from an empty `_data` raises
   * IndexError (lines 432, 438); `:` and the second pop of `\` are guarded.
   * `draw` is the random source `?` consults.
   */
  function Execute(cmd: Command, m: Machine, draw: nat): Result<Machine> {
    var d := m.data;
    match cmd
    case Noop => Ok(m)
    case End => Ok(m)
    case Head(dir) => Ok(m.Aimed(dir))
    case Binary(op) =>
      if |d| < 2 then Raise(IndexError)
      else Ok(m.(data := Popped(d, 2) + [Operate(op, Top(d, 0), Top(d, 1))]))
    case Not =>
      if |d| < 1 then Raise(IndexError)
      else Ok(m.(data := Popped(d, 1) + [Negate(Top(d, 0))]))
    case OutputInteger =>
      if |d| < 1 then Raise(IndexError)
      else Ok(m.(data := Popped(d, 1), output := m.output + [FormatInt(Top(d, 0))]))
    case OutputAscii =>
      if |d| < 1 then Raise(IndexError)
      else (match FormatChar(Top(d, 0))
            case Raise(e) => Raise(e)
            case Ok(piece) => Ok(m.(data := Popped(d, 1), output := m.output + [piece])))
    case Duplicate =>
      Ok(m.(data := d + [if d == [] then 0 else Top(d, 0)]))
    case ChooseHorizontal =>
      if |d| < 1 then Raise(IndexError)
      else Ok(m.(data := Popped(d, 1)).Aimed(if Top(d, 0) == 0 then Right else Left))
    case ChooseVertical =>
      if |d| < 1 then Raise(IndexError)
      else Ok(m.(data := Popped(d, 1)).Aimed(if Top(d, 0) == 0 then Down else Up))
    case ChooseRandom =>
      Ok(m.Aimed(RandomHeading(draw)))
    case Swap =>
      if |d| < 1 then Raise(IndexError)
      else if |d| == 1 then Ok(m.(data := [Top(d, 0), 0]))
      else Ok(m.(data := Popped(d, 2) + [Top(d, 0), Top(d, 1)]))
    case Discard =>
      if |d| < 1 then Raise(IndexError)
      else Ok(m.(data := Popped(d, 1)))
    case Skip =>
      Ok(m.Advanced())
    case Put =>
      if |d| < 3 then Raise(IndexError)
      else (match Chr(Top(d, 2))
            case Raise(e) => Raise(e)
            case Ok(c) =>
              match SetCell(m.program, Top(d, 1), Top(d, 0), c)
              case None => Raise(IndexError)
              case Some(p) => Ok(m.(program := p, data := Popped(d, 3))))
    case Get =>
      if |d| < 2 then Raise(IndexError)
      else (match Cell(m.program, Top(d, 1), Top(d, 0))
            case None => Raise(IndexError)
            case Some(c) => Ok(m.(data := Popped(d, 2) + [c])))
  }

  datatype StepOutcome = Continue(next: Machine) | Halt(final: Machine) | Crash(exc: Exception)

  /**
   * One turn of the loop in `interpret` (lines 460-475) together with the
   * lexer's work around it (lines 94-108, 83-85): read the current cell,
   * act on its token, then advance. A quote only toggles string mode; the
   * end token and `@` stop the loop without advancing.
   */
  function Step(m: Machine, draw: nat): StepOutcome {
    match Classify(Cell(m.program, m.x, m.y), m.inString)
    case Failed(e) => Crash(e)
    case QuoteMark => Continue(m.(inString := !m.inString).Advanced())
    case Emit(Eof) => Halt(m)
    case Emit(Digit(n)) => Continue(m.(data := m.data + [n]).Advanced())
    case Emit(StringChar(c)) => Continue(m.(data := m.data + [c]).Advanced())
    case Emit(CommandChar(c)) =>
      var cmd := GetCommand(c);
      if cmd == End then Halt(m)
      else
        match Execute(cmd, m, draw)
        case Raise(e) => Crash(e)
        case Ok(n) => Continue(n.Advanced())
  }

  /** `"".join(pieces)`. */
  function Joined(pieces: seq<seq<CodePoint>>): seq<CodePoint> {
    if pieces == [] then [] else Joined(pieces[..|pieces| - 1]) + pieces[|pieces| - 1]
  }

  datatype RunResult = Finished(text: seq<CodePoint>) | Aborted(exc: Exception) | OutOfFuel

  function FirstDraw(draws: seq<nat>): nat {
    if draws == [] then 0 else draws[0]
  }

  function LaterDraws(draws: seq<nat>): seq<nat> {
    if draws == [] then [] else draws[1..]
  }

  /**
   * At most `fuel` steps from m; `draws[i]` is the random draw offered to
   * step i (0 once they run out). A halt returns the joined output.
   */
  function Run(m: Machine, fuel: nat, draws: seq<nat>): RunResult
    decreases fuel, 0
  {
    if fuel == 0 then OutOfFuel
    else Resume(Step(m, FirstDraw(draws)), fuel - 1, LaterDraws(draws))
  }

  /** How a run goes on after a step with the given outcome. */
  function Resume(o: StepOutcome, fuel: nat, draws: seq<nat>): RunResult
    decreases fuel, 1
  {
    match o
    case Halt(n) => Finished(Joined(n.output))
    case Crash(e) => Aborted(e)
    case Continue(n) => Run(n, fuel, draws)
  }

  /** A run with fuel left takes one step and goes on from its outcome. */
  lemma RunTakesStep(m: Machine, fuel: nat, draws: seq<nat>)
    requires fuel > 0
    ensures Run(m, fuel, draws) == Resume(Step(m, FirstDraw(draws)), fuel - 1, LaterDraws(draws))
  {
  }

  /**
   * A turn that continues hands the rest of the run to the next state:
   * whatever a run with one more step from m gives, the run from there gives,
   * and it leaves the same final state.
   */
  lemma RunContinues(m: Machine, draws: seq<nat>, next: Machine, fuel: nat, later: seq<nat>, result: RunResult)
    requires Step(m, FirstDraw(draws)) == Continue(next) && later == LaterDraws(draws)
    requires Run(m, fuel + 1, draws) == result
    ensures Run(next, fuel, later) == result
    ensures Settle(next, fuel, later) == Settle(m, fuel + 1, draws)
  {
    RunTakesStep(m, fuel + 1, draws);
  }

  /** A turn that halts leaves its state behind as the run's final state. */
  lemma HaltSettles(m: Machine, draws: seq<nat>, final: Machine, fuel: nat)
    requires Step(m, FirstDraw(draws)) == Halt(final) && fuel > 0
    ensures Settle(m, fuel, draws) == Some(final)
  {
  }

  /**
   * The state a run leaves behind: the state it halted in, or the state it
   * reached when the step bound ran out; None when it raised, since an
   * exception leaves the objects in whatever state the failing command left.
   */
  function Settle(m: Machine, fuel: nat, draws: seq<nat>): Option<Machine>
    decreases fuel, 0
  {
    if fuel == 0 then Some(m)
    else Settled(Step(m, FirstDraw(draws)), fuel - 1, LaterDraws(draws))
  }

  /** The state left behind after a step with the given outcome. */
  function Settled(o: StepOutcome, fuel: nat, draws: seq<nat>): Option<Machine>
    decreases fuel, 1
  {
    match o
    case Halt(n) => Some(n)
    case Crash(_) => None
    case Continue(n) => Settle(n, fuel, draws)
  }

  /**
   * The final state agrees with the run's result: a run raises exactly
   * when it leaves no state, runs out of fuel only with a state, and a
   * finished run returns the joined output of the state it halted in.
   */
  lemma {:induction false} SettleAgrees(m: Machine, fuel: nat, draws: seq<nat>)
    ensures Run(m, fuel, draws).Aborted? <==> Settle(m, fuel, draws).None?
    ensures Run(m, fuel, draws).Finished? ==> Run(m, fuel, draws).text == Joined(Settle(m, fuel, draws).value.output)
    decreases fuel
  {
    if fuel > 0 {
      var o := Step(m, FirstDraw(draws));
      assert Run(m, fuel, draws) == Resume(o, fuel - 1, LaterDraws(draws));
      assert Settle(m, fuel, draws) == Settled(o, fuel - 1, LaterDraws(draws));
      if o.Continue? {
        SettleAgrees(o.next, fuel - 1, LaterDraws(draws));
      }
    }
  }

  /** The top-level `interpret(str)` with a step bound: a fresh interpreter reads and runs the text. */
  function Interpretation(text: seq<CodePoint>, fuel: nat, draws: seq<nat>): RunResult {
    Run(Load(text), fuel, draws)
  }
}
