/**
 * The command set of the interpreter: the four headings, the binary and
 * unary operators with their pure `operate` bodies, and the table from a
 * character to the command it triggers (the registry of Command subclasses,
 * written out as a literal).
 */
module Commands {
  import opened PyOps

  /** The four headings, in the order `?` chooses among them. */
  datatype Direction = Left | Right | Up | Down {
    /** The step (dx, dy) an AimCommand stores; up is toward row 0. */
    function Dx(): int {
      match this
      case Left => -1
      case Right => 1
      case Up => 0
      case Down => 0
    }
    function Dy(): int {
      match this
      case Left => 0
      case Right => 0
      case Up => -1
      case Down => 1
    }
  }

  /** (dx, dy) is one of the four unit steps. */
  predicate Cardinal(dx: int, dy: int) {
    (dx == 1 && dy == 0) || (dx == -1 && dy == 0) || (dx == 0 && dy == -1) || (dx == 0 && dy == 1)
  }

  /** Every direction is a cardinal step, and distinct directions are distinct steps. */
  lemma DirectionSteps(d: Direction, e: Direction)
    ensures Cardinal(d.Dx(), d.Dy())
    ensures (d.Dx(), d.Dy()) == (e.Dx(), e.Dy()) ==> d == e
  {
  }

  datatype BinaryOp = Add | Subtract | Multiply | Divide | GreaterThan | Modulo

  /** `operate(a, b)` of the BinaryOperator subclasses; a was popped first, b second. */
  function Operate(op: BinaryOp, a: int, b: int): int {
    match op
    case Add => a + b
    case Subtract => b - a
    case Multiply => a * b
    case Divide => if a == 0 then 0 else FloorDiv(b, a)
    case GreaterThan => if b > a then 1 else 0
    case Modulo => if a == 0 then 0 else FloorMod(b, a)
  }

  /** `operate(a)` of Not. */
  function Negate(a: int): (r: int)
    ensures r == 1 <==> a == 0
    ensures r == 0 <==> a != 0
  {
    if a == 0 then 1 else 0
  }

  /**
   * `/` and `%` agree with each other the way Python's `//` and `%` do, push
   * 0 for a zero divisor, and the remainder is zero or has the sign of a.
   */
  lemma DivideModuloAgree(a: int, b: int)
    ensures a == 0 ==> Operate(Divide, a, b) == 0 && Operate(Modulo, a, b) == 0
    ensures a != 0 ==> b == a * Operate(Divide, a, b) + Operate(Modulo, a, b)
    ensures a > 0 ==> 0 <= Operate(Modulo, a, b) < a
    ensures a < 0 ==> a < Operate(Modulo, a, b) <= 0
  {
    if a != 0 {
      FloorDivision(b, a);
    }
  }

  /** `` ` `` yields a truth value, 1 exactly when b > a. */
  lemma GreaterThanIsBoolean(a: int, b: int)
    ensures Operate(GreaterThan, a, b) == 1 <==> b > a
    ensures Operate(GreaterThan, a, b) == 0 <==> b <= a
  {
  }

  /** The commands: one constructor per Command subclass that has a token. */
  datatype Command =
    | Noop
    | Head(dir: Direction)
    | Binary(op: BinaryOp)
    | Not
    | OutputInteger
    | OutputAscii
    | Duplicate
    | ChooseHorizontal
    | ChooseVertical
    | ChooseRandom
    | Swap
    | Discard
    | Skip
    | Put
    | Get
    | End

  /** The character that triggers each command (its `token` attribute). */
  function Lexeme(cmd: Command): char {
    match cmd
    case Noop => ' '
    case Head(Right) => '>'
    case Head(Left) => '<'
    case Head(Up) => '^'
    case Head(Down) => 'v'
    case Binary(Add) => '+'
    case Binary(Subtract) => '-'
    case Binary(Multiply) => '*'
    case Binary(Divide) => '/'
    case Binary(GreaterThan) => '`'
    case Binary(Modulo) => '%'
    case Not => '!'
    case OutputInteger => '.'
    case OutputAscii => ','
    case Duplicate => ':'
    case ChooseHorizontal => '_'
    case ChooseVertical => '|'
    case ChooseRandom => '?'
    case Swap => '\\'
    case Discard => '$'
    case Skip => '#'
    case Put => 'p'
    case Get => 'g'
    case End => '@'
  }

  /** The command table (`Command.dict()`): the command a character triggers, if any. */
  function Lookup(c: CodePoint): Option<Command> {
    if c == ' ' as int then Some(Noop)
    else if c == '>' as int then Some(Head(Right))
    else if c == '<' as int then Some(Head(Left))
    else if c == '^' as int then Some(Head(Up))
    else if c == 'v' as int then Some(Head(Down))
    else if c == '+' as int then Some(Binary(Add))
    else if c == '-' as int then Some(Binary(Subtract))
    else if c == '*' as int then Some(Binary(Multiply))
    else if c == '/' as int then Some(Binary(Divide))
    else if c == '`' as int then Some(Binary(GreaterThan))
    else if c == '%' as int then Some(Binary(Modulo))
    else if c == '!' as int then Some(Not)
    else if c == '.' as int then Some(OutputInteger)
    else if c == ',' as int then Some(OutputAscii)
    else if c == ':' as int then Some(Duplicate)
    else if c == '_' as int then Some(ChooseHorizontal)
    else if c == '|' as int then Some(ChooseVertical)
    else if c == '?' as int then Some(ChooseRandom)
    else if c == '\\' as int then Some(Swap)
    else if c == '$' as int then Some(Discard)
    else if c == '#' as int then Some(Skip)
    else if c == 'p' as int then Some(Put)
    else if c == 'g' as int then Some(Get)
    else if c == '@' as int then Some(End)
    else None
  }

  /** The table maps each command's own character to it, and only that character. */
  lemma TableInverse(cmd: Command, c: CodePoint)
    ensures Lookup(Lexeme(cmd) as int) == Some(cmd)
    ensures Lookup(c) == Some(cmd) ==> c == Lexeme(cmd) as int
  {
  }

  /** No digit and no quote is a command character, so the lexer's order of tests cannot shadow one. */
  lemma TableAvoidsDigitsAndQuote(c: CodePoint)
    requires IsDigit(c) || c == Quote
    ensures Lookup(c) == None
  {
  }

  /** `Parser.get_command`: the table's command, or a no-op for a character not in it. */
  function GetCommand(c: CodePoint): (cmd: Command)
    ensures Lookup(c).Some? ==> Some(cmd) == Lookup(c)
    ensures Lookup(c).None? ==> cmd == Noop
  {
    match Lookup(c)
    case Some(cmd) => cmd
    case None => Noop
  }

  /** `random.choice` over [HeadLeft, HeadRight, HeadUp, HeadDown], the draw standing for the random source. */
  function RandomHeading(draw: nat): Direction {
    [Left, Right, Up, Down][draw % 4]
  }

  /** Each heading is picked by exactly one residue of the draw modulo 4, so equally many draws lead to each. */
  lemma RandomHeadingResidues(draw: nat)
    ensures RandomHeading(draw) == Left <==> draw % 4 == 0
    ensures RandomHeading(draw) == Right <==> draw % 4 == 1
    ensures RandomHeading(draw) == Up <==> draw % 4 == 2
    ensures RandomHeading(draw) == Down <==> draw % 4 == 3
  {
  }

  /** Each of the four headings is the choice of some draw. */
  lemma EveryHeadingReachable(d: Direction)
    ensures exists draw: nat :: draw < 4 && RandomHeading(draw) == d
  {
    var draw: nat := match d case Left => 0 case Right => 1 case Up => 2 case Down => 3;
    assert RandomHeading(draw) == d;
  }
}
