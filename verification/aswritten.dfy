/**
 * The two commands whose code does not do what their documentation says,
 * modelled as written, next to the corrected behaviour the rest of the
 * model uses (Semantics.Execute).
 */
module AsWritten {
  import opened PyOps
  import opened Commands
  import opened Scanning
  import opened Semantics

  /**
   * Put.execute as written (lines 367-370): pop y and x, pop v, evaluate
   * chr(v), index the row y, then assign into that row. The rows are the
   * `str` pieces `split` returns, and a `str` does not support item
   * assignment, so whenever the pops, chr(v) and program[y] all succeed
   * the statement raises TypeError. The column x is never checked.
   */
  function PutAsWritten(m: Machine): (r: Result<Machine>)
    ensures r.Raise?
    ensures r.exc == TypeError <==>
      |m.data| >= 3 && 0 <= Top(m.data, 2) < 0x11_0000 && PyIndex(Top(m.data, 0), |m.program|).Some?
  {
    var d := m.data;
    if |d| < 3 then Raise(IndexError)
    else match Chr(Top(d, 2))
      case Raise(e) => Raise(e)
      case Ok(_) =>
        if PyIndex(Top(d, 0), |m.program|).None? then Raise(IndexError) else Raise(TypeError)
  }

  /**
   * ChooseRandomDirection.execute as written (line 325): `random.choice`
   * takes one sequence, and it is called with the four classes as four
   * arguments, so the call raises TypeError before any heading is chosen.
   */
  function ChooseRandomAsWritten(m: Machine): (r: Result<Machine>)
    ensures r.Raise? && r.exc == TypeError
  {
    Raise(TypeError)
  }

  /** Every command as written: only `p` and `?` differ from the corrected semantics. */
  function ExecuteAsWritten(cmd: Command, m: Machine, draw: nat): (r: Result<Machine>)
    ensures cmd != Put && cmd != ChooseRandom ==> r == Execute(cmd, m, draw)
  {
    match cmd
    case Put => PutAsWritten(m)
    case ChooseRandom => ChooseRandomAsWritten(m)
    case _ => Execute(cmd, m, draw)
  }

  /**
   * As written, `p` never stores anything: every time the corrected `p`
   * succeeds, the written one raises TypeError instead, and where the
   * corrected one fails the written one fails too.
   */
  lemma PutAsWrittenNeverStores(m: Machine, draw: nat)
    ensures ExecuteAsWritten(Put, m, draw).Raise?
    ensures Execute(Put, m, draw).Ok? ==> ExecuteAsWritten(Put, m, draw) == Raise(TypeError)
  {
    var d := m.data;
    if Execute(Put, m, draw).Ok? {
      assert Chr(Top(d, 2)).Ok?;
      assert Locate(m.program, Top(d, 1), Top(d, 0)).Some?;
    }
  }

  /** The grid of the one-line program " ". */
  const Blank: Grid := [[' ' as int]]

  /** The machine about to run `p` on the program " " with v = 65, x = 0, y = 0 on the stack. */
  const PutA: Machine := Machine(Blank, 0, 0, 1, 0, false, [65, 0, 0], [])

  /** The written `p` gets past the pops, chr(65) and the row index, and then raises TypeError. */
  lemma PutARaises()
    ensures ExecuteAsWritten(Put, PutA, 0) == Raise(TypeError)
  {
    var d := PutA.data;
    assert Top(d, 0) == 0 && Top(d, 2) == 65;
    assert Chr(65) == Ok(65);
  }

  /** The corrected `p` stores 'A' at (0, 0) and consumes the three values. */
  lemma PutAStores()
    ensures Execute(Put, PutA, 0) == Ok(PutA.(program := [[65]], data := []))
  {
    var d := PutA.data;
    assert Top(d, 0) == 0 && Top(d, 1) == 0 && Top(d, 2) == 65;
    assert Popped(d, 3) == [];
    assert Locate(Blank, 0, 0) == Some((0, 0));
    assert SetCell(Blank, 0, 0, 65) == Some([[65]]) by {
      assert Blank[0][0 := 65] == [65];
      assert Blank[0 := [65]] == [[65]];
    }
  }

  /** `g` at (0, 0) then reads back 65. */
  lemma GetAReads()
    ensures Execute(Get, PutA.(program := [[65]], data := [0, 0]), 0) == Ok(PutA.(program := [[65]], data := [65]))
  {
    var m := PutA.(program := [[65]], data := [0, 0]);
    assert Top(m.data, 0) == 0 && Top(m.data, 1) == 0;
    assert Popped(m.data, 2) + [65] == [65];
    assert Cell(m.program, 0, 0) == Some(65);
  }

  /**
   * `p` with v = 65 at (0, 0) on the program " ": the written code raises
   * TypeError, while the corrected one stores 'A' there and `g` at (0, 0)
   * then reads back 65.
   */
  lemma PutCounterexample()
    ensures var m := Machine(Blank, 0, 0, 1, 0, false, [65, 0, 0], []);
      && ExecuteAsWritten(Put, m, 0) == Raise(TypeError)
      && Execute(Put, m, 0) == Ok(m.(program := [[65]], data := []))
      && Execute(Get, m.(program := [[65]], data := [0, 0]), 0) == Ok(m.(program := [[65]], data := [65]))
  {
    PutARaises();
    PutAStores();
    GetAReads();
  }

  /**
   * `?` as written aborts every run that reaches it, while the corrected
   * command always succeeds and can take each of the four headings.
   */
  lemma ChooseRandomCounterexample(m: Machine, draw: nat)
    ensures ExecuteAsWritten(ChooseRandom, m, draw) == Raise(TypeError)
    ensures Execute(ChooseRandom, m, draw) == Ok(m.Aimed(RandomHeading(draw)))
    ensures forall d: Direction :: exists k: nat :: k < 4 && Execute(ChooseRandom, m, k) == Ok(m.Aimed(d))
  {
    forall d: Direction ensures exists k: nat :: k < 4 && Execute(ChooseRandom, m, k) == Ok(m.Aimed(d)) {
      EveryHeadingReachable(d);
      var k: nat :| k < 4 && RandomHeading(k) == d;
      assert Execute(ChooseRandom, m, k) == Ok(m.Aimed(d));
    }
  }
}
