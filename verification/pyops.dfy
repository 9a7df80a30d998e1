/**
 * The pieces of Python's own semantics that befunge.py leans on: the values a
 * `str` is made of, the exceptions the interpreter can raise, sequence
 * indexing with negative indices, floor division and modulo, the `{:d}` and
 * `{:c}` formats, and `str.split('\n')`.
 */
module PyOps {

  /** One element of a Python `str`: a code point, surrogates included. */
  type CodePoint = c: int | 0 <= c < 0x11_0000

  const Newline: CodePoint := 10
  const Quote: CodePoint := 34
  const Minus: CodePoint := 45
  const Zero: CodePoint := 48

  /** The code points of a Dafny string literal, for writing programs down. */
  function Codes(s: string): (r: seq<CodePoint>)
    ensures |r| == |s|
    ensures forall i :: 0 <= i < |s| ==> r[i] == s[i] as int
  {
    seq(|s|, i requires 0 <= i < |s| => s[i] as int)
  }

  /** The exceptions that end a run of the interpreter. */
  datatype Exception =
    | IndexError                      // pop from an empty list, or an index outside a list or str
    | IllegalCharacter(c: CodePoint)  // SyntaxError("Illegal character: ...")
    | EndedInStringMode               // SyntaxError("Program ended in string mode")
    | ValueError                      // chr() of a value that is not a code point
    | OverflowError                   // "{:c}" of a value that is not a code point
    | TypeError                       // a call or an assignment Python refuses

  datatype Option<+T> = None | Some(value: T)

  datatype Result<+T> = Ok(value: T) | Raise(exc: Exception)

  /**
   * Python's `s[i]` for a sequence of length n: the position it reads, or
   * None where Python raises IndexError. Negative indices count from the end.
   */
  function PyIndex(i: int, n: nat): (r: Option<nat>)
    ensures r.Some? <==> -(n as int) <= i < n
    ensures r.Some? ==> r.value < n && (r.value == i || r.value == i + n)
  {
    if 0 <= i < n then Some(i)
    else if -(n as int) <= i < 0 then Some(i + n)
    else None
  }

  /** Python's `b // a`: the quotient rounded toward minus infinity. */
  function FloorDiv(b: int, a: int): int
    requires a != 0
  {
    if a > 0 || b % a == 0 then b / a else b / a - 1
  }

  /** Python's `b % a`. */
  function FloorMod(b: int, a: int): int
    requires a != 0
  {
    if a > 0 || b % a == 0 then b % a else b % a + a
  }

  /** b == a * (b // a) + b % a, with the remainder zero or of the sign of a. */
  lemma FloorDivision(b: int, a: int)
    requires a != 0
    ensures b == a * FloorDiv(b, a) + FloorMod(b, a)
    ensures a > 0 ==> 0 <= FloorMod(b, a) < a && a * FloorDiv(b, a) <= b < a * FloorDiv(b, a) + a
    ensures a < 0 ==> a < FloorMod(b, a) <= 0 && a * FloorDiv(b, a) + a < b <= a * FloorDiv(b, a)
  {
    if a < 0 && b % a != 0 {
      assert a * (b / a - 1) == a * (b / a) - a;
    }
  }

  predicate IsDigit(c: CodePoint) {
    Zero <= c <= Zero + 9
  }

  /** The decimal digits of n, most significant first, without leading zeros. */
  function DigitsOf(n: nat): (s: seq<CodePoint>)
    ensures |s| >= 1
    ensures forall i :: 0 <= i < |s| ==> IsDigit(s[i])
    ensures s[0] == Zero ==> s == [Zero] && n == 0
    decreases n
  {
    if n < 10 then [Zero + n] else DigitsOf(n / 10) + [Zero + n % 10]
  }

  /** The value of a run of decimal digits. */
  function DigitsValue(s: seq<CodePoint>): nat
    requires forall i :: 0 <= i < |s| ==> IsDigit(s[i])
  {
    if s == [] then 0
    else
      assert IsDigit(s[|s| - 1]);
      DigitsValue(s[..|s| - 1]) * 10 + (s[|s| - 1] - Zero) as nat
  }

  /** `"{:d}".format(v)`: an optional minus sign, then the digits of |v|. */
  function FormatInt(v: int): seq<CodePoint> {
    if v < 0 then [Minus] + DigitsOf(-v) else DigitsOf(v)
  }

  /** The integer a `{:d}` numeral denotes: the inverse of FormatInt. */
  function NumeralValue(s: seq<CodePoint>): int
    requires |s| >= 1
    requires forall i :: 1 <= i < |s| ==> IsDigit(s[i])
    requires s[0] == Minus || IsDigit(s[0])
  {
    if s[0] == Minus then -(DigitsValue(s[1..]) as int) else DigitsValue(s)
  }

  lemma {:induction false} DigitsRoundTrip(n: nat)
    ensures DigitsValue(DigitsOf(n)) == n
    decreases n
  {
    if n >= 10 {
      DigitsRoundTrip(n / 10);
      var s := DigitsOf(n);
      assert s[..|s| - 1] == DigitsOf(n / 10);
    }
  }

  /** What `.` prints reads back as the value popped. */
  lemma FormatIntRoundTrip(v: int)
    ensures var s := FormatInt(v);
      |s| >= 1 && (s[0] == Minus || IsDigit(s[0]))
      && (s[0] == Minus <==> v < 0)
      && (forall i :: 1 <= i < |s| ==> IsDigit(s[i]))
      && NumeralValue(s) == v
  {
    var s := FormatInt(v);
    if v < 0 {
      DigitsRoundTrip(-v);
      assert s[1..] == DigitsOf(-v);
    } else {
      DigitsRoundTrip(v);
    }
  }

  /** `"{:c}".format(v)`: the one-character string with code v. */
  function FormatChar(v: int): (r: Result<seq<CodePoint>>)
    ensures r.Ok? <==> 0 <= v < 0x11_0000
    ensures r.Ok? ==> r.value == [v]
    ensures r.Raise? ==> r.exc == OverflowError
  {
    if 0 <= v < 0x11_0000 then Ok([v]) else Raise(OverflowError)
  }

  /** `chr(v)`. */
  function Chr(v: int): (r: Result<CodePoint>)
    ensures r.Ok? <==> 0 <= v < 0x11_0000
    ensures r.Ok? ==> r.value == v
    ensures r.Raise? ==> r.exc == ValueError
  {
    if 0 <= v < 0x11_0000 then Ok(v) else Raise(ValueError)
  }

  /** `text.split('\n')`: the pieces between line breaks, always at least one. */
  function SplitLines(text: seq<CodePoint>): (rows: seq<seq<CodePoint>>)
    ensures |rows| >= 1
    ensures forall r :: r in rows ==> Newline !in r
  {
    if text == [] then [[]]
    else
      var rest := SplitLines(text[1..]);
      if text[0] == Newline then [[]] + rest
      else [[text[0]] + rest[0]] + rest[1..]
  }

  /** `'\n'.join(rows)`. */
  function JoinLines(rows: seq<seq<CodePoint>>): seq<CodePoint>
    requires |rows| >= 1
  {
    if |rows| == 1 then rows[0] else rows[0] + [Newline] + JoinLines(rows[1..])
  }

  /** Splitting loses nothing: the rows joined again are the text. */
  lemma {:induction false} JoinSplit(text: seq<CodePoint>)
    ensures JoinLines(SplitLines(text)) == text
  {
    if text != [] {
      var rest := SplitLines(text[1..]);
      JoinSplit(text[1..]);
      if text[0] != Newline {
        var rows := SplitLines(text);
        if |rest| == 1 {
          assert rows == [[text[0]] + rest[0]];
        } else {
          assert rows[1..] == rest[1..];
          assert JoinLines(rest) == rest[0] + [Newline] + JoinLines(rest[1..]);
        }
      }
    }
  }

  /** A text without a line break splits into itself alone. */
  lemma {:induction false} SplitOneLine(a: seq<CodePoint>)
    requires Newline !in a
    ensures SplitLines(a) == [a]
  {
    if a != [] {
      assert Newline !in a[1..] by { assert forall k :: k in a[1..] ==> k in a; }
      SplitOneLine(a[1..]);
      assert [a[0]] + a[1..] == a;
    }
  }

  /** The first line break ends the first row; the rest splits on its own. */
  lemma {:induction false} SplitAtNewline(a: seq<CodePoint>, b: seq<CodePoint>)
    requires Newline !in a
    ensures SplitLines(a + [Newline] + b) == [a] + SplitLines(b)
  {
    var t := a + [Newline] + b;
    if a == [] {
      assert t == [Newline] + b && t[1..] == b;
    } else {
      assert t[1..] == a[1..] + [Newline] + b;
      assert Newline !in a[1..] by { assert forall k :: k in a[1..] ==> k in a; }
      SplitAtNewline(a[1..], b);
      assert [a[0]] + a[1..] == a;
    }
  }

  /** Taking off the first element and putting it back in front of a suffix. */
  lemma ConsAppend(a: seq<CodePoint>, b: seq<CodePoint>)
    requires a != []
    ensures [a[0]] + (a[1..] + b) == a + b
  {
    assert [a[0]] + a[1..] == a;
  }

  /** The join begins with the first row's first character, followed by the join of the rest. */
  lemma JoinFirstCharacter(rows: seq<seq<CodePoint>>)
    requires |rows| >= 1 && rows[0] != []
    ensures JoinLines(rows) == [rows[0][0]] + JoinLines([rows[0][1..]] + rows[1..])
  {
    var head := rows[0];
    var shorter := [head[1..]] + rows[1..];
    assert shorter[0] == head[1..];
    if |rows| == 1 {
      ConsAppend(head, []);
      assert head[1..] + [] == head[1..] && head + [] == head;
    } else {
      var rest := rows[1..];
      assert rows == [head] + rest;
      JoinCons(head, rest);
      JoinCons(head[1..], rest);
      ConsAppend(head, [Newline] + JoinLines(rest));
    }
  }

  /** One row in front of at least one more: the row, a line break, then the join of the rest. */
  lemma JoinCons(row: seq<CodePoint>, rest: seq<seq<CodePoint>>)
    requires |rest| >= 1
    ensures JoinLines([row] + rest) == row + ([Newline] + JoinLines(rest))
  {
    assert ([row] + rest)[1..] == rest;
    assert row + [Newline] + JoinLines(rest) == row + ([Newline] + JoinLines(rest));
  }

  /** Rows free of line breaks are what splitting their join gives back. */
  lemma {:induction false} SplitJoin(rows: seq<seq<CodePoint>>)
    requires |rows| >= 1
    requires forall r :: r in rows ==> Newline !in r
    ensures SplitLines(JoinLines(rows)) == rows
    decreases |rows|, |rows[0]|
  {
    if rows[0] != [] {
      var head := rows[0];
      var shorter := [head[1..]] + rows[1..];
      assert forall r :: r in shorter ==> Newline !in r by {
        assert forall r :: r in rows[1..] ==> r in rows;
        assert forall k :: k in head[1..] ==> k in head;
      }
      SplitJoin(shorter);
      JoinFirstCharacter(rows);
      assert JoinLines(rows)[1..] == JoinLines(shorter);
      assert head[0] != Newline by { assert head[0] in head; }
      assert [head[0]] + head[1..] == head;
    } else if |rows| > 1 {
      assert forall r :: r in rows[1..] ==> r in rows;
      SplitJoin(rows[1..]);
      assert JoinLines(rows)[1..] == JoinLines(rows[1..]);
    }
  }
}
