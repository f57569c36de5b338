/** Text helpers for the two chat reports: JavaScript's conversion of a
    non-negative integer to its decimal text, `Array.prototype.join('\n')`,
    and the split of a chat message into the lines a reader sees. */
module Text {

  datatype Option<T> = None | Some(value: T)

  predicate IsDigit(c: char) {
    '0' <= c <= '9'
  }

  predicate AllDigits(s: string) {
    forall i :: 0 <= i < |s| ==> IsDigit(s[i])
  }

  /** A message line never spans a line break. */
  predicate NoNewline(s: string) {
    '\n' !in s
  }

  /** The value of one decimal digit, as `parseInt(c, 10)` reads it. */
  function DigitValue(c: char): (k: nat)
    requires IsDigit(c)
    ensures k < 10
  {
    (c as int) - ('0' as int)
  }

  function DigitChar(k: nat): (c: char)
    requires k < 10
    ensures IsDigit(c) && DigitValue(c) == k
  {
    (('0' as int) + k) as char
  }

  /** The text JavaScript produces for the number `n` in `'' + n`:
      at least one digit, no leading zero. */
  function Decimal(n: nat): (s: string)
    ensures 1 <= |s| && AllDigits(s)
    ensures s[0] == '0' <==> n == 0
  {
    if n < 10 then [DigitChar(n)] else Decimal(n / 10) + [DigitChar(n % 10)]
  }

  /** The number a string of decimal digits denotes (its inverse). */
  function DecimalValue(s: string): nat
    requires AllDigits(s)
  {
    if s == [] then 0 else 10 * DecimalValue(s[..|s| - 1]) + DigitValue(s[|s| - 1])
  }

  lemma {:induction false} DecimalRoundTrip(n: nat)
    ensures DecimalValue(Decimal(n)) == n
  {
    if n >= 10 {
      var s := Decimal(n);
      assert s[..|s| - 1] == Decimal(n / 10);
      DecimalRoundTrip(n / 10);
    }
  }

  lemma DecimalInjective(a: nat, b: nat)
    ensures Decimal(a) == Decimal(b) <==> a == b
  {
    DecimalRoundTrip(a);
    DecimalRoundTrip(b);
  }

  lemma Associative(a: string, b: string, c: string)
    ensures a + b + c == a + (b + c)
  {
  }

  /** `parts.join('\n')`. */
  function Join(parts: seq<string>): string
  {
    if |parts| == 0 then ""
    else if |parts| == 1 then parts[0]
    else parts[0] + "\n" + Join(parts[1..])
  }

  /** The lines of a text: the pieces between its '\n' characters. */
  function Split(s: string): (lines: seq<string>)
    ensures 1 <= |lines|
  {
    if s == [] then [""]
    else
      var rest := Split(s[1..]);
      if s[0] == '\n' then [""] + rest
      else [[s[0]] + rest[0]] + rest[1..]
  }

  /** Text without a line break joins the first line of what follows it. */
  lemma {:induction false} SplitPlain(a: string, b: string)
    requires NoNewline(a)
    ensures Split(a + b) == [a + Split(b)[0]] + Split(b)[1..]
  {
    var t := Split(b);
    if a == [] {
      assert a + b == b && a + t[0] == t[0];
      assert t == [t[0]] + t[1..];
    } else {
      assert (a + b)[1..] == a[1..] + b;
      SplitPlain(a[1..], b);
      assert [a[0]] + (a[1..] + Split(b)[0]) == a + Split(b)[0];
    }
  }

  /** A line ended by '\n' splits off as one whole line. */
  lemma SplitLine(a: string, b: string)
    requires NoNewline(a)
    ensures Split(a + "\n" + b) == [a] + Split(b)
  {
    assert a + "\n" + b == a + ("\n" + b);
    assert ("\n" + b)[1..] == b;
    SplitPlain(a, "\n" + b);
    assert Split("\n" + b) == [""] + Split(b);
    assert a + "" == a;
  }

  /** Each line followed by '\n', concatenated. */
  function Terminated(lines: seq<string>): string {
    if lines == [] then "" else Terminated(lines[..|lines| - 1]) + lines[|lines| - 1] + "\n"
  }

  lemma TerminatedOne(line: string)
    ensures Terminated([line]) == line + "\n"
  {
    assert [line][..0] == [];
  }

  lemma TerminatedLast(lines: seq<string>, rest: string)
    requires lines != []
    ensures Terminated(lines) + rest
         == Terminated(lines[..|lines| - 1]) + (lines[|lines| - 1] + "\n" + rest)
  {
    var done, last := Terminated(lines[..|lines| - 1]), lines[|lines| - 1];
    Associative(done + last, "\n", rest);
    Associative(done, last, "\n" + rest);
    Associative(last, "\n", rest);
  }

  /** Lines each ended by '\n' split back into those lines, then whatever follows. */
  lemma {:induction false} SplitTerminated(lines: seq<string>, rest: string)
    requires forall i :: 0 <= i < |lines| ==> NoNewline(lines[i])
    ensures Split(Terminated(lines) + rest) == lines + Split(rest)
  {
    if lines == [] {
      assert Terminated(lines) + rest == rest;
    } else {
      var init, last := lines[..|lines| - 1], lines[|lines| - 1];
      var tail := last + "\n" + rest;
      calc {
        Split(Terminated(lines) + rest);
        { TerminatedLast(lines, rest); }
        Split(Terminated(init) + tail);
        { assert forall i :: 0 <= i < |init| ==> init[i] == lines[i];
          SplitTerminated(init, tail); }
        init + Split(tail);
        { SplitLine(last, rest); }
        init + ([last] + Split(rest));
        { assert lines == init + [last]; }
        lines + Split(rest);
      }
    }
  }

  /** Joining lines without line breaks and splitting again gives the lines back. */
  lemma {:induction false} SplitJoin(parts: seq<string>)
    requires 1 <= |parts|
    requires forall i :: 0 <= i < |parts| ==> NoNewline(parts[i])
    ensures Split(Join(parts)) == parts
  {
    if |parts| == 1 {
      assert parts[0] + "" == parts[0];
      SplitPlain(parts[0], "");
    } else {
      SplitLine(parts[0], Join(parts[1..]));
      SplitJoin(parts[1..]);
    }
  }
}
