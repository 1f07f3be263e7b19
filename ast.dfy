/**
 * The tree the translator builds: `Node` is the tagged record of transpiler.py
 * (a tag, an ordered list of children and an optional payload), together with
 * the rendering of a payload as text that the generator's f-strings perform.
 */
module Ast {

  datatype Option<T> = None | Some(value: T)

  /** The payload of a node: absent, a piece of text (an identifier, an operator,
      a quoted string lexeme, the `endl` marker), an integer literal or a
      floating-point literal (kept as its lexeme; its numeric value is not modelled). */
  datatype Value = NoValue | Text(s: string) | IntNum(n: nat) | FloatNum(lexeme: string)

  /** A tree node: its tag (`kind`), its children in order and its payload. */
  datatype Node = Node(kind: string, children: seq<Node>, value: Value)

  /** An ASCII decimal digit. */
  predicate IsDigit(c: char) {
    '0' <= c <= '9'
  }

  predicate AllDigits(s: string) {
    forall i :: 0 <= i < |s| ==> IsDigit(s[i])
  }

  function DigitChar(d: nat): (c: char)
    requires d < 10
    ensures IsDigit(c)
  {
    (48 + d) as char
  }

  function DigitValue(c: char): (d: nat)
    requires IsDigit(c)
    ensures d < 10 && DigitChar(d) == c
  {
    (c as int) - 48
  }

  /** Decimal text of a natural number without leading zeros, as Python's `str` of an int. */
  function NatText(n: nat): (r: string)
    ensures |r| > 0 && AllDigits(r)
    ensures r[0] == '0' <==> n == 0
    ensures n < 10 <==> |r| == 1
    decreases n
  {
    if n < 10 then [DigitChar(n)] else NatText(n / 10) + [DigitChar(n % 10)]
  }

  /** The integer a string of decimal digits denotes, as Python's `int` of such a string. */
  function DecimalValue(s: string): nat
    requires AllDigits(s)
    decreases |s|
  {
    if s == [] then 0 else DecimalValue(s[..|s| - 1]) * 10 + DigitValue(s[|s| - 1])
  }

  /** A digit string as `str` would print it: non-empty, and no leading zero unless it is "0". */
  predicate Canonical(s: string) {
    |s| > 0 && AllDigits(s) && (s[0] == '0' ==> |s| == 1)
  }

  /** Parsing the printed form of a number gives the number back. */
  lemma {:induction false} DecimalOfNatText(n: nat)
    ensures DecimalValue(NatText(n)) == n
    decreases n
  {
    if n >= 10 {
      var prefix := NatText(n / 10);
      var s := prefix + [DigitChar(n % 10)];
      assert s[..|s| - 1] == prefix;
      DecimalOfNatText(n / 10);
    }
  }

  lemma {:induction false} DecimalValuePositive(s: string)
    requires AllDigits(s) && |s| > 0 && s[0] != '0'
    ensures DecimalValue(s) > 0
    decreases |s|
  {
    if |s| > 1 {
      DecimalValuePositive(s[..|s| - 1]);
    }
  }

  /** Printing the number a canonical digit string denotes gives that string back;
      together with DecimalOfNatText, `NatText` and `DecimalValue` are inverse
      bijections between naturals and canonical digit strings. */
  lemma {:induction false} NatTextOfDecimal(s: string)
    requires Canonical(s)
    ensures NatText(DecimalValue(s)) == s
    decreases |s|
  {
    if |s| > 1 {
      var prefix := s[..|s| - 1];
      assert Canonical(prefix);
      DecimalValuePositive(prefix);
      NatTextOfDecimal(prefix);
      var n := DecimalValue(s);
      assert n / 10 == DecimalValue(prefix) && n % 10 == DigitValue(s[|s| - 1]);
      assert s == prefix + [s[|s| - 1]];
    }
  }

  /** The text an f-string or `str` produces for a payload. */
  function ValueText(v: Value): (r: string)
    ensures v.Text? ==> r == v.s
    ensures v.IntNum? ==> Canonical(r) && DecimalValue(r) == v.n
  {
    match v
    case NoValue => "None"
    case Text(s) => s
    case IntNum(n) =>
      DecimalOfNatText(n);
      NatText(n)
    case FloatNum(lexeme) => lexeme
  }
}
