/**
 * `transpile`: lex and parse the C++ text, then generate Python from the tree.
 * Both the lexer and the parser report failure by raising `SyntaxError`, which
 * `transpile` turns into its return value: the caller receives either the
 * generated program or the error message, as one string. Lexing and parsing
 * themselves are library code; their result is a parameter here.
 */
module Transpile {
  import opened Ast
  import opened Parser
  import opened CodeGen
  import Layout

  /** The three ways the front end gives up. */
  datatype Failure =
    | IllegalCharacter(c: char, line: nat)     // the lexer meets a character no rule accepts
    | UnexpectedToken(value: Value, line: nat)  // the parser meets a token no production accepts
    | UnexpectedEnd                             // the input ends inside a production

  /** What the library's lexer and parser make of the input text. */
  datatype ParseOutcome = Parsed(program: Node) | Failed(failure: Failure)

  /** The text of the `SyntaxError` raised for a failure, with the line number in decimal
      and a token value printed as Python's `str` prints it. */
  function Message(f: Failure): (m: string)
    ensures |m| > 0 && m[|m| - 1] != '\n'
    ensures m[0] == 'I' <==> f.IllegalCharacter?
    ensures m[0] == 'S' <==> f.UnexpectedToken?
    ensures m[0] == 'U' <==> f.UnexpectedEnd?
  {
    match f
    case IllegalCharacter(c, line) => IllegalCharacterMessage(c, line)
    case UnexpectedToken(v, line) => "Syntax error at '" + ValueText(v) + "' on line " + NatText(line)
    case UnexpectedEnd => "Unexpected end of input"
  }

  function IllegalCharacterMessage(c: char, line: nat): string {
    "Illegal character '" + [c] + "' at line " + NatText(line)
  }

  /** The lexer's message names the offending character and the line exactly: different
      characters or lines give different messages. */
  lemma IllegalCharacterMessageInjective(c1: char, line1: nat, c2: char, line2: nat)
    requires IllegalCharacterMessage(c1, line1) == IllegalCharacterMessage(c2, line2)
    ensures c1 == c2 && line1 == line2
  {
    var prefix := "Illegal character '";
    var middle := "' at line ";
    var m1, m2 := IllegalCharacterMessage(c1, line1), IllegalCharacterMessage(c2, line2);
    assert |prefix| == 19 && |middle| == 10;
    assert m1[19] == c1 && m2[19] == c2;
    assert m1[30..] == NatText(line1);
    assert m2[30..] == NatText(line2);
    DecimalOfNatText(line1);
    DecimalOfNatText(line2);
  }

  /** `transpile`: the generated program when the front end succeeds, the error message
      otherwise. The two cannot be confused: generated text always ends with a newline and a
      message never does. */
  function Transpile(outcome: ParseOutcome): (r: string)
    requires outcome.Parsed? ==> IsProgram(outcome.program)
    ensures |r| > 0
    ensures r[|r| - 1] == '\n' <==> outcome.Parsed?
    ensures outcome.Failed? ==> r == Message(outcome.failure)
    ensures outcome.Parsed? ==>
              && Handles(outcome.program)
              && r == Layout.Render(Layout.BlockLines(outcome.program.children[0]), 0)
  {
    match outcome
    case Parsed(program) =>
      Layout.ProgramRenders(program);
      GenerateCode(Some(program), 0)
    case Failed(f) => Message(f)
  }
}
