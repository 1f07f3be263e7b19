/**
 * The token rules transpiler.py writes itself: reserved-word classification of
 * identifier lexemes, the integer/float split of number lexemes, and line
 * counting over runs of newlines. The regular-expression scanner that feeds
 * these rules is library code and is not modelled.
 */
module Lexer {
  import opened Ast

  /** The token names the lexer declares. */
  datatype TokenType =
    | Identifier | Number | StringLit | Int | Float | Class | If | Else | For | While
    | Return | Cout | Endl | LParen | RParen | LBrace | RBrace | Semicolon | Comma
    | Equals | Plus | Minus | Multiply | Divide | Lt | Gt | And | Or | Not
    | Colon | Arrow | LBracket | RBracket | Include | StringH | IOStream | Namespace | Std
    | PlusPlus

  /** Words that are lexed as their own token type rather than as identifiers. */
  const Reserved: map<string, TokenType> := map[
    "int" := Int,
    "float" := Float,
    "class" := Class,
    "if" := If,
    "else" := Else,
    "for" := For,
    "while" := While,
    "return" := Return,
    "cout" := Cout,
    "endl" := Endl,
    "include" := Include,
    "string" := StringH,
    "iostream" := IOStream,
    "namespace" := Namespace,
    "std" := Std
  ]

  predicate IsLetter(c: char) {
    'a' <= c <= 'z' || 'A' <= c <= 'Z'
  }

  /** A lexeme of the identifier pattern `[a-zA-Z_][a-zA-Z0-9_]*`. */
  predicate IsWordLexeme(s: string) {
    && |s| > 0
    && (IsLetter(s[0]) || s[0] == '_')
    && forall i :: 0 < i < |s| ==> IsLetter(s[i]) || IsDigit(s[i]) || s[i] == '_'
  }

  /** A lexeme of the number pattern `\d+(\.\d+)?` over the ASCII digits `0`-`9` only; Python's
      `\d` also matches the other Unicode decimal digits, which this model does not cover. */
  predicate IsNumberLexeme(s: string) {
    || (|s| > 0 && AllDigits(s))
    || exists i :: 0 < i < |s| - 1 && s[i] == '.' && AllDigits(s[..i]) && AllDigits(s[i + 1..])
  }

  /** The token type of a word: its reserved type if it is a reserved word, otherwise `Identifier`. */
  function ClassifyWord(lexeme: string): (t: TokenType)
    requires IsWordLexeme(lexeme)
    ensures t == Identifier <==> lexeme !in Reserved
    ensures lexeme in Reserved ==> t == Reserved[lexeme]
  {
    if lexeme in Reserved then Reserved[lexeme] else Identifier
  }

  /** Distinct reserved words get distinct token types, and none of them is `Identifier`. */
  lemma ReservedIsInjective(a: string, b: string)
    requires a in Reserved && b in Reserved && a != b
    ensures Reserved[a] != Reserved[b] && Reserved[a] != Identifier
  {
  }

  /** Every reserved word matches the identifier pattern, so the word rule can reach each of them. */
  lemma ReservedAreWords(w: string)
    requires w in Reserved
    ensures IsWordLexeme(w)
  {
  }

  /** The payload of a number token: an integer when the lexeme has no '.', a float otherwise. */
  function ScanNumber(lexeme: string): (v: Value)
    requires IsNumberLexeme(lexeme)
    ensures v.IntNum? || v.FloatNum?
    ensures v.FloatNum? <==> '.' in lexeme
    ensures v.IntNum? ==> AllDigits(lexeme) && DecimalValue(lexeme) == v.n
    ensures v.FloatNum? ==> v.lexeme == lexeme
  {
    if '.' in lexeme then FloatNum(lexeme) else IntNum(DecimalValue(lexeme))
  }

  /** An integer lexeme prints back as itself exactly when it has no leading zero. */
  lemma IntLiteralText(lexeme: string)
    requires IsNumberLexeme(lexeme) && '.' !in lexeme
    ensures ScanNumber(lexeme).IntNum?
    ensures ValueText(ScanNumber(lexeme)) == lexeme <==> Canonical(lexeme)
  {
    if Canonical(lexeme) {
      NatTextOfDecimal(lexeme);
    }
  }

  /** Number of newline characters in a piece of text. */
  function NewlineCount(s: string): (k: nat)
    ensures k <= |s|
  {
    if s == [] then 0 else (if s[0] == '\n' then 1 else 0) + NewlineCount(s[1..])
  }

  predicate IsNewlineRun(s: string) {
    |s| > 0 && forall i :: 0 <= i < |s| ==> s[i] == '\n'
  }

  /** In a run of newlines every character is a line break. */
  lemma {:induction false} NewlineRunCount(s: string)
    requires forall i :: 0 <= i < |s| ==> s[i] == '\n'
    ensures NewlineCount(s) == |s|
  {
    if s != [] {
      NewlineRunCount(s[1..]);
    }
  }

  /** The line counter the newline rule advances. */
  class LineCounter {
    var lineno: int

    constructor ()
      ensures lineno == 1
    {
      lineno := 1;
    }

    /** A newline token advances the line number by the length of the run, which is the number of line breaks it holds. */
    method Newline(run: string)
      requires IsNewlineRun(run)
      modifies this
      ensures lineno == old(lineno) + |run|
      ensures lineno == old(lineno) + NewlineCount(run)
    {
      NewlineRunCount(run);
      lineno := lineno + |run|;
    }
  }
}
