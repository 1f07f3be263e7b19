/**
 * What the generator makes of an expression tree, stated independently of the
 * generator: the source tokens of the expression, read left to right, each
 * replaced by its Python spelling and separated by single spaces. In particular
 * no parentheses are introduced and the indentation depth plays no part.
 */
module ExprText {
  import opened Ast
  import opened Parser
  import opened CodeGen

  /** A token of a source expression: an operator or a leaf's text. */
  datatype Token = Op(op: string) | Leaf(text: string)

  /** The tokens of an expression tree in source order (its yield). */
  function SourceTokens(e: Node): (ts: seq<Token>)
    requires IsExpr(e)
    ensures |ts| > 0
    decreases e
  {
    match e.kind
    case "binop" => SourceTokens(e.children[0]) + [Op(e.value.s)] + SourceTokens(e.children[1])
    case "unop" => [Op("!")] + SourceTokens(e.children[0])
    case "literal" => [Leaf(ValueText(e.value))]
  }

  /** Python's spelling of a token: `&&`, `||` and `!` become `and`, `or` and `not`,
      everything else is kept. */
  function PyToken(t: Token): string {
    match t
    case Leaf(text) => text
    case Op(op) =>
      if op == "&&" then "and" else if op == "||" then "or" else if op == "!" then "not" else op
  }

  /** The Python spellings of tokens, separated by single spaces. */
  function SpacedText(ts: seq<Token>): string {
    if ts == [] then ""
    else if |ts| == 1 then PyToken(ts[0])
    else PyToken(ts[0]) + " " + SpacedText(ts[1..])
  }

  lemma {:induction false} SpacedTextAppend(a: seq<Token>, b: seq<Token>)
    requires |a| > 0 && |b| > 0
    ensures SpacedText(a + b) == SpacedText(a) + " " + SpacedText(b)
    decreases |a|
  {
    if |a| > 1 {
      assert (a + b)[1..] == a[1..] + b;
      SpacedTextAppend(a[1..], b);
    } else {
      assert (a + b)[1..] == b;
    }
  }

  /** `OpMap` spells each binary operator the way `PyToken` does. */
  lemma OpMapAgrees(op: string)
    requires op in BinaryOps
    ensures op in OpMap && OpMap[op] == PyToken(Op(op))
  {
  }

  /** Every expression the parser builds can be generated without failing. */
  lemma {:induction false} ExprHandled(e: Node)
    requires IsExpr(e)
    ensures Handles(e)
    decreases e
  {
    match e.kind
    case "binop" =>
      OpMapAgrees(e.value.s);
      ExprHandled(e.children[0]);
      ExprHandled(e.children[1]);
    case "unop" =>
      ExprHandled(e.children[0]);
    case "literal" =>
  }

  /** The text an expression is emitted as (the generator ignores the depth for expressions). */
  function ExprString(e: Node): string
    requires IsExpr(e)
  {
    ExprHandled(e);
    Gen(e, 0)
  }

  /** An expression is emitted as its source tokens in order, operators spelled the
      Python way, separated by single spaces, at any indentation depth. */
  lemma {:induction false} ExprEmitsTokens(e: Node, indent: nat)
    requires IsExpr(e)
    ensures Handles(e)
    ensures Gen(e, indent) == SpacedText(SourceTokens(e))
    decreases e
  {
    ExprHandled(e);
    match e.kind
    case "binop" =>
      var l, r := e.children[0], e.children[1];
      ExprEmitsTokens(l, 0);
      ExprEmitsTokens(r, 0);
      OpMapAgrees(e.value.s);
      SpacedTextAppend(SourceTokens(l) + [Op(e.value.s)], SourceTokens(r));
      SpacedTextAppend(SourceTokens(l), [Op(e.value.s)]);
    case "unop" =>
      ExprEmitsTokens(e.children[0], 0);
      SpacedTextAppend([Op("!")], SourceTokens(e.children[0]));
    case "literal" =>
  }

  /** The emitted text of an expression does not depend on the indentation depth. */
  lemma ExprIgnoresIndent(e: Node, indent: nat)
    requires IsExpr(e)
    ensures Handles(e) && Gen(e, indent) == ExprString(e)
  {
    ExprEmitsTokens(e, indent);
    ExprEmitsTokens(e, 0);
  }
}
