/**
 * The code generator of transpiler.py: a recursive walk over node tags that
 * emits Python text, four spaces per indentation level. Its only state is the
 * text it accumulates, so it is modelled as a function of the tree and the
 * indentation depth.
 */
module CodeGen {
  import opened Ast

  /** Python operators for the source's binary operators. */
  const OpMap: map<string, string> := map[
    "+" := "+", "-" := "-", "*" := "*", "/" := "/",
    "<" := "<", ">" := ">", "&&" := "and", "||" := "or"
  ]

  /** The tags the generator has a branch for. */
  const GeneratedKinds: set<string> := {
    "program", "statements", "declaration", "assignment", "increment", "if", "for", "while",
    "function", "class", "output", "return", "binop", "unop", "literal"
  }

  /** The indentation for a depth: four spaces per level. */
  function Indent(depth: nat): (r: string)
    ensures |r| == 4 * depth
  {
    if depth == 0 then "" else Indent(depth - 1) + "    "
  }

  /** The indentation is made of spaces only. */
  lemma {:induction false} IndentIsSpaces(depth: nat)
    ensures forall i :: 0 <= i < |Indent(depth)| ==> Indent(depth)[i] == ' '
  {
    if depth > 0 {
      IndentIsSpaces(depth - 1);
    }
  }

  /** The indentation of a sum of depths is the concatenation of their indentations. */
  lemma {:induction false} IndentAdd(a: nat, b: nat)
    ensures Indent(a + b) == Indent(a) + Indent(b)
    decreases b
  {
    if b > 0 {
      IndentAdd(a, b - 1);
    }
  }

  /** Whether the generator can walk a node without failing: every child it
      indexes is present, every operator it looks up is in `OpMap`, and every
      parameter name it joins is text. Nodes with other tags need nothing. */
  predicate Handles(n: Node)
    decreases n
  {
    match n.kind
    case "program" => forall i :: 0 <= i < |n.children| ==> Handles(n.children[i])
    case "statements" => forall i :: 0 <= i < |n.children| ==> Handles(n.children[i])
    case "declaration" => |n.children| > 0 ==> Handles(n.children[0])
    case "assignment" => |n.children| > 0 && Handles(n.children[0])
    case "if" =>
      && |n.children| >= 2 && Handles(n.children[0]) && Handles(n.children[1])
      && (|n.children| > 2 ==> Handles(n.children[2]))
    case "for" =>
      |n.children| >= 3 && Handles(n.children[0]) && Handles(n.children[1]) && Handles(n.children[2])
    case "while" => |n.children| >= 2 && Handles(n.children[0]) && Handles(n.children[1])
    case "function" =>
      && |n.children| >= 2 && Handles(n.children[1])
      && forall i :: 0 <= i < |n.children[0].children| ==> n.children[0].children[i].value.Text?
    case "class" => |n.children| >= 1
    case "output" => |n.children| >= 1 && Handles(n.children[0])
    case "return" => |n.children| >= 1 && Handles(n.children[0])
    case "binop" =>
      && |n.children| >= 2 && n.value.Text? && n.value.s in OpMap
      && Handles(n.children[0]) && Handles(n.children[1])
    case "unop" => |n.children| >= 1 && Handles(n.children[0])
    case _ => true
  }

  /** The text payloads of a list of nodes, in order: the parameter names of a function
      header, or the member names of a class. */
  function TextValues(nodes: seq<Node>): (names: seq<string>)
    requires forall i :: 0 <= i < |nodes| ==> nodes[i].value.Text?
    ensures |names| == |nodes|
    ensures forall i :: 0 <= i < |nodes| ==> names[i] == nodes[i].value.s
  {
    if nodes == [] then [] else [nodes[0].value.s] + TextValues(nodes[1..])
  }

  /** Python's `', '.join(names)`. */
  function JoinComma(names: seq<string>): string {
    if names == [] then ""
    else if |names| == 1 then names[0]
    else names[0] + ", " + JoinComma(names[1..])
  }

  /** One emitted line: the indentation, the text and a newline. The text may hold line breaks
      of its own (a multi-line string literal); only the start of the text is indented. */
  function EmitLine(pad: string, text: string): string {
    pad + text + "\n"
  }

  /** One `self.<name> = 0` line per class member, eight spaces deeper than the class header. */
  function MemberInits(members: seq<Node>, pad: string): string {
    if members == [] then ""
    else EmitLine(pad + "        ", "self." + ValueText(members[0].value) + " = 0") + MemberInits(members[1..], pad)
  }

  /** The text `generate_code(node, indent)` returns for a node. */
  function Gen(n: Node, indent: nat): string
    requires Handles(n)
    decreases n
  {
    var pad := Indent(indent);
    match n.kind
    case "program" => GenAll(n.children, indent)
    case "statements" => GenAll(n.children, indent)
    case "declaration" =>
      EmitLine(pad, ValueText(n.value) + " = " + (if |n.children| > 0 then Gen(n.children[0], 0) else "0"))
    case "assignment" =>
      EmitLine(pad, ValueText(n.value) + " = " + Gen(n.children[0], 0))
    case "increment" =>
      EmitLine(pad, ValueText(n.value) + " = " + ValueText(n.value) + " + 1")
    case "if" =>
      EmitLine(pad, "if " + Gen(n.children[0], 0) + ":") + Gen(n.children[1], indent + 1)
      + (if |n.children| > 2 then EmitLine(pad, "else:") + Gen(n.children[2], indent + 1) else "")
    case "for" =>
      EmitLine(pad, "for " + ValueText(n.value) + " in range(" + Gen(n.children[0], 0) + ", "
                    + Gen(n.children[1], 0) + "):")
      + Gen(n.children[2], indent + 1)
    case "while" =>
      EmitLine(pad, "while " + Gen(n.children[0], 0) + ":") + Gen(n.children[1], indent + 1)
    case "function" =>
      EmitLine(pad, "def " + ValueText(n.value) + "(" + JoinComma(TextValues(n.children[0].children)) + "):")
      + Gen(n.children[1], indent + 1)
    case "class" =>
      EmitLine(pad, "class " + ValueText(n.value) + ":") + EmitLine(pad + "    ", "def __init__(self):")
      + MemberInits(n.children[0].children, pad)
    case "output" =>
      EmitLine(pad, "print(" + Gen(n.children[0], 0) + ", end='" + (if n.value == Text("endl") then "\\n" else "") + "')")
    case "return" =>
      EmitLine(pad, "return " + Gen(n.children[0], 0))
    case "binop" =>
      Gen(n.children[0], 0) + " " + OpMap[n.value.s] + " " + Gen(n.children[1], 0)
    case "unop" =>
      "not " + Gen(n.children[0], 0)
    case "literal" => ValueText(n.value)
    case _ => ""
  }

  /** The children of a `program` or `statements` node, each at the same indentation, in order. */
  function GenAll(cs: seq<Node>, indent: nat): string
    requires forall i :: 0 <= i < |cs| ==> Handles(cs[i])
    decreases cs
  {
    if cs == [] then "" else Gen(cs[0], indent) + GenAll(cs[1..], indent)
  }

  /** `generate_code` on an absent node (`None`) returns the empty text. */
  function GenerateCode(ast: Option<Node>, indent: nat): (r: string)
    requires ast.Some? ==> Handles(ast.value)
    ensures ast.None? ==> r == ""
  {
    match ast
    case None => ""
    case Some(n) => Gen(n, indent)
  }
}
