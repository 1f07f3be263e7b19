/**
 * The line structure of generated statements, stated independently of the
 * indentation depth: every statement becomes a list of lines, each with a
 * depth relative to the statement, and a nested block's lines sit one level
 * deeper than its header. Generating at depth k is rendering these lines with
 * k extra levels: each line's first physical line is shifted right by k levels.
 * A line's text may itself hold line breaks, copied from a string literal that
 * spans lines; what follows such a break is not indented.
 */
module Layout {
  import opened Ast
  import opened Parser
  import opened CodeGen
  import ExprText

  /** One emitted line: its depth relative to the enclosing statement and its text. The
      indentation goes before the text only, so a line break inside the text (from a
      multi-line string literal) starts a physical line at column 0. */
  datatype Line = Line(depth: nat, text: string)

  /** Lines written out at a base indentation, each followed by a newline. */
  function Render(lines: seq<Line>, indent: nat): string {
    if lines == [] then ""
    else EmitLine(Indent(indent + lines[0].depth), lines[0].text) + Render(lines[1..], indent)
  }

  /** The same lines one level deeper. */
  function Nest(lines: seq<Line>): (r: seq<Line>)
    ensures |r| == |lines|
  {
    if lines == [] then [] else [Line(lines[0].depth + 1, lines[0].text)] + Nest(lines[1..])
  }

  lemma {:induction false} RenderAppend(a: seq<Line>, b: seq<Line>, indent: nat)
    ensures Render(a + b, indent) == Render(a, indent) + Render(b, indent)
    decreases |a|
  {
    if a == [] {
      assert a + b == b;
    } else {
      RenderAppend(a[1..], b, indent);
      RenderCons(a[0], a[1..] + b, indent);
      RenderCons(a[0], a[1..], indent);
      assert a + b == [a[0]] + (a[1..] + b);
      ConcatAssoc(EmitLine(Indent(indent + a[0].depth), a[0].text), Render(a[1..], indent), Render(b, indent));
    }
  }

  /** Regrouping a concatenation. Stated on its own so that the solver proves it in a small
      context instead of inside the induction above. */
  lemma ConcatAssoc(x: string, y: string, z: string)
    ensures x + (y + z) == (x + y) + z
  {
  }

  /** Nesting lines one level is the same as rendering them one level deeper. */
  lemma {:induction false} RenderNest(lines: seq<Line>, indent: nat)
    ensures Render(Nest(lines), indent) == Render(lines, indent + 1)
    decreases |lines|
  {
    if lines != [] {
      assert Nest(lines)[1..] == Nest(lines[1..]);
      RenderNest(lines[1..], indent);
    }
  }

  /** Rendered lines end with a newline. */
  lemma {:induction false} RenderEndsWithNewline(lines: seq<Line>, indent: nat)
    requires lines != []
    ensures |Render(lines, indent)| > 0 && Render(lines, indent)[|Render(lines, indent)| - 1] == '\n'
    decreases |lines|
  {
    if |lines| > 1 {
      RenderEndsWithNewline(lines[1..], indent);
    }
  }

  /** Every statement and block the parser builds can be generated without failing. */
  lemma {:induction false} StatementHandled(n: Node)
    requires IsStatement(n)
    ensures Handles(n)
    decreases n, 1
  {
    match n.kind
    case "declaration" =>
      if |n.children| > 0 { ExprText.ExprHandled(n.children[0]); }
    case "assignment" => ExprText.ExprHandled(n.children[0]);
    case "increment" =>
    case "if" =>
      ExprText.ExprHandled(n.children[0]);
      BlockHandled(n.children[1]);
      if |n.children| > 2 { BlockHandled(n.children[2]); }
    case "for" =>
      ExprText.ExprHandled(n.children[0]);
      ExprText.ExprHandled(n.children[1]);
      BlockHandled(n.children[2]);
    case "while" =>
      ExprText.ExprHandled(n.children[0]);
      BlockHandled(n.children[1]);
    case "function" =>
      assert forall i :: 0 <= i < |n.children[0].children| ==> IsParam(n.children[0].children[i]);
      BlockHandled(n.children[1]);
    case "class" =>
    case "output" => ExprText.ExprHandled(n.children[0]);
    case "return" => ExprText.ExprHandled(n.children[0]);
  }

  lemma {:induction false} BlockHandled(n: Node)
    requires IsStatements(n)
    ensures Handles(n)
    decreases n, 0
  {
    forall i | 0 <= i < |n.children|
      ensures Handles(n.children[i])
    {
      StatementHandled(n.children[i]);
    }
  }

  /** A program the parser builds can be generated without failing. */
  lemma ProgramHandled(n: Node)
    requires IsProgram(n)
    ensures Handles(n)
  {
    BlockHandled(n.children[0]);
  }

  /** The `self.<name> = 0` lines for a class's member names, in order, relative to the
      class header's depth. */
  function MemberLines(names: seq<string>): (r: seq<Line>)
    ensures |r| == |names|
  {
    if names == [] then [] else [Line(2, "self." + names[0] + " = 0")] + MemberLines(names[1..])
  }

  /** The lines of a statement, relative to the statement's own depth. */
  function StatementLines(n: Node): (r: seq<Line>)
    requires IsStatement(n)
    ensures |r| > 0 && r[0].depth == 0
    decreases n, 1
  {
    match n.kind
    case "declaration" =>
      [Line(0, ValueText(n.value) + " = " + (if |n.children| > 0 then ExprText.ExprString(n.children[0]) else "0"))]
    case "assignment" => [Line(0, ValueText(n.value) + " = " + ExprText.ExprString(n.children[0]))]
    case "increment" => [Line(0, ValueText(n.value) + " = " + ValueText(n.value) + " + 1")]
    case "if" =>
      [Line(0, "if " + ExprText.ExprString(n.children[0]) + ":")] + Nest(BlockLines(n.children[1]))
      + (if |n.children| > 2 then [Line(0, "else:")] + Nest(BlockLines(n.children[2])) else [])
    case "for" =>
      [Line(0, "for " + ValueText(n.value) + " in range(" + ExprText.ExprString(n.children[0]) + ", "
               + ExprText.ExprString(n.children[1]) + "):")]
      + Nest(BlockLines(n.children[2]))
    case "while" =>
      [Line(0, "while " + ExprText.ExprString(n.children[0]) + ":")] + Nest(BlockLines(n.children[1]))
    case "function" =>
      [Line(0, "def " + ValueText(n.value) + "(" + JoinComma(TextValues(n.children[0].children)) + "):")]
      + Nest(BlockLines(n.children[1]))
    case "class" =>
      [Line(0, "class " + ValueText(n.value) + ":"), Line(1, "def __init__(self):")]
      + (DeclarationsAreNamed(n.children[0]); MemberLines(TextValues(n.children[0].children)))
    case "output" =>
      [Line(0, "print(" + ExprText.ExprString(n.children[0]) + ", end='"
               + (if n.value == Text("endl") then "\\n" else "") + "')")]
    case "return" => [Line(0, "return " + ExprText.ExprString(n.children[0]))]
  }

  /** The lines of a block: its statements' lines, in order. */
  function BlockLines(n: Node): (r: seq<Line>)
    requires IsStatements(n)
    ensures |r| >= |n.children| > 0
    decreases n, 0
  {
    LinesFrom(n, 0)
  }

  function LinesFrom(n: Node, i: nat): (r: seq<Line>)
    requires IsStatements(n) && i <= |n.children|
    ensures |r| >= |n.children| - i
    decreases n, 0, |n.children| - i
  {
    if i == |n.children| then [] else StatementLines(n.children[i]) + LinesFrom(n, i + 1)
  }

  /** The generator's member loop emits the member lines of the declarations' names. */
  lemma {:induction false} MemberInitsRender(members: seq<Node>, indent: nat)
    requires forall i :: 0 <= i < |members| ==> members[i].value.Text?
    ensures MemberInits(members, Indent(indent)) == Render(MemberLines(TextValues(members)), indent)
    decreases |members|
  {
    if members != [] {
      IndentAdd(indent, 2);
      assert Indent(2) == "        ";
      assert TextValues(members)[1..] == TextValues(members[1..]);
      MemberInitsRender(members[1..], indent);
    }
  }

  /** Rendering a first line and then the rest. */
  lemma RenderCons(line: Line, rest: seq<Line>, indent: nat)
    ensures Render([line] + rest, indent) == EmitLine(Indent(indent + line.depth), line.text) + Render(rest, indent)
  {
    assert ([line] + rest)[1..] == rest;
  }

  /** A header line followed by a block one level deeper. */
  lemma HeaderRenders(head: string, body: seq<Line>, indent: nat)
    ensures Render([Line(0, head)] + Nest(body), indent) == EmitLine(Indent(indent), head) + Render(body, indent + 1)
  {
    RenderNest(body, indent);
    RenderCons(Line(0, head), Nest(body), indent);
    assert indent + 0 == indent;
  }

  lemma {:induction false} IfRenders(n: Node, indent: nat)
    requires IsStatement(n) && n.kind == "if"
    ensures Handles(n) && Gen(n, indent) == Render(StatementLines(n), indent)
    decreases n, 0
  {
    StatementHandled(n);
    var c, t := n.children[0], n.children[1];
    var head := "if " + ExprText.ExprString(c) + ":";
    BlockRenders(t, indent + 1);
    HeaderRenders(head, BlockLines(t), indent);
    if |n.children| > 2 {
      var e := n.children[2];
      BlockRenders(e, indent + 1);
      HeaderRenders("else:", BlockLines(e), indent);
      RenderAppend([Line(0, head)] + Nest(BlockLines(t)), [Line(0, "else:")] + Nest(BlockLines(e)), indent);
    } else {
      assert [Line(0, head)] + Nest(BlockLines(t)) + [] == [Line(0, head)] + Nest(BlockLines(t));
    }
  }

  lemma {:induction false} ForRenders(n: Node, indent: nat)
    requires IsStatement(n) && n.kind == "for"
    ensures Handles(n) && Gen(n, indent) == Render(StatementLines(n), indent)
    decreases n, 0
  {
    StatementHandled(n);
    BlockRenders(n.children[2], indent + 1);
    HeaderRenders("for " + ValueText(n.value) + " in range(" + ExprText.ExprString(n.children[0]) + ", "
                  + ExprText.ExprString(n.children[1]) + "):", BlockLines(n.children[2]), indent);
  }

  lemma {:induction false} WhileRenders(n: Node, indent: nat)
    requires IsStatement(n) && n.kind == "while"
    ensures Handles(n) && Gen(n, indent) == Render(StatementLines(n), indent)
    decreases n, 0
  {
    StatementHandled(n);
    BlockRenders(n.children[1], indent + 1);
    HeaderRenders("while " + ExprText.ExprString(n.children[0]) + ":", BlockLines(n.children[1]), indent);
  }

  lemma {:induction false} FunctionRenders(n: Node, indent: nat)
    requires IsStatement(n) && n.kind == "function"
    ensures Handles(n) && Gen(n, indent) == Render(StatementLines(n), indent)
    decreases n, 0
  {
    StatementHandled(n);
    BlockRenders(n.children[1], indent + 1);
    HeaderRenders("def " + ValueText(n.value) + "(" + JoinComma(TextValues(n.children[0].children)) + "):",
                  BlockLines(n.children[1]), indent);
  }

  lemma ClassGen(n: Node, indent: nat)
    requires IsStatement(n) && n.kind == "class"
    ensures Handles(n)
    ensures Gen(n, indent)
            == EmitLine(Indent(indent), "class " + ValueText(n.value) + ":")
               + EmitLine(Indent(indent + 1), "def __init__(self):") + MemberInits(n.children[0].children, Indent(indent))
  {
    StatementHandled(n);
  }

  lemma ClassLines(n: Node)
    requires IsStatement(n) && n.kind == "class"
    ensures forall i :: 0 <= i < |n.children[0].children| ==> n.children[0].children[i].value.Text?
    ensures StatementLines(n)
            == [Line(0, "class " + ValueText(n.value) + ":")]
               + ([Line(1, "def __init__(self):")] + MemberLines(TextValues(n.children[0].children)))
  {
    DeclarationsAreNamed(n.children[0]);
  }

  lemma ClassPartsRender(name: string, ms: seq<Node>, indent: nat)
    requires forall i :: 0 <= i < |ms| ==> ms[i].value.Text?
    ensures EmitLine(Indent(indent), "class " + name + ":") + EmitLine(Indent(indent + 1), "def __init__(self):")
            + MemberInits(ms, Indent(indent))
            == Render([Line(0, "class " + name + ":")] + ([Line(1, "def __init__(self):")] + MemberLines(TextValues(ms))), indent)
  {
    MemberInitsRender(ms, indent);
    TwoHeadersRender("class " + name + ":", "def __init__(self):", MemberLines(TextValues(ms)), indent);
  }

  /** A line, a line one level deeper, then the rest. */
  lemma TwoHeadersRender(first: string, second: string, rest: seq<Line>, indent: nat)
    ensures Render([Line(0, first)] + ([Line(1, second)] + rest), indent)
            == EmitLine(Indent(indent), first) + EmitLine(Indent(indent + 1), second) + Render(rest, indent)
  {
    RenderCons(Line(0, first), [Line(1, second)] + rest, indent);
    RenderCons(Line(1, second), rest, indent);
    assert indent + 0 == indent;
  }

  lemma ClassRenders(n: Node, indent: nat)
    requires IsStatement(n) && n.kind == "class"
    ensures Handles(n) && Gen(n, indent) == Render(StatementLines(n), indent)
  {
    ClassGen(n, indent);
    ClassLines(n);
    ClassPartsRender(ValueText(n.value), n.children[0].children, indent);
  }

  lemma SimpleRenders(n: Node, indent: nat)
    requires IsStatement(n)
    requires n.kind in {"declaration", "assignment", "increment", "output", "return"}
    ensures Handles(n) && Gen(n, indent) == Render(StatementLines(n), indent)
  {
    StatementHandled(n);
    RenderCons(StatementLines(n)[0], [], indent);
    assert indent + 0 == indent;
  }

  /** Generating a statement at depth k renders its lines with k extra levels. */
  lemma {:induction false} StatementRenders(n: Node, indent: nat)
    requires IsStatement(n)
    ensures Handles(n) && Gen(n, indent) == Render(StatementLines(n), indent)
    decreases n, 1
  {
    if n.kind == "if" {
      IfRenders(n, indent);
    } else if n.kind == "for" {
      ForRenders(n, indent);
    } else if n.kind == "while" {
      WhileRenders(n, indent);
    } else if n.kind == "function" {
      FunctionRenders(n, indent);
    } else if n.kind == "class" {
      ClassRenders(n, indent);
    } else {
      SimpleRenders(n, indent);
    }
  }

  /** Generating a block at depth k renders its statements' lines, in order, with k extra levels. */
  lemma {:induction false} BlockRenders(n: Node, indent: nat)
    requires IsStatements(n)
    ensures Handles(n) && Gen(n, indent) == Render(BlockLines(n), indent)
    decreases n, 0
  {
    BlockHandled(n);
    RendersFrom(n, 0, indent);
    assert n.children[0..] == n.children;
  }

  lemma {:induction false} RendersFrom(n: Node, i: nat, indent: nat)
    requires IsStatements(n) && i <= |n.children|
    ensures Handles(n) && GenAll(n.children[i..], indent) == Render(LinesFrom(n, i), indent)
    decreases n, 0, |n.children| - i
  {
    BlockHandled(n);
    if i < |n.children| {
      StatementRenders(n.children[i], indent);
      RendersFrom(n, i + 1, indent);
      assert n.children[i..][1..] == n.children[i + 1..];
      RenderAppend(StatementLines(n.children[i]), LinesFrom(n, i + 1), indent);
    }
  }

  /** A generated program is the lines of its statements at depth zero; it is never
      empty and ends with a newline. */
  lemma ProgramRenders(n: Node)
    requires IsProgram(n)
    ensures Handles(n)
    ensures Gen(n, 0) == Render(BlockLines(n.children[0]), 0)
    ensures |Gen(n, 0)| > 0 && Gen(n, 0)[|Gen(n, 0)| - 1] == '\n'
  {
    ProgramHandled(n);
    BlockRenders(n.children[0], 0);
    assert Gen(n, 0) == Gen(n.children[0], 0) + GenAll(n.children[1..], 0);
    assert n.children[1..] == [];
    RenderEndsWithNewline(BlockLines(n.children[0]), 0);
  }
}
