/**
 * What each construct is translated to: for every tree-building action, the
 * exact Python text the generator emits for the node it builds, in terms of
 * the pieces of the production.
 */
module Constructs {
  import opened Ast
  import opened Parser
  import opened CodeGen
  import ExprText
  import Layout

  /** A declaration without initializer emits `name = 0`; with one, `name = <expr>`. */
  lemma DeclarationEmits(name: string, init: Option<Node>, indent: nat)
    requires init.Some? ==> IsExpr(init.value)
    ensures Handles(DeclarationAction(name, init))
    ensures Gen(DeclarationAction(name, init), indent)
            == Indent(indent) + name + " = " + (if init.Some? then ExprText.ExprString(init.value) else "0") + "\n"
  {
    if init.Some? {
      ExprText.ExprHandled(init.value);
    }
  }

  lemma AssignmentEmits(name: string, e: Node, indent: nat)
    requires IsExpr(e)
    ensures Handles(AssignmentAction(name, e))
    ensures Gen(AssignmentAction(name, e), indent) == Indent(indent) + name + " = " + ExprText.ExprString(e) + "\n"
  {
    ExprText.ExprHandled(e);
  }

  /** `n++;` emits `n = n + 1`, indented by four spaces per level. */
  lemma IncrementEmits(name: string, indent: nat)
    ensures Gen(IncrementAction(name), indent) == Indent(indent) + name + " = " + name + " + 1\n"
    ensures |Indent(indent)| == 4 * indent && forall i :: 0 <= i < 4 * indent ==> Indent(indent)[i] == ' '
  {
    IndentIsSpaces(indent);
  }

  /** A print always passes an explicit terminator: a newline for the `<< endl` form, empty otherwise. */
  lemma OutputEmits(e: Node, endl: bool, indent: nat)
    requires IsExpr(e)
    ensures Handles(OutputAction(e, endl))
    ensures Gen(OutputAction(e, endl), indent)
            == Indent(indent) + "print(" + ExprText.ExprString(e) + ", end='" + (if endl then "\\n" else "") + "')\n"
  {
    ExprText.ExprHandled(e);
  }

  lemma ReturnEmits(e: Node, indent: nat)
    requires IsExpr(e)
    ensures Handles(ReturnAction(e))
    ensures Gen(ReturnAction(e), indent) == Indent(indent) + "return " + ExprText.ExprString(e) + "\n"
  {
    ExprText.ExprHandled(e);
  }

  /** `if` emits its condition and then-block one level deeper; `else:` and the else-block
      appear exactly when the production had an else part. */
  lemma IfEmits(cond: Node, thenBlock: Node, elseBlock: Option<Node>, indent: nat)
    requires IsExpr(cond) && IsStatements(thenBlock)
    requires elseBlock.Some? ==> IsStatements(elseBlock.value)
    ensures Handles(IfAction(cond, thenBlock, elseBlock)) && Handles(thenBlock)
    ensures elseBlock.Some? ==> Handles(elseBlock.value)
    ensures Gen(IfAction(cond, thenBlock, elseBlock), indent)
            == EmitLine(Indent(indent), "if " + ExprText.ExprString(cond) + ":") + Gen(thenBlock, indent + 1)
               + (if elseBlock.Some? then EmitLine(Indent(indent), "else:") + Gen(elseBlock.value, indent + 1) else "")
  {
    var r := IfAction(cond, thenBlock, elseBlock);
    Layout.StatementHandled(r);
    ExprText.ExprHandled(cond);
  }

  /** `for` emits `for v in range(<init>, <condition>):` with the whole condition expression as the
      bound, and the body one level deeper. The identifier incremented in the header does not
      appear in the output. */
  lemma ForEmits(loopVar: string, init: Node, cond: Node, update: string, body: Node, indent: nat)
    requires IsExpr(init) && IsExpr(cond) && IsStatements(body)
    ensures Handles(ForAction(loopVar, init, cond, update, body)) && Handles(body)
    ensures Gen(ForAction(loopVar, init, cond, update, body), indent)
            == EmitLine(Indent(indent), "for " + loopVar + " in range(" + ExprText.ExprString(init) + ", "
                        + ExprText.ExprString(cond) + "):") + Gen(body, indent + 1)
  {
    Layout.StatementHandled(ForAction(loopVar, init, cond, update, body));
    ExprText.ExprHandled(init);
    ExprText.ExprHandled(cond);
  }

  /** The canonical loop `for (int i = 0; i < 5; i++) { x++; }` is emitted with the
      comparison `i < 5`, not the bound 5, as the end of the range. */
  lemma ForRangeTakesWholeCondition()
    ensures var loop := ForAction("i", LiteralAction(IntNum(0)), ExampleCondition(), "i", ExampleBody());
            && Handles(loop)
            && Gen(loop, 0) == EmitLine("", "for " + "i" + " in range(" + "0" + ", " + "i < 5" + "):") + "    x = x + 1\n"
  {
    ExampleParts();
    ForEmits("i", LiteralAction(IntNum(0)), ExampleCondition(), "i", ExampleBody(), 0);
  }

  /** `i < 5` */
  function ExampleCondition(): (e: Node)
    ensures IsExpr(e)
  {
    BinopAction(LiteralAction(Text("i")), "<", LiteralAction(IntNum(5)))
  }

  /** `{ x++; }` */
  function ExampleBody(): (b: Node)
    ensures IsStatements(b)
  {
    Node("statements", [IncrementAction("x")], NoValue)
  }

  lemma ExampleParts()
    ensures ExprText.ExprString(LiteralAction(IntNum(0))) == "0"
    ensures ExprText.ExprString(ExampleCondition()) == "i < 5"
    ensures Handles(ExampleBody()) && Gen(ExampleBody(), 1) == "    x = x + 1\n"
  {
    ExampleConditionText();
    ExampleBodyText();
  }

  lemma ExampleConditionText()
    ensures ExprText.ExprString(ExampleCondition()) == "i < 5"
  {
    ExprText.ExprHandled(ExampleCondition());
  }

  lemma ExampleBodyText()
    ensures Handles(ExampleBody()) && Gen(ExampleBody(), 1) == "    x = x + 1\n"
  {
    assert Indent(1) == "    ";
    assert Gen(IncrementAction("x"), 1) == EmitLine("    ", "x" + " = " + "x" + " + 1");
    assert Gen(ExampleBody(), 1) == Gen(IncrementAction("x"), 1) + GenAll([], 1);
  }

  lemma WhileEmits(cond: Node, body: Node, indent: nat)
    requires IsExpr(cond) && IsStatements(body)
    ensures Handles(WhileAction(cond, body)) && Handles(body)
    ensures Gen(WhileAction(cond, body), indent)
            == Indent(indent) + "while " + ExprText.ExprString(cond) + ":\n" + Gen(body, indent + 1)
  {
    Layout.StatementHandled(WhileAction(cond, body));
    ExprText.ExprHandled(cond);
  }

  /** A function emits `def name(p1, p2, ...):` with the parameter names in order and
      their types dropped, and its body one level deeper. */
  lemma FunctionEmits(name: string, params: Node, body: Node, indent: nat)
    requires IsParams(params) && IsStatements(body)
    ensures Handles(FunctionAction(name, params, body)) && Handles(body)
    ensures forall i :: 0 <= i < |params.children| ==> params.children[i].value.Text?
    ensures Gen(FunctionAction(name, params, body), indent)
            == Indent(indent) + "def " + name + "(" + JoinComma(TextValues(params.children)) + "):\n"
               + Gen(body, indent + 1)
  {
    Layout.StatementHandled(FunctionAction(name, params, body));
  }

  /** Python's `', '.join` of two names. */
  lemma JoinTwo(a: string, b: string)
    ensures JoinComma([a, b]) == a + ", " + b
  {
    assert [a, b][1..] == [b];
  }

  /** A class emits `class N:`, then `def __init__(self):` one level deeper, then one
      `self.m = 0` line per member two levels deeper, in declaration order; member
      initializers are not emitted. */
  lemma ClassEmits(name: string, decls: Node, indent: nat)
    requires IsDeclarations(decls)
    ensures forall i :: 0 <= i < |decls.children| ==> decls.children[i].value.Text?
    ensures Gen(ClassAction(name, decls), indent)
            == EmitLine(Indent(indent), "class " + name + ":") + EmitLine(Indent(indent + 1), "def __init__(self):")
               + Layout.Render(Layout.MemberLines(TextValues(decls.children)), indent)
  {
    DeclarationsAreNamed(decls);
    Layout.MemberInitsRender(decls.children, indent);
  }

  /** `class N { int a; int b; };` at the top level (for instance `class Point { int x; int y; };`). */
  lemma ClassOfTwoMembers(name: string, a: string, b: string)
    ensures var decls := Node("declarations", [DeclarationAction(a, None), DeclarationAction(b, None)], NoValue);
            Gen(ClassAction(name, decls), 0)
            == EmitLine("", "class " + name + ":") + EmitLine("    ", "def __init__(self):")
               + EmitLine("        ", "self." + a + " = 0") + EmitLine("        ", "self." + b + " = 0")
  {
    var decls := Node("declarations", [DeclarationAction(a, None), DeclarationAction(b, None)], NoValue);
    ClassEmits(name, decls, 0);
    TwoMemberNames(a, b);
    TwoMembersText(a, b);
    var head, init := EmitLine("", "class " + name + ":"), EmitLine("    ", "def __init__(self):");
    var la, lb := EmitLine("        ", "self." + a + " = 0"), EmitLine("        ", "self." + b + " = 0");
    assert Indent(0) == "" && Indent(1) == "    ";
    assert Gen(ClassAction(name, decls), 0) == head + init + (la + lb);
  }

  lemma TwoMemberNames(a: string, b: string)
    ensures TextValues([DeclarationAction(a, None), DeclarationAction(b, None)]) == [a, b]
  {
  }

  lemma TwoMembersText(a: string, b: string)
    ensures Layout.Render(Layout.MemberLines([a, b]), 0)
            == EmitLine("        ", "self." + a + " = 0") + EmitLine("        ", "self." + b + " = 0")
  {
    var la, lb := Layout.Line(2, "self." + a + " = 0"), Layout.Line(2, "self." + b + " = 0");
    assert [a, b][1..] == [b];
    assert Layout.MemberLines([a, b]) == [la] + [lb];
    assert Indent(0 + 2) == "        ";
    Layout.RenderCons(la, [lb], 0);
    Layout.RenderCons(lb, [], 0);
  }

  /** A binary operation emits its operands around the operator, single-spaced and without
      parentheses, with `&&` and `||` spelled `and` and `or`. */
  lemma BinopEmits(left: Node, op: string, right: Node, indent: nat)
    requires IsExpr(left) && IsExpr(right) && op in BinaryOps
    ensures Handles(BinopAction(left, op, right))
    ensures Gen(BinopAction(left, op, right), indent)
            == ExprText.ExprString(left) + " "
               + (if op == "&&" then "and" else if op == "||" then "or" else op)
               + " " + ExprText.ExprString(right)
  {
    ExprText.ExprHandled(BinopAction(left, op, right));
  }

  lemma UnopEmits(e: Node, indent: nat)
    requires IsExpr(e)
    ensures Handles(UnopAction(e)) && Gen(UnopAction(e), indent) == "not " + ExprText.ExprString(e)
  {
    ExprText.ExprHandled(e);
  }

  lemma LiteralEmits(v: Value, indent: nat)
    requires IsLiteralValue(v)
    ensures Gen(LiteralAction(v), indent) == ValueText(v)
  {
  }

  /** Two expressions with the same tokens emit the same text, whatever their tree shape:
      the generator adds no parentheses. */
  lemma SameTokensSameText(a: Node, b: Node)
    requires IsExpr(a) && IsExpr(b)
    requires ExprText.SourceTokens(a) == ExprText.SourceTokens(b)
    ensures ExprText.ExprString(a) == ExprText.ExprString(b)
  {
    ExprText.ExprEmitsTokens(a, 0);
    ExprText.ExprEmitsTokens(b, 0);
  }

  /** The two trees `(a - b) - c` and `a - (b - c)` are both emitted as `a - b - c`. The
      grammar has no parentheses and its `-` is left-associative, so only the first tree
      comes from source text; the second is built directly. */
  lemma GroupingIsLost()
    ensures var a, b, c := LiteralAction(Text("a")), LiteralAction(Text("b")), LiteralAction(Text("c"));
            ExprText.ExprString(BinopAction(BinopAction(a, "-", b), "-", c)) == "a - b - c"
            && ExprText.ExprString(BinopAction(a, "-", BinopAction(b, "-", c))) == "a - b - c"
  {
    var a, b, c := LiteralAction(Text("a")), LiteralAction(Text("b")), LiteralAction(Text("c"));
    var left := BinopAction(BinopAction(a, "-", b), "-", c);
    var right := BinopAction(a, "-", BinopAction(b, "-", c));
    ExprText.ExprHandled(left);
    ExprText.ExprHandled(right);
    assert ExprText.ExprString(BinopAction(a, "-", b)) == "a - b";
    assert ExprText.ExprString(BinopAction(b, "-", c)) == "b - c";
  }

  /** `program` and `statements` emit their children in order: the text of a concatenation
      of child lists is the concatenation of their texts. */
  lemma {:induction false} GenAllAppend(a: seq<Node>, b: seq<Node>, indent: nat)
    requires forall i :: 0 <= i < |a| ==> Handles(a[i])
    requires forall i :: 0 <= i < |b| ==> Handles(b[i])
    ensures forall i :: 0 <= i < |a + b| ==> Handles((a + b)[i])
    ensures GenAll(a + b, indent) == GenAll(a, indent) + GenAll(b, indent)
    decreases |a|
  {
    if a == [] {
      assert a + b == b;
    } else {
      assert (a + b)[0] == a[0] && (a + b)[1..] == a[1..] + b;
      GenAllAppend(a[1..], b, indent);
    }
  }

  /** Appending a statement to a `statements` list (as `statements : statements statement`
      does in place) appends that statement's text to the block's text. */
  lemma StatementsGrow(stmts: seq<Node>, s: Node, indent: nat)
    requires IsStatements(Node("statements", stmts, NoValue)) && IsStatement(s)
    ensures IsStatements(Node("statements", stmts + [s], NoValue))
    ensures Handles(Node("statements", stmts, NoValue)) && Handles(s)
    ensures Gen(Node("statements", stmts + [s], NoValue), indent)
            == Gen(Node("statements", stmts, NoValue), indent) + Gen(s, indent)
  {
    var grown := Node("statements", stmts + [s], NoValue);
    Layout.BlockHandled(Node("statements", stmts, NoValue));
    Layout.BlockHandled(grown);
    assert forall i :: 0 <= i < |stmts| ==> Handles(stmts[i]) by {
      assert Handles(Node("statements", stmts, NoValue));
    }
    assert Handles(s) by {
      assert Handles(grown) && grown.children[|stmts|] == s;
    }
    GenAllAppend(stmts, [s], indent);
    assert GenAll([s], indent) == Gen(s, indent) + GenAll([], indent);
  }

  /** Include directives never reach the output: a program emits exactly its statements. */
  lemma ProgramIgnoresIncludes(includes: Option<Node>, statements: Node, indent: nat)
    requires includes.Some? ==> IsIncludes(includes.value)
    requires IsStatements(statements)
    ensures Handles(ProgramAction(includes, statements)) && Handles(statements)
    ensures Gen(ProgramAction(includes, statements), indent) == Gen(statements, indent)
  {
    var r := ProgramAction(includes, statements);
    Layout.ProgramHandled(r);
    assert r.children[0] == statements && r.children[1..] == [];
    assert Gen(r, indent) == Gen(statements, indent) + GenAll([], indent);
  }

  /** A node whose tag the generator has no branch for emits nothing. */
  lemma UnknownTagEmitsNothing(n: Node, indent: nat)
    requires n.kind !in GeneratedKinds
    ensures Handles(n) && Gen(n, indent) == ""
  {
  }

  /** The list and leaf nodes that only appear inside other constructs emit nothing on their own. */
  lemma AuxiliaryNodesEmitNothing(lexeme: string, name: string, indent: nat)
    ensures Gen(IncludeAction(lexeme), indent) == ""
    ensures Gen(ParamAction(name), indent) == ""
    ensures Gen(ParamsEmpty(), indent) == ""
  {
    UnknownTagEmitsNothing(IncludeAction(lexeme), indent);
    UnknownTagEmitsNothing(ParamAction(name), indent);
    UnknownTagEmitsNothing(ParamsEmpty(), indent);
  }
}
