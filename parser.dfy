/**
 * The tree-building actions of the grammar in transpiler.py. Each action receives
 * the already-matched pieces of its production and builds a `Node`. The LALR
 * driver that chooses which action runs is library code and is not modelled;
 * the predicates below include every tree these actions can build (they admit any
 * string as a name or leaf text).
 */
module Parser {
  import opened Ast

  /** The operators the expression rule accepts between two expressions. */
  const BinaryOps: set<string> := {"+", "-", "*", "/", "<", ">", "&&", "||"}

  // ---------------------------------------------------------------------------
  // The trees the actions build
  // ---------------------------------------------------------------------------

  /** A payload the lexer gives an expression leaf: an identifier or string lexeme, or a number. */
  predicate IsLiteralValue(v: Value) {
    v.Text? || v.IntNum? || v.FloatNum?
  }

  predicate IsExpr(n: Node)
    decreases n
  {
    match n.kind
    case "binop" =>
      && |n.children| == 2 && n.value.Text? && n.value.s in BinaryOps
      && IsExpr(n.children[0]) && IsExpr(n.children[1])
    case "unop" =>
      |n.children| == 1 && n.value == Text("!") && IsExpr(n.children[0])
    case "literal" =>
      n.children == [] && IsLiteralValue(n.value)
    case _ => false
  }

  /** A `declaration` node: a name and at most one initializer expression. */
  predicate IsDeclaration(n: Node) {
    && n.kind == "declaration" && n.value.Text?
    && (n.children == [] || (|n.children| == 1 && IsExpr(n.children[0])))
  }

  predicate IsParam(n: Node) {
    n.kind == "param" && n.children == [] && n.value.Text?
  }

  predicate IsParams(n: Node) {
    && n.kind == "params" && n.value == NoValue
    && forall i :: 0 <= i < |n.children| ==> IsParam(n.children[i])
  }

  predicate IsDeclarations(n: Node) {
    && n.kind == "declarations" && n.value == NoValue && |n.children| > 0
    && forall i :: 0 <= i < |n.children| ==> IsDeclaration(n.children[i])
  }

  /** Every member of a declaration list carries its name as text. */
  lemma DeclarationsAreNamed(n: Node)
    requires IsDeclarations(n)
    ensures forall i :: 0 <= i < |n.children| ==> n.children[i].value.Text?
  {
    forall i | 0 <= i < |n.children|
      ensures n.children[i].value.Text?
    {
      assert IsDeclaration(n.children[i]);
    }
  }

  predicate IsStatement(n: Node)
    decreases n
  {
    match n.kind
    case "declaration" => IsDeclaration(n)
    case "assignment" =>
      n.value.Text? && |n.children| == 1 && IsExpr(n.children[0])
    case "increment" =>
      n.value.Text? && n.children == []
    case "if" =>
      && n.value == NoValue && (|n.children| == 2 || |n.children| == 3)
      && IsExpr(n.children[0]) && IsStatements(n.children[1])
      && (|n.children| == 3 ==> IsStatements(n.children[2]))
    case "for" =>
      && n.value.Text? && |n.children| == 3
      && IsExpr(n.children[0]) && IsExpr(n.children[1]) && IsStatements(n.children[2])
    case "while" =>
      && n.value == NoValue && |n.children| == 2
      && IsExpr(n.children[0]) && IsStatements(n.children[1])
    case "function" =>
      && n.value.Text? && |n.children| == 2
      && IsParams(n.children[0]) && IsStatements(n.children[1])
    case "class" =>
      n.value.Text? && |n.children| == 1 && IsDeclarations(n.children[0])
    case "output" =>
      && (n.value == Text("endl") || n.value == Text(""))
      && |n.children| == 1 && IsExpr(n.children[0])
    case "return" =>
      n.value == NoValue && |n.children| == 1 && IsExpr(n.children[0])
    case _ => false
  }

  /** A non-empty `statements` list. */
  predicate IsStatements(n: Node)
    decreases n
  {
    && n.kind == "statements" && n.value == NoValue && |n.children| > 0
    && forall i :: 0 <= i < |n.children| ==> IsStatement(n.children[i])
  }

  predicate IsProgram(n: Node) {
    n.kind == "program" && n.value == NoValue && |n.children| == 1 && IsStatements(n.children[0])
  }

  predicate IsInclude(n: Node) {
    n.kind == "include" && n.children == [] && n.value.Text?
  }

  predicate IsIncludes(n: Node) {
    && n.kind == "includes" && n.value == NoValue && |n.children| > 0
    && forall i :: 0 <= i < |n.children| ==> IsInclude(n.children[i])
  }

  // ---------------------------------------------------------------------------
  // Actions that build a fresh node from the pieces of their production
  // ---------------------------------------------------------------------------

  /** `program : includes statements | statements` keeps only the statements. */
  function ProgramAction(includes: Option<Node>, statements: Node): (r: Node)
    requires includes.Some? ==> IsIncludes(includes.value)
    requires IsStatements(statements)
    ensures IsProgram(r) && r.children[0] == statements
  {
    Node("program", [statements], NoValue)
  }

  /** `include : INCLUDE` keeps the directive's lexeme. */
  function IncludeAction(lexeme: string): (r: Node)
    ensures IsInclude(r) && r.value.s == lexeme
  {
    Node("include", [], Text(lexeme))
  }

  /** `declaration`: the five-symbol forms carry their initializer, `INT IDENTIFIER ;` none.
      The declared type is not recorded. */
  function DeclarationAction(name: string, init: Option<Node>): (r: Node)
    requires init.Some? ==> IsExpr(init.value)
    ensures IsDeclaration(r) && IsStatement(r)
    ensures r.value == Text(name)
    ensures |r.children| == 1 <==> init.Some?
    ensures init.Some? ==> r.children == [init.value]
  {
    match init
    case Some(e) => Node("declaration", [e], Text(name))
    case None => Node("declaration", [], Text(name))
  }

  function AssignmentAction(name: string, e: Node): (r: Node)
    requires IsExpr(e)
    ensures IsStatement(r) && r.kind == "assignment" && r.value == Text(name)
    ensures r.children == [e]
  {
    Node("assignment", [e], Text(name))
  }

  function IncrementAction(name: string): (r: Node)
    ensures IsStatement(r) && r.kind == "increment" && r.value == Text(name)
    ensures r.children == []
  {
    Node("increment", [], Text(name))
  }

  /** `if` gets two children, or three when the production has an `else` block. */
  function IfAction(cond: Node, thenBlock: Node, elseBlock: Option<Node>): (r: Node)
    requires IsExpr(cond) && IsStatements(thenBlock)
    requires elseBlock.Some? ==> IsStatements(elseBlock.value)
    ensures IsStatement(r) && r.kind == "if"
    ensures |r.children| == 3 <==> elseBlock.Some?
    ensures r.children[0] == cond && r.children[1] == thenBlock
    ensures elseBlock.Some? ==> r.children[2] == elseBlock.value
  {
    match elseBlock
    case Some(e) => Node("if", [cond, thenBlock, e], NoValue)
    case None => Node("if", [cond, thenBlock], NoValue)
  }

  /** `for`: keeps the loop variable, the initial value, the condition and the body;
      the identifier incremented in the header is discarded. */
  function ForAction(loopVar: string, init: Node, cond: Node, update: string, body: Node): (r: Node)
    requires IsExpr(init) && IsExpr(cond) && IsStatements(body)
    ensures IsStatement(r) && r.kind == "for" && r.value == Text(loopVar)
    ensures r.children == [init, cond, body]
  {
    Node("for", [init, cond, body], Text(loopVar))
  }

  function WhileAction(cond: Node, body: Node): (r: Node)
    requires IsExpr(cond) && IsStatements(body)
    ensures IsStatement(r) && r.kind == "while"
    ensures r.children == [cond, body]
  {
    Node("while", [cond, body], NoValue)
  }

  function FunctionAction(name: string, params: Node, body: Node): (r: Node)
    requires IsParams(params) && IsStatements(body)
    ensures IsStatement(r) && r.kind == "function" && r.value == Text(name)
    ensures r.children == [params, body]
  {
    Node("function", [params, body], Text(name))
  }

  function ParamAction(name: string): (r: Node)
    ensures IsParam(r) && r.value == Text(name)
  {
    Node("param", [], Text(name))
  }

  /** `params : empty`: a parameter list with no parameters. */
  function ParamsEmpty(): (r: Node)
    ensures IsParams(r) && r.children == []
  {
    Node("params", [], NoValue)
  }

  /** `params : param`. */
  function ParamsOne(param: Node): (r: Node)
    requires IsParam(param)
    ensures IsParams(r) && r.children == [param]
  {
    Node("params", [param], NoValue)
  }

  /** `params : params COMMA param` builds a new list rather than extending the old one. */
  function ParamsMore(params: Node, param: Node): (r: Node)
    requires IsParams(params) && IsParam(param)
    ensures IsParams(r) && r.children == params.children + [param]
  {
    Node("params", params.children + [param], NoValue)
  }

  function ClassAction(name: string, declarations: Node): (r: Node)
    requires IsDeclarations(declarations)
    ensures IsStatement(r) && r.kind == "class" && r.value == Text(name)
    ensures r.children == [declarations]
  {
    Node("class", [declarations], Text(name))
  }

  /** `output`: tagged `endl` only for the form that ends in `<< endl`. */
  function OutputAction(e: Node, endl: bool): (r: Node)
    requires IsExpr(e)
    ensures IsStatement(r) && r.kind == "output"
    ensures r.value == Text("endl") <==> endl
    ensures r.children == [e]
  {
    Node("output", [e], Text(if endl then "endl" else ""))
  }

  function ReturnAction(e: Node): (r: Node)
    requires IsExpr(e)
    ensures IsStatement(r) && r.kind == "return"
    ensures r.children == [e]
  {
    Node("return", [e], NoValue)
  }

  function BinopAction(left: Node, op: string, right: Node): (r: Node)
    requires IsExpr(left) && IsExpr(right) && op in BinaryOps
    ensures IsExpr(r) && r.kind == "binop" && r.value == Text(op)
    ensures r.children == [left, right]
  {
    Node("binop", [left, right], Text(op))
  }

  /** `NOT expression` keeps the `!` lexeme as payload. */
  function UnopAction(e: Node): (r: Node)
    requires IsExpr(e)
    ensures IsExpr(r) && r.kind == "unop"
    ensures r.children == [e]
  {
    Node("unop", [e], Text("!"))
  }

  /** `NUMBER | IDENTIFIER | STRING` keeps the token's value. */
  function LiteralAction(v: Value): (r: Node)
    requires IsLiteralValue(v)
    ensures IsExpr(r) && r.kind == "literal" && r.value == v
  {
    Node("literal", [], v)
  }

  // ---------------------------------------------------------------------------
  // Lists that the actions extend in place
  // ---------------------------------------------------------------------------

  /** A node object whose children list an action may append to. Once a list is
      embedded in a parent it is no longer extended, so the parent holds its value. */
  class NodeObject {
    var kind: string
    var children: seq<Node>
    var value: Value

    constructor (kind: string, children: seq<Node>, value: Value)
      ensures this.kind == kind && this.children == children && this.value == value
    {
      this.kind := kind;
      this.children := children;
      this.value := value;
    }

    /** The node this object currently denotes. */
    function Snapshot(): Node
      reads this
    {
      Node(kind, children, value)
    }

    method Append(child: Node)
      modifies this
      ensures children == old(children) + [child]
      ensures kind == old(kind) && value == old(value)
    {
      children := children + [child];
    }
  }

  /** `includes : include`. */
  method IncludesFirst(inc: Node) returns (r: NodeObject)
    requires IsInclude(inc)
    ensures fresh(r) && IsIncludes(r.Snapshot())
    ensures r.Snapshot() == Node("includes", [inc], NoValue)
  {
    r := new NodeObject("includes", [inc], NoValue);
  }

  /** `includes : includes include` appends to the existing list and returns it. */
  method IncludesNext(list: NodeObject, inc: Node) returns (r: NodeObject)
    requires IsIncludes(list.Snapshot()) && IsInclude(inc)
    modifies list
    ensures r == list && IsIncludes(r.Snapshot())
    ensures r.Snapshot() == Node("includes", old(list.children) + [inc], NoValue)
  {
    list.Append(inc);
    r := list;
  }

  /** `statements : statement`. */
  method StatementsFirst(s: Node) returns (r: NodeObject)
    requires IsStatement(s)
    ensures fresh(r) && IsStatements(r.Snapshot())
    ensures r.Snapshot() == Node("statements", [s], NoValue)
  {
    r := new NodeObject("statements", [s], NoValue);
  }

  /** `statements : statements statement` appends to the existing list and returns it. */
  method StatementsNext(list: NodeObject, s: Node) returns (r: NodeObject)
    requires IsStatements(list.Snapshot()) && IsStatement(s)
    modifies list
    ensures r == list && IsStatements(r.Snapshot())
    ensures r.Snapshot() == Node("statements", old(list.children) + [s], NoValue)
  {
    list.Append(s);
    r := list;
  }

  /** `declarations : declaration`. */
  method DeclarationsFirst(d: Node) returns (r: NodeObject)
    requires IsDeclaration(d)
    ensures fresh(r) && IsDeclarations(r.Snapshot())
    ensures r.Snapshot() == Node("declarations", [d], NoValue)
  {
    r := new NodeObject("declarations", [d], NoValue);
  }

  /** `declarations : declarations declaration` appends in place. */
  method DeclarationsNext(list: NodeObject, d: Node) returns (r: NodeObject)
    requires IsDeclarations(list.Snapshot()) && IsDeclaration(d)
    modifies list
    ensures r == list && IsDeclarations(r.Snapshot())
    ensures r.Snapshot() == Node("declarations", old(list.children) + [d], NoValue)
  {
    list.Append(d);
    r := list;
  }

  /** `declarations : INT IDENTIFIER SEMICOLON`: the same list the `declaration` form would give. */
  method DeclarationsFirstBare(name: string) returns (r: NodeObject)
    ensures fresh(r) && IsDeclarations(r.Snapshot())
    ensures r.Snapshot() == Node("declarations", [DeclarationAction(name, None)], NoValue)
  {
    r := new NodeObject("declarations", [Node("declaration", [], Text(name))], NoValue);
  }

  /** `declarations : declarations INT IDENTIFIER SEMICOLON` appends an uninitialised declaration in place. */
  method DeclarationsNextBare(list: NodeObject, name: string) returns (r: NodeObject)
    requires IsDeclarations(list.Snapshot())
    modifies list
    ensures r == list && IsDeclarations(r.Snapshot())
    ensures r.Snapshot() == Node("declarations", old(list.children) + [DeclarationAction(name, None)], NoValue)
  {
    list.Append(Node("declaration", [], Text(name)));
    r := list;
  }
}
