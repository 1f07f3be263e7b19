# C++-subset to Python transpiler, modelled in Dafny

`transpiler.py` translates a small subset of C++ into Python. It has three parts:

- a PLY lexer whose own rules classify identifier lexemes against a table of reserved words, split number lexemes into integers and floats, and count lines over runs of newlines;
- PLY grammar actions that build a tree of `Node` records (`type`, `children`, `value`);
- a recursive generator, `generate_code`, that walks the tree by tag and emits Python text, four spaces per indentation level.

`transpile` runs the three in sequence. When the lexer or the parser raises `SyntaxError`, it returns the error message in place of the program.

The model has one module per part:

- `Ast`: the `Node` record, kept generic as in the source. `kind` is the tag string, `children` is the list and `value` is the payload. It also defines how `str` prints a payload: decimal text for an integer, and proofs that printing and parsing integers are inverse on canonical digit strings.
- `Lexer`: the reserved-word table and the classification, the integer/float split of number lexemes, and a `LineCounter` class whose `Newline` method advances `lineno` in place.
- `Parser`: one function per grammar action. Each builds the node of its production and states its shape. Predicates (`IsExpr`, `IsStatement`, `IsStatements`, `IsProgram`, …) include every tree the actions can build (they allow any string as a name or leaf text, where the lexer gives only identifier, number and string lexemes). Three productions extend a list in place: `includes`, `statements` and `declarations`. These are methods on a `NodeObject` class whose `children` field they reassign.
- `CodeGen`: `generate_code` as the recursive function `Gen(n, indent)`. It has the same branches, the same strings, the same `op_map`, and the same empty text for a tag with no branch and for a missing node. Its precondition `Handles(n)` names exactly what the Python code indexes. If that precondition is violated, the Python code raises an `IndexError`, `KeyError` or `TypeError`, which `transpile` does not catch.
- `ExprText`: an independent definition of expression text. It takes the source tokens in order (the yield of the tree), spells each operator the Python way, and separates the tokens with single spaces. It proves that `Gen` produces exactly this text at every indentation.
- `Layout`: an independent definition of statement text. Each statement has a list of lines at depths relative to the statement, and nested blocks sit one level deeper. A line's text may hold line breaks copied from a multi-line string literal, and only its first physical line is indented. It proves that `Gen` at depth k renders these lines with k extra levels, for every tree the parser builds. So no missing child, unknown operator or non-text name is ever reached on a parsed program (Python's recursion limit is a separate matter; see Left out).
- `Constructs`: the exact output of every construct in terms of the pieces of its production, block concatenation, and the behaviour on includes and unknown tags.
- `Transpile`: `transpile`'s merge of success and failure into one string. It proves that the two cannot be confused: generated text always ends in a newline and an error message never does.

The code differs from what a C++ reader might expect in these ways:

- **for loops.** `for (int i = 0; i < 5; i++)` becomes `for i in range(0, i < 5):`. The whole condition is the second argument of `range`, not the bound, and the identifier in the update part is neither kept nor checked (`Constructs.ForRangeTakesWholeCondition`).
- **Declarations.** A declaration without initializer exists only for `int` (`int x;`) and emits `x = 0`. No `float x;` form and no `0.0` default exist.
- **Class members.** Class members may carry initializers. Every member is emitted as `self.m = 0` whatever its type or initializer.
- **Statements.** `return` always takes an expression, and `cout` prints exactly one expression.
- **Includes.** Include directives may only precede all statements, and they never reach the output.
- **Integer literals.** Integer literals are printed through `int` and `str`, so `007` is emitted as `7` (`Lexer.IntLiteralText`).
- **Errors.** Errors are returned as plain text in the same channel as the program.

## Model

| member | source | states |
|---|---|---|
| Ast.DecimalValue | transpiler.py:62 | has no contract of its own: `Ast.DecimalOfNatText` and `Ast.NatTextOfDecimal` prove it inverse to printing |
| Ast.NatText | transpiler.py:292 | `str` of an integer is a non-empty digit string with a leading `0` only for zero; it has one digit exactly below 10 |
| Ast.DecimalOfNatText | transpiler.py:62 | `int` of the printed form of n is n |
| Ast.NatTextOfDecimal | transpiler.py:62 | printing the integer a canonical digit string denotes gives that string back |
| Ast.ValueText | transpiler.py:292 | a text payload prints as itself; an integer payload prints as the canonical digit string denoting it |
| Lexer.ClassifyWord | transpiler.py:55-58 | a word gets `Identifier` exactly when it is not a key of the reserved table, and otherwise the table's type |
| Lexer.ReservedIsInjective | transpiler.py:37-53 | distinct reserved words have distinct token types, none of them `Identifier` |
| Lexer.ReservedAreWords | transpiler.py:37-56 | every reserved word matches the identifier pattern, so the word rule reaches it |
| Lexer.ScanNumber | transpiler.py:60-63 | for a lexeme of ASCII digits, a number is float-kind exactly when its lexeme contains `.`; an integer carries the value of its digits, a float keeps its lexeme |
| Lexer.IntLiteralText | transpiler.py:62 | an integer literal of ASCII digits prints back as its own lexeme exactly when it has no leading zero |
| Lexer.NewlineRunCount | transpiler.py:68-70 | in a run of newlines the number of line breaks is the length of the run |
| Lexer.LineCounter.constructor | transpiler.py:75 | a fresh lexer counts from line 1 |
| Lexer.LineCounter.Newline | transpiler.py:68-70 | a run of k newlines advances `lineno` by exactly k, the number of line breaks in it |
| Parser.IsExpr | transpiler.py:212-230 | has no contract of its own: every expression action's result satisfies it (`Parser.BinopAction`, `Parser.UnopAction`, `Parser.LiteralAction`) |
| Parser.IsStatement | transpiler.py:116-210 | has no contract of its own: every statement action's result satisfies it |
| Parser.IsStatements | transpiler.py:107-114 | has no contract of its own: `Parser.StatementsFirst` and `Parser.StatementsNext` keep it |
| Parser.IsProgram | transpiler.py:90-96 | has no contract of its own: `Parser.ProgramAction` establishes it |
| Parser.ProgramAction | transpiler.py:90-96 | a program has the statements as its only child, with or without includes |
| Parser.IncludeAction | transpiler.py:129-131 | an include node keeps the directive's lexeme |
| Parser.DeclarationAction | transpiler.py:133-140 | a declaration keeps the name and has one child exactly for the initialised forms |
| Parser.AssignmentAction | transpiler.py:142-144 | an assignment keeps target and expression |
| Parser.IncrementAction | transpiler.py:146-148 | an increment keeps the name and has no children |
| Parser.IfAction | transpiler.py:150-154 | an `if` has three children exactly when the production has an `else` block |
| Parser.ForAction | transpiler.py:156-158 | a `for` keeps the loop variable from `p[4]` and exactly init, condition and body; the update identifier is dropped |
| Parser.WhileAction | transpiler.py:160-162 | a `while` is a statement with condition and body |
| Parser.FunctionAction | transpiler.py:164-166 | a function keeps its name, parameter list and body |
| Parser.ParamsEmpty | transpiler.py:176-177 | the `empty` form gives a parameter list with no parameters |
| Parser.ParamsOne | transpiler.py:172-173 | a single parameter gives a one-element list |
| Parser.ParamsMore | transpiler.py:174-175 | `params , param` gives a new list: the old parameters followed by the new one |
| Parser.ParamAction | transpiler.py:179-181 | a parameter keeps its name |
| Parser.ClassAction | transpiler.py:183-185 | a class keeps its name and its member declarations |
| Parser.OutputAction | transpiler.py:203-206 | an output node is tagged `endl` exactly for the `<< endl` form |
| Parser.ReturnAction | transpiler.py:208-210 | a return keeps its expression |
| Parser.BinopAction | transpiler.py:225-226 | a binary operation keeps its operator and both operands |
| Parser.UnopAction | transpiler.py:227-228 | `!` builds a unary node over its operand |
| Parser.LiteralAction | transpiler.py:229-230 | a literal keeps the token's value |
| Parser.NodeObject.constructor | transpiler.py:84-88 | a node object holds the given tag, children and value |
| Parser.NodeObject.Append | transpiler.py:105 | appending extends the children by one at the end and changes nothing else |
| Parser.IncludesFirst | transpiler.py:101-102 | the first include starts a fresh one-element list |
| Parser.IncludesNext | transpiler.py:103-105 | a further include is appended to the same list object, which is returned |
| Parser.StatementsFirst | transpiler.py:110-111 | the first statement starts a fresh one-element list |
| Parser.StatementsNext | transpiler.py:112-114 | a further statement is appended to the same list object, which is returned |
| Parser.DeclarationsFirst | transpiler.py:192-193 | the first member declaration starts a fresh one-element list |
| Parser.DeclarationsNext | transpiler.py:194-196 | a further declaration is appended in place |
| Parser.DeclarationsFirstBare | transpiler.py:197-198 | `int x;` as first member gives the same list as an uninitialised declaration |
| Parser.DeclarationsNextBare | transpiler.py:199-201 | a further `int x;` appends an uninitialised declaration in place |
| CodeGen.Indent | transpiler.py:249 | the indentation for depth k is 4k characters |
| CodeGen.IndentIsSpaces | transpiler.py:249 | the indentation is made of spaces only |
| CodeGen.IndentAdd | transpiler.py:249 | the indentation of a sum of depths is the concatenation of their indentations |
| CodeGen.Gen | transpiler.py:248-293 | has no contract of its own: `ExprText.ExprEmitsTokens` and `Layout.StatementRenders`/`Layout.ProgramRenders` prove what it emits, and the `Constructs` lemmas give each construct's exact text |
| CodeGen.GenAll | transpiler.py:251-253 | has no contract of its own: `Constructs.GenAllAppend` and `Layout.RendersFrom` prove that the children are emitted in order |
| CodeGen.JoinComma | transpiler.py:273 | has no contract of its own: `Constructs.JoinTwo` and `Constructs.FunctionEmits` state the join |
| CodeGen.MemberInits | transpiler.py:279-280 | has no contract of its own: `Layout.MemberInitsRender` relates it to the member lines |
| CodeGen.Handles | transpiler.py:254-290 | has no contract of its own: it names the children, operators and names the generator indexes; `Layout.ProgramHandled` proves parsed trees satisfy it |
| CodeGen.TextValues | transpiler.py:273 | the names taken from a list of nodes are their text values, in order (parameter names here, member names at line 279) |
| CodeGen.GenerateCode | transpiler.py:246-247 | a missing node emits the empty text |
| ExprText.SourceTokens | transpiler.py:212-230 | every expression has at least one source token |
| ExprText.OpMapAgrees | transpiler.py:287 | every operator the grammar accepts is in `op_map`, spelled as its Python token |
| ExprText.ExprHandled | transpiler.py:286-292 | on a parsed expression the generator reaches no missing child and no operator outside `op_map` |
| ExprText.ExprEmitsTokens | transpiler.py:286-292 | an expression emits its source tokens in order, Python-spelled, single-spaced, with no parentheses, at any depth |
| ExprText.ExprIgnoresIndent | transpiler.py:286-292 | the text of an expression does not depend on the indentation argument |
| Layout.StatementHandled | transpiler.py:254-285 | on a parsed statement or block the generator reaches no missing child, unknown operator or non-text parameter name |
| Layout.ProgramHandled | transpiler.py:245-293 | on a parsed program the generator reaches no missing child, unknown operator or non-text parameter name |
| Layout.StatementLines | transpiler.py:254-285 | every statement emits at least one `Line`, the first at the statement's own depth |
| Layout.BlockLines | transpiler.py:251-253 | a block emits at least one `Line` per statement |
| Layout.RenderAppend | transpiler.py:251-253 | the text of consecutive line lists is the concatenation of their texts |
| Layout.RenderNest | transpiler.py:262 | a block one level deeper is the same lines rendered with one more level |
| Layout.MemberLines | transpiler.py:279-280 | one `self.m = 0` line per member name, two levels below the class header |
| Layout.MemberInitsRender | transpiler.py:279-280 | the generator's member loop emits exactly the member lines of the declarations' names, in order, two levels below the header |
| Layout.IfRenders | transpiler.py:260-265 | an `if` is its header line, the then-block one level deeper, then `else:` and the else-block only when present |
| Layout.ForRenders | transpiler.py:266-268 | a `for` is its `range` header and the body one level deeper |
| Layout.WhileRenders | transpiler.py:269-271 | a `while` is its header and the body one level deeper |
| Layout.FunctionRenders | transpiler.py:272-275 | a function is its `def` header and the body one level deeper |
| Layout.ClassRenders | transpiler.py:276-280 | a class is its header, `def __init__(self):` one level deeper, and the member lines |
| Layout.SimpleRenders | transpiler.py:254-259 | declarations, assignments, increments, prints and returns are each one `Line` at the statement's depth; a multi-line string literal inside it keeps its line breaks, and the text after them is not indented |
| Layout.StatementRenders | transpiler.py:254-285 | generating any parsed statement at depth k renders its lines with k extra levels |
| Layout.BlockRenders | transpiler.py:251-253 | a block at depth k is its statements' lines in order at depth k |
| Layout.RendersFrom | transpiler.py:251-253 | each suffix of a block emits the lines of that suffix, in order |
| Layout.RenderEndsWithNewline | transpiler.py:254-285 | every emitted statement ends with a newline |
| Layout.ProgramRenders | transpiler.py:245-293 | a parsed program satisfies the generator's precondition and emits its block's lines at depth 0, ending in a newline |
| Constructs.DeclarationEmits | transpiler.py:255 | a declaration emits `name = <expr>`, or `name = 0` without initializer |
| Constructs.AssignmentEmits | transpiler.py:257 | an assignment emits `name = <expr>` |
| Constructs.IncrementEmits | transpiler.py:259 | `n++;` emits `n = n + 1` after four spaces per level |
| Constructs.OutputEmits | transpiler.py:282-283 | a print always passes an explicit `end=`: a newline escape for the `endl` form, empty otherwise |
| Constructs.ReturnEmits | transpiler.py:285 | a return emits `return <expr>` |
| Constructs.IfEmits | transpiler.py:260-265 | `if` emits its condition, the then-block one level deeper, and `else:` with the else-block exactly when present |
| Constructs.ForEmits | transpiler.py:266-268 | `for` emits `for v in range(<init>, <condition>):` and the body one level deeper |
| Constructs.ForRangeTakesWholeCondition | transpiler.py:267 | `for (int i = 0; i < 5; i++) { x++; }` emits `range(0, i < 5)` |
| Constructs.WhileEmits | transpiler.py:269-271 | `while` emits its condition and the body one level deeper |
| Constructs.FunctionEmits | transpiler.py:272-275 | a function emits `def f(p1, p2, ...):` with the parameter names in order and the body one level deeper |
| Constructs.JoinTwo | transpiler.py:273 | two parameter names are joined with `, ` |
| Constructs.ClassEmits | transpiler.py:276-280 | a class emits `class N:`, `def __init__(self):` one level deeper, and its member lines; initializers are ignored |
| Constructs.ClassOfTwoMembers | transpiler.py:276-280 | `class N { int a; int b; };` emits the header, `__init__` and `self.a = 0`, `self.b = 0` |
| Constructs.BinopEmits | transpiler.py:286-288 | a binary operation emits `<left> op <right>`, single-spaced, with logical and/or spelled `and`/`or` |
| Constructs.UnopEmits | transpiler.py:289-290 | `!e` emits `not <e>` |
| Constructs.LiteralEmits | transpiler.py:291-292 | a literal emits its printed value |
| Constructs.SameTokensSameText | transpiler.py:288 | two expressions with the same tokens emit the same text, whatever their tree shape |
| Constructs.GroupingIsLost | transpiler.py:288 | the two trees `(a - b) - c` and `a - (b - c)` both emit `a - b - c`; only the first is parsed from source text, since the grammar has no parentheses and `-` is left-associative |
| Constructs.GenAllAppend | transpiler.py:251-253 | the children of a block emit in order: concatenated lists emit concatenated text |
| Constructs.StatementsGrow | transpiler.py:112-114 | appending a statement to a block appends that statement's text to the block's text |
| Constructs.ProgramIgnoresIncludes | transpiler.py:90-96 | a program emits exactly its statements, whether or not it had includes |
| Constructs.UnknownTagEmitsNothing | transpiler.py:248-293 | a node whose tag has no branch emits the empty text |
| Constructs.AuxiliaryNodesEmitNothing | transpiler.py:248-293 | include, parameter and parameter-list nodes emit nothing on their own |
| Transpile.Message | transpiler.py:236-240 | error messages never end in a newline, and their first letter tells a lexing failure, an unexpected token and an unexpected end apart |
| Transpile.IllegalCharacterMessageInjective | transpiler.py:72-73 | the lexer's message determines the offending character and the line |
| Transpile.Transpile | transpiler.py:296-302 | the result is the message on failure; on success the program satisfies the generator's precondition and the result is the program's lines at depth 0; the result ends in a newline exactly on success |

## Left out

- The regular-expression tokenizer and the LALR parser (transpiler.py:5-35, 65-66, 75, 78-82, 116-127, 242) are library code. The model takes their result as given. For parsing, that result is a tree the actions build, or a failure. Which of those trees a given text yields, and how the precedence table resolves ambiguity, are not modelled.
- Lexer.ScanNumber: the float value of a number with a `.` is not computed; only its kind is.
- Lexer.ScanNumber: only ASCII digits are modelled. Python's `\d` at transpiler.py:61 also matches other Unicode decimal digits (such as `١٢`), and `int`/`float` accept them. So the source also reads such lexemes as numbers.
- Lexer.IntLiteralText: covers ASCII-digit lexemes only. A lexeme of non-ASCII decimal digits is printed back in ASCII digits (`١٢` prints as `12`), so for such lexemes the stated equivalence does not hold.
- Lexer.ScanNumber: Python's limit on decimal integer conversion is not modelled. CPython 3.11 and later, and the 3.7-3.10 security releases, limit `int` of a decimal string to 4300 digits by default. So `int(t.value)` at transpiler.py:62 raises `ValueError` for a longer integer lexeme. The model gives such a lexeme its value.
- Lexer.IntLiteralText: for the same reason, a canonical integer lexeme of more than 4300 digits is not printed back in the source: lexing it already raises `ValueError`.
- Ast.ValueText: a float literal is emitted as its lexeme, not as Python's `repr` of the float, so `1.50` would print as `1.5` in the source but `1.50` here.
- The lexer object is global and its `lineno` is never reset between calls to `transpile` (transpiler.py:75, 298). The model has a `LineCounter` starting at 1, and the line numbers in error messages are parameters.
- A string literal may span newlines without advancing `lineno` (transpiler.py:33). The model does not track this `lineno`, but it does model the literal's text: it is copied into the output as it stands, line breaks included. Comments are skipped by the tokenizer (transpiler.py:66), which is not modelled.
- Transpile.Message: the value of an unexpected float token is printed as its lexeme, for the same reason as in `Ast.ValueText`.
- Generator crashes on malformed trees (a missing child, an unknown operator, a non-text parameter name) are excluded by the precondition `CodeGen.Handles` rather than modelled as exceptions. None of them can happen on a parsed tree (`Layout.ProgramHandled`).
- Layout.ProgramHandled: Python's recursion limit is not modelled. `generate_code` recurses once per tree level, and `transpile` catches only `SyntaxError`. So a parsed tree deeper than the interpreter's recursion limit still raises an uncaught `RecursionError`. An example is `int x = 1+1+…+1;` with about a thousand terms, which parses to a left-deep chain of `binop` nodes.
- Transpile.Transpile: two exceptions are not modelled, and the model always returns a string. A program nested deeper than Python's recursion limit makes `transpile` raise `RecursionError`, for the same reason as above. An integer literal of more than 4300 digits makes the lexer raise `ValueError` (see `Lexer.ScanNumber`). `transpile` catches only `SyntaxError` (transpiler.py:301), so in both cases it raises instead of returning a string.
- Parser.NodeObject: object identity and aliasing are modelled only for the lists that are extended in place. A parent built around a list holds its value at that moment. The source parser never extends a list after embedding it.
