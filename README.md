# my_lang_compiler in Dafny

This project models `my_lang_compiler`, a compiler for a small imperative toy language that targets C, and proves properties of the model. The language has:

- `myvar` declarations;
- assignments;
- `myprint`;
- `myif`/`myelse` and `mywhile`;
- blocks;
- integer, string and boolean (`mytrue`/`myfalse`) literals;
- the operators `+ - * /` and `== != < > <= >=`.

`compile_source` runs six stages in a fixed order, and the first stage that raises ends the compilation:

1. The lexer turns characters into tokens. It tracks line and column, skips whitespace and `#` comments, and decodes string escapes.
2. The parser is recursive descent with one token of lookahead, and it pulls tokens from the lexer on demand. `+`, `-` and the six comparisons share one precedence tier. `*` and `/` bind tighter.
3. The semantic analyzer keeps a chain of scopes. It rejects a redeclaration in the same scope and the use of an undeclared name.
4. The IR generator lowers the tree to quadruples. It draws fresh temporaries `t1, t2, …` and labels `L1, L2, …` from two counters.
5. The optimizer does one forward pass of constant propagation and folding. Its knowledge map is cleared at every jump or label.
6. The C generator declares the collected names, escapes string literals and renders one C line per instruction.

Each stage has the form its source has:

- **Imperative stages become classes whose methods update fields.** This covers:
  - `Lexer` (`pos`, `line`, `column`, `currentChar`);
  - `Parser` (`currentToken`, and the lexer it pulls from);
  - `SymbolTable` (`symbols`) and `SemanticAnalyzer` (`currentScope`);
  - `IRProgram` (`instructions`);
  - `IRGenerator` (the program and both counters);
  - `CodeGenerator` (`temps`, `vars`).
- **Each method is proved against a function of the old state**, for example `NextToken`, `ExprRule`, `CheckStmt`, `LowerStmt`, `Optimized` or `Render`.
- **The properties are lemmas about those functions:**
  - a token list ends in exactly one EOF;
  - a string literal scans back to its text;
  - over every token list of literals and names joined by operators, `*` and `/` group to the left first, and the products then group to the left over `+`, `-` and the six comparisons, which share one tier; `myelse` binds to the nearest `myif`;
  - shadowing is accepted and redeclaration rejected;
  - every temporary is written once, every label is placed once, and every jump targets a label in the same code;
  - an expression's code computes its value;
  - optimization preserves the meaning of the program;
  - the C text has one line per instruction;
  - once parsing and semantic analysis succeed, the later stages cannot fail.

Exceptions become `Result` values. Files:

| file | models |
|---|---|
| `tokens.dfy`, `ast.dfy`, `ir.dfy`, `errors.dfy` | token kinds and tokens, the syntax tree, opcodes, quadruples and `IRProgram`, and the exceptions as error variants |
| `text.dfy` | the pieces of Python's `str` the stages rely on: ASCII character classes, `str(n)` and `int(s)`, string order, `join` and `split` |
| `lexer.dfy`, `lexer_properties.dfy` | `lexer.py` |
| `parser.dfy`, `parser_properties.dfy` | `parser.py` |
| `semantic_analyzer.dfy`, `semantic_analyzer_properties.dfy` | `semantic_analyzer.py` |
| `ir_generator.dfy`, `ir_generator_properties.dfy`, `ir_generator_correctness.dfy` | `ir_generator.py`; `ir_semantics.dfy` gives IR programs a meaning (floor division, jumps to labels, printed output) |
| `optimizer.dfy`, `optimizer_soundness.dfy` | `optimizer.py` |
| `codegen.dfy` | `codegen.py` |
| `compiler.dfy` | `compile_source` in `main.py` |

## Model

| member | source | states |
|---|---|---|
| Tokens.StrRepr | my_lang_compiler/tokens.py:49 | `repr` of a string payload is quoted at both ends by the quote Python chooses: a double quote only when the text has a single quote and no double quote |
| Tokens.TokenRepr | my_lang_compiler/tokens.py:48-49 | a token's repr has the form `Token(…)` |
| Text.DigitsValueOfNatToString | my_lang_compiler/lexer.py:52-59 | `int(str(n)) == n`: reading a decimal numeral back gives the number |
| Text.NatToStringInjective | my_lang_compiler/ir_generator.py:11-17 | distinct counters give distinct numerals |
| Text.LessIrreflexive | my_lang_compiler/codegen.py:48 | Python's string `<`, which `sorted` uses, is irreflexive |
| Text.LessTransitive | my_lang_compiler/codegen.py:48 | string `<` is transitive |
| Text.LessTotal | my_lang_compiler/codegen.py:48 | of two distinct strings one is smaller, so `sorted` output is unique |
| Text.LessAsymmetric | my_lang_compiler/codegen.py:48 | string `<` is asymmetric |
| Text.PadRight | my_lang_compiler/ir.py:41 | `f"{s:w}"` keeps `s` and pads it with spaces to at least `w` characters |
| Text.SplitJoin | my_lang_compiler/codegen.py:98 | lines joined by a separator none of them contains split back into the same lines |
| Ir.QuadrupleRepr | my_lang_compiler/ir.py:32-41 | a LABEL shows as its result followed by `:`; any other instruction starts with its opcode name and is at least 32 characters wide |
| Ir.ReprLines | my_lang_compiler/ir.py:50-51 | one repr per instruction, in order |
| Ir.IRProgram.constructor | my_lang_compiler/ir.py:44-45 | a new program has no instructions |
| Ir.IRProgram.Add | my_lang_compiler/ir.py:47-48 | appends at the end and leaves every earlier instruction where it was |
| Ir.IRProgram.ReprLinesInOrder | my_lang_compiler/ir.py:50-51 | the program repr splits at newlines into exactly the instruction reprs, in order |
| Lexing.ColumnMeaning | my_lang_compiler/lexer.py:25-35 | the column of a character is one more than the count of non-newline characters since the last newline or the start |
| Lexing.SkipSpaces | my_lang_compiler/lexer.py:43-45 | skipping whitespace stops at the first non-space character or the end, and passes only spaces |
| Lexing.CommentEnd | my_lang_compiler/lexer.py:47-50 | a comment is consumed through the next newline, or one past the end when there is none; nothing before that is a newline |
| Lexing.DigitsEnd | my_lang_compiler/lexer.py:55-57 | a number is the maximal run of digits |
| Lexing.WordEnd | my_lang_compiler/lexer.py:99-101 | a word is the maximal run of letters, digits and underscores |
| Lexing.StringBody | my_lang_compiler/lexer.py:66-91 | a string body ends at the matching quote, or fails at a raw newline or at the end of the text |
| Lexing.ScanString | my_lang_compiler/lexer.py:61-94 | a scanned string literal consumes at least its opening quote and stays within the text |
| Lexing.ScanOperator | my_lang_compiler/lexer.py:132-161 | a scanned operator consumes one or two characters within the text |
| Lexing.NextToken | my_lang_compiler/lexer.py:112-184 | every token carries the payload of its kind; a token other than EOF consumes at least one character; EOF appears only at the end of the text |
| Lexing.Lexer.constructor | my_lang_compiler/lexer.py:4-9 | a new lexer starts at position 0, line 1, column 1, with the fields agreeing |
| Lexing.Lexer.Advance | my_lang_compiler/lexer.py:25-35 | moves one character on and keeps line, column and current character equal to those of the new position |
| Lexing.Lexer.Peek | my_lang_compiler/lexer.py:37-41 | the character after the current one, or none past the end |
| Lexing.Lexer.SkipWhitespace | my_lang_compiler/lexer.py:43-45 | the position becomes the one `SkipSpaces` gives |
| Lexing.Lexer.SkipComment | my_lang_compiler/lexer.py:47-50 | the position becomes the one `CommentEnd` gives |
| Lexing.Lexer.Number | my_lang_compiler/lexer.py:52-59 | the token and new position are those of `ScanNumber`: the digits' value, the line after them, the column of the first digit |
| Lexing.Lexer.String | my_lang_compiler/lexer.py:61-94 | succeeds exactly when `ScanString` does, with the same token and position, and otherwise with the same error |
| Lexing.Lexer.ReadBody | my_lang_compiler/lexer.py:66-91 | the loop's decoded text and stopping position are those of `StringBody`, and it gives up exactly where `StringBody` fails |
| Lexing.Lexer.Identifier | my_lang_compiler/lexer.py:96-110 | the token and new position are those of `ScanWord` |
| Lexing.Lexer.Operator | my_lang_compiler/lexer.py:132-161 | succeeds exactly when `ScanOperator` does, with the same token and position, and otherwise with the same error |
| Lexing.Lexer.GetNextToken | my_lang_compiler/lexer.py:112-184 | succeeds exactly when `NextToken` does, with the same token and position, and otherwise with the same error |
| Lexing.Lexer.Tokenize | my_lang_compiler/lexer.py:186-193 | the list (or error) is `TokenizeFrom` of the starting position |
| LexingProperties.EndsWithSingleEof | my_lang_compiler/lexer.py:186-193 | a successful token list is non-empty, ends in EOF and has no EOF before the last token |
| LexingProperties.TokenizeEndsWithSingleEof | my_lang_compiler/lexer.py:184-193 | the same for a whole text |
| LexingProperties.NewlineAdvance | my_lang_compiler/lexer.py:25-35 | passing a newline adds one to the line, passing any other character keeps it; while text follows, a newline starts the next line at column 1 and any other character moves one column right; passing the last character leaves the column unchanged, or at 0 when that character is a newline |
| LexingProperties.OperatorColumns | my_lang_compiler/lexer.py:132-180 | at every operator position: one-character tokens report their own column; `=`, `<` and `>` report the column after them, or their own column at the end of the text; `==`, `!=`, `<=` and `>=` report the column two after their first character, or one after it at the end of the text |
| LexingProperties.SingleColumn | my_lang_compiler/lexer.py:177-180 | a one-character token reports the column of its character |
| LexingProperties.SingleCharClass | my_lang_compiler/lexer.py:113-177 | a one-character token's character starts no other kind of token, so the dispatch reaches the single-character table |
| LexingProperties.PairColumn | my_lang_compiler/lexer.py:132-161 | an operator built from `=`, `!`, `<` or `>` reports the lexer's column after advancing past it: at the position after a one-character operator, at the position after the `=` of a two-character one |
| LexingProperties.EndOfTextColumns | my_lang_compiler/lexer.py:25-35 | at the end of the text `<` after `a` reports column 2, `<=` after `a` column 3, and a final newline leaves the column at 0 |
| LexingProperties.WordsClassified | my_lang_compiler/lexer.py:96-110 | a word is MYBOOL exactly for `mytrue`/`myfalse`, carrying its truth value; every other word carries its spelling; it is an identifier exactly when it is none of the seven keywords |
| LexingProperties.DigitsRunToEnd | my_lang_compiler/lexer.py:55-57 | digits up to the end of the text are consumed to the end |
| LexingProperties.NumberRoundTrip | my_lang_compiler/lexer.py:52-59 | the numeral of any `n` lexes to one NUMBER token of value `n` at column 1, then EOF |
| LexingProperties.BodyStep | my_lang_compiler/lexer.py:67-88 | one encoded character of a literal's body decodes to that character |
| LexingProperties.EncodedBody | my_lang_compiler/lexer.py:66-91 | the encoding of `s` followed by `"` decodes to `s` and stops at that quote |
| LexingProperties.ScanEncoded | my_lang_compiler/lexer.py:61-94 | a double-quoted encoding of `s` scans to one STRING token carrying `s`, at column 1, consuming the whole text |
| LexingProperties.StringRoundTrip | my_lang_compiler/lexer.py:61-94 | the same text lexes to exactly that STRING token, then EOF |
| LexingProperties.UnterminatedLiteral | my_lang_compiler/lexer.py:84-91 | a literal whose body fails is an `Unterminated string literal` error at the line where scanning stopped and the opening quote's column; failure happens exactly at a raw newline or the end |
| LexingProperties.UnterminatedScenarios | my_lang_compiler/lexer.py:84-91 | `"ab` and `'a⏎b'` are both rejected at line 1, column 1 |
| LexingProperties.LoneBang | my_lang_compiler/lexer.py:140-145 | a `!` not followed by `=` is an invalid-character error at the `!` |
| LexingProperties.UnknownCharacter | my_lang_compiler/lexer.py:177-182 | a character that starts no token is an invalid-character error at that character |
| LexingProperties.EscapesDecoded | my_lang_compiler/lexer.py:72-80 | `\n`, `\t` and `\r` decode to control characters, and any other escaped character stands for itself |
| LexingProperties.SkippedText | my_lang_compiler/lexer.py:113-120 | whitespace and comments produce no token, and scanning resumes after them; a comment runs to its newline |
| Parsing.LexerInputValid | my_lang_compiler/lexer.py:112-184 | the lexer, seen as a token supplier, gives well-formed tokens and moves forward within the text |
| Parsing.Pull | my_lang_compiler/parser.py:20 | pulling a token gives a reachable cursor, strictly further on unless the token is EOF |
| Parsing.EatRule | my_lang_compiler/parser.py:18-22 | `eat` succeeds only on the expected kind, and then moves on by one token |
| Parsing.FactorRule | my_lang_compiler/parser.py:24-52 | a factor consumes tokens and builds a well-formed expression; a token that starts no factor fails with "unexpected token" |
| Parsing.TermRule | my_lang_compiler/parser.py:54-66 | a term consumes tokens and builds a well-formed expression |
| Parsing.TermTail | my_lang_compiler/parser.py:57-64 | the loop of `term` stops at the first token other than `*`, `/`, and does nothing when the current token is neither; the tree it builds is stated by ParsingProperties.TermTailFolds |
| Parsing.ExprRule | my_lang_compiler/parser.py:68-83 | an expression consumes tokens and builds a well-formed expression |
| Parsing.ExprTail | my_lang_compiler/parser.py:71-81 | the loop of `expr` stops at the first token outside the additive/relational tier, and does nothing when the current token is outside it; the tree it builds is stated by ParsingProperties.ExprTailFolds |
| Parsing.StatementRule | my_lang_compiler/parser.py:148-165 | a statement consumes tokens and builds a well-formed statement; a token that starts no statement fails with "unexpected token" |
| Parsing.VarDeclRule | my_lang_compiler/parser.py:88-99 | a declaration consumes tokens and builds a well-formed statement |
| Parsing.AssignmentRule | my_lang_compiler/parser.py:101-107 | an assignment starts with a name, which becomes its `Var` target |
| Parsing.PrintRule | my_lang_compiler/parser.py:109-115 | a print statement consumes tokens and builds a well-formed statement |
| Parsing.BlockRule | my_lang_compiler/parser.py:117-123 | a block consumes tokens and builds a well-formed statement |
| Parsing.StatementsRule | my_lang_compiler/parser.py:119-121 | the statement loop only appends to what it has, keeps every statement well formed, and stops only at EOF, or at `}` inside a block |
| Parsing.IfRule | my_lang_compiler/parser.py:125-138 | an `if` consumes tokens and builds a well-formed statement |
| Parsing.ElseRule | my_lang_compiler/parser.py:132-136 | the else branch is taken only on `myelse`, and otherwise nothing is consumed |
| Parsing.WhileRule | my_lang_compiler/parser.py:140-146 | a `while` consumes tokens and builds a well-formed statement |
| Parsing.ProgramRule | my_lang_compiler/parser.py:167-171 | a program is read up to EOF, and all its statements are well formed |
| Parsing.ParseInput | my_lang_compiler/parser.py:173-174 | every parsed program's statements are well formed |
| Parsing.ParseSource | my_lang_compiler/main.py:34-39 | parsing a text gives only well-formed statements |
| Parsing.Parser.constructor | my_lang_compiler/parser.py:7-10 | a parser over a valid lexer and a first token it scanned is in a valid state |
| Parsing.Parser.Open | my_lang_compiler/parser.py:7-10 | `Parser(lexer)` pulls the first token and fails exactly when the lexer fails there, with its error |
| Parsing.Parser.Eat | my_lang_compiler/parser.py:18-22 | succeeds exactly when `EatRule` does, leaving its cursor, and otherwise gives its error |
| Parsing.Parser.Factor | my_lang_compiler/parser.py:24-52 | the node and cursor (or the error) are those of `FactorRule` |
| Parsing.Parser.Term | my_lang_compiler/parser.py:54-66 | the node and cursor (or the error) are those of `TermRule` |
| Parsing.Parser.Expression | my_lang_compiler/parser.py:68-83 | the node and cursor (or the error) are those of `ExprRule` |
| Parsing.Parser.VariableDeclaration | my_lang_compiler/parser.py:88-99 | the node and cursor (or the error) are those of `VarDeclRule` |
| Parsing.Parser.AssignmentStatement | my_lang_compiler/parser.py:101-107 | the node and cursor (or the error) are those of `AssignmentRule` |
| Parsing.Parser.PrintStatement | my_lang_compiler/parser.py:109-115 | the node and cursor (or the error) are those of `PrintRule` |
| Parsing.Parser.BlockStatement | my_lang_compiler/parser.py:117-123 | the node and cursor (or the error) are those of `BlockRule` |
| Parsing.Parser.IfStatement | my_lang_compiler/parser.py:125-138 | the node and cursor (or the error) are those of `IfRule` |
| Parsing.Parser.ElseBranch | my_lang_compiler/parser.py:132-136 | the optional else branch and cursor (or the error) are those of `ElseRule` |
| Parsing.Parser.WhileStatement | my_lang_compiler/parser.py:140-146 | the node and cursor (or the error) are those of `WhileRule` |
| Parsing.Parser.Statement | my_lang_compiler/parser.py:148-165 | the node and cursor (or the error) are those of `StatementRule` |
| Parsing.Parser.ParseProgram | my_lang_compiler/parser.py:167-171 | the program and cursor (or the error) are those of `ProgramRule` |
| Parsing.Parse | my_lang_compiler/parser.py:173-174 | `Parser(Lexer(source)).parse()` gives `ParseSource(source)` |
| ParsingProperties.EatOutcome | my_lang_compiler/parser.py:12-22 | `eat` of another kind is a syntax error naming the expected kind and the token found; `eat` of the current kind pulls the next token and fails only when the lexer does |
| ParsingProperties.FirstTokenStartsTokenize | my_lang_compiler/parser.py:7-10 | the first token pulled starts the list `tokenize` returns, or meets the same lexical error |
| ParsingProperties.EatTakesOneToken | my_lang_compiler/parser.py:18-22 | each `eat` moves the parser exactly one token along the `tokenize` list |
| ParsingProperties.AssignmentShape | my_lang_compiler/parser.py:101-107 | a statement starting with a name is an assignment; if `=` does not follow, it is a syntax error expecting ASSIGN |
| ParsingProperties.DeclarationShape | my_lang_compiler/parser.py:88-99 | a declaration names the identifier after `myvar`, has no type annotation, and has an initializer exactly when `=` follows the name |
| ParsingProperties.ElseBindsNearest | my_lang_compiler/parser.py:131-136 | an `if` without an else branch is never followed by `myelse` |
| ParsingProperties.EofInBlock | my_lang_compiler/parser.py:117-123 | a block whose statements run into EOF is a syntax error expecting RBRACE at the EOF token |
| ParsingProperties.StrayBrace | my_lang_compiler/parser.py:167-171 | a `}` at the top level is a syntax error, not the end of the program |
| ParsingProperties.SharedTier | my_lang_compiler/parser.py:68-83 | `1 < 2 + 3` parses as `(1 < 2) + 3` |
| ParsingProperties.LeftAssociative | my_lang_compiler/parser.py:68-83 | `8 - 4 - 2` parses as `(8 - 4) - 2` |
| ParsingProperties.ProductsBindTighter | my_lang_compiler/parser.py:54-83 | `1 + 2 * 3` parses as `1 + (2 * 3)` |
| ParsingProperties.TermTailFolds | my_lang_compiler/parser.py:57-64 | for every well-formed token list: from a node, a run of `*`/`/` each followed by a literal or name gives the left fold of the node and those leaves (`FoldLeft`), ending on the token after the last leaf |
| ParsingProperties.TermFolds | my_lang_compiler/parser.py:54-66 | for every well-formed token list: `term` over k literals or names joined by `*`/`/` gives their left fold and ends on the token after the last one |
| ParsingProperties.ExprTailFolds | my_lang_compiler/parser.py:71-81 | for every well-formed token list: from a node, a run of additive or comparison operators each followed by a product gives the left fold of the node and the products' trees, ending on the token after the last product |
| ParsingProperties.ExprFolds | my_lang_compiler/parser.py:54-83 | for every well-formed token list: `expr` over products joined by `+`, `-` or comparisons folds each product first, then folds the products to the left, and ends on the token after them |
| ParsingProperties.SumFolds | my_lang_compiler/parser.py:68-83 | for every well-formed token list: `expr` over k literals or names joined by `+`, `-` or comparisons gives their left fold, whatever mix of those operators joins them |
| ParsingProperties.DanglingElse | my_lang_compiler/parser.py:125-138 | `myif (a) myif (b) ; myelse ;` gives the else branch to the inner `myif` |
| ParsingProperties.StatementIsIf | my_lang_compiler/parser.py:157-158 | a statement starting with `myif` is an `if` statement |
| ParsingProperties.IfElseRule | my_lang_compiler/parser.py:125-138 | with a `myelse` after the then-branch, the `if` carries the statement after it |
| ParsingProperties.IfThenRule | my_lang_compiler/parser.py:125-138 | without a `myelse` after the then-branch, the `if` has no else branch and ends there |
| ParsingProperties.SemicolonStatement | my_lang_compiler/parser.py:161-163 | a lone `;` is an empty statement |
| ParsingProperties.UnclosedBlock | my_lang_compiler/parser.py:117-123 | `{ ;` with nothing after it is a syntax error expecting RBRACE at EOF |
| SemanticAnalysis.DefineFrames | my_lang_compiler/semantic_analyzer.py:9-11 | after `define` the name looks up, locally and through the chain, as its annotation or `"auto"`, never as `None`; enclosing scopes are unchanged |
| SemanticAnalysis.CheckStmt | my_lang_compiler/semantic_analyzer.py:46-75 | analysing a statement leaves the enclosing scopes unchanged: only the innermost scope can gain names |
| SemanticAnalysis.CheckStmts | my_lang_compiler/semantic_analyzer.py:42-44 | the same for a statement list |
| SemanticAnalysis.SymbolTable.constructor | my_lang_compiler/semantic_analyzer.py:5-7 | a new scope is empty, and its chain is itself in front of the parent's chain |
| SemanticAnalysis.SymbolTable.Define | my_lang_compiler/semantic_analyzer.py:9-11 | records the name with its annotation, or `"auto"` without one, and changes nothing else |
| SemanticAnalysis.SymbolTable.Lookup | my_lang_compiler/semantic_analyzer.py:13-20 | the lookup through the parent links is `LookupFrames` on the chain's symbols |
| SemanticAnalysis.SemanticAnalyzer.constructor | my_lang_compiler/semantic_analyzer.py:23-24 | a new analyzer starts in one empty global scope |
| SemanticAnalysis.SemanticAnalyzer.VisitExpr | my_lang_compiler/semantic_analyzer.py:77-93 | the result is `CheckExpr` of the current chain |
| SemanticAnalysis.SemanticAnalyzer.VisitStmt | my_lang_compiler/semantic_analyzer.py:26-30 | the current scope is the same object afterwards; the result and the resulting chain are those of `CheckStmt` |
| SemanticAnalysis.SemanticAnalyzer.VisitBlock | my_lang_compiler/semantic_analyzer.py:46-53 | the previous scope is current again afterwards, whether or not a statement failed, and the result follows `CheckStmt` |
| SemanticAnalysis.SemanticAnalyzer.VisitVarDecl | my_lang_compiler/semantic_analyzer.py:55-64 | the current scope is the same object afterwards, and the result follows `CheckStmt` |
| SemanticAnalysis.SemanticAnalyzer.VisitAssignment | my_lang_compiler/semantic_analyzer.py:66-75 | the current scope is the same object afterwards, and the result follows `CheckStmt` |
| SemanticAnalysis.SemanticAnalyzer.VisitIf | my_lang_compiler/semantic_analyzer.py:95-99 | the current scope is the same object afterwards, and the result follows `CheckStmt` |
| SemanticAnalysis.SemanticAnalyzer.VisitWhile | my_lang_compiler/semantic_analyzer.py:101-103 | the current scope is the same object afterwards, and the result follows `CheckStmt` |
| SemanticAnalysis.SemanticAnalyzer.VisitStmts | my_lang_compiler/semantic_analyzer.py:42-44 | each statement in turn in the current scope, stopping at the first failure, as `CheckStmts` says |
| SemanticAnalysis.SemanticAnalyzer.VisitProgram | my_lang_compiler/semantic_analyzer.py:42-44 | the program's statements follow `CheckStmts` in the current scope |
| SemanticAnalysis.Analyze | my_lang_compiler/main.py:43-44 | `SemanticAnalyzer().visit(ast)` accepts exactly what `CheckProgram` accepts, with the same error otherwise |
| SemanticAnalysisProperties.LookupInnermost | my_lang_compiler/semantic_analyzer.py:13-20 | lookup finds a name exactly when some scope holds it, and returns the innermost scope's entry; with `local_only` only the current scope is consulted |
| SemanticAnalysisProperties.CheckExprDeclared | my_lang_compiler/semantic_analyzer.py:77-93 | an expression passes exactly when every name it uses is declared in some scope; otherwise the error names an undeclared one |
| SemanticAnalysisProperties.RedeclarationRejected | my_lang_compiler/semantic_analyzer.py:55-59 | a name already in the current scope cannot be declared there again |
| SemanticAnalysisProperties.ShadowingAccepted | my_lang_compiler/semantic_analyzer.py:55-64 | a name only an enclosing scope declares can be declared; the declaration passes exactly when its initializer does, and then defines the name locally |
| SemanticAnalysisProperties.SelfInitializer | my_lang_compiler/semantic_analyzer.py:61-64 | `myvar x = x;` passes exactly when an enclosing scope already declares `x` |
| SemanticAnalysisProperties.AssignmentOrder | my_lang_compiler/semantic_analyzer.py:66-75 | a non-`Var` target is rejected first, then an undeclared target, and only then the right-hand side is analysed; an assignment declares nothing |
| SemanticAnalysisProperties.BlockScoped | my_lang_compiler/semantic_analyzer.py:46-53 | a block's statements run in a fresh innermost scope, and once the block ends the chain is as before |
| SemanticAnalysisProperties.CheckStmtsAppend | my_lang_compiler/semantic_analyzer.py:42-44 | analysing two statement lists one after the other is analysing their concatenation |
| SemanticAnalysisProperties.RedeclarationScenarios | my_lang_compiler/semantic_analyzer.py:55-59 | `myvar x; myvar x;` is rejected, and `myvar x; { myvar x; }` is accepted |
| SemanticAnalysisProperties.OnlyBlockOpensScope | my_lang_compiler/semantic_analyzer.py:95-103 | a name declared in a block is gone after it, but one declared in a non-block `if` branch stays in the current scope |
| IrGeneration.NamesDistinct | my_lang_compiler/ir_generator.py:11-17 | temporary and label names are equal exactly when their counters are, and no temporary is named like a label |
| IrGeneration.IRGenerator.constructor | my_lang_compiler/ir_generator.py:6-9 | a new generator has a fresh, empty program and both counters at 0 |
| IrGeneration.IRGenerator.FreshTemp | my_lang_compiler/ir_generator.py:11-13 | bumps the temporary counter alone and names the new temporary `t` followed by the counter |
| IrGeneration.IRGenerator.FreshLabel | my_lang_compiler/ir_generator.py:15-17 | bumps the label counter alone and names the new label `L` followed by the counter |
| IrGeneration.IRGenerator.VisitExpr | my_lang_compiler/ir_generator.py:19-22 | appends the code `LowerExpr` gives, returns its operand, leaves the temporary counter where its lowering leaves it, and draws no label |
| IrGeneration.IRGenerator.VisitNum | my_lang_compiler/ir_generator.py:87-90 | follows `LowerExpr`: one CONST of the value into a fresh temporary |
| IrGeneration.IRGenerator.VisitString | my_lang_compiler/ir_generator.py:92-93 | emits nothing and returns the literal's text as the operand |
| IrGeneration.IRGenerator.VisitBool | my_lang_compiler/ir_generator.py:95-98 | follows `LowerExpr`: one CONST of 1 or 0 into a fresh temporary |
| IrGeneration.IRGenerator.VisitVar | my_lang_compiler/ir_generator.py:100-103 | follows `LowerExpr`: one LOAD of the name into a fresh temporary |
| IrGeneration.IRGenerator.VisitBinaryOp | my_lang_compiler/ir_generator.py:47-71 | follows `LowerBinaryOp`: the left operand's code, the right's, then one `op_map` instruction into a temporary drawn after both, or an error for an unknown operator |
| IrGeneration.IRGenerator.VisitUnaryOp | my_lang_compiler/ir_generator.py:73-85 | follows `LowerUnaryOp`: a result temporary is drawn in every case; minus draws a zero temporary and subtracts; plus returns the operand |
| IrGeneration.IRGenerator.VisitStmt | my_lang_compiler/ir_generator.py:19-22 | appends the code `LowerStmt` gives and leaves both counters where it says, or gives its error |
| IrGeneration.IRGenerator.VisitVarDecl | my_lang_compiler/ir_generator.py:36-41 | follows `LowerStmt`: nothing without an initializer, otherwise its code and one STORE into the name |
| IrGeneration.IRGenerator.VisitAssignment | my_lang_compiler/ir_generator.py:43-45 | follows `LowerStmt`: the right-hand side's code and one STORE into the target |
| IrGeneration.IRGenerator.VisitIf | my_lang_compiler/ir_generator.py:105-123 | follows `LowerIf`: condition code, JFALSE to else, then-branch, JMP to end, else label, else branch if any, end label; both labels are drawn before the then-branch |
| IrGeneration.IRGenerator.VisitIfTail | my_lang_compiler/ir_generator.py:120-123 | without an else branch it appends only the end label; with one, that branch's code and counters as `LowerStmt` gives them, then the end label |
| IrGeneration.IRGenerator.VisitWhile | my_lang_compiler/ir_generator.py:125-137 | follows `LowerWhile`: both labels first, start label, condition code, JFALSE to end, body, JMP to start, end label |
| IrGeneration.IRGenerator.VisitPrint | my_lang_compiler/ir_generator.py:139-144 | follows `LowerStmt`: a string literal gives one PRINTS of its text; anything else gives its code and a PRINT of its operand |
| IrGeneration.IRGenerator.VisitStmts | my_lang_compiler/ir_generator.py:32-34 | visits each statement in turn from the counters the previous one left, as `LowerStmts` says |
| IrGeneration.IRGenerator.VisitProgram | my_lang_compiler/ir_generator.py:27-30 | follows `LowerStmts` on the program's statements and returns the generator's own program |
| IrGeneration.GenerateIR | my_lang_compiler/ir_generator.py:5-30 | a fresh generator's program holds exactly the code `LowerProgram` gives, or the same error |
| IrGenerationProperties.TempNumberOfTemp | my_lang_compiler/ir_generator.py:11-13 | the counter can be read back from a temporary's name, and that name is no label's |
| IrGenerationProperties.LabelNumberOfLabel | my_lang_compiler/ir_generator.py:15-17 | the counter can be read back from a label's name, and that name is no temporary's |
| IrGenerationProperties.LeafFresh | my_lang_compiler/ir_generator.py:87-103 | a single instruction that writes the next temporary and returns it as the operand is fresh expression code |
| IrGenerationProperties.LowerExprFresh | my_lang_compiler/ir_generator.py:47-103 | expression code runs straight through, writes only temporaries drawn after `t`, each once, and a computed operand is one of them |
| IrGenerationProperties.LowerBinaryOpFresh | my_lang_compiler/ir_generator.py:47-71 | the same for a binary operation |
| IrGenerationProperties.NegationFresh | my_lang_compiler/ir_generator.py:77-81 | a negation writes its zero and result temporaries once each, both fresh |
| IrGenerationProperties.LowerUnaryOpFresh | my_lang_compiler/ir_generator.py:73-85 | the same for a unary operation |
| IrGenerationProperties.LowerStmtFresh | my_lang_compiler/ir_generator.py:32-144 | statement code draws temporaries and labels only after the starting counters, writes each temporary once, places each label once, and only jumps to labels it places |
| IrGenerationProperties.LowerStmtsFresh | my_lang_compiler/ir_generator.py:32-34 | the same for a statement list |
| IrGenerationProperties.IfLayoutTemps | my_lang_compiler/ir_generator.py:105-123 | the `if` layout keeps temporaries fresh and written once |
| IrGenerationProperties.IfHeadLabels | my_lang_compiler/ir_generator.py:105-119 | up to the else label, an `if` places its then-branch's labels and the else label, each once |
| IrGenerationProperties.IfLayoutLabels | my_lang_compiler/ir_generator.py:105-123 | the `if` layout places each label once, all drawn after the starting counter |
| IrGenerationProperties.IfTailLabels | my_lang_compiler/ir_generator.py:120-123 | the else-branch and end label keep the labels of an `if` distinct |
| IrGenerationProperties.IfLayoutJumps | my_lang_compiler/ir_generator.py:105-123 | every jump of an `if` lands on a label it places |
| IrGenerationProperties.WhileLayoutTemps | my_lang_compiler/ir_generator.py:125-137 | the `while` layout keeps temporaries fresh and written once |
| IrGenerationProperties.WhileLayoutLabels | my_lang_compiler/ir_generator.py:125-137 | the `while` layout places each label once, all drawn after the starting counter |
| IrGenerationProperties.WhileTailLabels | my_lang_compiler/ir_generator.py:134-137 | the body, the jump back and the end label keep the labels of a `while` distinct |
| IrGenerationProperties.WhileLayoutJumps | my_lang_compiler/ir_generator.py:125-137 | every jump of a `while` lands on a label it places |
| IrGenerationProperties.LowerIfFresh | my_lang_compiler/ir_generator.py:105-123 | an `if` statement's code has fresh temporaries, distinct labels and closed jumps |
| IrGenerationProperties.LowerWhileFresh | my_lang_compiler/ir_generator.py:125-137 | a `while` statement's code has fresh temporaries, distinct labels and closed jumps |
| IrGenerationProperties.LowerProgramFresh | my_lang_compiler/ir_generator.py:5-30 | a whole program writes `t1, t2, …` once each, places `L1, L2, …` once each, and every jump lands on one of its labels |
| IrGenerationCorrectness.ApplyOpCode | my_lang_compiler/ir_generator.py:52-69 | the `op_map` opcode of an operator computes that operator's value; an operator outside the map has none |
| IrGenerationCorrectness.LowerExprOnlyWrites | my_lang_compiler/ir_generator.py:47-103 | expression code holds only CONST, LOAD and binary opcodes |
| IrGenerationCorrectness.LowerExprComputes | my_lang_compiler/ir_generator.py:47-103 | expression code runs, leaves the expression's value in the returned operand, and changes only the temporaries it drew |
| IrGenerationCorrectness.LeafComputes | my_lang_compiler/ir_generator.py:87-103 | a literal's or variable's one instruction writes its value into the next temporary |
| IrGenerationCorrectness.BinaryOpComputes | my_lang_compiler/ir_generator.py:47-71 | the same for a binary operation: the right operand's code leaves the left's value intact |
| IrGenerationCorrectness.UnaryOpComputes | my_lang_compiler/ir_generator.py:73-85 | the same for a unary operation |
| IrGenerationCorrectness.NegationComputes | my_lang_compiler/ir_generator.py:77-81 | `0 - x` through the zero temporary leaves `-x` in the result temporary |
| IrGenerationCorrectness.ExprCodeComputes | my_lang_compiler/ir_generator.py:47-103 | run under the meaning of IR programs, expression code ends after its last instruction, prints nothing, leaves the value in the returned operand, and changes only fresh temporaries |
| IrSemantics.FloorDiv | my_lang_compiler/optimizer.py:18 | `a // b` is the largest integer not above the exact quotient, for either sign of `b` |
| IrSemantics.FindLabel | my_lang_compiler/codegen.py:69-74 | the target of a `goto` is a LABEL instruction with that name, at or after the search start |
| Optimization.ComputeBinary | my_lang_compiler/optimizer.py:8-31 | a value exists exactly for a foldable opcode, except division by zero |
| Optimization.ComputeBinaryMeaning | my_lang_compiler/optimizer.py:8-31 | folding computes what the opcode means in the IR; DIV is floor division; relational opcodes give 1 or 0 |
| Optimization.Rewrite | my_lang_compiler/optimizer.py:53-103 | each instruction comes out unchanged, or as a CONST into the same result with no `arg2`, and only a LOAD or a foldable opcode can change |
| Optimization.Optimized | my_lang_compiler/optimizer.py:53-103 | the output has the input's length, and each instruction is the input's, or a CONST into the same result |
| Optimization.Step | my_lang_compiler/optimizer.py:53-103 | one loop iteration emits `Rewrite` of the instruction and moves on with `Learn` of the knowledge |
| Optimization.Optimize | my_lang_compiler/optimizer.py:33-105 | builds a fresh program holding `Optimized` of the input's instructions |
| Optimization.ConstRule | my_lang_compiler/optimizer.py:54-57 | a CONST passes through and records `result ↦ arg1`; nothing else changes |
| Optimization.LoadRule | my_lang_compiler/optimizer.py:59-68 | a LOAD of a known name becomes a CONST of its value and makes its result known; a LOAD of an unknown name passes through and its result is forgotten |
| Optimization.StoreRule | my_lang_compiler/optimizer.py:70-77 | a STORE is never removed, and its destination takes on what is known of its source |
| Optimization.FoldRule | my_lang_compiler/optimizer.py:79-89 | a foldable instruction with two known integer operands and a defined value becomes a CONST of it, recorded for its result |
| Optimization.NoFoldRule | my_lang_compiler/optimizer.py:79-93 | a foldable instruction that cannot be folded passes through and its result is forgotten |
| Optimization.DivByZeroRule | my_lang_compiler/optimizer.py:84-93 | DIV by a known zero is emitted unchanged and its result is forgotten |
| Optimization.ControlFlowRule | my_lang_compiler/optimizer.py:95-98 | JMP, JFALSE, JIF and LABEL pass through and clear all knowledge |
| Optimization.OtherRule | my_lang_compiler/optimizer.py:100-103 | PRINT, PRINTS and RETURN pass through and forget only their own result |
| Optimization.LoadAfterControlFlow | my_lang_compiler/optimizer.py:95-98 | a LOAD right after a jump or label is never folded |
| Optimization.PropagatesThroughStoreAndLoad | tests/test_optimizer.py:8-18 | CONST 7 → t1; STORE t1 → x; LOAD x → t2 turns the LOAD into CONST 7 → t2 |
| Optimization.FoldsComparison | tests/test_optimizer.py:20-31 | CONST 4, CONST 9, then SLT folds to CONST 1 |
| Optimization.KeepsDivisionByZero | tests/test_optimizer.py:33-41 | CONST 4, CONST 0, then DIV keeps the DIV |
| Optimization.ClearsAcrossControlFlow | tests/test_optimizer.py:43-53 | after `CONST 1 → t1; STORE t1 → x; JMP L1; L1:`, the `LOAD x` stays a LOAD |
| OptimizationSoundness.LabelsPreserved | my_lang_compiler/optimizer.py:95-98 | the optimized program has the same LABELs at the same places |
| OptimizationSoundness.FindLabelPreserved | my_lang_compiler/optimizer.py:95-98 | every jump target is found at the same index in both programs |
| OptimizationSoundness.StepStraight | my_lang_compiler/optimizer.py:54-93 | with true knowledge, a rewritten instruction that is not a jump does what the original does, and the knowledge afterwards is true |
| OptimizationSoundness.StepJump | my_lang_compiler/optimizer.py:95-98 | a jump runs alike in both programs, and either falls through or lands on a LABEL |
| OptimizationSoundness.StepSound | my_lang_compiler/optimizer.py:53-103 | each step of the optimized program is the original's step, and the invariant holds wherever control goes next |
| OptimizationSoundness.ControlFlowSound | my_lang_compiler/optimizer.py:95-98 | the same for jumps and labels |
| OptimizationSoundness.StraightSound | my_lang_compiler/optimizer.py:54-93 | the same for the other instructions |
| OptimizationSoundness.RunSound | my_lang_compiler/optimizer.py:33-105 | from any state where the invariant holds, the optimized program runs exactly as the original for any number of steps |
| OptimizationSoundness.OptimizeSound | my_lang_compiler/optimizer.py:33-105 | from the start, in any environment, the optimized program faults exactly when the original does, and otherwise reaches the same state with the same output |
| CodeGeneration.EscapeOne | my_lang_compiler/codegen.py:20-26 | the replace chain turns one character into its C escape |
| CodeGeneration.EscapeIsPerCharacter | my_lang_compiler/codegen.py:20-26 | a later replace never touches what an earlier one wrote, so the text is escaped character by character |
| CodeGeneration.EscapeRoundTrip | my_lang_compiler/codegen.py:20-26 | reading the escaped text back as a C string literal gives the original string |
| CodeGeneration.EscapeClean | my_lang_compiler/codegen.py:20-26 | the escaped text has no raw newline, tab or carriage return, and each quote in it follows a backslash |
| CodeGeneration.FieldsOfScanned | my_lang_compiler/codegen.py:30-40 | an instruction contributes its result's names, plus its arguments' names for the opcodes whose arguments are collected |
| CodeGeneration.FieldsClassified | my_lang_compiler/codegen.py:9-18 | collected temporaries begin with `t`; collected variables are identifiers beginning with neither `t` nor `L`; each comes from a scanned field |
| CodeGeneration.DeclaredNamesClassified | my_lang_compiler/codegen.py:9-18 | no name is both a temporary and a variable, no label is declared, and every declared name is a scanned field of some instruction |
| CodeGeneration.LiteralsNotCollected | my_lang_compiler/codegen.py:34-40 | for CONST and PRINTS only the result is scanned, never the literal or the text |
| CodeGeneration.LabelLikeVariableUndeclared | my_lang_compiler/codegen.py:12-13 | a variable named `Lx` is stored to but never declared |
| CodeGeneration.SortedNames | my_lang_compiler/codegen.py:48 | `sorted` lists each name of the set once, in strictly increasing order |
| CodeGeneration.Declarations | my_lang_compiler/codegen.py:48-50 | the declaration line is omitted exactly when there are no names |
| CodeGeneration.DeclarationLine | my_lang_compiler/codegen.py:48-50 | with names, there is one line `    int a, b, …;` listing each collected name once, in increasing order |
| CodeGeneration.LineShapes | my_lang_compiler/codegen.py:53-94 | a line is produced exactly for the opcodes with a rule, and an error names the opcode otherwise; a label's line is `name:;` unindented; every other line is indented by four spaces |
| CodeGeneration.LineDefined | my_lang_compiler/codegen.py:53-94 | the opcodes with a rule give a line, and every other opcode gives an error naming it; a label's line is `name:;` |
| CodeGeneration.LineIndented | my_lang_compiler/codegen.py:54-90 | every line other than a label's starts with four spaces |
| CodeGeneration.BodyLines | my_lang_compiler/codegen.py:53-94 | the instruction lines succeed exactly when every opcode has a rule, one line per instruction in order; otherwise the error is that of the first instruction without a rule |
| CodeGeneration.LineHasNoNewline | my_lang_compiler/codegen.py:53-94 | an instruction line holds no newline when the fields it shows hold none |
| CodeGeneration.PrintsLineClean | my_lang_compiler/codegen.py:77-78 | a PRINTS line holds no newline, whatever its text, because the text is escaped |
| CodeGeneration.BodyHasNoNewline | my_lang_compiler/codegen.py:53-94 | no instruction line holds a newline |
| CodeGeneration.DeclarationsHaveNoNewline | my_lang_compiler/codegen.py:48-50 | the declaration line holds no newline |
| CodeGeneration.OutputLines | my_lang_compiler/codegen.py:43-98 | split at newlines, the output is the two header lines, the declaration line when there are names, exactly one line per instruction in order, and the two closing lines |
| CodeGeneration.CodeGenerator.constructor | my_lang_compiler/codegen.py:4-7 | a new generator holds the program and two empty name sets |
| CodeGeneration.CodeGenerator.CollectOperand | my_lang_compiler/codegen.py:9-18 | adds the operand to the set its class names and to no other |
| CodeGeneration.CodeGenerator.CollectInstruction | my_lang_compiler/codegen.py:31-40 | adds the names of the instruction's scanned fields |
| CodeGeneration.CodeGenerator.SortNames | my_lang_compiler/codegen.py:48 | the loop lists the set as `SortedNames` does |
| CodeGeneration.CodeGenerator.CollectNames | my_lang_compiler/codegen.py:30-40 | after the first loop the sets hold every instruction's collected temporaries and variables |
| CodeGeneration.CodeGenerator.Generate | my_lang_compiler/codegen.py:28-98 | collects the names, then returns the C text `Emit` gives for them, or the same error |
| CodeGeneration.RenderLines | my_lang_compiler/codegen.py:43-98 | the lines built and joined are `Render` of the instructions and declared names |
| CodeGeneration.AppendBody | my_lang_compiler/codegen.py:53-94 | the instruction loop appends exactly `BodyLines`, or stops with its error |
| Compiler.LowerExprGeneratable | my_lang_compiler/ir_generator.py:47-103 | a parsed expression always lowers, and its code uses only opcodes the C generator has a rule for |
| Compiler.LowerBinaryOpGeneratable | my_lang_compiler/ir_generator.py:47-71 | the same for a binary operation: every operator the parser builds is in `op_map` |
| Compiler.LowerUnaryOpGeneratable | my_lang_compiler/ir_generator.py:73-85 | the same for a unary operation |
| Compiler.LowerStmtGeneratable | my_lang_compiler/ir_generator.py:32-144 | a parsed statement always lowers, and its code is accepted by the C generator; a PRINTS always carries a literal's text |
| Compiler.LowerIfGeneratable | my_lang_compiler/ir_generator.py:105-123 | the same for an `if` |
| Compiler.LowerWhileGeneratable | my_lang_compiler/ir_generator.py:125-137 | the same for a `while` |
| Compiler.LowerStmtsGeneratable | my_lang_compiler/ir_generator.py:27-34 | the same for a statement list |
| Compiler.OptimizedGeneratable | my_lang_compiler/optimizer.py:53-103 | optimizing keeps code acceptable to the C generator |
| Compiler.TranslationTotal | my_lang_compiler/main.py:43-67 | after parsing, compilation succeeds exactly when semantic analysis does, and otherwise fails with its error |
| Compiler.BackEndTotal | my_lang_compiler/main.py:30-73 | a compilation succeeds exactly when parsing and semantic analysis do; otherwise it fails with the first of their errors |
| Compiler.Compile | my_lang_compiler/main.py:30-69 | the stage objects, run one after the other, give `CompileSource` |
| Compiler.Translate | my_lang_compiler/main.py:43-69 | the stages after parsing give `Translation` |
| Compiler.RunBackend | my_lang_compiler/main.py:57-67 | the optimizer and then the C generator give `Backend` of the generated code |

## Left out

- `main.py`'s command line, file I/O, version lookup and progress printing are not modelled. `compile_source` is modelled as the order of its stages. Its `except` that prints and returns `None` is the `Err` of the first failing stage.
- Exception message texts are not modelled. Each error is a variant that keeps the facts its message reports: position, expected kind and token found, name, or opcode.
- `visit_Return` is left out, because no `Return` node is defined and the parser builds none. JIF and RETURN are never generated. They appear only as a control-flow opcode in the optimizer and as unsupported opcodes in the C generator.
- Python's dynamic visitor dispatch (`getattr`, and `generic_visit`'s walk over `__dict__`) becomes a `match` over closed datatypes. `Bool` is the only node that reaches `generic_visit` in the semantic analyzer, and there it does nothing.
- The syntax tree is three datatypes (`Expr`, `Stmt`, `Program`) instead of one class hierarchy. `VarDecl` keeps its `Var` node as the token and the name.
- The parser's `empty()` is written inline as `NoOp`.
- TermTail: its own contract gives where the loop stops, not the tree it builds. The left fold is stated, for token lists whose operands are literals or names, by ParsingProperties.TermTailFolds.
- ExprTail: its own contract gives where the loop stops, not the tree it builds. The left fold is stated, for token lists whose operands are products of literals or names, by ParsingProperties.ExprTailFolds.
- Parsing.TermRule: its contract states that a well-formed tree is built. The grouping is proved by ParsingProperties.TermFolds only for operands that are literals or names. Operands in parentheses or with a sign are covered only by the fixed examples.
- Parsing.ExprRule: its contract states that a well-formed tree is built. The grouping is proved by ParsingProperties.ExprFolds only for products of literals or names. Operands in parentheses or with a sign are covered only by the fixed examples.
- The parser's constructor is split in two. `Open` pulls the first token, and the constructor stores it.
- Character classes are Python's restricted to ASCII. Non-ASCII letters, digits and spaces are not classified as Python classifies them.
- Tokens.StrRepr: `repr` escapes only the ASCII cases (quotes, backslash, control characters). Python's handling of non-printable non-ASCII characters is not modelled.
- Ir.QuadrupleRepr: states the label form and the opcode prefix only. The exact padded column layout is display text.
- The emitted C is modelled as text. What a C compiler does with it is not part of this model: 32-bit `int` overflow, and C's truncating `/`. The optimizer folds division with Python's `//` (my_lang_compiler/optimizer.py:18), which is floor division, and the model follows it. A quotient folded at compile time and one C computes at run time therefore differ for operands of opposite sign.
- Optimization.Rewrite: folds only when both known values are integers. A known value that is a string can only come from a hand-built CONST with a string literal. Python would then attempt `+` or a comparison on strings, or raise on a mixed pair. The model passes such an instruction through unchanged.
- IrGenerationCorrectness.LowerExprComputes: requires that no variable is named like a temporary (`t` followed by a counter). The real generator lets such a variable be overwritten by its own temporaries: `myvar t3 = 7; myprint(t3*2+t3);` prints 16, not 21. The same restriction holds for ExprCodeComputes.
- CodeGeneration.CodeGenerator.Generate: requires that every PRINTS carries a string in `arg1`. Any other `arg1` makes `_escape_c_string` fail in Python. The generator only ever emits PRINTS with a literal's text, as Compiler.LowerStmtGeneratable proves.
- Compiler.RunBackend: requires code that the C generator accepts. Compiler.LowerStmtsGeneratable and Compiler.OptimizedGeneratable show that generated and optimized code always is.
- IrGeneration.IRGenerator.VisitAssignment: an assignment whose target is not a `Var` is refused with an error. The parser never builds one.
- State after an error is not specified. When a stage fails, the model says only what error comes out, not what the lexer, parser, analyzer or generator objects hold afterwards. The source abandons those objects too.
- The `L`-prefix rule of `_collect_operand` is reproduced, not fixed. A user variable whose name starts with `L` is never declared in the C output.
- `sorted(list(temps) + list(vars))` is modelled as the sorted union of the two sets. The two sets are proved disjoint, so the union lists the same names.
- The helper methods `Lexer.ReadBody`, `Parser.ElseBranch`, `IRGenerator.VisitIfTail` and `AppendBody` split a source routine into two parts. They add no behaviour.
