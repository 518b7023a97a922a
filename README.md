# Lox in Dafny

This project models the tree-walking interpreter for the Lox teaching language,
which ships in two generations:

- **The expression-only pipeline** in the root files:
  - the scanner `Scanner.js`;
  - the parser `Parser.js`, which parses one expression with no identifiers or assignment;
  - the evaluator `Interpreter.js`;
  - the postfix printer `RpnPrinter.js`.
- **The statement pipeline** under `src/`:
  - the parser `src/Parser.js`, for declarations, `print`, `if`, `while`, `for` and blocks;
  - the evaluator `src/Interpreter.js`, with functions, `return`, the `clock` native, blocks and environments;
  - `src/Environment.js`;
  - the prefix printer `src/AstPrinter.js`;
  - `src/enumify.js`.

Each imperative piece of the source is modelled as a Dafny class whose methods are proved against a functional specification. Properties are then proved about that specification:

| Source | Class | Specification |
|---|---|---|
| `Scanner.js` | `Lexer.Scanner` | `Lexer.Step` / `Lexer.ScanFrom` |
| both parsers | `Parsing.Parser`, one class with a `Dialect` switch | `Grammar` and `StmtGrammar` |
| `src/Interpreter.js` | `Interpreting.Interpreter`, whose `environment` field is swapped and restored exactly as `_executeBlock` does | `Semantics` |
| `src/Environment.js` | `Environments.Environment` | `Environments.Bind` / `Lookup` / `Rebind` |

Pure code stays pure:

- **Old evaluator:** `ExpressionInterpreter` models `Interpreter.js`.
- **Operators:** `Operators` holds the operator rules the two evaluators share.
- **Values:** `Values` holds runtime values and JavaScript numbers. A number is `Finite(real)` or `NaN`.
- **Printers:** `AstPrinter` and `RpnPrinter` are recursive functions. Their accumulating loops are methods proved equal to the functions.
- **Enumify:** `Enumify` is a fold that builds a map.

Exceptions are explicit outcomes:

- A parse is `Parsed(value, state)` or `Thrown(error, state)`. The state is the cursor position and the list of reported errors.
- An evaluation is a `Run`: a `Completion` (`Normal` or `Abrupt` with a `Signal`), the bindings and the printed output.
- A `Signal` is a `RuntimeError`, a host `TypeError`, a `Return` or running out of fuel.

Loop iterations and calls spend one unit of `fuel`.

## Model

| member | source | states |
|---|---|---|
| Common.NatToString | src/Interpreter.js:158-161 | the decimal text of a count (as a template literal renders it) has no leading zero and reads back as the count |
| Lexer.IdentifierKind | Scanner.js:228 | a reserved word gets its keyword kind, every other word is IDENTIFIER |
| Lexer.DigitsEnd | Scanner.js:197-199 | the digit loop stops at the first non-digit or the end, having passed only digits |
| Lexer.IdentifierEnd | Scanner.js:222-224 | the identifier loop stops at the first character that is not a letter, digit or `_`, having passed only such characters |
| Lexer.NextOccurrence | Scanner.js:108-110 | the comment loop stops on the first newline or at the end of input, having passed no newline |
| Lexer.NumberEnd | Scanner.js:196-209 | a number literal ends within the input and after its start |
| Lexer.Step | Scanner.js:59-136 | one `_scanToken` call: a step that does not fail consumes at least one character and stays within the input, and never emits EOF |
| Lexer.Scanner.constructor | Scanner.js:36-43 | a new scanner holds the source, no tokens, cursors at 0 and line 1 |
| Lexer.Scanner.ScanTokens | Scanner.js:45-53 | the tokens returned are those already pushed followed by the scan of the rest of the input (`ScanFrom`), EOF last, or the first error thrown |
| Lexer.Scanner.ScanToken | Scanner.js:59-136 | one call has exactly the effect of `Step`: the cursor, line and token list it leaves, or the error it throws |
| Lexer.Scanner.ScanOperator | Scanner.js:63-114 | the punctuation, two-character operator and slash/comment branches have the effect of `Step` |
| Lexer.Scanner.ScanOther | Scanner.js:115-134 | the whitespace, newline, string, number, identifier and error branches have the effect of `Step` |
| Lexer.Scanner.ScanLiteral | Scanner.js:126-134 | the digit, letter and unexpected-character branches have the effect of `Step` |
| Lexer.Scanner.SkipComment | Scanner.js:106-110 | after `//` the cursor stops at the next newline or the end of input |
| Lexer.Scanner.Advance | Scanner.js:138-142 | returns the character under the cursor and moves the cursor by one |
| Lexer.Scanner.AddToken | Scanner.js:144-147 | appends one token whose lexeme is `source[start..current]` on the current line, and nothing else |
| Lexer.Scanner.Match | Scanner.js:149-160 | consumes the next character exactly when there is one and it is the expected one |
| Lexer.Scanner.Peek | Scanner.js:162-168 | the character under the cursor when there is one, NUL at or past the end |
| Lexer.Scanner.PeekNext | Scanner.js:214-219 | the character after the cursor, or NUL past the end |
| Lexer.Scanner.ScanString | Scanner.js:170-190 | has the effect of `StringStep`: an unterminated string throws with the line reached, otherwise one STRING token up to the closing quote |
| Lexer.Scanner.ScanNumber | Scanner.js:196-212 | consumes through `NumberEnd` and pushes one NUMBER token whose literal is the decimal value of its lexeme |
| Lexer.Scanner.SkipNumber | Scanner.js:197-209 | the cursor moves to `NumberEnd`: digits, and a fraction only when a digit follows the dot |
| Lexer.Scanner.SkipDigits | Scanner.js:206-208 | the cursor moves to the end of the run of digits |
| Lexer.Scanner.ScanIdentifier | Scanner.js:221-230 | consumes the maximal identifier run and pushes one token of kind `IdentifierKind` of its text |
| LexerCases.WhitespaceSkipped | Scanner.js:115-119 | space, `\r` and `\t` emit nothing and leave the line unchanged |
| LexerCases.NewlineCounted | Scanner.js:120-122 | a newline emits nothing and adds one to the line |
| LexerCases.CommentSkipped | Scanner.js:105-110 | `//` skips to the next newline (not included) or the end of input, with no newline in between, and emits nothing |
| LexerCases.LoneSlash | Scanner.js:111-113 | a `/` not followed by `/` is one SLASH token `"/"` |
| LexerCases.OperatorMunch | Scanner.js:93-104 | `!`, `=`, `<`, `>` followed by `=` give the two-character token, otherwise the one-character token |
| LexerCases.UnterminatedStringReportsLastLine | Scanner.js:170-182 | a quote with no closing quote fails the whole scan, reporting the starting line plus the newlines up to the end of input |
| LexerCases.StringLiteral | Scanner.js:170-190 | a string token's lexeme runs from quote to quote, its literal is the text strictly between them, and its line counts the newlines inside |
| LexerCases.NumberFraction | Scanner.js:196-212 | a number is a digit run, and a `.` joins it only when a digit follows; the literal is the lexeme's decimal value |
| LexerCases.WordMunch | Scanner.js:221-230 | a maximal run of letters, digits and `_` is one token: its keyword kind when reserved, IDENTIFIER otherwise |
| LexerCases.ReservedLookupAsWritten | Scanner.js:228 | the lookup `text in reservedWords` as written: reserved words, and also every name inherited from `Object.prototype`, are found |
| LexerCases.ToStringIsNotAnIdentifierAsWritten | Scanner.js:228 | `toString` is identifier text, yet the lookup as written finds it in the table, while `IdentifierKind` calls it IDENTIFIER |
| LexerCases.IdentifierKindClassifies | Scanner.js:221-230 | the corrected lookup yields IDENTIFIER exactly for non-reserved text and a keyword kind otherwise |
| LexerCases.KeywordTableKinds | Scanner.js:3-20 | every entry of the keyword table is a keyword kind, never IDENTIFIER |
| LexerProperties.UnexpectedCharacterExactly | Scanner.js:126-134 | a step fails with "Unexpected character" exactly on a character that cannot start a lexeme, reporting the current line |
| LexerProperties.StringStepLine | Scanner.js:170-177 | a string step's line grows by exactly the newlines in its lexeme |
| LexerProperties.StepLine | Scanner.js:120-122 | after any step the line has grown by exactly the newlines the step consumed |
| LexerProperties.ScanFromEndsWithEof | Scanner.js:45-53 | a successful scan ends with exactly one EOF token, with empty lexeme and null literal, on the line after all newlines of the input |
| LexerProperties.ScanFromLexemes | Scanner.js:144-147 | every non-EOF token's lexeme is the slice of its span, spans are non-empty, in source order and non-overlapping, and each token's line is the line at its span's end |
| LexerProperties.SingleCharFixed | Scanner.js:63-92 | each single-character kind has its character as its only lexeme |
| LexerProperties.OperatorFixed | Scanner.js:93-104 | the one- and two-character operator kinds have fixed lexemes `c` and `c=` |
| LexerProperties.NumberTokenWellFormed | Scanner.js:196-212 | a NUMBER token has number-syntax text and literal equal to its decimal value |
| LexerProperties.IdentifierTokenWellFormed | Scanner.js:221-230 | an identifier or keyword token agrees with the keyword table and has a null literal |
| LexerProperties.StringTokenWellFormed | Scanner.js:170-190 | a STRING token's lexeme is quoted and its literal is the inside |
| LexerProperties.StepWellFormed | Scanner.js:59-136 | every token a step emits is well formed: kind, lexeme and literal agree |
| LexerProperties.ScanFromWellFormed | Scanner.js:45-49 | every token of a successful scan except EOF is well formed |
| LexerProperties.FixedLexemeScans | Scanner.js:63-104 | a fixed lexeme is one or two characters, and the scanner's tables map it back to its kind |
| LexerProperties.RescanFixed | Scanner.js:63-104 | scanning an operator or punctuation lexeme alone gives back its token and EOF |
| LexerProperties.RescanIdentifier | Scanner.js:221-230 | scanning an identifier or keyword lexeme alone gives back its token and EOF |
| LexerProperties.RescanNumber | Scanner.js:196-212 | scanning a number lexeme alone gives back its token and EOF |
| LexerProperties.RescanString | Scanner.js:170-190 | scanning a string lexeme alone gives back its token and EOF, on the line after its newlines |
| LexerProperties.RescanLexeme | Scanner.js:45-53 | round trip: scanning the lexeme of any well-formed token alone gives back that token followed by EOF |
| Grammar.AdvancePos | src/Parser.js:300-307 | `_advance` moves one token on, except at EOF, and never leaves the token list |
| Grammar.Throw | src/Parser.js:323-326 | `throw this._error(token, message)`: the error is reported once at the current token and thrown, the cursor unmoved |
| Grammar.Consume | src/Parser.js:317-321 | succeeds exactly when the current token has the kind, returning it and moving by one; otherwise reports and throws the message at the current token |
| Grammar.Expression | src/Parser.js:153-155 | the cursor only moves forward, never past EOF, and moves on success; reports are only appended; a thrown error is the last one reported; the tree is well nested (each level left-associative, precedence as the grammar orders it) and, in the expression-only dialect, uses only literal, grouping, unary and binary nodes and reports nothing on success |
| Grammar.Assignment | src/Parser.js:157-173 | the same guarantees for `_assignment`, whose tree is an assignment or a looser-binding expression |
| Grammar.AssignValue | src/Parser.js:160-172 | after `=`: the result advances the cursor, consumes at least one token and builds a well-nested tree; the exact result is stated by `ParseCases.AssignValueCases` |
| Grammar.NodeNested | src/Parser.js:175-245 | combining a left operand that binds at least as tightly and a right operand that binds more tightly gives a well-nested node of the level: operators of one level associate to the left |
| Grammar.Level | src/Parser.js:175-245 | `_or` … `_factor`: the tree binds at least as tightly as the level, with the guarantees of `Expression` |
| Grammar.Operand | src/Parser.js:176-236 | an operand of a level binds more tightly than the level |
| Grammar.LevelRest | src/Parser.js:178-182 | the `while (_match(...))` loop of a level keeps the tree well nested and only consumes |
| Grammar.Unary | src/Parser.js:247-255 | prefix operators build a tree binding as a unary expression or tighter |
| Grammar.Primary | Parser.js:84-100 | a primary is a single-token atom or a grouping, binding tightest, or the thrown "Expect expression." |
| Grammar.Atom | src/Parser.js:258-268 | a one-token primary exists exactly on `false`, `true`, `nil`, a number or a string, and on an identifier only in the statement parser; it is never at EOF and the expression-only dialect builds no `Variable` |
| Grammar.Group | src/Parser.js:270-274 | after `(`: an expression closed by `)`, binding tightest |
| StmtGrammar.SyncFrom | src/Parser.js:331-347 | the loop of `_synchronize` stops at the first boundary: EOF, after `;`, or before a statement keyword |
| StmtGrammar.Synchronize | src/Parser.js:328-348 | `_synchronize` discards the current token and stops at the first boundary after it, or stays put at EOF |
| StmtGrammar.SynchronizeWithin | src/Parser.js:328-348 | synchronising never moves the cursor past EOF |
| StmtGrammar.Recover | src/Parser.js:29-32 | a thrown error becomes a `null` entry with one more report, and the cursor has moved unless already at EOF; a success is kept |
| StmtGrammar.Declaration | src/Parser.js:22-33 | a declaration never throws, consumes at least one token unless at EOF (so `parse` terminates), and a `null` entry implies a reported error |
| StmtGrammar.Attempt | src/Parser.js:23-28 | the `try` of `_declaration` consumes on success and builds only parser shapes |
| StmtGrammar.VarDeclaration | src/Parser.js:35-45 | `var` name, optional initializer, `;`, with the parse guarantees |
| StmtGrammar.Initializer | src/Parser.js:38-41 | no `=` means no initializer and nothing consumed; otherwise a well-nested expression |
| StmtGrammar.Statement | src/Parser.js:47-61 | a statement consumes at least one token, never passes EOF, and builds no function or `return` node, with no more `null` entries than errors reported |
| StmtGrammar.OtherStatement | src/Parser.js:54-60 | the same guarantees for the `while`, block and expression branches |
| StmtGrammar.BlockOrExpression | src/Parser.js:56-60 | the same guarantees for the block and expression branches |
| StmtGrammar.BlockStatement | src/Parser.js:56-57 | the same guarantees for a block statement |
| StmtGrammar.Desugar | src/Parser.js:90-104 | the desugared `for` is a `While` when there is no initializer, else a two-entry `Block` of the initializer and that `While`; the loop's condition is the given one or the literal `true`, and its body is the given body, followed in a `Block` by the increment when there is one |
| StmtGrammar.DesugarBuilt | src/Parser.js:90-104 | the desugared loop contains only its parts: it is a parser shape and its `null` entries are exactly those of the initializer and body |
| StmtGrammar.ForStatement | src/Parser.js:63-105 | `_forStatement` with the statement-parse guarantees |
| StmtGrammar.ForInitializer | src/Parser.js:66-73 | the initializer clause is empty, a `var` declaration or an expression statement, and consumes |
| StmtGrammar.ForCondition | src/Parser.js:75-80 | the condition clause and its `;`, keeping the guarantees counted from the `for` |
| StmtGrammar.ForIncrement | src/Parser.js:82-86 | the increment clause and its `)`, keeping the guarantees |
| StmtGrammar.ForBody | src/Parser.js:88-104 | the body and the desugaring, keeping the guarantees |
| StmtGrammar.OptExpression | src/Parser.js:75-78 | no expression exactly when the stop token is current; otherwise a well-nested expression |
| StmtGrammar.ParenCondition | src/Parser.js:108-110 | `(` condition `)`: consumes, and the condition is well nested |
| StmtGrammar.WhileStatement | src/Parser.js:107-114 | `_whileStatement` with the statement-parse guarantees |
| StmtGrammar.WhileBody | src/Parser.js:111-113 | the body and the `While` node, with the guarantees counted from `while` |
| StmtGrammar.IfStatement | src/Parser.js:116-128 | `_ifStatement` with the statement-parse guarantees |
| StmtGrammar.ElseBranch | src/Parser.js:122-127 | the optional `else` binds to the nearest `if`, keeping the guarantees |
| StmtGrammar.Terminated | src/Parser.js:147-150 | an expression followed by `;`, consuming, well nested |
| StmtGrammar.PrintStatement | src/Parser.js:130-134 | `_printStatement` with the statement-parse guarantees |
| StmtGrammar.ExpressionStatement | src/Parser.js:147-151 | `_expressionStatement` with the statement-parse guarantees |
| StmtGrammar.Block | src/Parser.js:136-145 | `_block` consumes and yields a list with no more `null` entries than errors reported |
| StmtGrammar.BlockItems | src/Parser.js:139-141 | the loop of `_block` never throws and stops at `}` or EOF |
| StmtGrammar.Declarations | src/Parser.js:15-17 | the loop of `parse` reaches EOF, only appends reports, and adds no more `null` entries than reports |
| StmtGrammar.ParseProgram | src/Parser.js:12-20 | `parse` builds only parser shapes, and its `null` entries are at most the errors reported, so an error-free parse has none |
| StmtGrammar.ExpressionOrNull | Parser.js:11-20 | the result is `null` exactly when an error was reported; otherwise an expression-only tree |
| StmtGrammar.ParseExpression | Parser.js:11-24 | from the first token: `null` exactly when an error was reported, otherwise a literal/grouping/unary/binary tree |
| Parsing.Parser.constructor | src/Parser.js:6-10 | the cursor starts at 0 with nothing reported |
| Parsing.Parser.Advance | Parser.js:123-130 | the cursor moves as `AdvancePos`: one on, but never past EOF |
| Parsing.Parser.Match | src/Parser.js:279-291 | consumes the current token exactly when it has one of the kinds and is not EOF |
| Parsing.Parser.Error | src/Parser.js:323-326 | appends exactly one report, at the token with the message, cursor unmoved |
| Parsing.Parser.Consume | Parser.js:140-144 | result and new state are those of `Grammar.Consume` |
| Parsing.Parser.Expression | src/Parser.js:153-155 | result and new state are those of `Grammar.Expression`, in either dialect |
| Parsing.Parser.Assignment | src/Parser.js:157-173 | result and new state are those of `Grammar.Assignment` |
| Parsing.Parser.BinaryLevel | Parser.js:26-72 | the `while (_match(...))` loop of each level gives the result and new state of `Grammar.Level` |
| Parsing.Parser.Operand | src/Parser.js:175-245 | result and new state are those of `Grammar.Operand` |
| Parsing.Parser.Unary | Parser.js:74-82 | result and new state are those of `Grammar.Unary` |
| Parsing.Parser.Primary | src/Parser.js:257-277 | result and new state are those of `Grammar.Primary` |
| Parsing.Parser.SingleTokenPrimary | src/Parser.js:258-268 | returns `Atom` at the cursor and consumes the token exactly when there is one |
| Parsing.Parser.Group | src/Parser.js:270-274 | result and new state are those of `Grammar.Group` |
| Parsing.Parser.Parse | src/Parser.js:12-20 | the statements and final state are those of `Declarations` from the start, so the lemmas about `ParseProgram` apply |
| Parsing.Parser.Declaration | src/Parser.js:22-33 | result and new state are those of `StmtGrammar.Declaration` |
| Parsing.Parser.Attempt | src/Parser.js:23-28 | result and new state are those of `StmtGrammar.Attempt` |
| Parsing.Parser.Recover | src/Parser.js:29-32 | result and new state are those of `StmtGrammar.Recover` |
| Parsing.Parser.VarDeclaration | src/Parser.js:35-45 | result and new state are those of `StmtGrammar.VarDeclaration` |
| Parsing.Parser.Initializer | src/Parser.js:38-41 | result and new state are those of `StmtGrammar.Initializer` |
| Parsing.Parser.Statement | src/Parser.js:47-61 | result and new state are those of `StmtGrammar.Statement` |
| Parsing.Parser.OtherStatement | src/Parser.js:54-60 | result and new state are those of `StmtGrammar.OtherStatement` |
| Parsing.Parser.BlockOrExpression | src/Parser.js:56-60 | result and new state are those of `StmtGrammar.BlockOrExpression` |
| Parsing.Parser.BlockStatement | src/Parser.js:56-57 | result and new state are those of `StmtGrammar.BlockStatement` |
| Parsing.Parser.ForStatement | src/Parser.js:63-105 | result and new state are those of `StmtGrammar.ForStatement` |
| Parsing.Parser.ForInitializer | src/Parser.js:66-73 | result and new state are those of `StmtGrammar.ForInitializer` |
| Parsing.Parser.ForCondition | src/Parser.js:75-80 | result and new state are those of `StmtGrammar.ForCondition` |
| Parsing.Parser.ForIncrement | src/Parser.js:82-86 | result and new state are those of `StmtGrammar.ForIncrement` |
| Parsing.Parser.ForBody | src/Parser.js:88-104 | result and new state are those of `StmtGrammar.ForBody` |
| Parsing.Parser.OptionalExpression | src/Parser.js:83-85 | result and new state are those of `OptExpression` |
| Parsing.Parser.WhileStatement | src/Parser.js:107-114 | result and new state are those of `StmtGrammar.WhileStatement` |
| Parsing.Parser.WhileBody | src/Parser.js:111-113 | result and new state are those of `StmtGrammar.WhileBody` |
| Parsing.Parser.IfStatement | src/Parser.js:116-128 | result and new state are those of `StmtGrammar.IfStatement` |
| Parsing.Parser.ElseBranch | src/Parser.js:122-127 | result and new state are those of `StmtGrammar.ElseBranch` |
| Parsing.Parser.Condition | src/Parser.js:117-119 | result and new state are those of `ParenCondition` |
| Parsing.Parser.PrintStatement | src/Parser.js:130-134 | result and new state are those of `StmtGrammar.PrintStatement` |
| Parsing.Parser.ExpressionStatement | src/Parser.js:147-151 | result and new state are those of `StmtGrammar.ExpressionStatement` |
| Parsing.Parser.Terminated | src/Parser.js:148-150 | result and new state are those of `StmtGrammar.Terminated` |
| Parsing.Parser.Block | src/Parser.js:136-145 | the `while` loop of `_block` gives the result and new state of `StmtGrammar.Block` |
| Parsing.Parser.Synchronize | src/Parser.js:328-348 | the loop moves the cursor to `StmtGrammar.Synchronize` of where it started, reporting nothing |
| Parsing.Parser.ParseExpression | Parser.js:11-20 | the expression and new state are those of `ExpressionOrNull` |
| ParseCases.PrimaryCases | src/Parser.js:257-276 | a one-token primary is consumed as it is; with none and no `(`, the result is the thrown "Expect expression." at the cursor |
| ParseCases.AssignValueCases | src/Parser.js:160-172 | after `=`, writing V for the right-hand `_assignment`: the result throws exactly when V does, with V's error; a `Variable` target gives `Assign(name, V's value)` at V's state; any other target is returned itself at V's position, with "Invalid assignment target." at the `=` appended after V's reports |
| ParseCases.UnaryOfAtom | src/Parser.js:257-268 | a one-token primary is its own unary expression, one token consumed |
| ParseCases.UnaryOfGroup | src/Parser.js:270-274 | `( e )` is `Grouping(e)` |
| ParseCases.LevelOfOperand | src/Parser.js:175-185 | an operand not followed by an operator of the level is the level's tree |
| ParseCases.LevelOfPair | src/Parser.js:223-233 | one operator between two operands, with no further operator, is one node of the level |
| ParseCases.Climb | src/Parser.js:175-245 | a tighter level's tree followed by no looser operator passes through every looser level unchanged |
| ParseCases.LevelOfUnary | src/Parser.js:247-255 | a unary expression followed by no binary operator is a whole level tree |
| ParseCases.ExpressionOfLevel | src/Parser.js:157-173 | an `or` expression not followed by `=` is the whole expression |
| ParseCases.ThrowClimbs | src/Parser.js:175-255 | an error thrown by the unary expression at the cursor is thrown unchanged by every binary level |
| ParseCases.ForDesugars | src/Parser.js:63-105 | a `for` that parses had `(`, an initializer, an optional condition and `;`, an optional increment and `)`, and a body, each parsed where the last stopped, and is `Desugar` of those four parts |
| ParseCases.GroupedTerm | test/Parser.test.js:36-41 | `( a op b )` with number operands is the grouping of one binary node |
| ParseCases.Term | src/Parser.js:223-233 | `a op b )` is one binary node as a whole expression |
| ParseCases.TermLevel | src/Parser.js:223-233 | `a op b )` is one binary node at the term level |
| ParseCases.NumberFactor | src/Parser.js:235-245 | a number followed by no factor operator is a whole factor |
| ParseCases.FactorOfPair | src/Parser.js:235-245 | two unary expressions joined by one factor operator are one factor node |
| ParseCases.ArithmeticGroups | test/Parser.test.js:36-47 | the two parenthesised groups of `print (a + b) * (c - d);` parse to their grouped binary nodes |
| ParseCases.FactorExample | test/Parser.test.js:36-47 | the product of the two groups is one `*` node |
| ParseCases.ArithmeticFactor | test/Parser.test.js:36-47 | from token 1 to the `;`, the factor is the expected tree |
| ParseCases.ArithmeticExpression | test/Parser.test.js:30-48 | on the token kinds of the scanner's test, the expression after `print` is `Binary(Grouping(Binary(1,+,2)), *, Grouping(Binary(4,-,3)))` with the tokens' literals |
| ParseCases.PrintBody | src/Parser.js:130-134 | `e ;` after `print` is `Print(e)` |
| ParseCases.PrintOfExpression | test/Parser.test.js:30-48 | the whole example is one `print` declaration of that expression |
| ParseCases.PrefixNests | Parser.js:74-82 | `- - a` is `Unary(-, Unary(-, a))`: prefix operators nest to the right |
| ParseCases.TrailingTokensIgnored | Parser.js:11-24 | `1 2` parses to the literal 1 with no error: the trailing token is never looked at |
| ParseCases.NoExpressionThrows | Parser.js:84-99 | in the expression-only parser, a token that starts no primary, group or prefix operator throws "Expect expression." there |
| ParseCases.IdentifierNotAnExpression | Parser.js:11-24 | the expression-only parser gives no tree for `x` and reports "Expect expression." at `x` once |
| ParseCases.AtomExpression | src/Parser.js:157-173 | a one-token primary followed by no binary operator and no `=` is a whole expression |
| ParseCases.AtomBeforeEquals | src/Parser.js:157-160 | a one-token primary followed by `=` is the whole target of `_assignment` |
| ParseCases.AssignmentOfTarget | src/Parser.js:157-166 | `_assignment` with a target followed by `=` is the rest of the assignment after the `=` |
| ParseCases.AssignValueOf | src/Parser.js:160-172 | after `=` and a parsed value: a variable target gives `Assign`, any other target is kept and reported at the `=` |
| ParseCases.AssignStep | src/Parser.js:157-167 | `x = v` with an identifier `x` is `Assign(x, v)` |
| ParseCases.InvalidTargetStep | src/Parser.js:157-172 | `n = v` with a number `n` is `n` itself, with "Invalid assignment target." reported at the `=` |
| ParseCases.InvalidTargetReported | src/Parser.js:157-172 | `1 = 2` returns the literal 1 with the one report "Invalid assignment target." at the `=`, and throws nothing |
| ParseCases.AssignNumber | src/Parser.js:157-167 | `x = 1` is `Assign(x, 1)` |
| ParseCases.AssignChain | src/Parser.js:157-167 | `x = y = 1` is `Assign(x, Assign(y, 1))` |
| ParseCases.AssignmentNestsRight | src/Parser.js:157-167 | `a = b = 1` parses as `a = (b = 1)`: assignment is right-associative |
| ParseCases.ForHead | src/Parser.js:63-80 | `for (;;` reads no initializer and no condition and goes on to the increment clause |
| ParseCases.ForIncrementClause | src/Parser.js:82-86 | a number before `)` is the increment clause |
| ParseCases.AtomBeforeParen | src/Parser.js:82-85 | a number before `)` is a present optional clause |
| ParseCases.ForBodyDesugars | src/Parser.js:88-104 | a body that parses is desugared with the clauses before it |
| ParseCases.PrintAtom | src/Parser.js:130-134 | `print t;` with a one-token primary `t` is `Print(t)` |
| ParseCases.ForTail | src/Parser.js:82-104 | `1) print 2;` after `for (;;` is `While(true, Block([print 2;, 1;]))` |
| ParseCases.ForWithoutCondition | src/Parser.js:63-105 | `for (;; 1) print 2;` is a bare `While` whose missing condition is the literal `true` and whose body runs `print 2;` then the increment `1;` |
| Values.Arity | src/Interpreter.js:239-264 | a native reports its stored arity, a user function its parameter count |
| Values.FromLiteral | src/Interpreter.js:58-60 | a literal node evaluates to the value it holds, `null` to `nil` |
| Values.StringToNumber | src/Interpreter.js:101-103 | `Number("")` is 0, text in the scanner's number syntax is its decimal value, and any other text is NaN (which departs from JavaScript for some strings, see Left out) |
| Values.ToNumber | src/Interpreter.js:101-103 | `Number(x)`: a number is itself, `null` and `false` are 0, `true` is 1, `undefined` and functions are NaN |
| Operators.CheckNumberOperand | src/Interpreter.js:228-231 | passes exactly on a number, else "Operand must be a number." at the operator |
| Operators.CheckNumberOperands | src/Interpreter.js:233-236 | passes exactly on two numbers, else "Operands must be a numbers." at the operator |
| Operators.BangOnlyOnNumbers | src/Interpreter.js:86-88 | `!` rejects every non-number and is `false` on every number |
| Operators.MinusNegates | src/Interpreter.js:83-85 | unary `-` negates a number and rejects everything else |
| Operators.PlusCases | src/Interpreter.js:100-110 | `+` adds when either side is a number, concatenates two strings, and otherwise throws "Operands must be two numbers or two strings." |
| Operators.PlusCoerces | src/Interpreter.js:101-103 | `1 + nil` is 1, `true + 1` is 2, `1 + "a"` is NaN |
| Operators.NumericNeedNumbers | src/Interpreter.js:96-139 | every operator but `+`, `==` and `!=` included, throws unless both operands are numbers; on numbers only division by zero fails |
| Operators.DivisionByZero | src/Interpreter.js:111-118 | dividing by 0 throws "Unable to divide by zero." |
| Operators.ComparisonsAreBooleans | src/Interpreter.js:122-139 | comparisons and equality on numbers yield booleans, `!=` negates `==`, and `>` is `<` swapped |
| Operators.NaNIsNotEqual | src/Interpreter.js:224-226 | `===` makes `NaN == NaN` false |
| Environments.UndefinedVariable | src/Environment.js:17 | the error carries the token and "Undefined variable 'n'." |
| Environments.Bind | src/Environment.js:8-10 | `define` binds the name to the value, keeps other bindings and overwrites an earlier one |
| Environments.Lookup | src/Environment.js:12-18 | `get` succeeds exactly on a bound name with its value, and otherwise throws the undefined-variable error |
| Environments.Rebind | src/Environment.js:20-28 | corrected `assign`: succeeds exactly on a bound name, overwriting only it; otherwise throws and binds nothing |
| Environments.RebindAsWritten | src/Environment.js:20-28 | `assign` as written never succeeds: a bound name crashes on `values.put`, an unbound one throws the undefined-variable error |
| Environments.LookupAfterBind | src/Environment.js:8-18 | after `define(n, v)`, `get(n)` is `v` and other names are unaffected |
| Environments.LookupAfterRebind | src/Environment.js:20-28 | after a successful corrected assignment `get` returns the new value; a failed one means the name was unbound |
| Environments.RebindIsBindWhenBound | src/Environment.js:21-23 | assigning a bound name is defining it again |
| Environments.AssignmentAsWrittenCrashes | src/Environment.js:21-23 | as written, assigning a defined variable crashes where the corrected version succeeds |
| Environments.Environment.constructor | src/Environment.js:4-6 | a new environment is empty |
| Environments.Environment.Define | src/Environment.js:8-10 | the bindings become `Bind` of the old ones |
| Environments.Environment.Get | src/Environment.js:12-18 | returns `Lookup` of the bindings, changing nothing |
| Environments.Environment.Assign | src/Environment.js:20-28 | overwrites exactly when the corrected `Rebind` succeeds, else keeps the bindings and returns the undefined-variable error |
| Semantics.Eval | src/Interpreter.js:214-216 | an expression binds no new name, returns no `Return` signal, and only appends output |
| Semantics.EvalUnary | src/Interpreter.js:78-90 | the same effect bound for a prefix operator |
| Semantics.EvalBinary | src/Interpreter.js:92-144 | the same effect bound for a binary operator |
| Semantics.EvalLogical | src/Interpreter.js:62-72 | the same effect bound for `and`/`or` |
| Semantics.EvalAssign | src/Interpreter.js:186-191 | the same effect bound for an assignment |
| Semantics.EvalCall | src/Interpreter.js:146-163 | the same effect bound for a call |
| Semantics.EvalArgs | src/Interpreter.js:148 | arguments evaluated left to right; on success one value per argument |
| Semantics.CallValue | src/Interpreter.js:150-162 | a non-function throws "Can only call functions and classes." and an arity mismatch throws "Expected N arguments but got M." at the parenthesis, and the caller's bindings are kept |
| Semantics.CallFn | src/Interpreter.js:244-287 | a native or user call leaves the caller's bindings untouched |
| Semantics.CallUser | src/Interpreter.js:270-287 | `LoxFn.call` leaves the caller's bindings untouched and lets no `Return` escape; its result is stated by `SemanticsProperties.CallResult` |
| Semantics.BindParameters | src/Interpreter.js:273-275 | the parameter environment binds exactly the parameter names |
| Semantics.Exec | src/Interpreter.js:193-195 | a statement only adds or overwrites bindings and only appends output |
| Semantics.ExecPrint | src/Interpreter.js:44-47 | `print` binds no new name and only appends output |
| Semantics.ExecVar | src/Interpreter.js:165-173 | after a normal `var` the name is bound |
| Semantics.ExecIf | src/Interpreter.js:35-42 | `if` keeps the statement effect bound |
| Semantics.ExecWhile | src/Interpreter.js:175-180 | `while` keeps the statement effect bound over all iterations |
| Semantics.ExecReturn | src/Interpreter.js:49-56 | `return` always completes abruptly |
| Semantics.ExecEntry | src/Interpreter.js:193-195 | a `null` entry or a statement keeps the statement effect bound |
| Semantics.ExecList | src/Interpreter.js:17-19 | a statement list keeps the statement effect bound |
| Semantics.ExecBlock | src/Interpreter.js:202-212 | however the statements complete, the current bindings afterwards are those from before, and output only grows |
| Semantics.Globals | src/Interpreter.js:6-13 | the globals hold only `clock`, a native of arity 0 |
| SemanticsProperties.ExecListAppend | src/Interpreter.js:17-19 | running `a + b` runs `a`, then `b` only if `a` completed normally |
| SemanticsProperties.ExecListCons | src/Interpreter.js:206-208 | a list runs its first statement, then the rest unless the first was abrupt |
| SemanticsProperties.StopsAtFirstAbrupt | src/Interpreter.js:202-212 | statements after an abrupt one never run |
| SemanticsProperties.InterpretStopsAtFirstError | src/Interpreter.js:15-23 | a program whose prefix stops with an error reports that error and the prefix's output, whatever follows |
| SemanticsProperties.InterpretSequences | src/Interpreter.js:17-19 | a normally completing program's output is a prefix of the output of any continuation |
| SemanticsProperties.ShortCircuit | src/Interpreter.js:62-70 | `or` with a truthy left and `and` with a falsy left return the left value without evaluating the right |
| SemanticsProperties.LogicalFallsThrough | src/Interpreter.js:71 | otherwise the value is the right operand, evaluated after the left |
| SemanticsProperties.RightOperandFirst | src/Interpreter.js:93-94 | an error in the right operand wins and the left operand is never evaluated |
| SemanticsProperties.AssignmentValue | src/Interpreter.js:186-191 | an assignment succeeds exactly when the name is bound, yields the value and rebinds the name; otherwise it throws the undefined-variable error |
| SemanticsProperties.CallNonFunction | src/Interpreter.js:146-153 | calling a non-function throws "Can only call functions and classes." after the callee and arguments were evaluated |
| SemanticsProperties.BlockIsIsolated | src/Interpreter.js:197-212 | a block leaves the outer bindings as they were and runs the same from any outer bindings |
| SemanticsProperties.CallIsIsolated | src/Interpreter.js:270-287 | a call leaves the caller's bindings as they were, output only grows, and no `Return` escapes |
| SemanticsProperties.CallResult | src/Interpreter.js:270-287 | with no fuel the call runs out; otherwise the body runs as a block over the bound parameters, and the call gives `nil` when the body ends normally, the returned value on a `return`, and the body's own signal on any other abrupt end, keeping the body's output |
| SemanticsProperties.BindParametersAt | src/Interpreter.js:273-275 | a parameter not repeated later is bound to its own argument |
| SemanticsProperties.BindDistinctParameters | src/Interpreter.js:273-275 | with distinct names each parameter is bound to its argument by position |
| SemanticsProperties.VarRule | src/Interpreter.js:165-173 | `var n = e;` binds `n` to the value of `e` |
| SemanticsProperties.PrintRule | src/Interpreter.js:44-47 | `print e;` appends the value, or fails with the host `TypeError` on `nil`/`undefined` |
| SemanticsProperties.ExpressionRule | src/Interpreter.js:25-27 | `e;` keeps the effects of `e` and drops its value |
| SemanticsProperties.AbruptRule | src/Interpreter.js:44-47 | an abrupt expression makes its expression or print statement abrupt with the same signal |
| SemanticsProperties.CallRule | src/Interpreter.js:270-287 | calling a user function with matching arity runs its body from the parameter bindings |
| SemanticsProperties.AssignThenPrint | src/Interpreter.js:186-191 | `var a = 1; a = 2; print a;` prints 2, with the corrected assignment (`Rebind`) |
| SemanticsProperties.PrintNilFails | src/Interpreter.js:44-47 | `print nil;` stops with the host `TypeError` and prints nothing |
| SemanticsProperties.BlockCannotSeeOuter | src/Interpreter.js:197-200 | `var a = 1; { print a; }` throws "Undefined variable 'a'.": a block sees no outer binding |
| SemanticsProperties.CallReturnsArgument | src/Interpreter.js:270-287 | `fun id(x) { return x; } print id(3);` prints 3 |
| SemanticsProperties.IdentityCall | src/Interpreter.js:277-285 | the body of `id` called with 3 returns 3 through the `Return` signal |
| SemanticsProperties.GlobalsInvisibleInFunctions | src/Interpreter.js:271 | a function body cannot see `clock`: `fun f() { return clock(); } f();` throws "Undefined variable 'clock'." |
| SemanticsProperties.ClockReading | src/Interpreter.js:10-12 | `print clock();` prints the reading the interpreter was built with |
| SemanticsProperties.CountingLoop | src/Interpreter.js:175-180 | `var i = 0; while (i < 3) i = i + 1; print i;` prints 3, with the corrected assignment (`Rebind`) |
| SemanticsProperties.InfiniteLoopRunsOut | src/Interpreter.js:175-180 | `while (true) {}` exhausts any fuel |
| Interpreting.Interpreter.constructor | src/Interpreter.js:6-13 | the globals are the current environment and hold `Globals(now)`; nothing printed |
| Interpreting.Interpreter.Interpret | src/Interpreter.js:15-23 | the forEach loop leaves the bindings and output of `ExecList` and reports its signal exactly when it completed abruptly |
| Interpreting.Interpreter.Evaluate | src/Interpreter.js:214-216 | completion, bindings and output are those of `Eval` |
| Interpreting.Interpreter.VisitUnary | src/Interpreter.js:78-90 | completion, bindings and output are those of `EvalUnary` |
| Interpreting.Interpreter.VisitBinary | src/Interpreter.js:92-144 | completion, bindings and output are those of `EvalBinary` |
| Interpreting.Interpreter.VisitLogical | src/Interpreter.js:62-72 | completion, bindings and output are those of `EvalLogical` |
| Interpreting.Interpreter.VisitAssign | src/Interpreter.js:186-191 | completion, bindings and output are those of `EvalAssign` |
| Interpreting.Interpreter.VisitCall | src/Interpreter.js:146-163 | completion, bindings and output are those of `EvalCall` |
| Interpreting.Interpreter.EvaluateArguments | src/Interpreter.js:148 | the loop over the arguments gives the completion, bindings and output of `EvalArgs` |
| Interpreting.Interpreter.Invoke | src/Interpreter.js:150-162 | completion, bindings and output are those of `CallValue` |
| Interpreting.Interpreter.CallFunction | src/Interpreter.js:251-253 | completion, bindings and output are those of `CallFn` |
| Interpreting.Interpreter.CallUserFunction | src/Interpreter.js:270-287 | with a fresh environment holding the parameters, completion, bindings and output are those of `CallUser` |
| Interpreting.Interpreter.Execute | src/Interpreter.js:193-195 | completion, bindings and output are those of `Exec` |
| Interpreting.Interpreter.VisitPrint | src/Interpreter.js:44-47 | completion, bindings and output are those of `ExecPrint` |
| Interpreting.Interpreter.VisitVar | src/Interpreter.js:165-173 | completion, bindings and output are those of `ExecVar` |
| Interpreting.Interpreter.VisitIf | src/Interpreter.js:35-42 | completion, bindings and output are those of `ExecIf` |
| Interpreting.Interpreter.VisitWhile | src/Interpreter.js:175-180 | the `while` loop gives the completion, bindings and output of `ExecWhile` |
| Interpreting.Interpreter.VisitReturn | src/Interpreter.js:49-56 | completion, bindings and output are those of `ExecReturn` |
| Interpreting.Interpreter.ExecuteEntry | src/Interpreter.js:17-19 | completion, bindings and output are those of `ExecEntry` |
| Interpreting.Interpreter.ExecuteBlock | src/Interpreter.js:202-212 | the previous environment is current again on every way out, and completion and output are those of `ExecBlock` |
| ExpressionInterpreter.Evaluate | Interpreter.js:89-91 | on the trees the expression-only parser builds, every failure is a `RuntimeError` |
| ExpressionInterpreter.Interpret | Interpreter.js:4-11 | a failed parse (`null`) fails with no visitor, otherwise the value or error of `Evaluate` |
| ExpressionInterpreter.FalseIsTrue | Interpreter.js:93-97 | `_isTrue(false)` holds, unlike `_isTruthy(false)` |
| ExpressionInterpreter.UnaryAgrees | Interpreter.js:21-33 | prefix operators behave as in the statement interpreter, and `!` of a number is `false` |
| ExpressionInterpreter.RightErrorWins | Interpreter.js:36-37 | an error in the right operand is the one reported |
| ExpressionInterpreter.AgreesWithStatementInterpreter | Interpreter.js:35-87 | on expression-only trees both evaluators give the same value or the same `RuntimeError`, changing no binding and printing nothing |
| ExpressionInterpreter.PrefixExamples | Interpreter.js:26-31 | `--1` is 1, `!1` is `false`, `!true` throws "Operand must be a number." |
| ExpressionInterpreter.EqualityNeedsNumbers | Interpreter.js:80-82 | `nil == nil` throws: equality demands numbers |
| Printing.LiteralText | src/AstPrinter.js:15-17 | `toString()` of a literal: `null` has none, strings and booleans as themselves, numbers by the host's formatting |
| AstPrinter.Print | src/AstPrinter.js:3-5 | the printer's output is `Rendered` of the tree |
| AstPrinter.Parenthesize | src/AstPrinter.js:23-34 | the `forEach` loop gives `Parenthesized`: `(name`, a space and each rendering, `)` |
| AstPrinter.ParenthesizedOne | src/AstPrinter.js:23-34 | one operand gives `(name x)` |
| AstPrinter.ParenthesizedTwo | src/AstPrinter.js:23-34 | two operands give `(name l r)` |
| AstPrinter.Forms | src/AstPrinter.js:7-21 | binary is `(op l r)`, grouping `(group x)`, unary `(op x)`, a literal its text; a part that cannot be printed makes the whole unprintable |
| AstPrinter.BracketsPerNode | src/AstPrinter.js:23-34 | with no brackets in lexemes or literals, the output has exactly one `(` and one `)` per grouping, unary or binary node |
| RpnPrinter.Print | RpnPrinter.js:2-4 | the printer's output is `Rendered` of the tree |
| RpnPrinter.Polishize | RpnPrinter.js:22-33 | the `forEach` loop gives `Polished`: each rendering and a space, then the name |
| RpnPrinter.PolishedOne | RpnPrinter.js:22-33 | one operand gives `x name` |
| RpnPrinter.PolishedTwo | RpnPrinter.js:22-33 | two operands give `l r name` |
| RpnPrinter.Forms | RpnPrinter.js:6-20 | binary is `l r op`, grouping `x group`, unary `x op`, a literal its text |
| RpnPrinter.EndsWithOperator | RpnPrinter.js:22-33 | a non-literal node's output ends with its operator lexeme or `group` |
| RpnPrinter.NoBrackets | RpnPrinter.js:22-33 | with no brackets in lexemes or literals, the output has none |
| RpnPrinter.PrefixIsPostfixPlusBrackets | RpnPrinter.js:22-33 | both printers print the same trees, and the prefix form is longer by exactly one bracket pair per operator node |
| Enumify.Enumified | src/enumify.js:1-6 | the object's keys are exactly the list's elements, each mapped to itself |
| Enumify.Enumify | src/enumify.js:2-5 | the `reduce` builds `Enumified` of the list |
| Enumify.OnlyElementsMatter | src/enumify.js:2-5 | the result depends only on which elements occur, not their order or repetition |
| Enumify.DuplicatesCollapse | src/enumify.js:3 | a repeated element adds nothing, and the empty list gives `{}` |

## Left out

- **Lox.js, index.js and test file reading.** `Lox.js` (file reading, `console.error`, `process.exit`, `hadError`, `runPrompt`, the " at end" / " at 'lexeme'" message wording), `index.js` and the tests' reading of their sample program are I/O. A parse error is modelled as its token and message, recorded in the parser's list of reports.
- **Printed output.** `console.log` output is a sequence of printed values. Text formatting is not modelled: `toString()` of numbers and the `<fn name>` of functions.
- **Numbers.** Numbers are exact reals with a separate NaN. IEEE rounding, the infinities and negative zero are not modelled, and `parseFloat` is read as the exact decimal value of the lexeme.
- **Values.StringToNumber:** differs from JavaScript's `Number(s)` on strings that JavaScript converts and this model maps to NaN. These are text with leading or trailing whitespace, a sign (`-1`, `+1`), a number with an empty integer or fraction part (`1.`, `.5`), an exponent (`1e3`), `Infinity`, and hex, octal or binary prefixes (`0x1f`, `0o7`, `0b1`). A whitespace-only string is 0 in JavaScript and NaN here. Because the scanner never produces such a string as a number lexeme, the difference shows only when a string operand meets a number in `+`, as in `1 + "1."`.
- **The clock.** `Date.now()` is replaced by a reading `now` fixed when the interpreter is built.
- **Non-termination.** `while` iterations and calls spend fuel. Where the source would run for ever or overflow the stack, the model ends with `OutOfFuel`. Results that need more fuel than given are not modelled.
- **Scope chain, followed as written.** `new Environment(enclosing)` ignores its argument (src/Environment.js:4-6), so the model gives every block and call a fresh empty environment, exactly as the code does. The scope chain that the callers evidently intend (src/Interpreter.js:198 and src/Interpreter.js:271) is not modelled.
- **Assignment, corrected.** The interpreter model assigns with the corrected `Rebind`. The crash of the as-written `assign` is modelled separately (see Findings).
- **Shapes the parser never builds.** `src/Parser.js` builds no call, function or `return` node. `Semantics` still gives them the meaning in src/Interpreter.js:29-56 and src/Interpreter.js:146-163, and `StmtGrammar.BuiltStmt` states that the parser never produces them.
- **Object keys.** JavaScript object-key semantics are reduced to a map from strings:
  - Bindings use `hasOwnProperty`, so an inherited name such as `toString` is not bound. The model matches this.
  - Assigning to `__proto__` is not modelled.
  - `enumify` keys are modelled as strings.
- **Identity of functions.** `===` on two functions compares their declarations. JavaScript would compare object identity, which separates two `LoxFn` objects made by running one declaration twice.
- **The old pipeline's error handling.**
  - `Lox.runtimeError`, which both evaluators call, is not defined in `Lox.js`, so reporting a runtime error would itself throw. The model returns the error.
  - `Interpreter.js`'s `interpret` prints with `console.log(value)`. The model returns the value.
- **Parser.js `_synchronize`.** It is never called, so it is not modelled separately. The statement parser's `_synchronize` is modelled.
- **Parser.js `parse` rethrows errors that are not parse errors.** No such error can arise in the model, so that path is not modelled.
- **Exceptions.** `ParseError`, `RuntimeError`, `Return` and host `TypeError`s are explicit outcomes, not stack unwinding.
- **Printer examples.** No concrete printer strings are asserted. The general forms are proved instead (`AstPrinter.Forms`, `RpnPrinter.Forms`).
- **The scanner test.** Its token-kind list for `print (1 + 2) * (4 - 3);` is used as the hypothesis of the parser example (`ParseCases.ArithmeticTokens`). The scan of that source is not restated as a lemma.
- **Semantics.Interpret:** it has no contract of its own. Its behaviour is stated by `SemanticsProperties.InterpretStopsAtFirstError`, `InterpretSequences` and the example programs.
- **LexerCases.UnterminatedStringReportsLastLine:** this is the code's behaviour. The reported line is the one reached at the end of input, not the line the string started on.

## Findings

| source | as written | input that shows it | evidently intended | confidence | as-written member | corrected member |
|---|---|---|---|---|---|---|
| Scanner.js:228 | `text in reservedWords` also finds names inherited from `Object.prototype`, so the identifier gets an inherited member as its token type | the source `toString` | every non-reserved word is an IDENTIFIER | high, not executed | LexerCases.ToStringIsNotAnIdentifierAsWritten | LexerCases.IdentifierKindClassifies |
| src/Environment.js:22 | `this.values.put(...)` is not a function of a plain object, so assigning a defined variable throws a host `TypeError` | `var a = 1; a = 2;` | overwrite the binding (`this.values[name.lexeme] = value`) | high, not executed | Environments.AssignmentAsWrittenCrashes | Environments.LookupAfterRebind |
