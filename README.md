# tslox in Dafny

A model of tslox, a tree-walking interpreter for the Lox language written in
TypeScript. The model covers the whole pipeline:

- **Scanner** (`scanner.dfy`). A class with the source's `start`, `current`,
  `line`, token list and error list fields. Its loops are proved against
  `ScanFrom`, a functional description of lexing one token after another.
- **Parser** (`parser.dfy`, specification in `parser_spec.dfy`). A class with
  the token cursor, an id counter and the error list. Each grammar method is
  proved to:
  - build a well-nested tree (left-associative binary levels, correct
    precedence, right-recursive unary and assignment);
  - give its nodes increasing ids from the counter;
  - on a run without errors, consume exactly the tokens that spell the tree.
- **Resolver** (`resolver.dfy`). A class with the scope stack, the function and
  class context, the side table of distances and the diagnostics.
  - Each expression visitor is proved to write exactly what the functions
    `Recorded` and `ExprErrors` describe.
  - Each statement visitor is proved to leave the scopes, the side table and
    the diagnostics exactly as the pass function of its kind describes
    (`StmtPass`, `BlockPass`, `ClassPass`, `FunctionPass` and the others), and
    to restore the context.
  - The pass functions are proved to leave the stack as `AfterStmt`
    describes, and to write the side table only at the ids of the
    statement's own nodes.
- **Runtime objects**:
  - environments as frames in a heap class (`environment.dfy`);
  - function objects with bind and call (`functions.dfy`);
  - classes and instances (`classes.dfy`).
- **Interpreter** (`interpreter.dfy`, with a reference semantics in
  `semantics.dfy` and pure operator semantics in `operators.dfy`). A class with
  the heap, the global and current environments, the side table and the
  printed output.
  - Every visitor is proved to return, and to leave the heap, the
    environment and the output, exactly as the matching function of
    `Semantics` applied to the old state does.
  - Those functions are proved to keep the heap well formed, to restore the
    environment, and to only grow the heap and the output.
  - Fuel: a call of a Lox function runs its body with one unit less than the
    call was given, and a `while` loop runs its body at most `fuel` times.
    Every operand and every statement of a block gets the same fuel. So fuel
    bounds the nesting depth of calls and the iterations of each single loop,
    not the length of the whole run.
  - `fuel.dfy` proves that a result that did not run out of fuel stays the
    same with any more fuel.
- **Binding**: the Resolver's distances and the Interpreter's lookups are
  connected in `binding.dfy`. When the frames mirror the scopes, the distance
  the Resolver records is exactly the number of `enclosing` links from the
  current frame to the one that binds the name. Reading at that distance
  therefore finds what the dynamic lookup `get` finds.

Exceptions of the source become values:

- `ParseError` is `Parsed.ParseError`.
- A thrown `Return` is `Completion.Returned(v)`.
- A `RuntimeError` is `Failure.RuntimeError(token, message)`, carried by
  `Eval.Fail` and `Completion.Raised`.
- Diagnostics (`Utils.error` / `report`) are appended to an error sequence.
  Their line, location ("at end" or "at 'lexeme'") and message are as
  `src/Utils.ts:5-11` formats them.
- A runtime-error report is appended to the output as
  `[line N]: message`, as `src/Utils.ts:13-16` formats it.

## Reading of the source

The files describe one snapshot of the project and do not all agree with each
other. They also disagree with the language's description in places. The model
follows what the code does:

- **Truthiness.** `isTruthy` is JavaScript's `!!value`
  (`src/Interpreter.ts:373-375`). So `0` and `""` are falsy, as are `nil`,
  `undefined` and `false`. The Lox language treats only `nil` and `false` as
  falsy.
  - `Operators.IsTruthy` models the code.
  - `Operators.LoxTruthy` states the language rule.
  - `Operators.TruthinessDiverges` proves the two disagree on exactly the
    number 0 and the empty string.
- **Names as strings.** `Environment.define` is declared with a `Token`
  parameter and reads its lexeme (`src/Environment.ts:12-13`). Every caller
  passes a string instead (`src/Interpreter.ts:56,114,118,154,262`,
  `src/LoxFunction.ts:27,39`). The model binds the string the callers pass.
- **`getAt` and `assignAt` are missing.** `Environment.ts` has neither, yet
  they are called at `src/Interpreter.ts:62,63,234,251` and
  `src/LoxFunction.ts:48,56`. Both are modelled as a walk of exactly `distance`
  `enclosing` links (`Environment.Ancestor`):
  - `getAt` yields the binding there, or `undefined` when that frame lacks the
    name;
  - `assignAt` sets the binding there;
  - a walk off the end of the chain is a host error (`MissingEnvironment`).
- **Classes.** `new LoxClass(name, methods, superclass)`
  (`src/Interpreter.ts:131`) passes an argument the two-parameter constructor
  (`src/LoxClass.ts:11-15`) ignores. `findMethod` looks only at the class's own
  table (`src/LoxClass.ts:34-38`). So methods are not inherited;
  `super.m` finds `m` only in the superclass's own table.
- **Error reporting.** The Scanner and the Resolver call `Lox.error`, which
  `src/Lox.ts` does not define. The model uses the `error` of
  `src/Utils.ts:5-11`, which the Parser uses. In the same way `interpret`
  calls `Lox.runtimeError` (`src/Interpreter.ts:281`), which `src/Lox.ts` does
  not define either; the model writes the report that `runtimeError` of
  `src/Utils.ts:13-16` prints.
- **The driver never resolves.** `run` in `src/Lox.ts:9-25` never runs the
  Resolver, so in the driver as written every variable is looked up in the
  globals. The model covers both paths of `lookUpVariable`: a recorded
  distance, and the global lookup.
- **Statements.** `src/Stmt.ts` defines only three statement kinds. The `Stmt`
  datatype has the nine kinds the Interpreter and the Resolver visit.
- **The partial Parser.** The Parser parses only `var`, `print`, block and
  expression statements. Its expressions run from assignment down to primary.
  The Resolver and the Interpreter handle the full syntax tree.

## Model

| member | source | states |
|---|---|---|
| Tokens.ErrorAtLocates | src/Utils.ts:5-11 | a diagnostic reads "at end" exactly for the EOF token; for any other token its location quotes the lexeme, which can be read back from it |
| Tokens.DecimalToReal | src/Scanner.ts:174-177 | the value of a numeral `d` satisfies value × 10^scale = digits, i.e. it is the exact decimal value |
| Operators.TokenLiteralValue | src/Parser.ts:180-182 | a literal read from a NUMBER token evaluates to the exact value of its numeral, one from a STRING token to its text, and one with no literal to `undefined` |
| Scanner.Scanner.Lookahead | src/Scanner.ts:204-212 | `peek` yields `END` exactly at the end of the source and otherwise the character under the cursor; `peekNext` yields `END` exactly when no character follows, otherwise that character |
| Scanner.CharClasses | src/Scanner.ts:147-157 | letters (with `_`) and digits are disjoint classes of one-character strings; `END` is in neither |
| Scanner.KeywordKinds | src/Scanner.ts:15-32 | a lexeme scans to a kind other than IDENTIFIER exactly when it is one of the sixteen keywords, and the keyword's kind gives the word back, so no two keywords share a kind |
| Scanner.IdentifierEnd | src/Scanner.ts:135-137 | the identifier loop stops at the first non-alphanumeric character or the end; every character skipped is alphanumeric |
| Scanner.DigitsEnd | src/Scanner.ts:160-162 | a digit run stops at the first non-digit or the end; every character skipped is a digit |
| Scanner.NumberEnd | src/Scanner.ts:159-172 | a numeral extends at least over its integer digits and never past the source |
| Scanner.FirstOf | src/Scanner.ts:181-186 | the scan stops at the first occurrence of the character or at the end, and no character skipped is that character; this one search is the string loop (quote), the comment loop at lines 101-103 (newline) and the dot in a number's text |
| Scanner.DecimalValue | src/Scanner.ts:174-177 | a numeral without a dot is its integer value at scale 0; with a dot, the scale is the number of fraction digits |
| Scanner.StringStep | src/Scanner.ts:180-202 | scanning a string literal consumes at least the opening quote and stays in the source |
| Scanner.StringStepMeaning | src/Scanner.ts:180-202 | a terminated string gives exactly one STRING token, no error, the text between the quotes as literal and the line of its last newline; an unterminated one runs to the end, adds no token and reports "Unterminated string." on the line reached |
| Scanner.NumberStep | src/Scanner.ts:159-178 | scanning a number consumes at least one digit and stays in the source |
| Scanner.NumberStepMeaning | src/Scanner.ts:159-178 | a number gives one NUMBER token whose lexeme is the numeral scanned, whose literal is its decimal value and which is followed by no digit; a dot is consumed only when a digit follows it |
| Scanner.FractionNumeral | src/Scanner.ts:164-171 | digits, a `.` and more digits form a numeral with a fraction, which is not a bare digit run |
| Scanner.IdentifierStep | src/Scanner.ts:134-145 | scanning an identifier consumes at least its first letter and stays in the source |
| Scanner.IdentifierStepMeaning | src/Scanner.ts:134-145 | an identifier is the longest alphanumeric run from a letter; its kind comes from the keyword table; it carries no literal |
| Scanner.ScanStep | src/Scanner.ts:48-132 | one `scanToken` consumes at least one character and stays in the source, so `scanTokens` terminates |
| Scanner.ScanStepDelegates | src/Scanner.ts:116-123 | `"` is scanned by `string`, a digit by `number`, a letter by `identifier` |
| Scanner.ScanStepFits | src/Scanner.ts:48-132 | every step's token has as lexeme exactly the characters it consumed and carries the current line; the line grows by the newlines consumed |
| Scanner.ScanFromEndsWithEof | src/Scanner.ts:38-46 | lexing from any position ends with an EOF token on the line at the end of input |
| Scanner.ScanFromOneEof | src/Scanner.ts:38-46 | no token before the last is EOF |
| Scanner.LexEndsWithEof | src/Scanner.ts:38-46 | the token list of a whole source ends with exactly one EOF token, on line 1 + the number of newlines |
| Scanner.ScanFromSpans | src/Scanner.ts:38-46 | the tokens' spans are increasing and non-overlapping, within the source, and each lexeme is the source text of its span |
| Scanner.LexSpans | src/Scanner.ts:235-238 | for a whole source scanned from position 0, every token's lexeme is `source[start..current]` of its own span, and the spans are increasing and non-overlapping |
| Scanner.MaximalMunch | src/Scanner.ts:82-97 | `!`, `=`, `<`, `>` give the two-character token exactly when `=` follows, consuming two characters; otherwise the one-character token, consuming one |
| Scanner.CommentOrSlash | src/Scanner.ts:98-107 | `//` gives no token and no error and stops before the next newline; a lone `/` gives SLASH |
| Scanner.TrailingDotIsSeparate | src/Scanner.ts:165 | `1.` scans as NUMBER `1`, then DOT, then EOF |
| Scanner.Scanner.constructor | src/Scanner.ts:34-36 | a new scanner starts at position 0 on line 1 with no tokens |
| Scanner.Scanner.Advance | src/Scanner.ts:226-229 | returns the current character and moves one position |
| Scanner.Scanner.Match | src/Scanner.ts:215-224 | consumes the next character exactly when it is the expected one |
| Scanner.Scanner.AddToken | src/Scanner.ts:235-238 | appends one token whose lexeme is `source[start..current]` on the current line |
| Scanner.Scanner.Report | src/Scanner.ts:125-128 | appends the diagnostic for the token and message (also used for the unterminated string at lines 189-192) |
| Scanner.Scanner.ScanTokens | src/Scanner.ts:38-46 | the tokens and errors appended are those of `ScanFrom` from the old position and line |
| Scanner.Scanner.ScanToken | src/Scanner.ts:48-132 | one call changes the position, line, tokens and errors exactly as `ScanStep` says |
| Scanner.Scanner.ScanLexeme | src/Scanner.ts:116-130 | the `"`, digit, letter and unexpected-character cases act as `ScanStep` says |
| Scanner.Scanner.ScanPunctuation | src/Scanner.ts:52-115 | the punctuation, operator, comment, whitespace and newline cases act as `ScanStep` says |
| Scanner.Scanner.SkipComment | src/Scanner.ts:99-103 | the cursor ends where `FirstOf` puts the first newline |
| Scanner.Scanner.ScanIdentifier | src/Scanner.ts:134-145 | the cursor and tokens end as `IdentifierStep` says |
| Scanner.Scanner.SkipDigits | src/Scanner.ts:160-162 | the cursor ends where `DigitsEnd` says |
| Scanner.Scanner.ScanNumber | src/Scanner.ts:159-178 | the cursor and tokens end as `NumberStep` says |
| Scanner.Scanner.SkipNumeral | src/Scanner.ts:160-172 | the cursor ends where `NumberEnd` says |
| Scanner.Scanner.SkipToQuote | src/Scanner.ts:181-186 | the cursor ends where `FirstOf` puts the first quote, with the line increased by the newlines passed |
| Scanner.Scanner.ScanString | src/Scanner.ts:180-202 | the cursor, line, tokens and errors end as `StringStep` says |
| ParserSpec.IdsDistinct | src/Parser.ts:100-101 | ids within a strictly increasing run are pairwise distinct |
| ParserSpec.DeclarationsIdsDistinct | src/Parser.ts:24-30 | the nodes of a parsed statement list have pairwise distinct ids, so each key of the Interpreter's side table names one node |
| ParserSpec.BinaryParsed | src/Parser.ts:110-163 | one turn of a binary-level loop keeps the loop invariant: the left-leaning tree is well nested at its level, its ids lie in the range handed out and its tokens spell it |
| ParserSpec.AssignParsed | src/Parser.ts:93-108 | a variable target followed by `=` and a right-recursive assignment gives an `Assign` node with the variable's name, spelled by the tokens |
| ParserSpec.ReportedParsed | src/Parser.ts:104-107 | after "Invalid assignment target." the left-hand tree is still a well-nested result, now with an error reported |
| ParserSpec.AtomParsed | src/Parser.ts:176-186 | a literal or variable read from one token is a well-nested primary |
| ParserSpec.UnaryParsed | src/Parser.ts:165-170 | `!` or `-` applied to a unary-level operand gives a well-nested unary expression |
| ParserSpec.GroupingParsed | src/Parser.ts:188-192 | `(`, an expression and `)` give a well-nested grouping spelled by the three parts |
| ParserSpec.DeclarationsSnoc | src/Parser.ts:24-30 | appending one declaration's result keeps the statement list well nested, with increasing ids and the tokens spelling it |
| ParserSpec.BlockClosed | src/Parser.ts:66-75 | `{`, the declarations and `}` make a block statement spelled by its tokens |
| ParserSpec.BlockSpelled | src/Parser.ts:66-75 | the `{`, the tokens spelling the declarations and the `}` spell the block statement |
| ParserSpec.TerminatedParsed | src/Parser.ts:77-87 | an expression followed by `;` (after `print`, or alone) makes a print or expression statement |
| ParserSpec.VarParsed | src/Parser.ts:48-58 | `var name (= expression)? ;` makes a `Var` statement spelled by its tokens |
| Parser.Parser.constructor | src/Parser.ts:20-22 | a new parser is at token 0 with no errors |
| Parser.Parser.Advance | src/Parser.ts:241-246 | the cursor moves by one unless at EOF, never past the EOF token, and the previous token is returned |
| Parser.Parser.Match | src/Parser.ts:231-239 | consumes one token exactly when the current token, which is not EOF, has one of the kinds |
| Parser.Parser.Error | src/Parser.ts:204-207 | appends the diagnostic for the token and message |
| Parser.Parser.Consume | src/Parser.ts:197-202 | a token of the expected kind is returned and consumed; any other token reports the message at the current token, consumes nothing and fails |
| Parser.Parser.Synchronize | src/Parser.ts:209-229 | recovery consumes at least one token unless at EOF; it stops after a `;`, before a keyword that starts a statement, or at EOF; every position it passes is neither |
| Parser.Parser.Parse | src/Parser.ts:24-30 | declarations are parsed until EOF: all well nested with increasing ids; with no error, all present and spelling the tokens read |
| Parser.Parser.Declaration | src/Parser.ts:32-46 | a declaration consumes at least one token; a failure yields `None` after reporting an error and synchronizing |
| Parser.Parser.VarDeclaration | src/Parser.ts:48-58 | yields a `Var` statement as `VarParsed` describes, or fails after reporting |
| Parser.Parser.VarInitializer | src/Parser.ts:51-54 | without `=` consumes nothing and reports nothing; with `=`, yields the initializer parsed right after it as `ExprParsed` describes, or fails after reporting |
| Parser.Parser.Statement | src/Parser.ts:60-64 | yields a print, block or expression statement of the grammar, or fails after reporting |
| Parser.Parser.Block | src/Parser.ts:66-75 | yields the declarations up to the closing `}`, or fails with "Expect '}' after block." reported at the token where the `}` was expected as the last diagnostic |
| Parser.Parser.BlockDeclaration | src/Parser.ts:69-71 | one more declaration inside a block consumes at least one token and keeps the list well nested, with increasing ids and, without errors, spelled by the tokens |
| Parser.Parser.PrintStatement | src/Parser.ts:77-81 | yields a `Print` statement, or fails after reporting |
| Parser.Parser.ExpressionStatement | src/Parser.ts:83-87 | yields an `Expression` statement, or fails after reporting |
| Parser.Parser.Expression | src/Parser.ts:89-91 | yields a well-nested expression at assignment level |
| Parser.Parser.Assignment | src/Parser.ts:93-108 | yields a well-nested expression at assignment level, spelled by the tokens read |
| Parser.Parser.AssignmentTail | src/Parser.ts:96-107 | with no `=` the left operand is returned untouched; `=` after a variable gives an `Assign` of that name; after any other expression it reports "Invalid assignment target." at the `=` and returns the expression without failing |
| Parser.Parser.Equality | src/Parser.ts:110-120 | yields a well-nested, left-associative tree at equality level |
| Parser.Parser.Comparison | src/Parser.ts:122-139 | yields a well-nested, left-associative tree at comparison level |
| Parser.Parser.Term | src/Parser.ts:141-151 | yields a well-nested, left-associative tree at term level |
| Parser.Parser.Factor | src/Parser.ts:153-163 | yields a well-nested, left-associative tree at factor level |
| Parser.Parser.Unary | src/Parser.ts:165-173 | yields a right-recursive unary expression or a primary |
| Parser.Parser.Primary | src/Parser.ts:175-195 | yields a literal, variable or grouping of one or more tokens; when the current token starts none of them, reports "Expect expression." at it, consumes nothing and fails |
| Parser.Parser.GroupingRest | src/Parser.ts:188-192 | yields a well-nested `Grouping` spelled by `(`, the inner expression and `)`, or fails after reporting an error |
| Resolver.Distance | src/Resolver.ts:284-291 | the distance is the number of scopes above the innermost one declaring the name; none, exactly when no scope declares it |
| Resolver.Mark | src/Resolver.ts:220-233 | `declare`/`define` change only the innermost scope, setting the name's flag, and leave an empty stack alone |
| Resolver.MarkDistance | src/Resolver.ts:220-233 | a declaration puts its name at distance 0 and leaves every other name's distance unchanged |
| Resolver.SuperErrors | src/Resolver.ts:67-75 | `super` reports an error unless inside a subclass |
| Resolver.ThisErrors | src/Resolver.ts:80-86 | `this` reports an error exactly outside any class |
| Resolver.VariableErrors | src/Resolver.ts:275-279 | a read reports an error exactly when the innermost scope holds the name as declared but not defined |
| Resolver.DeclareErrors | src/Resolver.ts:220-225 | a declaration reports an error exactly when the innermost scope already holds the name |
| Resolver.RecordedOnlyInside | src/Resolver.ts:240-291 | resolving an expression writes the side table only at that expression's own node ids |
| Resolver.RecordedDistancesInRange | src/Resolver.ts:284-291 | every distance recorded is less than the number of scopes |
| Resolver.AfterStmt | src/Resolver.ts:137-218 | after a statement the stack has its old depth, outer scopes are unchanged, and the innermost only gains names, each left defined |
| Resolver.ParamScope | src/Resolver.ts:186-189 | the scope of a function body binds exactly the parameter names, all defined |
| Resolver.Pop | src/Resolver.ts:147-149 | `endScope` drops exactly the innermost scope |
| Resolver.DeclaredAndDefined | src/Resolver.ts:220-233 | `declare` then `define` marks the name defined in the innermost scope, keeps the side table, and adds the duplicate-declaration error |
| Resolver.StmtPass | src/Resolver.ts:155-163 | after a statement the scope stack is `AfterStmt` of the old one, and diagnostics are only added |
| Resolver.BlockPass | src/Resolver.ts:137-141 | a block leaves the scope stack as it was, and diagnostics are only added |
| Resolver.BlockPrefix | src/Resolver.ts:139 | the statements of a block keep the depth of the stack and every scope but the innermost |
| Resolver.IfPass | src/Resolver.ts:169-173 | after an `if` both branches have shaped the stack as `AfterStmt` says |
| Resolver.ReturnPass | src/Resolver.ts:200-210 | a `return` leaves the scope stack as it was |
| Resolver.VarPass | src/Resolver.ts:212-218 | a `var` leaves its name defined in the innermost scope and nothing else of the stack changed |
| Resolver.FunctionPass | src/Resolver.ts:181-194 | a function leaves the scope stack as it was, and its duplicate-parameter errors come first |
| Resolver.BodyPrefix | src/Resolver.ts:190 | the statements of a body keep the depth of the stack and every scope but the innermost |
| Resolver.ClassPass | src/Resolver.ts:97-135 | a class declaration leaves its name defined in the innermost scope and nothing else of the stack changed |
| Resolver.ClassHeader | src/Resolver.ts:101-111 | the class name declared and defined in the innermost scope; the side table gains an entry only for the superclass reference |
| Resolver.MethodsPass | src/Resolver.ts:113-132 | the `super` and `this` scopes are popped again: the stack is as it was |
| Resolver.MethodsPrefix | src/Resolver.ts:120-127 | each method leaves the scope stack as it was |
| Resolver.StatementsPrefix | src/Resolver.ts:155-159 | a statement list keeps the depth of the stack and every scope but the innermost, and diagnostics are only added |
| Resolver.StmtPassOnlyInside | src/Resolver.ts:155-238 | resolving a statement writes the side table only at the ids of the statement's own nodes, nested statements, bodies and methods included |
| Resolver.BlockPassOnlyInside | src/Resolver.ts:137-141 | a block writes the side table only at its own nodes' ids |
| Resolver.BlockPrefixOnlyInside | src/Resolver.ts:139 | the first statements of a block write the side table only at their nodes' ids |
| Resolver.ClassPassOnlyInside | src/Resolver.ts:97-135 | a class declaration writes the side table only at its superclass reference and its methods' nodes |
| Resolver.MethodsPassOnlyInside | src/Resolver.ts:113-132 | the methods write the side table only at their nodes' ids |
| Resolver.MethodsPrefixOnlyInside | src/Resolver.ts:120-127 | the first methods write the side table only at their nodes' ids |
| Resolver.FunctionPassOnlyInside | src/Resolver.ts:181-194 | a function writes the side table only at its body's nodes' ids |
| Resolver.BodyPrefixOnlyInside | src/Resolver.ts:190 | the first statements of a body write the side table only at their nodes' ids |
| Resolver.StatementsPrefixOnlyInside | src/Resolver.ts:155-159 | a program writes the side table only at its statements' nodes' ids |
| Resolver.Resolver.constructor | src/Resolver.ts:48-65 | no scopes, no function or class context, an empty side table and no errors |
| Resolver.Resolver.Error | src/Resolver.ts:69 | appends the diagnostic for the token and message |
| Resolver.Resolver.BeginScope | src/Resolver.ts:143-145 | pushes an empty scope |
| Resolver.Resolver.EndScope | src/Resolver.ts:147-149 | pops the innermost scope |
| Resolver.Resolver.Declare | src/Resolver.ts:220-228 | marks the name declared (`false`) in the innermost scope and reports a duplicate |
| Resolver.Resolver.Define | src/Resolver.ts:230-233 | marks the name defined (`true`) in the innermost scope |
| Resolver.Resolver.ResolveLocal | src/Resolver.ts:284-291 | records `Distance` for the node when the name is local, and nothing for a global |
| Resolver.Resolver.ResolveExpr | src/Resolver.ts:155-163 | the side table and the errors after resolving an expression are those `Recorded` and `ExprErrors` describe |
| Resolver.Resolver.ResolveOperand | src/Resolver.ts:93-95 | a get, grouping or unary expression (lines 93-95, 258-260, 271-273) resolves its one operand |
| Resolver.Resolver.ResolveAssign | src/Resolver.ts:240-243 | an assignment resolves its value, then records its target |
| Resolver.Resolver.ResolveOperands | src/Resolver.ts:245-248 | a binary or logical expression (lines 245-248, 266-269) resolves left, then right |
| Resolver.Resolver.ResolveSet | src/Resolver.ts:88-91 | a property assignment resolves its value, then its object |
| Resolver.Resolver.ResolveCall | src/Resolver.ts:250-256 | a call resolves the callee, then every argument in order |
| Resolver.Resolver.ResolveSuper | src/Resolver.ts:67-78 | records `super` and reports it outside a subclass |
| Resolver.Resolver.ResolveThis | src/Resolver.ts:80-86 | outside a class reports an error and records nothing; inside one, records `this` |
| Resolver.Resolver.ResolveVariable | src/Resolver.ts:275-282 | reports a read in its own initializer, then records the name |
| Resolver.Resolver.ResolveStatements | src/Resolver.ts:155-159 | the scopes, side table and diagnostics end as `StatementsPrefix` of the whole list describes; the context is restored |
| Resolver.Resolver.ResolveStmt | src/Resolver.ts:155-163 | the scopes, side table and diagnostics end as `StmtPass` of the old ones describes; the context is restored |
| Resolver.Resolver.ResolveIf | src/Resolver.ts:169-173 | the scopes, side table and diagnostics end as `IfPass` describes: the condition, then the then-branch, then the else-branch when present |
| Resolver.Resolver.ResolveWhile | src/Resolver.ts:235-238 | the scopes, side table and diagnostics end as `StmtPass` of the loop describes: the condition, then the body once |
| Resolver.Resolver.ResolveBlock | src/Resolver.ts:137-141 | the scopes, side table and diagnostics end as `BlockPass` describes: every statement resolved in order in a new scope, which is gone afterwards |
| Resolver.Resolver.ResolveVar | src/Resolver.ts:212-218 | ends as `VarPass` describes: the initializer resolved with the name declared but not defined, then the name defined |
| Resolver.Resolver.ResolveReturn | src/Resolver.ts:200-210 | ends as `ReturnPass` describes: `return` at top level and `return value` in an initializer reported, then the value resolved |
| Resolver.Resolver.ResolveFunctionStmt | src/Resolver.ts:175-179 | ends as `FunctionPass` of the state in which the name is already declared and defined |
| Resolver.Resolver.ResolveFunction | src/Resolver.ts:181-194 | ends as `FunctionPass` describes; the function context is restored |
| Resolver.Resolver.DeclareParams | src/Resolver.ts:186-189 | the innermost scope becomes `ParamScope`, with one error per repeated name |
| Resolver.Resolver.ResolveClass | src/Resolver.ts:97-135 | ends as `ClassPass` describes; the class context is restored |
| Resolver.Resolver.ResolveClassHeader | src/Resolver.ts:99-111 | ends as `ClassHeader` describes, in the class context of a plain class or a subclass |
| Resolver.Resolver.DeclareClass | src/Resolver.ts:101-106 | declares and defines the class name and reports self-inheritance |
| Resolver.Resolver.ResolveMethods | src/Resolver.ts:113-132 | ends as `MethodsPass` describes: the methods resolved inside a `this` scope, itself inside a `super` scope for a subclass, and both scopes popped |
| Resolver.Resolver.ResolveMethodList | src/Resolver.ts:120-127 | ends as `MethodsPrefix` of all the methods describes, each resolved as an initializer exactly when named `init` |
| Environment.Ancestor | src/Interpreter.ts:251 | walking `distance` links from a frame reaches an older frame, or none |
| Environment.Hops | src/Environment.ts:16-23 | the number of links to the innermost frame binding the name; none exactly when no frame on the chain binds it |
| Environment.Lookup | src/Environment.ts:16-26 | `get` returns the binding of the innermost frame that has the name, and "Undefined variable" when none has |
| Environment.LookupAt | src/Interpreter.ts:251 | `getAt` returns the binding in the frame `distance` links up; it fails only when no such frame exists |
| Environment.DefineThenLookup | src/Environment.ts:12-19 | after `define(n, v)` a `get(n)` from the same frame returns `v` |
| Environment.Rebind | src/Environment.ts:13 | rebinding changes only the one frame's binding of the name, keeping its link |
| Environment.AssignThenLookup | src/Environment.ts:28-36 | after `assign(n, v)` a `get(n)` returns `v` |
| Environment.AssignKeepsNames | src/Environment.ts:28-36 | `assign` never creates a binding: every frame binds the same names as before |
| Environment.ChainEnds | src/Environment.ts:21-23 | every chain of `enclosing` links is finite and ends at a frame with no enclosing frame |
| Environment.Heap.constructor | src/Environment.ts:4-10 | an empty heap |
| Environment.Heap.NewEnvironment | src/Environment.ts:8-10 | appends a new empty frame with the given enclosing frame |
| Environment.Heap.Define | src/Environment.ts:12-14 | the one frame gets the binding, overwriting any old one |
| Environment.Heap.Assign | src/Environment.ts:28-40 | the innermost frame holding the name gets the value; with none, "Undefined variable" and nothing changes |
| Environment.Heap.AssignAt | src/Interpreter.ts:234 | `assignAt` rebinds in the frame `distance` links up; with no such frame, a host error and no change |
| Environment.Heap.NewInstance | src/LoxInstance.ts:5-11 | a new instance with an empty field table, at a fresh index |
| Environment.Heap.SetField | src/LoxInstance.ts:24-26 | `set` creates or overwrites one field of one instance; nothing else changes |
| Functions.Bind | src/LoxFunction.ts:25-29 | a new function with the same declaration and initializer flag, closing over a new frame that binds only `this` and encloses the old closure |
| Functions.ParameterNames | src/LoxFunction.ts:36-40 | the call frame binds exactly the parameter names |
| Functions.ParameterValues | src/LoxFunction.ts:38-40 | parameter `i` is bound to argument `i` (the last one, for a repeated name) |
| Functions.BindArguments | src/LoxFunction.ts:36-40 | a call appends one frame, enclosing the closure, binding the parameters to the arguments |
| Functions.CallOutcome | src/LoxFunction.ts:42-57 | an initializer yields `this` whether it returns early or not; another function yields the returned value, or `undefined` without `return`; a failure propagates unchanged |
| Functions.CallOutcomeFails | src/LoxFunction.ts:51-52 | a call fails only when the body fails or an initializer cannot read `this` |
| Classes.FindDeclaredMethod | src/LoxClass.ts:34-38 | on a class built from a declaration, `findMethod` of a declared name finds the last method declared with it, closing over the class environment, an initializer exactly when named `init` |
| Classes.FindUndeclaredMethod | src/LoxClass.ts:34-38 | on a class built from a declaration, `findMethod` of a name no method is declared with finds nothing |
| Classes.BuiltClassArity | src/LoxClass.ts:17-21 | a class built from a declaration takes as many arguments as its last `init` method has parameters, and none without an `init` |
| Classes.MethodTableEntries | src/Interpreter.ts:121-129 | each table entry is a declared method stored under its own name, closing over the class environment, an initializer exactly when named `init` |
| Classes.MethodTableNames | src/Interpreter.ts:121-129 | every declared method name has an entry |
| Classes.MethodTableLast | src/Interpreter.ts:121-129 | a name's entry is the last method declared with that name |
| Classes.FindProperty | src/LoxInstance.ts:13-22 | a field wins over a method of the same name; then the class's method; otherwise nothing |
| Classes.SetThenGet | src/LoxInstance.ts:24-26 | after `set(n, v)`, `get(n)` finds `v` and every other name finds what it found before |
| Classes.GetProperty | src/LoxInstance.ts:13-22 | `get` returns the field unchanged, or the method bound freshly to the instance (no field is stored), or "Undefined property 'n'." |
| Operators.FalsyValues | src/Interpreter.ts:373-375 | the falsy values are exactly nil, undefined, false, 0 and "" |
| Operators.TruthinessDiverges | src/Interpreter.ts:373-375 | JavaScript truthiness and the Lox rule differ exactly on 0 and "" |
| Operators.IsEqualEquivalence | src/Interpreter.ts:377-379 | `===` is reflexive, symmetric and transitive, and never equates values of different kinds |
| Operators.BinaryOp | src/Interpreter.ts:297-347 | a binary operator yields a primitive value, or a runtime error located at the operator |
| Operators.NumericOperands | src/Interpreter.ts:302-341 | `>`, `>=`, `<`, `<=`, `-`, `*`, `/` fail with "Operands must be numbers." exactly when an operand is not a number; on numbers only `/` by zero fails |
| Operators.DivisionChecksTypesFirst | src/Interpreter.ts:328-338 | `x / 0` reports the operand-type error when `x` is not a number, and division by zero when it is |
| Operators.PlusOverloading | src/Interpreter.ts:317-327 | `+` adds two numbers and concatenates two strings; it fails with the two-numbers-or-two-strings error exactly on any other pair |
| Operators.EqualityOperators | src/Interpreter.ts:342-345 | `==` yields `===` and `!=` its negation |
| Operators.UnaryOp | src/Interpreter.ts:357-367 | a unary operator yields a primitive value, or "Operand must be a number." |
| Operators.UnaryOperators | src/Interpreter.ts:357-367 | `-` fails exactly on a non-number and negates a number; `!!v` is the truthiness of `v` |
| Operators.LiteralToValue | src/Interpreter.ts:353-355 | a literal's value is a number exactly for a numeric literal (its exact value), a string exactly for a string literal |
| Operators.NatToString | src/Interpreter.ts:177 | decimal digits with no leading zero |
| Operators.NatToStringRoundTrip | src/Interpreter.ts:177 | reading the digits back gives the number |
| Operators.IntToStringRoundTrip | src/Utils.ts:13-16 | the text of a line number starts with a minus sign exactly when it is negative, and reads back to the number |
| Operators.Stringify | src/Interpreter.ts:292-295 | nil and undefined print as "nil", a string as itself, a number as JavaScript's text for it |
| Operators.StringifyObjects | src/Interpreter.ts:292-295 | exactly functions, classes, instances and the native clock print in angle brackets: `<function NAME>` with the declared name, `<class NAME>`, `<NAME instance>` with the class name, and `<native function>`; booleans print as "true"/"false" |
| Semantics.LookUp | src/Interpreter.ts:246-255 | with a recorded distance, fails exactly when no frame is that many links up, and otherwise yields that frame's binding, or `undefined` when it lacks the name; without one, fails with "Undefined variable" exactly when no frame of the global chain binds the name |
| Semantics.Defined | src/Environment.ts:12-14 | `define` in the current environment keeps the heap well formed, creates no frame and changes no instance |
| Semantics.Store | src/Interpreter.ts:228-240 | a store creates no frame and yields the stored value; a failing one changes nothing |
| Semantics.Bound | src/LoxFunction.ts:25-29 | `bind` only adds a frame, changes no instance, and the new function closes over a frame of the heap |
| Semantics.ReadProperty | src/LoxInstance.ts:13-22 | a property read keeps the heap well formed, ends in the environment it started in, only grows the heap and the output, and yields a value into the heap |
| Semantics.FindSuper | src/Interpreter.ts:59-73 | without a recorded distance, "Undefined property m."; a found method is the own method `m` of the class bound to `super` at the recorded distance, and the receiver is the `this` bound one frame nearer |
| Semantics.EvalExpr | src/Interpreter.ts:369-371 | evaluation keeps the heap well formed, ends in the environment it started in, only grows the heap and the output, and yields a value into the heap |
| Semantics.EvalAssign | src/Interpreter.ts:228-240 | an assignment keeps the heap well formed, ends in the environment it started in, only grows the heap and the output |
| Semantics.EvalBinary | src/Interpreter.ts:297-300 | a binary expression keeps the heap well formed, ends in the environment it started in, only grows the heap and the output |
| Semantics.EvalUnary | src/Interpreter.ts:357-358 | a unary expression keeps the heap well formed, ends in the environment it started in, only grows the heap and the output |
| Semantics.EvalLogical | src/Interpreter.ts:190-200 | a logical expression keeps the heap well formed, ends in the environment it started in, only grows the heap and the output |
| Semantics.EvalGet | src/Interpreter.ts:91-99 | a property read keeps the heap well formed, ends in the environment it started in, only grows the heap and the output |
| Semantics.EvalSet | src/Interpreter.ts:79-89 | a property assignment keeps the heap well formed, ends in the environment it started in, only grows the heap and the output |
| Semantics.EvalSuper | src/Interpreter.ts:59-73 | a `super` expression keeps the heap well formed, ends in the environment it started in, only grows the heap and the output |
| Semantics.EvalCall | src/Interpreter.ts:157-182 | a call keeps the heap well formed, ends in the environment it started in, only grows the heap and the output |
| Semantics.EvalArguments | src/Interpreter.ts:160-163 | evaluating the arguments left to right, then calling, keeps the heap well formed, ends in the environment it started in, only grows the heap and the output |
| Semantics.Apply | src/Interpreter.ts:165-181 | a checked call keeps the heap well formed, ends in the environment it started in, only grows the heap and the output |
| Semantics.ApplyChecks | src/Interpreter.ts:165-181 | a value that is not a function, class or `clock` fails with "Can only call functions and classes.", a wrong count with "Expect N arguments, but got M.", the state unchanged either way; `clock` yields the host's reading; a successful class call yields a new instance of that class |
| Semantics.Invoke | src/LoxFunction.ts:35-58 | a function call keeps the heap well formed, ends in the environment it started in, only grows the heap and the output |
| Semantics.Instantiate | src/LoxClass.ts:23-32 | a class call always creates one more instance, and a successful one yields that new instance of the class |
| Semantics.Exec | src/Interpreter.ts:288-290 | execution keeps the heap well formed, ends in the environment it started in, only grows the heap and the output, and a `return` carries a value into the heap |
| Semantics.ExecNested | src/Interpreter.ts:210-212 | a block statement keeps the heap well formed, ends in the environment it started in, only grows the heap and the output |
| Semantics.ExecBlock | src/Interpreter.ts:214-226 | the environment in force before a block is restored however the block completes |
| Semantics.ExecSequence | src/Interpreter.ts:220-222 | the statements of a block keeps the heap well formed, ends in the environment it started in, only grows the heap and the output |
| Semantics.ExecExpression | src/Interpreter.ts:265-267 | an expression statement keeps the heap well formed, ends in the environment it started in, only grows the heap and the output |
| Semantics.ExecPrint | src/Interpreter.ts:269-272 | a print statement keeps the heap well formed, ends in the environment it started in, only grows the heap and the output |
| Semantics.ExecVar | src/Interpreter.ts:257-263 | a variable declaration keeps the heap well formed, ends in the environment it started in, only grows the heap and the output |
| Semantics.ExecFunction | src/Interpreter.ts:152-155 | a function declaration keeps the heap well formed, ends in the environment it started in, only grows the heap and the output |
| Semantics.ExecIf | src/Interpreter.ts:202-208 | an `if` statement keeps the heap well formed, ends in the environment it started in, only grows the heap and the output |
| Semantics.ExecReturn | src/Interpreter.ts:144-150 | a `return` statement keeps the heap well formed, ends in the environment it started in, only grows the heap and the output |
| Semantics.Loop | src/Interpreter.ts:184-188 | a `while` loop keeps the heap well formed, ends in the environment it started in, only grows the heap and the output |
| Semantics.ExecClass | src/Interpreter.ts:101-138 | a class declaration keeps the heap well formed, ends in the environment it started in, only grows the heap and the output |
| Semantics.ClassDefined | src/Interpreter.ts:114-137 | defining a class keeps the heap well formed and the environment, and changes no instance |
| Semantics.ClassScope | src/Interpreter.ts:114-119 | the name bound to `undefined` in the current frame; for a subclass one new frame binding `super` and enclosing the current one; serial and instances unchanged |
| Semantics.Run | src/Interpreter.ts:274-286 | a run keeps the heap well formed, ends in the environment it started in, only grows the heap and the output, and no runtime error escapes it: the first one is written out as a report instead |
| Fuel.EvalExprMore | src/Interpreter.ts:369-371 | an evaluation gives, with any larger amount of fuel, the same result and the same state as long as it did not run out |
| Fuel.EvalAssignMore | src/Interpreter.ts:228-240 | an assignment gives, with any larger amount of fuel, the same result and the same state as long as it did not run out |
| Fuel.EvalBinaryMore | src/Interpreter.ts:297-300 | a binary expression gives, with any larger amount of fuel, the same result and the same state as long as it did not run out |
| Fuel.EvalUnaryMore | src/Interpreter.ts:357-358 | a unary expression gives, with any larger amount of fuel, the same result and the same state as long as it did not run out |
| Fuel.EvalLogicalMore | src/Interpreter.ts:190-200 | a logical expression gives, with any larger amount of fuel, the same result and the same state as long as it did not run out |
| Fuel.EvalGetMore | src/Interpreter.ts:91-99 | a property read gives, with any larger amount of fuel, the same result and the same state as long as it did not run out |
| Fuel.EvalSetMore | src/Interpreter.ts:79-89 | a property assignment gives, with any larger amount of fuel, the same result and the same state as long as it did not run out |
| Fuel.EvalCallMore | src/Interpreter.ts:157-182 | a call gives, with any larger amount of fuel, the same result and the same state as long as it did not run out |
| Fuel.EvalArgumentsMore | src/Interpreter.ts:160-163 | evaluating the arguments, then calling, gives, with any larger amount of fuel, the same result and the same state as long as it did not run out |
| Fuel.ApplyMore | src/Interpreter.ts:165-181 | a checked call gives, with any larger amount of fuel, the same result and the same state as long as it did not run out |
| Fuel.InvokeMore | src/LoxFunction.ts:35-58 | a function call gives, with any larger amount of fuel, the same result and the same state as long as it did not run out |
| Fuel.InstantiateMore | src/LoxClass.ts:23-32 | a class call gives, with any larger amount of fuel, the same result and the same state as long as it did not run out |
| Fuel.ExecMore | src/Interpreter.ts:288-290 | a statement gives, with any larger amount of fuel, the same result and the same state as long as it did not run out |
| Fuel.ExecNestedMore | src/Interpreter.ts:210-212 | a block statement gives, with any larger amount of fuel, the same result and the same state as long as it did not run out |
| Fuel.ExecBlockMore | src/Interpreter.ts:214-226 | a block gives, with any larger amount of fuel, the same result and the same state as long as it did not run out |
| Fuel.ExecSequenceMore | src/Interpreter.ts:220-222 | the statements of a block gives, with any larger amount of fuel, the same result and the same state as long as it did not run out |
| Fuel.ExecExpressionMore | src/Interpreter.ts:265-267 | an expression statement gives, with any larger amount of fuel, the same result and the same state as long as it did not run out |
| Fuel.ExecPrintMore | src/Interpreter.ts:269-272 | a print statement gives, with any larger amount of fuel, the same result and the same state as long as it did not run out |
| Fuel.ExecVarMore | src/Interpreter.ts:257-263 | a variable declaration gives, with any larger amount of fuel, the same result and the same state as long as it did not run out |
| Fuel.ExecIfMore | src/Interpreter.ts:202-208 | an `if` statement gives, with any larger amount of fuel, the same result and the same state as long as it did not run out |
| Fuel.ExecReturnMore | src/Interpreter.ts:144-150 | a `return` statement gives, with any larger amount of fuel, the same result and the same state as long as it did not run out |
| Fuel.LoopMore | src/Interpreter.ts:184-188 | a `while` loop gives, with any larger amount of fuel, the same result and the same state as long as it did not run out, with either more fuel or a larger iteration budget |
| Fuel.RunMore | src/Interpreter.ts:274-286 | a whole run gives, with any larger amount of fuel, the same result and the same state as long as it did not run out |
| Interpreter.Interpreter.constructor | src/Interpreter.ts:51-57 | the globals bind only `clock`, are the current environment, no distances, no output |
| Interpreter.Interpreter.Resolve | src/Interpreter.ts:140-142 | records the distance for the node |
| Interpreter.Interpreter.Evaluate | src/Interpreter.ts:369-371 | the result and the new heap, environment and output are `Semantics.EvalExpr` of the old state |
| Interpreter.Interpreter.EvaluateAssign | src/Interpreter.ts:228-240 | the result and new state are `Semantics.EvalAssign` of the old state: the value evaluated, then stored |
| Interpreter.Interpreter.AssignVariable | src/Interpreter.ts:230-237 | the result and new heap are `Semantics.Store` of the old state |
| Interpreter.Interpreter.EvaluateBinary | src/Interpreter.ts:297-300 | the result and new state are `Semantics.EvalBinary` of the old state: left, then right, then `BinaryOp` |
| Interpreter.Interpreter.EvaluateUnary | src/Interpreter.ts:357-358 | the result and new state are `Semantics.EvalUnary` of the old state |
| Interpreter.Interpreter.EvaluateLogical | src/Interpreter.ts:190-200 | the result and new state are `Semantics.EvalLogical` of the old state: the right operand only when the left does not decide |
| Interpreter.Interpreter.EvaluateGet | src/Interpreter.ts:91-99 | the result and new state are `Semantics.EvalGet` of the old state |
| Interpreter.Interpreter.EvaluateSet | src/Interpreter.ts:79-89 | the result and new state are `Semantics.EvalSet` of the old state |
| Interpreter.Interpreter.EvaluateSuper | src/Interpreter.ts:59-73 | the result and new heap are `Semantics.EvalSuper` of the old state |
| Interpreter.Interpreter.EvaluateCall | src/Interpreter.ts:157-182 | the result and new state are `Semantics.EvalCall` of the old state: callee, each argument left to right, then `Apply` |
| Interpreter.Interpreter.CallValue | src/Interpreter.ts:165-181 | the result and new state are `Semantics.Apply` of the old state |
| Interpreter.Interpreter.CallFunction | src/LoxFunction.ts:35-58 | the result and new state are `Semantics.Invoke` of the old state |
| Interpreter.Interpreter.CallClass | src/LoxClass.ts:23-32 | the result and new state are `Semantics.Instantiate` of the old state |
| Interpreter.Interpreter.Execute | src/Interpreter.ts:288-290 | the completion and new state are `Semantics.Exec` of the old state |
| Interpreter.Interpreter.ExecuteBlockStmt | src/Interpreter.ts:210-212 | the completion and new state are `Semantics.ExecNested` of the old state: the block in a new frame enclosed by the current one |
| Interpreter.Interpreter.ExecuteBlock | src/Interpreter.ts:214-226 | the completion and new state are `Semantics.ExecBlock` of the old state |
| Interpreter.Interpreter.ExecuteExpression | src/Interpreter.ts:265-267 | the completion and new state are `Semantics.ExecExpression` of the old state |
| Interpreter.Interpreter.ExecutePrint | src/Interpreter.ts:269-272 | the completion and new state are `Semantics.ExecPrint` of the old state |
| Interpreter.Interpreter.ExecuteVar | src/Interpreter.ts:257-263 | the completion and new state are `Semantics.ExecVar` of the old state |
| Interpreter.Interpreter.ExecuteFunction | src/Interpreter.ts:152-155 | the completion and new heap are `Semantics.ExecFunction` of the old state |
| Interpreter.Interpreter.ExecuteIf | src/Interpreter.ts:202-208 | the completion and new state are `Semantics.ExecIf` of the old state |
| Interpreter.Interpreter.ExecuteReturn | src/Interpreter.ts:144-150 | the completion and new state are `Semantics.ExecReturn` of the old state |
| Interpreter.Interpreter.ExecuteWhile | src/Interpreter.ts:184-188 | the completion and new state are `Semantics.Loop` of the old state with a budget of `fuel` iterations |
| Interpreter.Interpreter.ExecuteClass | src/Interpreter.ts:101-138 | the completion and new state are `Semantics.ExecClass` of the old state |
| Interpreter.Interpreter.DefineClass | src/Interpreter.ts:114-137 | the new heap and environment are `Semantics.ClassDefined` of the old state: the name bound to `undefined`, a `super` frame for a subclass, the methods closing over it, then the name bound to the class |
| Interpreter.Interpreter.EnterClassScope | src/Interpreter.ts:114-119 | the new heap is `Semantics.ClassScope` of the old state, and the environment is the `super` frame for a subclass |
| Interpreter.Interpreter.DeclareClass | src/Interpreter.ts:114 | the new heap is `Semantics.Defined` of the class name to `undefined` |
| Interpreter.Interpreter.BuildClass | src/Interpreter.ts:120-131 | the class's table is `MethodTable` of the methods, closing over the current environment |
| Interpreter.Interpreter.StoreClass | src/Interpreter.ts:133-137 | the new heap is `Semantics.Defined` of the class name to the class, in the frame that already binds it |
| Interpreter.Interpreter.Interpret | src/Interpreter.ts:274-286 | the completion and new state are `Semantics.Run` of the old state from the first statement |
| Binding.DistanceIsHops | src/Resolver.ts:284-291 | when the frames mirror the scopes, the recorded distance is the number of links the dynamic `get` walks, and reading there gives what `get` gives |
| Binding.ResolvedRead | src/Interpreter.ts:246-255 | a variable carrying the Resolver's distance reads the binding that `get` from the current environment finds |

## Left out

- Numbers are exact reals, not IEEE-754 doubles. Rounding, NaN and the infinities are not modelled.
- lodash's `toNumber`, in `src/Scanner.ts:174-177`, is modelled as the exact value of the numeral.
- JavaScript's number-to-text conversion used by `stringify` is a parameter (`numberText`).
- The native `clock` returns a formatted wall-clock time (`src/LoxCallable.ts:15-17`). Its text is a constant given to the Interpreter (`clockReading`).
- Non-termination and host stack overflow are modelled with fuel, which fails with `OutOfFuel`. A call runs its body with one unit less than it was given, and each `while` loop gets `fuel` iterations. Fuel is not passed along from one part of a program to the next: both operands of a binary expression, and every statement of a block or program, get the same fuel. So it bounds the depth of call nesting and the iterations of each loop, not the total work of a run.
- JavaScript `TypeError`s become `HostError` failures. Examples are accessing a field of a superclass that is not a class, or `getAt` walking off the chain.
- Object identity is explicit:
  - AST nodes carry ids for the `locals` side table;
  - instances are heap indices;
  - function and class objects carry a creation serial.
- Parser.Parser.Advance: it requires that a token has been read or that the current token is not EOF. The source would read `tokens[-1]` on a list holding only the EOF token, and no caller reaches that case.
- Parser.Parser.Synchronize: it carries the same precondition as Advance, for the same reason.
- Parser: the snapshot has no parsing of the following, so they are not modelled:
  - `and`/`or`, calls, property get/set, `this` and `super`;
  - the `if`, `while`, `for`, `fun`, `class` and `return` statements.
- Binding.DistanceIsHops: it assumes that the frames mirror the scopes. That execution keeps the frames mirroring the scopes is not proved.
- Parser.Parser.GroupingRest: on failure it states that an error was reported, not which. The failure may come from the inner expression, with its own message, or from the missing `)`, with "Expect ')' after expression."; the contract does not tell the two apart.
- Scanner: the source text is a sequence of Unicode scalar values, not of UTF-16 code units as `charAt` and `length` in `src/Scanner.ts` count it. A character outside the Basic Multilingual Plane, outside a string literal or comment, is reported once as "Unexpected character." with the whole character as lexeme, where the source reports it twice, once per surrogate. Inside string literals and comments the resulting text is the same.
- Scanner.IsAlpha, Scanner.IsDigit: defined on one-character strings and on `END`, the only strings the Scanner passes. The source compares strings, so on a longer string it would answer differently.
- `Lox.runtimeError`, called at `src/Interpreter.ts:281`, is not defined in `src/Lox.ts`. The model appends the `[line N]: message` line of `runtimeError` in `src/Utils.ts:13-16` to the output, and does not model the `hadRuntimeError` flag.
- `src/Lox.ts`, the driver, is not part of this model: file reading, the REPL, exit codes and the `hadError` / `hadRuntimeError` flags.
- `console.log` is modelled as appending a line to `output`. The diagnostics of `src/Utils.ts` are appended to an error sequence instead of being printed.
- `tool/GenerateAst.ts` and `src/AstPrinter.ts` are build-time and debugging code, and are not part of this model.
- `src/Stmt.ts` is stale and is replaced by the statement kinds the visitors use. `src/Return.ts` is only an exception carrier and is replaced by `Completion.Returned`.
- `Token.ts` is not part of this model. The token kinds are reconstructed from their uses.
