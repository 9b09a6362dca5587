# nodestract core, modelled in Dafny

nodestract is a small interpreter for the Stract scripting language, written
in Rust. This project models its core and proves properties of the model:

- **the lexer** (`src/lexer.rs`): source text to tokens. It is modelled as the `Lexer` class, whose `Tokenize`
  loop and reader methods are proved equal to the pure scanner `Scan`/`Step`;
- **the parser state** (`src/parser.rs`): the token cursor, `advance`,
  `current_token` and the skip-ahead loops. It is the `Parser` class in
  module `ParserState`;
- **the expression parser** (`src/parser/expression.rs`): precedence climbing,
  unary minus, array and map literals, qualified names, indexing and calls;
- **the statement parser** (`src/parser/statement.rs`): declarations,
  capabilities, functions, blocks, `if`/`else`, `while`, `for`, `return`,
  assignments and call statements;
- **the legacy parser** (the `parse*` functions of `src/parser.rs`): an
  older, smaller grammar. It is kept as its own module `LegacyParser`;
- **the evaluator** (`src/interpreter.rs`): a tree walker over one flat
  string-to-string store. It runs global declarations first and then `main`. Its operators have
  string semantics;
- **runtime values** (`src/value.rs`): the `Value` enum, its display text,
  truthiness and type names.

Each parsing function of the source is a method over a shared `Parser`
object. That method is proved equal to a recursive specification function over the
token sequence and a position. The properties of the grammar are proved
about those functions. The evaluator's `run` and `execute_statement` are
methods of an `Interpreter` class, proved equal to the functions `RunSpec`
and `Exec`. `eval_expression` is the pure function `Eval`.

Two source loops can run forever: the loop that skips ahead to a `{`, and the legacy loop that skips ahead to a `)`.
Past the last token `current_token` is `EOF` and `advance` no longer
moves, so when the token they look for never comes they never end. The model
gives the parser a `diverged` flag. The flag is set exactly where the source would
loop forever. The specification functions return `Diverges` there, and the
top-level `Parse` methods return `None`.

## Model

| member | source | states |
|---|---|---|
| Lexing.KeywordOrIdentifier | src/lexer.rs:131-148 | a word becomes the keyword token spelled that way, or an identifier carrying exactly that text |
| Lexing.IdentifierExactlyWhenNotKeyword | src/lexer.rs:132-147 | a word is an identifier exactly when it is not one of the fourteen keywords |
| Lexing.KeywordSpellingRoundTrip | src/lexer.rs:132-147 | every keyword token is read back from its own spelling |
| Lexing.PeekAt | src/lexer.rs:200-206 | the character after the current one, or `'\0'` past the end |
| Lexing.FindChar | src/lexer.rs:154-156 | the first position at or after `i` holding the character, or the end; no earlier position holds it |
| Lexing.IdentEnd | src/lexer.rs:127-129 | the end of the longest run of letters, digits and `_` |
| Lexing.NumberEnd | src/lexer.rs:166-176 | a number lexeme is digits with at most one `.`, and it stops at the first character that cannot extend it |
| Lexing.CommentClose | src/lexer.rs:189-198 | a block comment ends just after the first `*/`, or at the end of the input |
| Lexing.Step | src/lexer.rs:58-119 | one turn of the scanning loop moves forward and never emits `EOF` |
| Lexing.Scan | src/lexer.rs:55-123 | the token stream ends with exactly one `EOF` and has at most one token per character, plus that `EOF` |
| Lexing.Lexer.constructor | src/lexer.rs:48-53 | a new lexer is at position 0 of its input |
| Lexing.Lexer.Tokenize | src/lexer.rs:55-123 | `tokenize` returns exactly `Scan` of the input from the starting position |
| Lexing.Lexer.ScanToken | src/lexer.rs:59-119 | one turn of the loop pushes `Step`'s token, if any, and moves to `Step`'s next position |
| Lexing.Lexer.ReadIdentifier | src/lexer.rs:125-149 | reads the longest identifier run and classifies it as keyword or identifier |
| Lexing.Lexer.ReadString | src/lexer.rs:151-160 | the payload is the text between the opening quote and the next quote; the closing quote is consumed |
| Lexing.Lexer.ReadNumber | src/lexer.rs:162-181 | the lexeme is the number run `NumberEnd` delimits |
| Lexing.Lexer.SkipComment | src/lexer.rs:183-187 | stops at the next newline, or at the end |
| Lexing.Lexer.SkipMultilineComment | src/lexer.rs:189-198 | stops just after the first `*/` after the opening pair, or at the end |
| LexerProperties.StepDot | src/lexer.rs:71-79 | `..` is `Range` over two characters; a lone `.` is `Dot` |
| LexerProperties.StepEqual | src/lexer.rs:95-103 | `==` is `EqualEqual`; a lone `=` is `Equal` |
| LexerProperties.StepSlash | src/lexer.rs:85-94 | `/*` and `//` start comments that emit nothing |
| LexerProperties.StepString | src/lexer.rs:106-108 | a quote reads a string up to the next quote |
| LexerProperties.StepWord | src/lexer.rs:109-111 | a letter starts a word, which is classified |
| LexerProperties.StepNumber | src/lexer.rs:112-114 | a digit starts a number lexeme |
| LexerProperties.WhitespaceYieldsNothing | src/lexer.rs:62-64 | whitespace produces no token |
| LexerProperties.BlankInputScansToEOF | src/lexer.rs:55-123 | input that is only whitespace scans to the lone `EOF` |
| LexerProperties.LineCommentSkipped | src/lexer.rs:183-187 | a line comment is skipped up to, but not including, the newline |
| LexerProperties.BlockCommentSkipped | src/lexer.rs:189-198 | scanning resumes just after the first `*/` |
| LexerProperties.UnterminatedBlockCommentRunsToEnd | src/lexer.rs:189-198 | an unclosed block comment swallows the rest of the input |
| LexerProperties.EqualEqualIsGreedy | src/lexer.rs:95-103 | `==` is one token, tried before `=` |
| LexerProperties.RangeIsGreedy | src/lexer.rs:71-79 | `..` is one token, tried before `.` |
| LexerProperties.WordToken | src/lexer.rs:125-148 | a word is the maximal identifier run after a letter, as its keyword or as an identifier |
| LexerProperties.StringToken | src/lexer.rs:151-160 | a string literal's payload never contains a quote, and scanning resumes after the closing quote |
| LexerProperties.UnterminatedStringRunsToEnd | src/lexer.rs:151-160 | an unclosed string takes the rest of the input, followed by `EOF` |
| LexerProperties.NumberToken | src/lexer.rs:162-181 | a number lexeme starts with a digit and has at most one `.` |
| LexerProperties.UnknownToken | src/lexer.rs:115-118 | any other character becomes one `Unknown` token |
| ParserState.NameOr | src/parser/statement.rs:59-61 | an identifier's text, or the fallback name for any other token |
| ParserState.At | src/parser.rs:158-163 | the token at a position, or `EOF` past the end |
| ParserState.Next | src/parser.rs:152-156 | one position further, but never past the end |
| ParserState.Peek | src/parser/statement.rs:22-28 | the token after the current one, or `EOF` past the end |
| ParserState.FirstAt | src/parser/statement.rs:112 | where a skip-ahead loop stops: the first matching position, or none, in which case no later token matches |
| ParserState.FirstCloseOrEnd | src/parser/statement.rs:49-51 | the first position holding `}` or `EOF`, or the end |
| ParserState.Parser.constructor | src/parser.rs:10-15 | a new parser is at position 0 |
| ParserState.Parser.CurrentToken | src/parser.rs:158-163 | the token at the parser's position, or `EOF` once the position is past the end |
| ParserState.Parser.PeekToken | src/parser/statement.rs:22-28 | the token one past the parser's position, or `EOF` when there is none |
| ParserState.Parser.Advance | src/parser.rs:152-156 | the position grows by one unless it is at the end |
| ParserState.Parser.SkipUntil | src/parser/statement.rs:112 | stops at the first matching token, or sets `diverged` where the source would loop forever |
| ParserState.Parser.SkipToCloseOrEnd | src/parser/statement.rs:49-51 | stops at the first `}` or `EOF` |
| ExpressionParser.AdditiveOp | src/parser/expression.rs:8-13 | the five lowest-level operator tokens and their spellings |
| ExpressionParser.MultiplicativeOp | src/parser/expression.rs:22-25 | `*` and `/` |
| ExpressionParser.Expr | src/parser/expression.rs:6-18 | an expression stays within the tokens and consumes at least one token when any remain |
| ExpressionParser.ExprTail | src/parser/expression.rs:8-16 | the additive loop moves forward and stays within the tokens |
| ExpressionParser.Term | src/parser/expression.rs:20-30 | the same bounds for a term |
| ExpressionParser.TermTail | src/parser/expression.rs:22-28 | the multiplicative loop moves forward and stays within the tokens |
| ExpressionParser.Unary | src/parser/expression.rs:32-42 | the same bounds for a unary |
| ExpressionParser.Primary | src/parser/expression.rs:44-111 | the same bounds for a primary |
| ExpressionParser.Items | src/parser/expression.rs:47-52 | a list stays within the tokens and consumes at least one token when any remain |
| ExpressionParser.ItemsTail | src/parser/expression.rs:48-51 | the list loop keeps the elements read before it and moves forward |
| ExpressionParser.Pair | src/parser/expression.rs:60-71 | one map entry stays within the tokens |
| ExpressionParser.Pairs | src/parser/expression.rs:59-78 | a map body holds at least one more entry than it started with |
| ExpressionParser.QualifiedName | src/parser/expression.rs:86-92 | reading an optional `.method` moves forward and stays within the tokens |
| ExpressionParser.Postfix | src/parser/expression.rs:94-106 | the postfix loop moves forward and stays within the tokens |
| ExpressionParser.ParseExpression | src/parser/expression.rs:6-18 | `parse_expression` builds `Expr`'s tree and stops where `Expr` does |
| ExpressionParser.ParseTerm | src/parser/expression.rs:20-30 | `parse_term` builds `Term`'s tree and stops where `Term` does |
| ExpressionParser.ParseUnary | src/parser/expression.rs:32-42 | `parse_unary` builds `Unary`'s tree and stops where `Unary` does |
| ExpressionParser.ParsePrimary | src/parser/expression.rs:44-111 | `parse_primary` builds `Primary`'s tree and stops where `Primary` does |
| ExpressionParser.ParsePair | src/parser/expression.rs:60-71 | one map entry, as `Pair` says |
| ExpressionParser.ParseMapBody | src/parser/expression.rs:58-79 | no entries before `}`, otherwise `Pairs` |
| ExpressionParser.ParseQualifiedName | src/parser/expression.rs:86-92 | `name` or `name.method`, as `QualifiedName` says |
| ExpressionParser.ParsePostfix | src/parser/expression.rs:94-106 | the postfix loop, as `Postfix` says |
| ExpressionParser.ParseNameAndPostfix | src/parser/expression.rs:85-108 | a name, an optional `.method` joined into it, then the postfix loop starting from that variable, as `QualifiedName` and `Postfix` say |
| ExpressionParser.ParseIndexSuffix | src/parser/expression.rs:95-97 | one `[index]` suffix: it moves forward and leaves the rest of the loop unchanged, as `Postfix` says |
| ExpressionParser.ParseItems | src/parser/expression.rs:47-52 | an array literal's or call's list, as `Items` says |
| ExpressionParser.ParseItemList | src/parser/expression.rs:48-51 | the expressions of a non-empty list, as `ItemsTail` after the first expression says |
| ExpressionProperties.AdditiveGroupsLeft | src/parser/expression.rs:7-16 | `a op b op c` at the lowest level is `(a op b) op c` |
| ExpressionProperties.MultiplicativeGroupsLeft | src/parser/expression.rs:21-28 | `a * b / c` is `(a * b) / c` |
| ExpressionProperties.GroupedLeft | src/parser/expression.rs:6-30 | a chain of operators grouped to the left has its last operator and operand outermost |
| ExpressionProperties.GroupedLeftFront | src/parser/expression.rs:6-30 | grouping to the left starts by combining the first operand with the first one after it |
| ExpressionProperties.ExprTailGroupsLeft | src/parser/expression.rs:8-16 | any number of `+`, `-`, `==`, `>`, `<` operators, each followed by a term, group to the left |
| ExpressionProperties.TermTailGroupsLeft | src/parser/expression.rs:22-28 | any number of `*` and `/` operators, each followed by a unary, group to the left |
| ExpressionProperties.SumGroupsLeft | src/parser/expression.rs:6-18 | an expression is its first term and every additive operator after it, grouped to the left |
| ExpressionProperties.ProductGroupsLeft | src/parser/expression.rs:20-30 | a term is its first unary and every multiplicative operator after it, grouped to the left |
| ExpressionProperties.OperatorLevelsDisjoint | src/parser/expression.rs:6-30 | no token is an operator of both levels |
| ExpressionProperties.UnaryIsWholeTerm | src/parser/expression.rs:20-30 | a unary not followed by `*` or `/` is a whole term |
| ExpressionProperties.ProductTerm | src/parser/expression.rs:20-30 | `a * b`, with nothing multiplicative after it, is one whole term |
| ExpressionProperties.SumExpr | src/parser/expression.rs:6-18 | `a + b`, with nothing additive after it, is one whole expression |
| ExpressionProperties.ProductBindsTighterOnTheRight | src/parser/expression.rs:6-30 | `a + b * c` is `a + (b * c)` |
| ExpressionProperties.ProductBindsTighterOnTheLeft | src/parser/expression.rs:6-30 | `a * b + c` is `(a * b) + c` |
| ExpressionProperties.MinusSignsNest | src/parser/expression.rs:32-42 | `n` minus signs nest `n` subtractions from `0` around the primary |
| ExpressionProperties.EmptyArray | src/parser/expression.rs:46-53 | `[]` is the empty array and consumes both brackets |
| ExpressionProperties.ItemsTailReadsList | src/parser/expression.rs:48-51 | after the first element, a list reads one expression per comma, appended in source order, and stops at the first position without a comma |
| ExpressionProperties.ItemsInSourceOrder | src/parser/expression.rs:47-52 | a non-empty list of any length is its first expression and one more after each comma, in source order; the token after the last one is consumed as the closing token, whatever it is |
| ExpressionProperties.ArrayElementsInSourceOrder | src/parser/expression.rs:46-53 | `[e0, ..., en]` is the array of every element in source order; the closing token is consumed unchecked |
| ExpressionProperties.EmptyMap | src/parser/expression.rs:54-82 | `{}` is the empty map |
| ExpressionProperties.PairShape | src/parser/expression.rs:60-71 | a key is a string's or name's text, else "Unknown"; the `:` may be left out |
| ExpressionProperties.PairsStep | src/parser/expression.rs:59-78 | one turn of the map loop appends the entry, and continues exactly when a comma follows it |
| ExpressionProperties.PairsReadsEntries | src/parser/expression.rs:59-78 | the map loop appends one entry per comma-separated `Pair`, in source order |
| ExpressionProperties.MapEntriesInSourceOrder | src/parser/expression.rs:54-82 | a map literal of any length holds one entry per `Pair`, in source order, with nothing merged, so a repeated key stays two entries |
| ExpressionProperties.QualifiedVariable | src/parser/expression.rs:85-93 | `a.b` is the single variable named `a.b` |
| ExpressionProperties.DanglingDotDropped | src/parser/expression.rs:87-92 | `a.` followed by no name is the variable `a` |
| ExpressionProperties.CallDiscardsEarlierPostfix | src/parser/expression.rs:98-104 | a call replaces whatever was built before it with a call of the name |
| ExpressionProperties.IndexWrapsCall | src/parser/expression.rs:95-104 | `f(args)[i]` is the index of the call |
| ExpressionProperties.UnexpectedTokenIsEmptyString | src/parser/expression.rs:109 | a token that starts no expression becomes `""` and is consumed |
| ExpressionProperties.ExpressionAtEnd | src/parser/expression.rs:109 | past the end an expression is `""` and nothing is consumed |
| ExpressionProperties.ExprKnown | src/parser/expression.rs:6-42 | every operator the expression parser builds is one of `+ - == > < * /` |
| StatementParser.VarDeclAt | src/parser/statement.rs:57-65 | a declaration consumes at least one token and stays within the tokens |
| StatementParser.CallStmtAt | src/parser/statement.rs:160-179 | the same bounds for a call statement |
| StatementParser.CapabilityAt | src/parser/statement.rs:40-55 | a capability use has no service parameters, and it moves forward |
| StatementParser.ReturnAt | src/parser/statement.rs:147-149 | a `return` statement moves forward |
| StatementParser.AssignmentAt | src/parser/statement.rs:151-158 | an assignment moves forward |
| StatementParser.Params | src/parser/statement.rs:73-80 | a parameter list stays within the tokens |
| StatementParser.ParamsTail | src/parser/statement.rs:76-79 | the parameter loop only adds names |
| StatementParser.IfAt | src/parser/statement.rs:110-120 | a completed `if` is an if statement and consumes at least one token |
| StatementParser.BracedBlock | src/parser/statement.rs:112-113 | a completed braced block moves forward |
| StatementParser.ElseAt | src/parser/statement.rs:114-118 | there is an else branch exactly when `else` is the next token, and reading it moves forward |
| StatementParser.WhileAt | src/parser/statement.rs:122-127 | a completed `while` is a while statement and moves forward |
| StatementParser.ForAt | src/parser/statement.rs:129-145 | a completed `for` is a for statement and moves forward |
| StatementParser.BlockBody | src/parser/statement.rs:86-108 | a block keeps the statements before it, and moves forward |
| StatementParser.BlockStatement | src/parser/statement.rs:89-104 | one turn of the block loop moves forward |
| StatementParser.FunctionAt | src/parser/statement.rs:67-84 | a completed function is a function declaration and moves forward |
| StatementParser.TopStatement | src/parser/statement.rs:12-34 | one turn of the top-level loop moves forward |
| StatementParser.TopLevel | src/parser/statement.rs:9-35 | the top-level loop only appends statements, at most one per token, and stops only at the end or at an `EOF` |
| StatementParser.ParseTokens | src/parser/statement.rs:6-38 | empty input, or input that opens with `EOF`, is the empty program; a program has no more statements than tokens |
| StatementParser.ParseVarDecl | src/parser/statement.rs:57-65 | `parse_var_decl`, as `VarDeclAt` says |
| StatementParser.ParseCapability | src/parser/statement.rs:40-55 | `parse_capability`, as `CapabilityAt` says |
| StatementParser.ParseReturn | src/parser/statement.rs:147-149 | `parse_return_statement`, as `ReturnAt` says |
| StatementParser.ParseAssignment | src/parser/statement.rs:151-158 | `parse_assignment`, as `AssignmentAt` says |
| StatementParser.ParseCallStmt | src/parser/statement.rs:160-179 | `parse_func_call_stmt`, as `CallStmtAt` says |
| StatementParser.ParseParams | src/parser/statement.rs:73-80 | the parameter list, as `Params` says |
| StatementParser.ParseBracedBlock | src/parser/statement.rs:112-113 | the skip to `{` and the block after it, as `BracedBlock` says, diverging where the source does |
| StatementParser.ParseIf | src/parser/statement.rs:110-120 | `parse_if_statement`, as `IfAt` says |
| StatementParser.ParseElse | src/parser/statement.rs:114-118 | the optional else branch, as `ElseAt` says |
| StatementParser.ParseWhile | src/parser/statement.rs:122-127 | `parse_while_statement`, as `WhileAt` says |
| StatementParser.ParseFor | src/parser/statement.rs:129-145 | `parse_for_statement`, as `ForAt` says |
| StatementParser.ParseBlockStatement | src/parser/statement.rs:89-104 | one turn of the block loop, as `BlockStatement` says |
| StatementParser.ParseBlock | src/parser/statement.rs:86-108 | `parse_block`, as `BlockBody` says |
| StatementParser.ParseFunction | src/parser/statement.rs:67-84 | `parse_function`, as `FunctionAt` says |
| StatementParser.ParseTopStatement | src/parser/statement.rs:12-34 | one turn of the top-level loop, as `TopStatement` says |
| StatementParser.Parse | src/parser/statement.rs:6-38 | `parse` on a new parser returns `ParseTokens`: the program, or `None` exactly where the source never returns |
| StatementProperties.DeclarationFlags | src/parser/statement.rs:15-19 | `lock` is neither mutable nor secure, `stract` is mutable, and `vault` is secure but not mutable |
| StatementProperties.IdentifierStatement | src/parser/statement.rs:22-28 | a name starts an assignment exactly when `=` follows it, and a call statement otherwise |
| StatementProperties.CallStatementTarget | src/parser/statement.rs:161-170 | `a.b(...)` calls `a.b` |
| StatementProperties.CapabilityWithoutBody | src/parser/statement.rs:40-55 | `use name` with no body has no parameters and consumes two tokens |
| StatementProperties.CapabilitySkipsBody | src/parser/statement.rs:47-53 | a capability body is skipped unread, up to and including the first `}` |
| StatementProperties.ParamsInSourceOrder | src/parser/statement.rs:73-80 | the parameters are the comma-separated names, in source order |
| StatementProperties.NoParams | src/parser/statement.rs:74 | `()` gives no parameters |
| StatementProperties.DeclarationsSkippedInBlocks | src/parser/statement.rs:89-104 | inside a block, `use`, `func` and `module` are skipped as single tokens |
| StatementProperties.BlockBodyIsBlockLevel | src/parser/statement.rs:86-108 | no capability or function declaration appears inside a block, at any depth |
| StatementProperties.BlockEndsAfterClose | src/parser/statement.rs:86-108 | a block ends just after its `}` or `EOF`, or at the end of the tokens |
| StatementProperties.ElseBranchExactlyAfterElse | src/parser/statement.rs:114-118 | an `if` has an else branch exactly when `else` follows its then-block |
| StatementProperties.IfWithoutBraceDiverges | src/parser/statement.rs:112 | with no `{` after the condition, the parse never returns |
| StatementProperties.ForBoundsAreConsecutivePrimaries | src/parser/statement.rs:129-139 | the bounds of a `for` are two primaries with nothing between them; the loop variable defaults to `i` |
| StatementProperties.TopLevelStopsAtEOF | src/parser/statement.rs:13 | the loop stops at the first `EOF` token |
| StatementProperties.TopLevelSkipsUnrecognised | src/parser/statement.rs:33 | a token that starts no statement is skipped on its own |
| StatementProperties.ModuleSkipped | src/parser/statement.rs:21 | `module name` is two skipped tokens |
| StatementProperties.TopLevelAppends | src/parser/statement.rs:14-32 | statements come out in source order |
| LegacyParser.VarDeclAt | src/parser.rs:74-97 | a legacy declaration stays within the tokens and moves forward |
| LegacyParser.CapabilityAt | src/parser.rs:53-72 | a legacy capability use has no service parameters, and it moves forward |
| LegacyParser.CallStmtAt | src/parser.rs:128-150 | a completed legacy call consumes at least one token |
| LegacyParser.BodyStatement | src/parser.rs:115-121 | one turn of the function body loop moves forward |
| LegacyParser.FunctionBody | src/parser.rs:113-123 | the body loop keeps the statements before it |
| LegacyParser.FunctionAt | src/parser.rs:99-126 | a completed legacy function is a function declaration with no parameters, and it moves forward |
| LegacyParser.TopStatement | src/parser.rs:23-47 | one turn of the loop moves forward |
| LegacyParser.TopLevel | src/parser.rs:20-48 | the loop only appends statements, at most one per token, and stops only at the end or at an `EOF` |
| LegacyParser.ParseTokens | src/parser.rs:17-51 | empty input, or input that opens with `EOF`, is the empty program; a program has no more statements than tokens |
| LegacyParser.ParseVarDecl | src/parser.rs:74-97 | the legacy `parse_var_decl`, as `VarDeclAt` says |
| LegacyParser.ParseCapability | src/parser.rs:53-72 | the legacy `parse_capability`, as `CapabilityAt` says |
| LegacyParser.ParseCallStmt | src/parser.rs:128-150 | the legacy `parse_func_call_stmt`, as `CallStmtAt` says, diverging where the source does |
| LegacyParser.ParseBodyStatement | src/parser.rs:115-121 | one turn of the function body loop, as `BodyStatement` says |
| LegacyParser.ParseFunctionBody | src/parser.rs:113-123 | the body loop, as `FunctionBody` says |
| LegacyParser.ParseFunction | src/parser.rs:99-126 | the legacy `parse_function`, as `FunctionAt` says |
| LegacyParser.ParseTopStatement | src/parser.rs:23-47 | one turn of the loop, as `TopStatement` says |
| LegacyParser.Parse | src/parser.rs:17-51 | the legacy `parse` returns `ParseTokens`: the program, or `None` exactly where it never returns |
| LegacyProperties.DeclarationFlags | src/parser.rs:28-36 | `lock`, `stract` and `vault` give the flags (false, false), (true, false) and (false, true) |
| LegacyProperties.OtherTokensSkipped | src/parser.rs:44-46 | names, `if`, `while` and every other token are skipped at the top level |
| LegacyProperties.StopsAtEOF | src/parser.rs:24 | the loop stops at the first `EOF` |
| LegacyProperties.InitializerIsLiteralString | src/parser.rs:83-89 | a value is always a string literal: the token's text, or `""` for any other token |
| LegacyProperties.CallTargetJoinsTwoNames | src/parser.rs:129-149 | `x . y (...)` calls `x.y` with no arguments |
| LegacyProperties.CallWithoutCloseDiverges | src/parser.rs:141-143 | with no `)` after the method name, the parse never returns |
| LegacyProperties.FunctionWithoutBraceDiverges | src/parser.rs:108-110 | with no `{` after the function name, the parse never returns |
| LegacyProperties.BodySkipsOtherTokens | src/parser.rs:120 | in a function body, every token other than `stract` or a name is skipped |
| LegacyProperties.ProgramShape | src/parser.rs:17-150 | every legacy program holds only string declarations that are never both mutable and secure, parameterless capabilities, and parameterless functions whose bodies are `stract` declarations and two-part calls |
| Values.IntTextRoundTrip | src/value.rs:20 | an integer's decimal text reads back as that integer |
| Values.IntTextInjective | src/value.rs:20 | different integers have different texts |
| Values.IntText | src/value.rs:20 | an integer's text starts with `-` exactly when it is negative, and the rest is decimal digits with no leading zero |
| Values.Join | src/value.rs:25 | no parts join to `""`; otherwise the text starts with the first part, and its length is the parts' total plus one separator fewer than parts |
| Values.JoinSnoc | src/value.rs:25 | joining one more part appends exactly one separator and then that part, so every part appears once, in order, with one separator between neighbours |
| Values.Display | src/value.rs:15-35 | arrays are written in brackets, maps in braces, a string as its bare text, and null, booleans and integers never as the empty text; `ArrayShown` gives an array's whole text |
| Values.Texts | src/value.rs:24 | one text per array element, the k-th being the k-th element's display |
| Values.EntryTexts | src/value.rs:27-30 | at most one text per listed key; when every listed key is in the map, the j-th text is the j-th key, `: ` and that key's value's display |
| Values.IsTruthy | src/value.rs:38-48 | the false values are exactly null, `false`, 0, the two float zeros, `""`, `[]` and the empty map |
| Values.TypeName | src/value.rs:50-60 | one of the seven names `null`, `bool`, `int`, `float`, `string`, `array`, `map` |
| ValueProperties.TypeNameDistinguishesVariants | src/value.rs:50-60 | two values have the same type name exactly when they are the same variant |
| ValueProperties.ScalarsShown | src/value.rs:18-22 | null is `null`, a boolean is `true` or `false`, and a string is its bare text |
| ValueProperties.IntegerShownInDecimal | src/value.rs:20 | an integer is shown in decimal, with `-` exactly when it is negative |
| ValueProperties.EmptyArrayShown | src/value.rs:23-26 | `[]` |
| ValueProperties.SingletonArrayShown | src/value.rs:23-26 | a one-element array is its element in brackets |
| ValueProperties.ArrayShown | src/value.rs:23-26 | an array of any length is `[` + its elements' displays, in order, joined by `, ` + `]` |
| ValueProperties.ArrayShownSnoc | src/value.rs:23-26 | one more element puts `, ` and its display before the closing bracket of a non-empty array |
| ValueProperties.StringsUnquotedInArrays | src/value.rs:22-26 | an array of strings of any length is the strings themselves, unquoted, joined by `, ` in brackets: `[a, b]` |
| ValueProperties.EmptyMapShown | src/value.rs:27-32 | `{}`, whatever the iteration order |
| ValueProperties.MapShowsItsEntries | src/value.rs:27-32 | a map shows `key: value` once per entry and nothing else, in whatever order it iterates |
| ValueProperties.MapEntryCount | src/value.rs:27-30 | a map whose iteration order lists each of its keys once shows exactly one text per entry |
| ValueProperties.SingleEntryMapShown | src/value.rs:27-32 | a one-entry map is `{key: value}` |
| Interpreting.BoolText | src/interpreter.rs:81-90 | `"true"` exactly for true, otherwise `"false"` |
| Interpreting.NumberValue | src/lexer.rs:179 | a number lexeme's value is its parse, or 0.0 when it does not parse |
| Interpreting.Combine | src/interpreter.rs:72-94 | `==` always answers `"true"` or `"false"`; `>` and `<` answer that or `"NaN"`; any other unknown operator gives `"0"` or `"NaN"` |
| Interpreting.Eval | src/interpreter.rs:61-104 | only an expression that reaches an `IO.print` call prints, and then at least one line; every call evaluates to `""` |
| Interpreting.EvalArgs | src/interpreter.rs:98 | one value per argument, each the argument's own value |
| Interpreting.Globals | src/interpreter.rs:16-20 | the globals are top-level declarations of the program |
| Interpreting.FirstMain | src/interpreter.rs:22-28 | the first function named `main`, or none when there is none |
| Interpreting.IsMainFunction | src/interpreter.rs:107-112 | a statement is a main function exactly when it is a function declaration named `main`, whatever its parameters and body; a main function is never a global declaration |
| Interpreting.Exec | src/interpreter.rs:31-59 | a statement only appends to the output and never forgets a name; a declaration always binds its name, and an assignment never adds one |
| Interpreting.ExecAll | src/interpreter.rs:49-51 | statements in order only append to the output and never forget a name, and every name declared among them is bound at the end |
| Interpreting.RunSpec | src/interpreter.rs:15-29 | a run only appends to the output and keeps every bound name; without a `main` its last line is the error |
| Interpreting.Interpreter.constructor | src/interpreter.rs:9-13 | an empty store and no output |
| Interpreting.Interpreter.ExecuteStatement | src/interpreter.rs:31-59 | `execute_statement` changes the store and output as `Exec` says |
| Interpreting.Interpreter.ExecuteBlock | src/interpreter.rs:49-51 | a block's statements run in order, as `ExecAll` says |
| Interpreting.Interpreter.Run | src/interpreter.rs:15-29 | `run` changes the store and output as `RunSpec` says |
| InterpreterProperties.ExecAllAppend | src/interpreter.rs:23-25 | running `a` and then `b` is running `a + b` |
| InterpreterProperties.GlobalsAppend | src/interpreter.rs:16-20 | the globals of `a + b` are those of `a` and then those of `b` |
| InterpreterProperties.GlobalsAreTheDeclarations | src/interpreter.rs:16-20 | every top-level declaration is a global, and nothing else is |
| InterpreterProperties.GlobalsBeforeMain | src/interpreter.rs:15-25 | a run executes every top-level declaration, in order, and then the body of the first `main` |
| InterpreterProperties.NoMainRunsNoBody | src/interpreter.rs:22-28 | with no `main`, only the declarations run and the error is printed last |
| InterpreterProperties.FirstMainIsFirst | src/interpreter.rs:22 | the `main` that runs is the first one |
| InterpreterProperties.RunDependsOnGlobalsAndMain | src/interpreter.rs:15-29 | a run depends only on the globals and the first `main`'s body |
| InterpreterProperties.LaterStatementsIgnored | src/interpreter.rs:15-29 | statements after the first `main` that are not declarations, later `main`s included, play no part |
| InterpreterProperties.DeclarationIgnoresFlags | src/interpreter.rs:33-36 | a declaration binds or rebinds the name in the one store, whatever its flags; no other name changes |
| InterpreterProperties.AssignmentToUndeclaredName | src/interpreter.rs:37-45 | assigning an absent name leaves the store unchanged and prints the error |
| InterpreterProperties.AssignmentToDeclaredName | src/interpreter.rs:37-45 | assigning a present name replaces its value |
| InterpreterProperties.LockedNamesAreReassigned | src/interpreter.rs:33-45 | there is no mutability check: a `lock` name is reassigned like any other |
| InterpreterProperties.IfChoosesBranch | src/interpreter.rs:46-53 | the then-branch runs exactly when the condition is `"true"`; otherwise the else-branch runs, if there is one |
| InterpreterProperties.OtherStatementsDoNothing | src/interpreter.rs:57 | capabilities, function declarations, loops and `return` change nothing |
| InterpreterProperties.ExecFrame | src/interpreter.rs:31-59 | a statement with no declaration in it, nested branches included, adds no name |
| InterpreterProperties.ExecAllFrame | src/interpreter.rs:49-51 | the same for a sequence of statements with no declaration among them |
| InterpreterProperties.UnboundNameIsUndefined | src/interpreter.rs:65-67 | an unbound variable evaluates to `"undefined"` |
| InterpreterProperties.TextPlusConcatenates | src/interpreter.rs:86-88 | when an operand is not a number, `+` concatenates |
| InterpreterProperties.TextEquality | src/interpreter.rs:89-90 | when an operand is not a number, `==` is `"true"` or `"false"` by string equality |
| InterpreterProperties.TextOtherOperatorsAreNaN | src/interpreter.rs:91-93 | when an operand is not a number, every other operator gives `"NaN"` |
| InterpreterProperties.NumberUnknownOperatorIsZero | src/interpreter.rs:84 | on numbers, an unknown operator gives `"0"` |
| InterpreterProperties.NumberComparisonsAreBooleans | src/interpreter.rs:81-83 | on numbers, `>`, `<` and `==` give `"true"` exactly when the comparison holds, and `"false"` otherwise |
| InterpreterProperties.CallsEvaluateToEmpty | src/interpreter.rs:96-102 | a call is `""`; only `IO.print` evaluates its arguments and prints them joined by spaces |
| InterpreterProperties.PrintOneString | src/interpreter.rs:96-102 | `IO.print("text")` prints exactly the line `text` |

## Left out

- Floating point. Number tokens and `LiteralNum` carry their lexeme text. The evaluator's `f64` work (parsing, arithmetic, comparison, `to_string`) is the `NumberModel` parameter over IEEE 754 bit patterns, and float display is a parameter of `Platform`. The lexer's `parse::<f64>().unwrap_or(0.0)` is folded into `Interpreting.NumberValue`.
- Unicode classification. `is_alphabetic`, `is_numeric` and `is_alphanumeric` are approximated by ASCII letters and digits.
- `HashMap` iteration order. `Platform.keyOrder` gives the order of a map's keys, and no lemma depends on it. Map lemmas assume only that it lists each key once.
- Console output. `println!` appends a line to the interpreter's `output` sequence.
- `src/main.rs` (reading files, arguments, the banner, exit codes) is not part of this model.
- `peek` is called by the statement parser but is not defined in any of the modelled files. The model takes it to be the token after the current one, or `EOF` (`ParserState.Peek`).
- The `diverged` flag is not in the source. It replaces the non-terminating skip-ahead loops, so the model does not claim that the source always terminates.
- Interpreting.Eval: requires `Evaluable`. `src/ast.rs` declares no array, map or index expressions, and `eval_expression` has no arm for them, although the expression parser builds them.
- The source files disagree with each other; the model follows the code. `vault` declares a non-mutable secure name. Assignment never checks mutability. In the statement parser `use capability X` yields the service `"Unknown"`, because the name is read from the token right after `use`. `for i in 0 5` parses `in` as the start bound and gives it the value `""`.
- Legacy function declarations have no parameter list in `src/ast.rs`. The model gives them `[]`.
- Unary minus builds `0 - e` with the literal `LiteralNum("0")`.
- The else branch is its own datatype `ElseBranch` instead of an `Option` of statements, so that recursion over statements can descend into it.
- Parsing methods are module-level methods that take the `Parser` object. A Dafny class cannot be spread over several modules the way the Rust `impl Parser` blocks are spread over several files.
- `while`, `for` and `return` are parsed but never executed. The evaluator ignores them, and the model does the same.
