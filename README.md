# js4GL in Dafny

A model of the language front end and statement executors of js4GL, a small
interpreter for a Progress-4GL-like language written in JavaScript. It has
two interpreters, and the model covers both.

**The legacy interpreter (`mini4GL.js`).** It has:
- a tokenizer;
- a recursive-descent parser with a fixed statement `switch`;
- a tree-walking evaluator that runs a program over variables, a FIFO input queue and an output sink.

**The modular interpreter (`src/mini4gl/`).** It has:
- a larger tokenizer and the `Parser` object;
- the statement registry built from the statement modules;
- one module per statement: a `parse(parser)` and an executor;
- the widget registry and event handlers kept on the root environment;
- the built-in function table.

## How the model is organised

Each JavaScript parse method takes two forms here.
- **A function** from a token list and a cursor to either a node plus the new cursor, or the message of the `SyntaxError` it throws (`Grammar`, `Statements`, and the parsing half of each statement module).
- **A method** of the `Parser` class (`ParserCore`, `StatementParser`, `LegacyParser`) that advances a mutable cursor. Each method is proved to agree with its function.

The properties of the parser are lemmas about those functions. Executors work the same way.
- Each executor is a function from the environments before the statement to the environments after it, plus the exception thrown, if any.
- The environments of one run live in the mutable `Runtime.Heap`.
- Each method that changes the heap is proved to install exactly what the function says.
- The legacy interpreter's environment is the class `LegacyInterp.Env`.

Modules, one file each:
- `Results`, `Text`, `Values`: JavaScript values and coercions, with numbers as exact rationals.
- `Tokens`, `Lexer`: both tokenizers.
- `MessageKeyword`: the word MESSAGE in the tokenizers, as written and with MESSAGE added to the keyword table (see Findings).
- `Ast`, `Registry`, `Grammar` and `GrammarProps`: the expression grammar and its precedence, shown by a round trip.
- `ParserCore`, `Runtime`: the environment frames and the `context` helpers.
- `WidgetTypes`, `WidgetState`.
- `AssignStmt`, `DefineStmt`, `DisplayStmt`, `InputStmt`, `FindStmt`, `RunStmt`, `CreateStmt`, `TargetListStmts` (ENABLE and VIEW), `EventStmts` (APPLY, WAIT-FOR, ON) and `MessageStmt`.
- `Statements` and `StatementParser`: statement dispatch, blocks, and IF/DO/REPEAT/WHILE/FOR/PROCEDURE/ON parsing.
- `BlockExec`: the block executors.
- `Builtins`.
- `LegacyParser`, `LegacyInterp`.

## Model

| member | source | states |
|---|---|---|
| Text.Upper | src/mini4gl/builtins.js:13 | upper-casing keeps the length |
| Text.Lower | src/mini4gl/builtins.js:15 | lower-casing keeps the length |
| Text.UpperCases | src/mini4gl/builtins.js:13 | no lower-case letter is left after `toUpperCase`: each becomes its capital, and every other character is kept |
| Text.LowerCases | src/mini4gl/builtins.js:15 | no capital is left after `toLowerCase`: each becomes its lower-case letter, and every other character is kept |
| Text.UpperIdempotent | src/mini4gl/builtins.js:13 | upper-casing an upper-cased text changes nothing |
| Text.LowerOfUpper | src/mini4gl/builtins.js:13-15 | lower-casing after upper-casing gives the lower-case form of the original text |
| Text.TrimStart | src/mini4gl/builtins.js:60 | the result is no longer than the text and does not start with white space |
| Text.TrimStartDrops | src/mini4gl/builtins.js:60 | the result of trimming the front is a suffix of the text, and everything removed was white space |
| Text.TrimEnd | src/mini4gl/builtins.js:60 | the result is no longer than the text and does not end with white space |
| Text.TrimEndTakes | src/mini4gl/builtins.js:60 | the result of trimming the back is a prefix of the text, and everything removed was white space |
| Text.TrimEmptyIffBlank | src/mini4gl/statements/apply.js:69-72 | a text trims to nothing exactly when it is all white space, which is the blank-event-name test |
| Text.TrimIdempotent | src/mini4gl/statements/message.js:137-139 | trimming a trimmed text changes nothing |
| Text.FindFrom | src/mini4gl/builtins.js:58 | the first occurrence of the delimiter at or after an offset, or none when there is no occurrence |
| Text.Split | src/mini4gl/builtins.js:58 | `split` always yields at least one piece |
| Text.SplitJoin | src/mini4gl/builtins.js:58 | splitting a list joined with a one-character delimiter that none of its fields contains gives the fields back |
| Text.NatToString | src/mini4gl/builtins.js:40 | the decimal rendering of a natural number is a non-empty run of digits |
| Values.TruthyIsToBoolean | mini4GL.js:324 | `truthy` (a string is truthy iff non-empty) agrees with `!!v` on every value |
| Values.LeadingDigits | mini4GL.js:86 | the number of digits at the start of a text: all of them are digits and the next character is not |
| Values.UnsignedDecimal | mini4GL.js:87 | the decimal prefix `parseFloat` reads is non-empty, within the text and non-negative |
| Values.ParseFloatUnsigned | mini4GL.js:84-87 | text that starts like a number literal (a digit, or a dot and a digit) reads as a finite non-negative number |
| Values.IntegerStringRoundTrip | mini4GL.js:350 | `String` of an integer is its decimal digits, and `Number` of those digits is the integer again |
| Values.NatDigitsValue | mini4GL.js:350 | the digits of a natural number have that number as their value |
| Values.RelationalOnNumbers | mini4GL.js:328-331 | on finite numbers `<`, `<=`, `>`, `>=` are the usual order |
| Values.NaNComparesFalse | mini4GL.js:326-331 | NaN compares false under every relational operator and is not loosely equal to itself |
| Lexer.CommentClose | src/mini4gl/parser.js:93-97 | the offset of the closing `*/` of a block comment, with no earlier one; the end of the text when there is none |
| Lexer.LineEnd | src/mini4gl/parser.js:101 | the end of a line comment lies between its start and the end of the text |
| Lexer.NumberEnd | src/mini4gl/parser.js:118-119 | the end of a number lies between its start and the end of the text |
| Lexer.WordEnd | src/mini4gl/parser.js:123-125 | an identifier runs over identifier characters only and stops at the first other character |
| Lexer.StringRest | src/mini4gl/parser.js:105-116 | the literal's text and the offset after its closing quote, which never lies before the start or past the end |
| Lexer.StepAt | src/mini4gl/parser.js:90-144 | one pass of the scanner loop always moves the cursor forward unless it throws |
| Lexer.EmitKeeps | src/mini4gl/parser.js:89 | appending an emitted token and going on from the next offset gives the same list as scanning from the current offset |
| Lexer.SkipToCommentClose | src/mini4gl/parser.js:95 | the comment loop stops at `CommentClose` |
| Lexer.SkipToLineEnd | src/mini4gl/parser.js:101 | the line-comment loop stops at the first newline or the end |
| Lexer.ReadString | src/mini4gl/parser.js:106-113 | the string loop with its escape flag computes `StringRest` |
| Lexer.ReadNumberEnd | src/mini4gl/parser.js:118-119 | the number loop stops after the run of digits and dots |
| Lexer.ReadWordEnd | src/mini4gl/parser.js:124-125 | the identifier loop stops at `WordEnd` |
| Lexer.ScanStep | src/mini4gl/parser.js:91-144 | the loop body (white space, comments, `?`, strings, numbers, words with operator words and keywords, two- and one-character symbols, the error) is `StepAt` |
| Lexer.Tokenize | src/mini4gl/parser.js:87-148 | `tokenize` returns exactly `Lex`: the tokens of every step in order and a final EOF at the last cursor value, or the first error |
| Lexer.StepFails | mini4GL.js:108 | a step throws only at a character no token can start with, with the message naming that character and its offset; it never emits EOF |
| Lexer.TokensFromShape | mini4GL.js:63-111 | scanning from any offset either ends in exactly one EOF, which is the last token and sits at the end of the text, or throws at an unrecognised character of the text |
| Lexer.LexShape | mini4GL.js:60-112 | `tokenize` either throws `Unexpected character 'c' at k` for some unrecognised character `c` at offset `k`, or returns a list whose last and only EOF is at the end of the text |
| Lexer.WordFits | mini4GL.js:91-98 | a word token is its upper-case spelling when it is a keyword (or its operator when an operator word) and IDENT with the original spelling otherwise |
| Lexer.SymbolFits | mini4GL.js:100-101 | a two-character operator in the text becomes one OP token at its start |
| Lexer.SingleFits | mini4GL.js:103-106 | a one-character symbol becomes the token kind of `singleMap` at its start |
| Lexer.StepFits | src/mini4gl/parser.js:104-143 | the token emitted by one step agrees with the text it came from: a string token holds the unescaped literal whose opening quote is in the text and whose closing quote ends just before the token's position; a number token holds `parseFloat` of the digit-and-dot run that ends at its position; a word or symbol token is the word or symbol ending at its position |
| Lexer.TokensFromFit | src/mini4gl/parser.js:90-145 | every token of a successful scan from any offset agrees with its text in the sense of `StepFits`: strings are unescaped literals, numbers are `parseFloat` of their digit run, words and symbols are the text at their positions |
| Lexer.LexFits | mini4GL.js:60-112 | every token `tokenize` returns agrees with its text: a string token is the unescaped literal closed just before its position, a number token is `parseFloat` of the digit-and-dot run ending there, and a word or symbol token is the text ending there |
| Lexer.NoSplitTwoCharOp | mini4GL.js:100-101 | `<=`, `>=`, `<>` and `==` are never lexed as two adjacent one-character OP tokens |
| Lexer.LoneWord | mini4GL.js:91-98 | a lone identifier-shaped word lexes to one word token and EOF, both at the end of the word |
| Lexer.WordClassification | mini4GL.js:52-54 | a word whose upper-case spelling is a keyword becomes that keyword with its upper-case spelling as value; any other word is IDENT keeping its spelling |
| Lexer.OperatorWords | src/mini4gl/parser.js:128-130 | NE, EQ, GE and LE in any case lex to OP `<>`, `=`, `>=`, `<=` in the modular lexer, ahead of the keyword table; the legacy lexer keeps them as identifiers |
| Lexer.QuestionMark | src/mini4gl/parser.js:104 | `?` is an UNKNOWN token in the modular lexer and an unexpected character in the legacy one |
| Lexer.UnterminatedComment | src/mini4gl/parser.js:93-97 | an unterminated block comment leaves the cursor, and so the EOF position, two past the end |
| Lexer.StringRestEscaped | src/mini4gl/parser.js:106-113 | the string loop reads an escaped text followed by a quote back as the text, ending just after the quote |
| Lexer.StringRoundTrip | mini4GL.js:71-81 | quoting any text with backslash escapes lexes back to exactly that text: a backslash makes the next character literal and the first unescaped quote ends the token |
| Lexer.LexWellTyped | src/mini4gl/parser.js:89 | every token carries the value shape of its kind: a number for NUMBER, `null` for UNKNOWN and EOF, the upper-case word for a keyword, a string otherwise |
| MessageKeyword.MessageNotReserved | src/mini4gl/parser.js:2-81 | MESSAGE is not among the keywords of either dialect |
| MessageKeyword.MessageWordIsIdent | src/mini4gl/parser.js:125-133 | a word that upper-cases to MESSAGE is an IDENT token holding the word as written |
| MessageKeyword.MessageNeverLexed | src/mini4gl/parser.js:2-81 | no token of a successful `tokenize` is a MESSAGE keyword |
| MessageKeyword.CorrectedWordToken | src/mini4gl/parser.js:125-133 | with MESSAGE added to the keyword table, a word that upper-cases to MESSAGE becomes the MESSAGE keyword token |
| MessageKeyword.CorrectedKeepsOtherWords | src/mini4gl/parser.js:125-133 | the corrected word rule reads every other word exactly as the shipped one does |
| Registry.Loaded | src/mini4gl/statements/index.js:8-27 | the loaded list has one descriptor per required module, in order, each the one its file exports |
| Registry.PutEach | src/mini4gl/statements/index.js:40-42 | the keyword loop stores the module under every keyword of its list, in order |
| Registry.BuildRegistry | src/mini4gl/statements/index.js:33-52 | the registry loop computes `Build` of the module list |
| Registry.PutAllLookup | src/mini4gl/statements/index.js:40-42 | after the keyword loop a listed keyword maps to the module and any other key keeps its old entry |
| Registry.KeywordMapLaterWins | src/mini4gl/statements/index.js:39-43 | every keyword maps to the last module in the list that declares it, and a keyword nobody declares is absent |
| Registry.ExecutorsLaterWin | src/mini4gl/statements/index.js:47-51 | every AST type maps to the executor of the last module that declares it |
| Registry.IdentifierParsersInOrder | src/mini4gl/statements/index.js:44-46 | `identifierParsers` holds exactly the modules with `allowIdentifierStart`, in list order |
| Registry.FalsyEntriesSkipped | src/mini4gl/statements/index.js:38 | a falsy entry anywhere in the list contributes nothing |
| Registry.AssignFirstOnly | src/mini4gl/statements/assign.js:21 | a list that starts with ASSIGN and does not repeat it has ASSIGN as its one identifier parser |
| Registry.StandardIdentifierParsers | src/mini4gl/statements/index.js:8-27 | with the shipped module list ASSIGN is the only module offered a statement that starts with an identifier |
| Grammar.Peek | src/mini4gl/parser.js:155 | `peek()` yields the token under the cursor, and reading its type fails exactly when the cursor is past the end |
| Grammar.Eat | src/mini4gl/parser.js:156-160 | a successful `eat(type)` took a token of that type and moved the cursor by one |
| Grammar.Match | src/mini4gl/parser.js:161-165 | `match` moves the cursor by one when it took the token and not at all otherwise |
| Grammar.OptionalDot | src/mini4gl/parser.js:200 | `optionalDot` moves the cursor by at most one |
| Grammar.EatNext | mini4GL.js:169 | `eat(peek().type)` takes whatever token is next and fails only past the end |
| Grammar.PathTail | src/mini4gl/parser.js:223-235 | the dotted-path loop keeps the segments read so far as a prefix and leaves the cursor on a token |
| Grammar.FieldPath | src/mini4gl/parser.js:221-237 | `parseFieldPath` reads at least one segment and consumes at least the first IDENT |
| Grammar.ParseExpr | src/mini4gl/parser.js:239-241 | a parsed expression consumes at least one token and never runs past the list |
| Grammar.ParseOr | src/mini4gl/parser.js:242-249 | an OR chain consumes at least one token |
| Grammar.OrTail | src/mini4gl/parser.js:244-247 | the OR loop never moves the cursor back |
| Grammar.ParseAnd | src/mini4gl/parser.js:250-257 | an AND chain consumes at least one token |
| Grammar.AndTail | src/mini4gl/parser.js:252-255 | the AND loop never moves the cursor back |
| Grammar.ParseNot | src/mini4gl/parser.js:258-261 | a NOT level consumes at least one token |
| Grammar.ParseCompare | src/mini4gl/parser.js:262-272 | a comparison chain consumes at least one token |
| Grammar.CompareTail | src/mini4gl/parser.js:264-270 | the comparison loop never moves the cursor back |
| Grammar.ParseAdd | src/mini4gl/parser.js:273-283 | an additive chain consumes at least one token |
| Grammar.AddTail | src/mini4gl/parser.js:275-281 | the additive loop never moves the cursor back |
| Grammar.ParseMul | src/mini4gl/parser.js:284-294 | a multiplicative chain consumes at least one token |
| Grammar.MulTail | src/mini4gl/parser.js:286-292 | the multiplicative loop never moves the cursor back |
| Grammar.ParseUnary | src/mini4gl/parser.js:295-302 | a unary level consumes at least one token |
| Grammar.ParsePrimary | src/mini4gl/parser.js:303-343 | a primary consumes at least one token |
| Grammar.CallRest | src/mini4gl/parser.js:322-330 | a call's argument list consumes at least the closing parenthesis |
| Grammar.ArgsTail | src/mini4gl/parser.js:326 | the comma loop keeps the arguments read so far and only adds to them |
| GrammarProps.EatAndMatch | src/mini4gl/parser.js:156-165 | `eat` throws `Expected X but got Y` on a type mismatch and otherwise advances by exactly one; `match` advances only when it succeeds |
| GrammarProps.PathTailFolds | src/mini4gl/parser.js:309-321 | the path loop takes exactly the DOT-IDENT pairs whose IDENT starts right after the dot (start = pos minus length), two tokens per segment, and stops at the first pair that is not adjacent |
| GrammarProps.IdentPrimary | src/mini4gl/parser.js:322-334 | one segment followed by `(` is a call, two or more segments are a `Field` with the segments as written, otherwise a `Var` with the lower-cased name |
| GrammarProps.CallNameUpper | src/mini4gl/parser.js:329 | a call node's name is the upper-cased identifier |
| GrammarProps.PrintNotAnExpression | mini4GL.js:305-320 | PRINT is a legacy keyword, so an expression starting with it, such as `PRINT(x)`, is rejected with "Unexpected token in expression: PRINT"; the evaluator's function-style PRINT branch is unreachable from program text |
| GrammarProps.UnknownPrimary | src/mini4gl/parser.js:336 | `?` parses to the `Unknown` node in the modular parser; the legacy parser rejects it as `Unexpected token in expression: UNKNOWN` |
| GrammarProps.ParseLevelBinary | src/mini4gl/parser.js:242-294 | each binary level parses one operand of the next level and then runs its operator loop |
| GrammarProps.TailLevelStep | src/mini4gl/parser.js:264-271 | an operator of the level's own strength folds the operand so far and the next operand into a left-nested node |
| GrammarProps.TailLevelStop | src/mini4gl/parser.js:244-248 | a token that is not the level's operator ends the loop without consuming anything |
| GrammarProps.FirstToken | src/mini4gl/parser.js:258-261 | only a NOT-expression at a strength that admits it starts with NOT |
| GrammarProps.ParsesAt | src/mini4gl/parser.js:239-343 | parsing at any strength over the tokens of an expression rebuilds that expression and hands the next token to the level's loop |
| GrammarProps.DescendCase | src/mini4gl/parser.js:258-302 | a level that does not build the expression's top node reads it through the next level |
| GrammarProps.ParenCase | src/mini4gl/parser.js:337-341 | a looser expression at the primary level is read back from its parentheses |
| GrammarProps.Descend | src/mini4gl/parser.js:242-294 | a level passes an operand of the next level on unchanged when no operator of its own follows |
| GrammarProps.Parenthesised | src/mini4gl/parser.js:337-341 | `( e )` parses to `e` and consumes both parentheses |
| GrammarProps.PrimaryOrOperator | src/mini4gl/parser.js:295-336 | an expression whose top node belongs to the level is rebuilt by that level |
| GrammarProps.UnaryOperator | src/mini4gl/parser.js:258-261 | a NOT node (and, through parseUnary at lines 295-300, a sign node) is rebuilt from its operator token and an operand read at the same strength |
| GrammarProps.LeafPrimary | src/mini4gl/parser.js:303-336 | a number, string, lower-case variable or `?` is read back from its one token, and a variable is not taken for a dotted path |
| GrammarProps.BinaryOperator | src/mini4gl/parser.js:242-294 | a binary or logical node is rebuilt from its left operand, its operator token and its right operand |
| GrammarProps.Combine | src/mini4gl/parser.js:264-271 | one pass of an operator loop combines the operand so far with the next operand under the operator read |
| GrammarProps.RenderRoundTrip | src/mini4gl/parser.js:239-302 | precedence (loosest to tightest OR, AND, NOT, comparison, `+ -`, `* /`, unary) and left associativity: the tokens of any expression, parenthesised only where needed, parse back to that expression |
| GrammarProps.RenderWellTyped | src/mini4gl/parser.js:305-306 | the rendered tokens carry the value shape of their kinds |
| GrammarProps.BareWellTyped | src/mini4gl/parser.js:305-306 | the tokens of an expression without outer parentheses carry the value shape of their kinds |
| GrammarProps.ParseRendered | mini4GL.js:248-321 | the round trip on a token list holding only the rendered expression and EOF |
| ParserCore.Parser.constructor | src/mini4gl/parser.js:150-154 | a new parser holds the tokens and the registry, with the cursor at 0 |
| ParserCore.Parser.Peek | src/mini4gl/parser.js:155 | `peek` is `Grammar.Peek` at the cursor |
| ParserCore.Parser.Eat | src/mini4gl/parser.js:156-160 | `eat` moves the cursor as `Grammar.Eat` says and returns its token or its error |
| ParserCore.Parser.EatNext | mini4GL.js:169 | `eat(peek().type)` moves the cursor as `Grammar.EatNext` says |
| ParserCore.Parser.Match | src/mini4gl/parser.js:161-165 | `match` moves the cursor as `Grammar.Match` says |
| ParserCore.Parser.OptionalDot | src/mini4gl/parser.js:200 | `optionalDot` moves the cursor as `Grammar.OptionalDot` says |
| ParserCore.Parser.PathTail | src/mini4gl/parser.js:309-321 | the dotted-path loop ends where `Grammar.PathTail` says, with its segments |
| ParserCore.Parser.ParseFieldPath | src/mini4gl/parser.js:221-237 | `parseFieldPath` is `Grammar.FieldPath` |
| ParserCore.Parser.ParseExpr | src/mini4gl/parser.js:239-241 | `parseExpr` is `Grammar.ParseExpr` |
| ParserCore.Parser.ParseOr | src/mini4gl/parser.js:242-249 | the OR loop is `Grammar.ParseOr` |
| ParserCore.Parser.ParseAnd | src/mini4gl/parser.js:250-257 | the AND loop is `Grammar.ParseAnd` |
| ParserCore.Parser.ParseNot | src/mini4gl/parser.js:258-261 | `parseNot` is `Grammar.ParseNot` |
| ParserCore.Parser.ParseCompare | src/mini4gl/parser.js:262-272 | the comparison loop is `Grammar.ParseCompare` |
| ParserCore.Parser.ParseAdd | src/mini4gl/parser.js:273-283 | the additive loop is `Grammar.ParseAdd` |
| ParserCore.Parser.ParseMul | src/mini4gl/parser.js:284-294 | the multiplicative loop is `Grammar.ParseMul` |
| ParserCore.Parser.ParseUnary | src/mini4gl/parser.js:295-302 | `parseUnary` is `Grammar.ParseUnary` |
| ParserCore.Parser.ParsePrimary | src/mini4gl/parser.js:303-343 | `parsePrimary` is `Grammar.ParsePrimary` |
| ParserCore.Parser.CallRest | src/mini4gl/parser.js:322-330 | the argument loop of a call is `Grammar.CallRest` |
| Runtime.RootOf | src/mini4gl/statements/widgetState.js:3-9 | the root reached from an environment has no parent and is no later than it |
| Runtime.AncestorsShareRoot | src/mini4gl/statements/widgetState.js:15-21 | every environment on a parent chain has the same root, so the registries kept on the root are shared by all nested environments |
| Runtime.RootIsAncestor | src/mini4gl/statements/widgetState.js:3-9 | the root is an ancestor of the environment and has no parent |
| Runtime.AncestorFromRoot | src/mini4gl/statements/widgetState.js:5-7 | climbing past the root stays at the root |
| Runtime.GetRootEnv | src/mini4gl/statements/widgetState.js:3-9 | the parent-walking loop ends at `RootOf` |
| Runtime.Emit | src/mini4gl/statements/display.js:183-195 | DISPLAY's unguarded `env.output(...)` call succeeds exactly when the environment has an output callback, and then appends one item to the output log; otherwise it is a TypeError |
| Runtime.Heap.constructor | src/mini4gl/statements/widgetState.js:3-9 | a heap holds the parent links, the store and the initial environments |
| Runtime.ExecBlock | src/mini4gl/statements/while.js:16 | running a block through `context.execBlock` installs the state it leaves and reports its error, if any |
| WidgetTypes.DedupPatterns | src/mini4gl/statements/widgetTypes.js:28-36 | the module-load loop with its `seen` set computes `Dedup` of the raw patterns |
| WidgetTypes.DedupKeepsFirst | src/mini4gl/statements/widgetTypes.js:28-36 | de-duplication keeps exactly one pattern per name, and that one is the first raw pattern with the name |
| WidgetTypes.DedupNames | src/mini4gl/statements/widgetTypes.js:28-36 | the names kept are exactly the raw names not already seen |
| WidgetTypes.DedupDistinct | src/mini4gl/statements/widgetTypes.js:28-36 | no name is kept twice |
| WidgetTypes.DedupFirst | src/mini4gl/statements/widgetTypes.js:28-36 | each pattern kept is the first raw pattern with its name |
| WidgetTypes.DedupFresh | src/mini4gl/statements/widgetTypes.js:30-36 | a list whose names are already distinct passes through unchanged |
| WidgetTypes.OfLengthAppend | src/mini4gl/statements/widgetTypes.js:38 | the patterns of one length in a concatenation are those of each part, in order |
| WidgetTypes.OfLengthShorter | src/mini4gl/statements/widgetTypes.js:38 | a list of shorter patterns has none of the given length |
| WidgetTypes.SortedTail | src/mini4gl/statements/widgetTypes.js:38 | the tail of a sorted list is sorted and no longer than its head |
| WidgetTypes.InsertMultiset | src/mini4gl/statements/widgetTypes.js:38 | inserting a pattern adds exactly that pattern |
| WidgetTypes.InsertSorted | src/mini4gl/statements/widgetTypes.js:38 | inserting into a list sorted by descending token count keeps it sorted |
| WidgetTypes.InsertStable | src/mini4gl/statements/widgetTypes.js:38 | an inserted pattern goes after every earlier pattern of its length |
| WidgetTypes.SortOrders | src/mini4gl/statements/widgetTypes.js:38 | the sort orders the patterns by descending token count |
| WidgetTypes.SortPermutes | src/mini4gl/statements/widgetTypes.js:38 | the sort is a permutation of its input |
| WidgetTypes.SortStable | src/mini4gl/statements/widgetTypes.js:38 | the sort is stable: the patterns of each length keep their relative order |
| WidgetTypes.SortSorted | src/mini4gl/statements/widgetTypes.js:38 | sorting a sorted list changes nothing |
| WidgetTypes.InsertAtEnd | src/mini4gl/statements/widgetTypes.js:38 | a pattern no longer than any of the list goes at its end |
| WidgetTypes.UniquePatternsShape | src/mini4gl/statements/widgetTypes.js:28-38 | the list the reader tries is ordered by descending token count, so multi-token types come before single-token ones, and holds every raw name once, each as its first raw pattern |
| WidgetTypes.MatchesPositionwise | src/mini4gl/statements/widgetTypes.js:81-90 | a pattern matches iff every part matches the token at its offset; running out of tokens fails the match |
| WidgetTypes.ConsumedPart | src/mini4gl/statements/widgetTypes.js:55-79 | a part that is consumed takes exactly one token |
| WidgetTypes.MatchedConsumes | src/mini4gl/statements/widgetTypes.js:94-97 | after a successful lookahead consuming the parts cannot fail and takes one token per part |
| WidgetTypes.WidgetTypeFrom | src/mini4gl/statements/widgetTypes.js:92-104 | the reader succeeds iff some pattern matches; it then returns the first matching pattern's name and consumes exactly its tokens; otherwise it throws `Unknown widget type near` the next token's value or type without moving |
| WidgetTypes.PeekAhead | src/mini4gl/statements/widgetTypes.js:40-42 | the token `offset` places after the cursor, or none |
| WidgetTypes.MatchesPattern | src/mini4gl/statements/widgetTypes.js:81-90 | the read-only lookahead loop computes `Matches` and leaves the cursor where it was |
| WidgetTypes.ConsumePart | src/mini4gl/statements/widgetTypes.js:55-79 | `consumePart` moves the cursor as `ConsumedPart` says, or throws its error |
| WidgetTypes.FirstPartConsumed | src/mini4gl/statements/widgetTypes.js:82-97 | once a pattern's parts match, its first part is consumed as exactly one token and the remaining parts match after it |
| WidgetTypes.ConsumeParts | src/mini4gl/statements/widgetTypes.js:95-97 | after a match the consuming loop advances the cursor by exactly the number of parts |
| WidgetTypes.ReadWidgetTypeFrom | src/mini4gl/statements/widgetTypes.js:93-103 | the pattern loop is `WidgetTypeFrom`: on a match it returns that pattern's type and moves the cursor past its parts; otherwise it throws "Unknown widget type near …" with the cursor where it was |
| WidgetTypes.ReadWidgetType | src/mini4gl/statements/widgetTypes.js:92-104 | `readWidgetType` is `WidgetType` over the de-duplicated sorted patterns: a matching pattern's type with the cursor past its parts, or "Unknown widget type near …" with the cursor unmoved |
| Text.TrimFixed | src/mini4gl/statements/widgetState.js:12 | a text whose ends are not white space is its own trim |
| WidgetState.TrimmedEnds | src/mini4gl/statements/widgetState.js:12 | a trimmed text neither begins nor ends with white space |
| WidgetState.NormalizeIdempotent | src/mini4gl/statements/widgetState.js:11-13 | normalising a widget name twice changes nothing, so a stored key is its own key |
| WidgetState.LowerIdempotent | src/mini4gl/statements/widgetState.js:12 | lower-casing twice changes nothing |
| WidgetState.WithWidgetRegistry | src/mini4gl/statements/widgetState.js:15-21 | `ensureWidgetRegistry` makes the registry exist without changing its entries or any other field |
| WidgetState.EnsureEntryKeeps | src/mini4gl/statements/widgetState.js:23-42 | `ensureWidgetEntry` creates the default entry (all flags false, no type) only when the normalised name is missing; an existing entry and every other entry stay as they were |
| WidgetState.EnsureEntryIdempotent | src/mini4gl/statements/widgetState.js:23-42 | repeated calls return the same entry and change nothing more |
| WidgetState.DefineWidgetEffect | src/mini4gl/statements/widgetState.js:44-59 | `defineWidget` sets the type, display name, `defined` and `noUndo`, merges the attributes (given keys overwrite, the rest stay), keeps the other flags and touches no other widget |
| WidgetState.CreateWidgetEffect | src/mini4gl/statements/widgetState.js:61-78 | `createWidget` sets `created` and the display name, changes the type only when one is given and `visible`/`enabled` only when a boolean is supplied, and touches no other widget |
| WidgetState.SetWidgetStateExact | src/mini4gl/statements/widgetState.js:80-86 | `setWidgetState` overwrites exactly the keys present in the update and leaves every other field and widget unchanged |
| WidgetState.RegistryShared | src/mini4gl/statements/widgetState.js:15-21 | an operation from any environment on a chain reaches the same root fields |
| WidgetState.EnsureWidgetRegistry | src/mini4gl/statements/widgetState.js:15-21 | only the root's fields change, to `WithWidgetRegistry` |
| WidgetState.EnsureWidgetEntry | src/mini4gl/statements/widgetState.js:23-42 | the entry's key is the normalised name and only the root changes, to `WithEntry` |
| WidgetState.EntryStep | src/mini4gl/statements/widgetState.js:45 | the entry every updating operation starts from is the one `ensureWidgetEntry` returns |
| WidgetState.PutAtRoot | src/mini4gl/statements/widgetState.js:45-58 | two writes to the root leave only the second |
| WidgetState.DefineWidget | src/mini4gl/statements/widgetState.js:44-59 | `defineWidget` leaves the root as `DefineWidgetFrame` says and every other environment alone |
| WidgetState.CreateWidget | src/mini4gl/statements/widgetState.js:61-78 | `createWidget` leaves the root as `CreateWidgetFrame` says |
| WidgetState.ApplyCreate | src/mini4gl/statements/widgetState.js:63-76 | the option-by-option assignments give the entry `Created` describes |
| WidgetState.SetWidgetState | src/mini4gl/statements/widgetState.js:80-86 | the update loop leaves the root as `SetWidgetStateFrame` says |
| WidgetState.WithEventRegistry | src/mini4gl/statements/widgetState.js:88-94 | `ensureEventRegistry` makes the handler registry exist without changing it or any other field |
| WidgetState.RegisterThenLookup | src/mini4gl/statements/widgetState.js:96-113 | after registering, the lookup for the same normalised widget and upper-cased event finds the new handler (replacing any earlier one) and every other lookup finds what it found before |
| WidgetState.EnsureEventRegistry | src/mini4gl/statements/widgetState.js:88-94 | only the root's fields change, to `WithEventRegistry` |
| WidgetState.RegisterEventHandler | src/mini4gl/statements/widgetState.js:96-103 | registering leaves the root as `RegisterFrame` says |
| WidgetState.GetEventHandler | src/mini4gl/statements/widgetState.js:105-113 | the lookup returns `HandlerFor` (none when the widget or event has no handler) and only creates the registry |
| WidgetState.TriggerWithoutHandler | src/mini4gl/statements/widgetState.js:115-119 | with no handler `triggerEvent` returns false and changes no widget, no handler and no other environment |
| WidgetState.TriggerSetsLastEvent | src/mini4gl/statements/widgetState.js:115-128 | with a handler the body runs in its owner environment; when it completes the widget's `lastEvent` is the upper-cased event and the result is true, and when it throws the error and its state are passed on |
| WidgetState.TriggerEvent | src/mini4gl/statements/widgetState.js:115-128 | `triggerEvent` leaves the state and result `Trigger` says |
| WidgetState.ResolveEventName | src/mini4gl/statements/widgetState.js:130-142 | an evaluation error is passed on; `null` gives the variable's own name for a bare variable and `''` otherwise; a non-blank value gives its string |
| AssignStmt.ParseAssign | src/mini4gl/statements/assign.js:3-13 | a parsed assignment consumes at least one token |
| AssignStmt.AssignBody | src/mini4gl/statements/assign.js:5-12 | an assignment from its identifier on consumes at least one token |
| AssignStmt.AssignBodyShape | src/mini4gl/statements/assign.js:5-12 | a parsed assignment is an IDENT, OP `=`, an expression and an optional dot, and its node holds the lower-cased identifier and that expression |
| AssignStmt.AssignKeywordOptional | src/mini4gl/statements/assign.js:4-5 | the leading ASSIGN is optional: `ASSIGN x = e` and `x = e` parse alike |
| AssignStmt.OnlyEqualsAssigns | src/mini4gl/statements/assign.js:6-9 | any operator after the identifier other than `=`, `==` included, throws `Expected '=' but got` that operator |
| AssignStmt.Parse | src/mini4gl/statements/assign.js:3-13 | `parseAssign` is `ParseAssign` |
| AssignStmt.Execute | src/mini4gl/statements/assign.js:15-17 | the value of the right-hand side is written through `setVar` and nothing else changes; a failed evaluation changes nothing |
| DefineStmt.ParseDetails | src/mini4gl/statements/define.js:158-198 | the details consume at least the identifier |
| DefineStmt.OptionsFrom | src/mini4gl/statements/define.js:173-196 | the option loop never moves the cursor back |
| DefineStmt.InitClause | src/mini4gl/statements/define.js:175-181 | an INIT clause consumes at least the INIT token |
| DefineStmt.NoUndoClause | src/mini4gl/statements/define.js:183-193 | a NO clause consumes at least the NO token |
| DefineStmt.OptionsStop | src/mini4gl/statements/define.js:195 | the loop stops, consuming nothing, at a token that is neither INIT nor NO |
| DefineStmt.InitLastWins | src/mini4gl/statements/define.js:175-181 | a repeated INIT replaces the earlier one, so the last one wins, and once read an init value is present |
| DefineStmt.InitKept | src/mini4gl/statements/define.js:173-196 | an init value once read is never lost |
| DefineStmt.NoUndoSticky | src/mini4gl/statements/define.js:183-193 | NO, an optional `-` and an optional UNDO set `noUndo`, and nothing clears it |
| DefineStmt.DetailsShape | src/mini4gl/statements/define.js:159-170 | the id is the lower-cased identifier; the AS type is upper-cased whether it was an IDENT or a keyword; without AS there is no type |
| DefineStmt.SkipToEnd | src/mini4gl/statements/define.js:66-74 | the first DOT or EOF at or after the cursor, or the end of the tokens |
| DefineStmt.TailStepAt | src/mini4gl/statements/define.js:80-112 | one pass of the tail loop stops exactly at a DOT, at EOF or past the last token; NO [-] UNDO goes on after UNDO; NO without UNDO and any unsupported token start the skip to the statement's end; a supported attribute is read under its upper-case name |
| DefineStmt.WidgetTail | src/mini4gl/statements/define.js:76-118 | the widget tail never moves the cursor back |
| DefineStmt.WidgetTailShape | src/mini4gl/statements/define.js:76-118 | the tail collects only LABEL, FORMAT, TITLE, TEXT, TOOLTIP and HELP attributes, in order, keeps `noUndo` once set, and ends at the statement's end: the first unsupported token makes it skip to DOT or EOF |
| DefineStmt.TailReadsAttribute | src/mini4gl/statements/define.js:100-105 | after a supported attribute name the loop reads one expression and goes on after it with that attribute appended; an expression that fails to parse makes the whole tail fail with its message |
| DefineStmt.TailSetsNoUndo | src/mini4gl/statements/define.js:85-98 | after NO [-] UNDO the loop goes on with `noUndo` set |
| DefineStmt.TailSkips | src/mini4gl/statements/define.js:92-115 | NO without UNDO or an unsupported token ends the tail with what was collected, at the statement's end |
| DefineStmt.WidgetDefinition | src/mini4gl/statements/define.js:120-135 | a widget definition is a `DefineWidget` of the type read, named as written |
| DefineStmt.ParseDefine | src/mini4gl/statements/define.js:137-156 | a parsed DEFINE consumes at least one token |
| DefineStmt.VariableForm | src/mini4gl/statements/define.js:141-146 | DEFINE VARIABLE produces `DefineVariable` |
| DefineStmt.ParameterForm | src/mini4gl/statements/define.js:147-153 | DEFINE INPUT or OUTPUT PARAMETER produces `DefineParameter` with that mode |
| DefineStmt.DefineDispatch | src/mini4gl/statements/define.js:137-156 | VARIABLE gives `DefineVariable`, INPUT and OUTPUT give `DefineParameter` with that mode, anything else reads a widget type and gives `DefineWidget` |
| DefineStmt.ParseOptions | src/mini4gl/statements/define.js:173-196 | the option loop is `OptionsFrom` |
| DefineStmt.ParseInitClause | src/mini4gl/statements/define.js:175-181 | the INIT branch is `InitClause` |
| DefineStmt.ParseNoUndoClause | src/mini4gl/statements/define.js:183-193 | the NO branch is `NoUndoClause` |
| DefineStmt.ParseDefineDetails | src/mini4gl/statements/define.js:158-198 | `parseDefineDetails` is `ParseDetails` |
| DefineStmt.SkipToStatementEnd | src/mini4gl/statements/define.js:66-74 | the skipping loop ends at `SkipToEnd` |
| DefineStmt.ReadNoUndo | src/mini4gl/statements/define.js:85-98 | the NO branch of the loop eats NO, an optional `-` and UNDO when present, and lands where `TailStepAt` says |
| DefineStmt.TailPass | src/mini4gl/statements/define.js:81-115 | one pass of the loop body from a token that does not end the statement either continues past at least one token with the tail `WidgetTail` continues with, or ends the tail where `WidgetTail` ends it, or fails as it fails |
| DefineStmt.ParseWidgetTail | src/mini4gl/statements/define.js:76-118 | `parseWidgetTail` is `WidgetTail` from no attributes |
| DefineStmt.ParseWidgetDefinition | src/mini4gl/statements/define.js:120-135 | `parseWidgetDefinition` is `WidgetDefinition` |
| DefineStmt.Parse | src/mini4gl/statements/define.js:137-156 | `parseDefine` is `ParseDefine` |
| DefineStmt.ParseVariableForm | src/mini4gl/statements/define.js:141-146 | the VARIABLE branch is `VariableForm` |
| DefineStmt.ParseParameterForm | src/mini4gl/statements/define.js:147-153 | the PARAMETER branch is `ParameterForm` |
| DefineStmt.BindDefined | src/mini4gl/statements/define.js:202-205 | the variable is overwritten in the current environment, and its definition recorded exactly when the definitions table exists; nothing else changes |
| DefineStmt.ExecuteDefineVariable | src/mini4gl/statements/define.js:200-206 | the INIT value, or the type's initial value, is bound in the current environment itself; a failed evaluation changes nothing |
| DefineStmt.ExecuteDefineParameter | src/mini4gl/statements/define.js:208-210 | executing a parameter definition succeeds and changes nothing |
| DefineStmt.ComputeStops | src/mini4gl/statements/define.js:215-217 | an error from one attribute's evaluation ends the attribute loop with that error |
| DefineStmt.ComputeAttributesLastWins | src/mini4gl/statements/define.js:214-217 | each attribute name gets the value of its last occurrence |
| DefineStmt.ComputeAttributeValues | src/mini4gl/statements/define.js:214-217 | the attribute loop is `ComputeAttributes` |
| DefineStmt.ExecuteDefineWidget | src/mini4gl/statements/define.js:212-231 | the widget is defined on the root with the computed attributes, and its entry bound to the lower-cased name in the current environment with a widget definition when the table exists; an error changes nothing |
| DisplayStmt.NotExprStartRejected | src/mini4gl/statements/display.js:3-9 | every token that is not an expression start (IDENT, NUMBER, STRING, UNKNOWN, LPAREN, OP `+`/`-`, NOT) makes `parseExpr` throw at once |
| DisplayStmt.MetaFrom | src/mini4gl/statements/display.js:18-31 | the LABEL/FORMAT loop keeps the item's expression and never moves the cursor back |
| DisplayStmt.LabelLastWins | src/mini4gl/statements/display.js:20-24 | a later LABEL replaces an earlier one: from a LABEL on, the result does not depend on the label read before, and it has a label |
| DisplayStmt.FormatLastWins | src/mini4gl/statements/display.js:25-29 | a later FORMAT replaces an earlier one: from a FORMAT on, the result does not depend on the format read before, and it has a format |
| DisplayStmt.MetaKeeps | src/mini4gl/statements/display.js:18-31 | a label or format once read stays present |
| DisplayStmt.ItemsFrom | src/mini4gl/statements/display.js:15-41 | the item loop consumes at least one token |
| DisplayStmt.ItemsStop | src/mini4gl/statements/display.js:32-40 | the loop adds at least one item after those read, keeps them in order, and stops exactly at a token that is neither a comma nor an expression start |
| DisplayStmt.WithOption | src/mini4gl/statements/display.js:46-60 | a WITH option is CENTERED, FRAME (with its target discarded) or an IDENT, recorded in upper case; any other token reads nothing |
| DisplayStmt.WithFrom | src/mini4gl/statements/display.js:43-65 | the WITH loop never moves the cursor back |
| DisplayStmt.WithOptionsUpper | src/mini4gl/statements/display.js:43-65 | every WITH option is recorded in upper case |
| DisplayStmt.ParseDisplay | src/mini4gl/statements/display.js:11-68 | a parsed DISPLAY is a `Display` node and consumes at least its keyword |
| DisplayStmt.ParseMeta | src/mini4gl/statements/display.js:18-31 | the LABEL/FORMAT loop is `MetaFrom` |
| DisplayStmt.ParseItems | src/mini4gl/statements/display.js:15-41 | the item loop is `ItemsFrom` |
| DisplayStmt.ParseWithOption | src/mini4gl/statements/display.js:45-60 | one option is `WithOption` |
| DisplayStmt.ParseWith | src/mini4gl/statements/display.js:43-65 | the WITH loop is `WithFrom` |
| DisplayStmt.Parse | src/mini4gl/statements/display.js:11-68 | `parseDisplay` is `ParseDisplay` |
| DisplayStmt.Present | src/mini4gl/statements/display.js:134-136 | dropping the null entries never adds segments |
| DisplayStmt.Chars | src/mini4gl/statements/display.js:142 | a text is read as one atom per character |
| DisplayStmt.CharsAppend | src/mini4gl/statements/display.js:142 | the characters of a concatenation are those of each part |
| DisplayStmt.FlattenAppend | src/mini4gl/statements/display.js:131-149 | flattening distributes over concatenation of segment lists |
| DisplayStmt.FlattenSnoc | src/mini4gl/statements/display.js:146 | appending a segment appends its atoms |
| DisplayStmt.NoAdjacentSnoc | src/mini4gl/statements/display.js:139-140 | a text segment pushed after a non-text segment keeps text segments apart |
| DisplayStmt.ExtendLastText | src/mini4gl/statements/display.js:142 | extending the last text segment keeps text segments apart and adds the new characters at the end |
| DisplayStmt.ExtendLastTextApart | src/mini4gl/statements/display.js:142 | extending the last text segment keeps text segments apart |
| DisplayStmt.MergeStepShape | src/mini4gl/statements/display.js:133-147 | one step of the merge keeps text segments apart and adds exactly the characters or the widget of the new segment |
| DisplayStmt.MergeShape | src/mini4gl/statements/display.js:131-149 | the merged list never has two adjacent text segments and holds the same characters and widgets, in order, as the non-null input |
| DisplayStmt.MergeAdjacentTextSegments | src/mini4gl/statements/display.js:131-149 | the merge loop with its in-place extension of the last segment computes `Merge` |
| DisplayStmt.ItemSegments | src/mini4gl/statements/display.js:163-181 | an item's segments exist only if its value evaluates; a widget value gives the widget segment, after a label text when there is one; any other value gives one text segment |
| DisplayStmt.LabelledItemText | src/mini4gl/statements/display.js:164-180 | with a label the item text is `(label + ' ' + formatted).trim()`; without one, or with a null or empty label, it is the formatted value |
| DisplayStmt.ItemResults | src/mini4gl/statements/display.js:159 | one segment result per item, in order |
| DisplayStmt.Wrap | src/mini4gl/statements/display.js:191 | the segments handed to the merge, one per segment |
| DisplayStmt.JoinSnoc | src/mini4gl/statements/display.js:185 | joining one more part adds the separator and the part |
| DisplayStmt.ConcatSnoc | src/mini4gl/statements/display.js:185 | the combined text of one more segment adds its text |
| DisplayStmt.HasWidgetAppend | src/mini4gl/statements/display.js:157 | segments hold a widget iff one of the parts does |
| DisplayStmt.ItemWidget | src/mini4gl/statements/display.js:167-168 | an item's segments hold a widget exactly when its value is a widget |
| DisplayStmt.SpacedShape | src/mini4gl/statements/display.js:160-162 | a widget appears after a step iff it appeared before or in the new item; the text grows by a space (after the first item) and the item's text |
| DisplayStmt.PlainCollect | src/mini4gl/statements/display.js:159-185 | when every item is plain text the segments hold no widget and read as the texts joined by single spaces |
| DisplayStmt.DisplayPlainLine | src/mini4gl/statements/display.js:184-188 | without widget values DISPLAY emits exactly one line, the item texts joined by single spaces, passed through `centerLine` only when some option is CENTERED |
| DisplayStmt.CollectStop | src/mini4gl/statements/display.js:159-182 | an error from one item ends the statement with that error |
| DisplayStmt.BuildSegments | src/mini4gl/statements/display.js:156-182 | the item loop computes `Segments`, and its widget flag is set exactly when some segment is a widget |
| DisplayStmt.Execute | src/mini4gl/statements/display.js:151-197 | `executeDisplay` makes one `env.output` call with `DisplayOutput`, or passes on an item's error without output |
| InputStmt.LookaheadExact | src/mini4gl/statements/input.js:3-17 | the lookahead holds exactly when every position of the sequence holds a token of the expected type (or an `OP` `-` for a hyphen) |
| InputStmt.LookaheadPrefix | src/mini4gl/statements/input.js:3-17 | a lookahead that matches a sequence matches each of its prefixes |
| InputStmt.Lookahead | src/mini4gl/statements/input.js:3-17 | the loop answers `LookaheadMatches` |
| InputStmt.ConsumeHyphenated | src/mini4gl/statements/input.js:19-27 | after a matching lookahead the cursor moves past exactly the looked-at tokens |
| InputStmt.StreamHandleUnreachable | src/mini4gl/statements/input.js:30-39 | as written, no input ever yields a STREAM-HANDLE clause |
| InputStmt.StreamHandleRejected | src/mini4gl/statements/input.js:30-32 | `INPUT STREAM-HANDLE h` is rejected as written with "Expected IDENT but got OP" |
| InputStmt.ParseStream | src/mini4gl/statements/input.js:29-41 | the corrected stream clause consumes nothing exactly when it yields no clause |
| InputStmt.StreamClauseCorrected | src/mini4gl/statements/input.js:29-41 | `STREAM - HANDLE name` gives a STREAM-HANDLE clause with the lower-cased name after four tokens, and every other input reads as written |
| InputStmt.ParseStreamClause | src/mini4gl/statements/input.js:29-41 | the parser method computes the corrected `ParseStream` |
| InputStmt.ValueExpression | src/mini4gl/statements/input.js:43-49 | `VALUE ( expr )` consumes at least one token |
| InputStmt.OsDirSource | src/mini4gl/statements/input.js:59-70 | after `OS - DIR` the source is an OS-DIR source and the cursor moves on |
| InputStmt.InputSource | src/mini4gl/statements/input.js:51-73 | a source always consumes at least one token |
| InputStmt.ParseValueExpression | src/mini4gl/statements/input.js:43-49 | the parser method computes `ValueExpression` |
| InputStmt.ParseOsDir | src/mini4gl/statements/input.js:59-70 | the parser method computes `OsDirSource` |
| InputStmt.ParseInputSource | src/mini4gl/statements/input.js:51-73 | the parser method computes `InputSource` |
| InputStmt.LobDirClause | src/mini4gl/statements/input.js:75-86 | no clause exactly leaves the cursor alone; a clause consumes tokens |
| InputStmt.FlagOption | src/mini4gl/statements/input.js:100-121 | a LOB-DIR, BINARY, NO-ECHO or ECHO test that fails leaves the cursor alone; one that applies consumes tokens |
| InputStmt.OtherOption | src/mini4gl/statements/input.js:122-161 | the same for NO-MAP, MAP, UNBUFFERED, NO-CONVERT and CONVERT |
| InputStmt.MapOption | src/mini4gl/statements/input.js:122-133 | the same for NO-MAP and MAP |
| InputStmt.ConvertOption | src/mini4gl/statements/input.js:134-161 | the same for UNBUFFERED, NO-CONVERT and CONVERT |
| InputStmt.ConvertClause | src/mini4gl/statements/input.js:145-158 | TARGET and SOURCE after CONVERT give a CONVERT option and never move the cursor back |
| InputStmt.OptExpr | src/mini4gl/statements/input.js:148-153 | a TARGET or SOURCE code page is present and consumes tokens |
| InputStmt.OptionStep | src/mini4gl/statements/input.js:99-162 | one pass of the option loop consumes tokens exactly when it applies an option |
| InputStmt.OptionsFrom | src/mini4gl/statements/input.js:88-166 | the option loop never moves the cursor back |
| InputStmt.OptionsNullIffNothingRead | src/mini4gl/statements/input.js:165 | the options are `null` exactly when no pass consumed an option, and then the cursor has not moved |
| InputStmt.EchoOverwrites | src/mini4gl/statements/input.js:111-121 | NO-ECHO sets `echo` to false and ECHO to true whatever was set before, and nothing else changes |
| InputStmt.NoMapOverwrites | src/mini4gl/statements/input.js:122-127 | NO-MAP sets the map kind to NONE whatever was set before |
| InputStmt.NoConvertOverwrites | src/mini4gl/statements/input.js:139-144 | NO-CONVERT sets the convert kind to NONE whatever was set before |
| InputStmt.ParseLobDir | src/mini4gl/statements/input.js:75-86 | the parser method computes `LobDirClause` |
| InputStmt.ParseFlagOption | src/mini4gl/statements/input.js:100-121 | the parser method computes `FlagOption` |
| InputStmt.ParseConvert | src/mini4gl/statements/input.js:145-158 | the parser method computes `ConvertClause` |
| InputStmt.ParseOtherOption | src/mini4gl/statements/input.js:122-161 | the parser method computes `OtherOption` |
| InputStmt.ParseMapOption | src/mini4gl/statements/input.js:122-133 | the parser method computes `MapOption` |
| InputStmt.ParseConvertOption | src/mini4gl/statements/input.js:134-161 | the parser method computes `ConvertOption` |
| InputStmt.ParseInputOptions | src/mini4gl/statements/input.js:88-166 | the option loop computes `OptionsFrom` from no options |
| InputStmt.FromClause | src/mini4gl/statements/input.js:177-182 | options are read only after a source |
| InputStmt.ParseInput | src/mini4gl/statements/input.js:168-196 | a parsed INPUT is an `Input` node with a non-empty target, a source or a stream |
| InputStmt.InputTail | src/mini4gl/statements/input.js:171-196 | the node keeps the stream clause read before and has a target, a source or a stream |
| InputStmt.Finish | src/mini4gl/statements/input.js:184-188 | the check passes only with a target, a source or a stream, and then the optional dot is read |
| InputStmt.InputAloneRejected | src/mini4gl/statements/input.js:184-186 | `INPUT` followed by neither STREAM, a name nor FROM is the syntax error "INPUT statement requires a target variable or FROM clause" |
| InputStmt.Parse | src/mini4gl/statements/input.js:168-196 | `parseInput` computes `ParseInput` |
| InputStmt.ParseFromClause | src/mini4gl/statements/input.js:177-182 | the parser method computes `FromClause` |
| InputStmt.ParseInputTail | src/mini4gl/statements/input.js:171-196 | the parser method computes `InputTail` |
| InputStmt.ParseFinish | src/mini4gl/statements/input.js:184-188 | the parser method computes `Finish` |
| InputStmt.TakeNext | src/mini4gl/statements/input.js:211-213 | with a non-empty queue the result is its front and the queue loses exactly that front, nothing else changing; otherwise `null` and nothing changes |
| InputStmt.TakeNextInput | src/mini4gl/statements/input.js:211-213 | the shift computes `TakeNext` on the heap |
| InputStmt.ResolveSource | src/mini4gl/statements/input.js:215-238 | only a non-TERMINAL source can fail, and then, unless it is OS-DIR, because its expression fails |
| InputStmt.InputTakesFront | src/mini4gl/statements/input.js:216-232 | without FROM or with FROM TERMINAL the target receives the front of the queue and the queue loses it; with an empty or absent queue the target receives what the terminal answers |
| InputStmt.InputFromExpression | src/mini4gl/statements/input.js:221-236 | FROM expr and FROM VALUE(expr) bind the expression's value and leave the queue alone; OS-DIR throws "INPUT FROM OS-DIR is not supported in this runtime" |
| InputStmt.InputWithoutTarget | src/mini4gl/statements/input.js:241-249 | without a target the statement throws exactly when a stream or a source is given, and otherwise changes nothing |
| InputStmt.ResolveSourceValue | src/mini4gl/statements/input.js:215-238 | the method returns `ResolveSource`'s value and leaves its environments, or its error with nothing changed |
| InputStmt.Execute | src/mini4gl/statements/input.js:240-253 | `executeInput` leaves the environments of `InputEffect`, or its error with nothing changed |
| FindStmt.RelationClause | src/mini4gl/statements/find.js:10-13 | no relation exactly when OF was not there and the cursor has not moved |
| FindStmt.WhereClause | src/mini4gl/statements/find.js:14-17 | no WHERE expression exactly when WHERE was not there and the cursor has not moved |
| FindStmt.NoErrorRest | src/mini4gl/statements/find.js:20-26 | after NO at most a hyphen and an ERROR word are read |
| FindStmt.NoErrorClause | src/mini4gl/statements/find.js:18-28 | `noError` is true exactly when the next token is NO, and at most three tokens are read |
| FindStmt.ParseFind | src/mini4gl/statements/find.js:3-31 | a parsed FIND is a `Find` node and consumes at least its keyword |
| FindStmt.FindShape | src/mini4gl/statements/find.js:5-9 | the target is the identifier after FIND or FIRST, kept as written, and the qualifier is FIRST exactly when FIRST was written |
| FindStmt.ParseRelation | src/mini4gl/statements/find.js:10-13 | the parser method computes `RelationClause` |
| FindStmt.ParseWhere | src/mini4gl/statements/find.js:14-17 | the parser method computes `WhereClause` |
| FindStmt.ParseNoError | src/mini4gl/statements/find.js:18-28 | the parser method computes `NoErrorClause` |
| FindStmt.Parse | src/mini4gl/statements/find.js:3-31 | `parseFind` computes `ParseFind` |
| FindStmt.FindRequest | src/mini4gl/statements/find.js:34-57 | the store is reached only with a client that has the target's delegate and, for OF, a truthy active parent record |
| FindStmt.AfterFetch | src/mini4gl/statements/find.js:59-72 | the statement throws "FIND t failed: no record found" exactly when no record came back and NO-ERROR is absent; otherwise the lower-cased target is bound to the record (or null) in `vars` and, when present, in `records`, and nothing else changes |
| FindStmt.FindNeedsParent | src/mini4gl/statements/find.js:49-54 | FIND ... OF parent with no active parent record, or a falsy one, throws "No active record for ..." |
| FindStmt.FindBindsRecord | src/mini4gl/statements/find.js:58-72 | a found record is bound to the lower-cased target in `records` and `vars` |
| FindStmt.FindMissing | src/mini4gl/statements/find.js:59-68 | with no record NO-ERROR binds null to both, and without it the statement throws |
| FindStmt.Execute | src/mini4gl/statements/find.js:33-73 | `executeFind` leaves the environments of `FindEffect`, or its error with nothing changed |
| RunStmt.ArgMode | src/mini4gl/statements/run.js:10-14 | the mode is absent, INPUT or OUTPUT, and a mode consumes exactly one token |
| RunStmt.ArgAt | src/mini4gl/statements/run.js:10-16 | an argument consumes at least one token; its mode is the one `ArgMode` reads and its expression is exactly what `parseExpr` reads right after the mode, ending where the argument ends |
| RunStmt.ArgsFrom | src/mini4gl/statements/run.js:9-20 | the loop keeps the arguments read before, adds at least one, and every new one carries no mode, INPUT or OUTPUT |
| RunStmt.ArgList | src/mini4gl/statements/run.js:7-23 | arguments are read only after a left parenthesis |
| RunStmt.ParseRun | src/mini4gl/statements/run.js:3-26 | a parsed RUN is a `Run` node whose name is the identifier after RUN, lower-cased |
| RunStmt.ArgsFromSeparated | src/mini4gl/statements/run.js:9-20 | the arguments the loop adds form a comma-separated list `arg (, arg)*`, each read at its start, in order |
| RunStmt.SeparatedArgsFrom | src/mini4gl/statements/run.js:9-20 | conversely, the loop reads every comma-separated list of arguments exactly, ending where the list ends |
| RunStmt.ArgListSeparated | src/mini4gl/statements/run.js:7-23 | a non-empty argument list is a left parenthesis, a comma-separated list of arguments and a right parenthesis |
| RunStmt.RunArgsSeparated | src/mini4gl/statements/run.js:3-26 | the arguments of a parsed RUN are the comma-separated list between the parentheses after the name, in the order written |
| RunStmt.ParseArgMode | src/mini4gl/statements/run.js:10-14 | the parser method computes `ArgMode` |
| RunStmt.ParseArg | src/mini4gl/statements/run.js:10-16 | the parser method computes `ArgAt` |
| RunStmt.ParseArgs | src/mini4gl/statements/run.js:9-20 | the loop computes `ArgsFrom` from no arguments |
| RunStmt.ParseArgList | src/mini4gl/statements/run.js:7-23 | the parser method computes `ArgList` |
| RunStmt.Parse | src/mini4gl/statements/run.js:3-26 | `parseRun` computes `ParseRun` |
| RunStmt.Execute | src/mini4gl/statements/run.js:28-30 | `executeRun` installs the state `runProcedure` leaves and throws exactly when it threw, with its message |
| CreateStmt.ContainerClause | src/mini4gl/statements/createWidget.js:64-82 | a container is read exactly when the next token is IN (keyword or identifier); its type is FRAME when FRAME follows and UNKNOWN otherwise, its name is the identifier that ends the clause, and a missing name is "Expected container name after IN" |
| CreateStmt.ParseCreate | src/mini4gl/statements/createWidget.js:54-91 | a parsed CREATE is a `CreateWidget` node and consumes at least its keyword |
| CreateStmt.CreateBody | src/mini4gl/statements/createWidget.js:58-62 | the widget name is the identifier after the type, kept as written; anything else is "Expected widget name after <type>" |
| CreateStmt.ParseContainer | src/mini4gl/statements/createWidget.js:64-82 | the parser method computes `ContainerClause` |
| CreateStmt.ParseBody | src/mini4gl/statements/createWidget.js:58-90 | the parser method computes `CreateBody` |
| CreateStmt.Parse | src/mini4gl/statements/createWidget.js:54-91 | `parseCreate` computes `ParseCreate` |
| CreateStmt.CreateMarksCreated | src/mini4gl/statements/createWidget.js:93-98 | after CREATE the widget's entry exists, is marked created, has the statement's type and keeps its enabled and visible flags, and a written container is recorded |
| CreateStmt.Execute | src/mini4gl/statements/createWidget.js:93-98 | `executeCreateWidget` installs `createWidget`'s effect at the root environment |
| TargetListStmts.TargetsSpan | src/mini4gl/statements/enable.js:35-48 | the target loop reads only identifiers and commas, keeps exactly the identifiers' names in order, and stops before a token that is not an identifier |
| TargetListStmts.TargetList | src/mini4gl/statements/enable.js:32-57 | a parsed ENABLE or VIEW list is never empty and consumes at least the keyword |
| TargetListStmts.ParseEnable | src/mini4gl/statements/enable.js:32-57 | a parsed ENABLE is an `EnableWidgets` node with at least one target |
| TargetListStmts.ParseView | src/mini4gl/statements/view.js:32-57 | a parsed VIEW is a `ViewWidgets` node with at least one target |
| TargetListStmts.EmptyListRejected | src/mini4gl/statements/enable.js:49-51 | a keyword with no identifier after it is "<keyword> requires at least one widget name" |
| TargetListStmts.ParseTargets | src/mini4gl/statements/enable.js:34-48 | the loop computes `TargetsFrom` |
| TargetListStmts.ParseTargetList | src/mini4gl/statements/enable.js:32-57 | the parser method computes `TargetList` |
| TargetListStmts.ParseEnableStmt | src/mini4gl/statements/enable.js:32-57 | `parseEnable` computes `ParseEnable` |
| TargetListStmts.ParseViewStmt | src/mini4gl/statements/view.js:32-57 | `parseView` computes `ParseView` |
| TargetListStmts.UpdatedStays | src/mini4gl/statements/enable.js:61-63 | one more `setWidgetState` with the same update keeps every already updated widget updated |
| TargetListStmts.SetAllUpdates | src/mini4gl/statements/enable.js:61-63 | after the loop every named widget carries the update's flags, whatever the order and repetitions of the names |
| TargetListStmts.SetAllOthers | src/mini4gl/statements/enable.js:61-63 | a widget that none of the names normalises to is left as it was |
| TargetListStmts.EnableMakesUsable | src/mini4gl/statements/enable.js:59-64 | ENABLE leaves every named widget enabled and visible |
| TargetListStmts.SetEach | src/mini4gl/statements/enable.js:61-63 | the loop computes `SetAll` |
| TargetListStmts.ExecuteEnable | src/mini4gl/statements/enable.js:59-64 | `executeEnableWidgets` sets enabled and visible on each target |
| TargetListStmts.ExecuteView | src/mini4gl/statements/view.js:59-64 | `executeViewWidgets` sets visible on each target |
| EventStmts.WidgetName | src/mini4gl/statements/apply.js:53-57 | the name is read exactly when the next token is an identifier, kept as written; otherwise the given syntax error |
| EventStmts.ParseApply | src/mini4gl/statements/apply.js:45-64 | a parsed APPLY is an `ApplyEvent` node and consumes at least its keyword |
| EventStmts.WaitTarget | src/mini4gl/statements/waitFor.js:60-71 | a target is read exactly when the next token is OF (keyword or identifier), and then the cursor moves on |
| EventStmts.ParseWaitFor | src/mini4gl/statements/waitFor.js:52-78 | a parsed WAIT-FOR is a `WaitForEvent` node and consumes at least its keyword |
| EventStmts.WaitForRest | src/mini4gl/statements/waitFor.js:55-77 | from FOR on, the statement is a `WaitForEvent` node |
| EventStmts.WaitHyphenOptional | src/mini4gl/statements/waitFor.js:45-59 | with a hyphen after WAIT the statement is the rest of WAIT-FOR read from two tokens on, without one from one token on; either way a parsed statement's event is the expression read right after FOR |
| EventStmts.ParseWidgetName | src/mini4gl/statements/apply.js:53-57 | the parser method computes `WidgetName` |
| EventStmts.ParseApplyStmt | src/mini4gl/statements/apply.js:45-64 | `parseApply` computes `ParseApply` |
| EventStmts.ParseWaitTarget | src/mini4gl/statements/waitFor.js:60-71 | the parser method computes `WaitTarget` |
| EventStmts.ParseWaitForStmt | src/mini4gl/statements/waitFor.js:52-78 | `parseWaitFor` computes `ParseWaitFor` |
| EventStmts.ParseWaitForRest | src/mini4gl/statements/waitFor.js:55-77 | the parser method computes `WaitForRest` |
| EventStmts.TrimmedEventName | src/mini4gl/statements/apply.js:68-72 | an accepted event name is non-blank and already trimmed |
| EventStmts.FireRecordsEvent | src/mini4gl/statements/apply.js:74-77 | whether or not a handler ran, a completed trigger leaves the upper-case event name as the widget's `lastEvent` |
| EventStmts.ApplyRecordsEvent | src/mini4gl/statements/apply.js:66-78 | a completed APPLY had a non-blank name and records its trimmed, upper-cased form as the target's `lastEvent` |
| EventStmts.WaitNeedsTarget | src/mini4gl/statements/waitFor.js:80-89 | WAIT-FOR without OF throws, with the blank-name error first and otherwise "WAIT-FOR in this runtime requires an explicit widget target", and changes nothing |
| EventStmts.FireEvent | src/mini4gl/statements/apply.js:74-77 | the method installs `Fire`'s state and throws exactly when it threw |
| EventStmts.ExecuteApply | src/mini4gl/statements/apply.js:66-78 | `executeApplyEvent` installs `ApplyEffect`'s state and throws exactly when it threw |
| EventStmts.ExecuteWaitFor | src/mini4gl/statements/waitFor.js:80-95 | `executeWaitFor` installs `WaitForEffect`'s state and throws exactly when it threw |
| EventStmts.OnThenLookup | src/mini4gl/statements/on.js:71-82 | after ON, a lookup of the same widget and event in any letter case finds the statement's body owned by the current environment |
| EventStmts.ExecuteOn | src/mini4gl/statements/on.js:71-82 | `executeOnEvent` leaves the environments of `OnEffect`, or its error with nothing changed |
| MessageStmt.PartsFrom | src/mini4gl/statements/message.js:67-78 | the part loop keeps the parts read before, adds at least one, and stops only at a token that cannot start an expression |
| MessageStmt.HyphenParts | src/mini4gl/statements/message.js:30-51 | the loop keeps the parts read before, reads nothing exactly when it adds no part, records each new part in upper case, and stops at the statement end, a stop word or a token that is not an identifier |
| MessageStmt.HyphenatedIdentifier | src/mini4gl/statements/message.js:30-53 | the name is `null` exactly when no token was read |
| MessageStmt.TitleLoop | src/mini4gl/statements/message.js:93-107 | the TITLE loop ends at the statement end, and a title once read stays present |
| MessageStmt.ViewClause | src/mini4gl/statements/message.js:80-109 | without VIEW nothing is read; with VIEW the clause runs to the statement end; a title exists only with a view name |
| MessageStmt.ViewRest | src/mini4gl/statements/message.js:84-108 | after VIEW the clause runs to the statement end and a title exists only with a view name |
| MessageStmt.ViewNeedsAs | src/mini4gl/statements/message.js:83-88 | VIEW followed, after an optional hyphen, by anything but AS is the error "Expected AS but got ..." |
| MessageStmt.ParseMessage | src/mini4gl/statements/message.js:65-118 | a parsed MESSAGE is a `Message` node with at least one part |
| MessageStmt.ParseParts | src/mini4gl/statements/message.js:67-78 | the loop computes `PartsFrom` from no parts |
| MessageStmt.ParseHyphenatedIdentifier | src/mini4gl/statements/message.js:30-53 | the loop computes `HyphenatedIdentifier` |
| MessageStmt.ParseTitles | src/mini4gl/statements/message.js:93-107 | the loop computes `TitleLoop` from no title |
| MessageStmt.ParseView | src/mini4gl/statements/message.js:80-109 | the parser method computes `ViewClause` |
| MessageStmt.ParseViewRest | src/mini4gl/statements/message.js:84-108 | the parser method computes `ViewRest` |
| MessageStmt.Parse | src/mini4gl/statements/message.js:65-118 | `parseMessage` computes `ParseMessage` |
| MessageStmt.CoerceToString | src/mini4gl/statements/message.js:120-135 | null and non-finite numbers become the empty text, a string stays itself, and anything else is `String(value)` |
| MessageStmt.PartTexts | src/mini4gl/statements/message.js:138 | the texts exist exactly when every part evaluates, one per part, each the coerced value of its part |
| MessageStmt.MessageText | src/mini4gl/statements/message.js:137-149 | the message text is always trimmed |
| MessageStmt.TitlePrefix | src/mini4gl/statements/message.js:148 | a trimmed non-empty title followed by a colon survives the trim of `title: base` |
| MessageStmt.MessageTitle | src/mini4gl/statements/message.js:137-149 | with no title or a blank one the text is the trimmed join of the parts by spaces; otherwise it starts with the trimmed title and a colon |
| MessageStmt.MessageOneLine | src/mini4gl/statements/message.js:163-165 | MESSAGE adds exactly one line, its text, to an existing output and changes nothing else |
| MessageStmt.MessageAlert | src/mini4gl/statements/message.js:153-162 | `scope.alert` is called exactly for a VIEW-AS ALERT-BOX message (any case) whose text evaluates, when the global scope has an `alert` function, and it is called with the trimmed message text |
| MessageStmt.AlertMatchesOutput | src/mini4gl/statements/message.js:151-166 | with an output callback, the alert box shows the very line MESSAGE outputs last |
| MessageStmt.Execute | src/mini4gl/statements/message.js:151-166 | `executeMessage` calls `alert` as `MessageAlert` says and leaves the environments of `MessageEffect`; the guarded `env.output` call adds nothing when there is no callback; an evaluation error is passed on with nothing changed |
| Statements.ParseStatement | src/mini4gl/parser.js:176-198 | a parsed statement consumes at least one token |
| Statements.Dispatch | src/mini4gl/parser.js:184-195 | each statement module's `parse` consumes at least one token |
| Statements.ParseSimple | src/mini4gl/parser.js:184-195 | the modules whose statements hold no statements consume at least one token |
| Statements.PossiblyBlock | src/mini4gl/parser.js:202-210 | a colon block or a single statement consumes at least one token |
| Statements.BlockFrom | src/mini4gl/parser.js:212-219 | the block loop stops, without consuming it, exactly at END or EOF |
| Statements.BlockEnd | src/mini4gl/statements/while.js:8-10 | the block statements, END and the optional dot consume at least the END |
| Statements.ParseIf | src/mini4gl/statements/if.js:3-13 | a parsed IF is an `If` node and consumes at least its keyword |
| Statements.ParseDo | src/mini4gl/statements/do.js:27-115 | a parsed DO is a `Do` node and consumes at least its keyword |
| Statements.ParseRepeat | src/mini4gl/statements/repeat.js:3-14 | a parsed REPEAT is a `Repeat` node |
| Statements.ParseWhile | src/mini4gl/statements/while.js:3-12 | a parsed WHILE is a `While` node |
| Statements.ParseForEach | src/mini4gl/statements/forEach.js:3-53 | a parsed FOR is a `ForEach` node |
| Statements.ParseProcedure | src/mini4gl/statements/procedure.js:3-142 | a parsed PROCEDURE is a `Procedure` node |
| Statements.ProcedureBody | src/mini4gl/statements/procedure.js:91-109 | the procedure is a prototype exactly when a dot follows the header, and then has no statements; any token other than a colon or a dot is "Expected : or . after PROCEDURE header" |
| Statements.ParseOn | src/mini4gl/statements/on.js:45-69 | a parsed ON is an `OnEvent` node |
| Statements.ProgramFrom | src/mini4gl/parser.js:167-174 | the program loop keeps at least the statements collected before |
| Statements.Guarded | src/mini4gl/statements/if.js:4-6 | `IF expr THEN` and `WHILE expr DO` read the expression right after the keyword and end with the separator |
| Statements.OptionalWhile | src/mini4gl/statements/repeat.js:5-8 | a WHILE expression is read exactly when WHILE follows |
| Statements.RepeatHeader | src/mini4gl/statements/repeat.js:4-9 | the REPEAT header consumes at least its keyword |
| Statements.WhileHeader | src/mini4gl/statements/while.js:4-7 | the WHILE header consumes at least its keyword |
| Statements.RecordName | src/mini4gl/statements/do.js:53-57 | a record of a FOR list is named by the last segment of its path |
| Statements.RecordsFrom | src/mini4gl/statements/do.js:59-61 | the records after commas keep those read before, each named by its last segment |
| Statements.RecordList | src/mini4gl/statements/do.js:51-63 | a FOR list holds at least one record, each named by its last segment |
| Statements.ByClause | src/mini4gl/statements/do.js:80-84 | a BY step is read exactly when BY (keyword or identifier) follows, and otherwise nothing is consumed |
| Statements.Counted | src/mini4gl/statements/do.js:69-92 | a counted range's variable is the lower-cased identifier it starts with |
| Statements.DoOptions | src/mini4gl/statements/do.js:48-100 | the option loop never moves back, and a FOR list once read is never replaced |
| Statements.DoHeader | src/mini4gl/statements/do.js:28-41 | a label is taken exactly when `ident : DO` starts the statement, and it is that identifier |
| Statements.ForHead | src/mini4gl/statements/forEach.js:4-14 | the qualifier is EACH, FIRST or LAST; any other token after FOR is "Expected EACH, FIRST, or LAST after FOR" |
| Statements.NoLockClause | src/mini4gl/statements/forEach.js:15-27 | `noLock` is true exactly when NO follows, and otherwise nothing is consumed |
| Statements.OrderFrom | src/mini4gl/statements/forEach.js:32-47 | the BY loop keeps the entries read before and adds entries only when BREAK or BY follows |
| Statements.ForTail | src/mini4gl/statements/forEach.js:15-48 | the FOR header ends with its required colon |
| Statements.OrdinalClause | src/mini4gl/statements/procedure.js:62-69 | an ordinal is read exactly when ORDINAL follows, and otherwise nothing is consumed |
| Statements.ThreadSafe | src/mini4gl/statements/procedure.js:27-39 | THREAD-SAFE is recorded exactly when THREAD follows, and otherwise nothing is consumed |
| Statements.ExternalClause | src/mini4gl/statements/procedure.js:52-61 | the library is the string literal after EXTERNAL; any other token is "Expected string literal after EXTERNAL" |
| Statements.ExternalOptions | src/mini4gl/statements/procedure.js:62-71 | the EXTERNAL options never move the cursor back |
| Statements.FlagsFrom | src/mini4gl/statements/procedure.js:41-89 | PRIVATE once set stays set, and EXTERNAL and IN SUPER are never both taken |
| Statements.ProcedureHead | src/mini4gl/statements/procedure.js:4-89 | the name is the lower-cased identifier after PROCEDURE, and the header never has both EXTERNAL and IN SUPER |
| Statements.OnHeader | src/mini4gl/statements/on.js:46-60 | the ON target is the identifier before DO, kept as written |
| Statements.EndIsEmpty | src/mini4gl/parser.js:178-182 | END at the start of a statement is an `Empty` statement that takes its optional dot, with or without a registry |
| Statements.NoRegistryRejects | src/mini4gl/parser.js:192-197 | without a registry every statement but END is "Unexpected token <type>" |
| Statements.BareAssignment | src/mini4gl/parser.js:184-189 | with the assignment module first among the identifier parsers, a statement starting with an identifier is parsed as an assignment |
| Statements.MessageStatementRejected | src/mini4gl/parser.js:184-189 | `MESSAGE "x"` as lexed never reaches `parseMessage`: with ASSIGN first among the identifier parsers it is the error "Expected OP but got STRING", and with no identifier parser and no IDENT entry it is "Unexpected token IDENT" |
| Statements.MessageCorrected | src/mini4gl/statements/message.js:168-172 | a statement that starts with a MESSAGE keyword token, with the MESSAGE module registered under that keyword, is parsed by `parseMessage` |
| Statements.AssignWithoutEquals | src/mini4gl/statements/assign.js:3-6 | an identifier followed by a string fails as an assignment with "Expected OP but got STRING" |
| Statements.UnhandledIdent | src/mini4gl/parser.js:184-197 | with no identifier parser and no IDENT entry in the keyword map, a statement starting with an identifier is "Unexpected token IDENT" |
| Statements.IfNeedsThen | src/mini4gl/statements/if.js:5-6 | IF requires THEN right after its condition |
| Statements.BlockKeepsCollected | src/mini4gl/parser.js:212-219 | the statements a block has collected stay in front, in order |
| Statements.ForListOnce | src/mini4gl/statements/do.js:51 | a second FOR list ends the DO options instead of being parsed |
| Statements.CountedNeedsTo | src/mini4gl/statements/do.js:75-77 | a counted range without TO after its start is "Expected TO in DO iteration range" |
| Statements.BreakNeedsBy | src/mini4gl/statements/forEach.js:35-42 | BREAK not followed by BY is "BREAK must be followed by BY" |
| Statements.NoNeedsLock | src/mini4gl/statements/forEach.js:16-26 | NO not followed, after an optional hyphen, by LOCK is "Expected LOCK after NO in FOR EACH" |
| Statements.OnNeedsOf | src/mini4gl/statements/on.js:47-50 | ON requires OF after its event expression |
| Statements.PartitionSplits | src/mini4gl/statements/procedure.js:111-130 | the body is exactly the statements that are neither parameter definitions nor empty, every parameter definition contributes its parameter, and nothing is invented |
| StatementParser.ReadGuarded | src/mini4gl/statements/if.js:4-6 | the parser method computes `Guarded` (result and cursor) |
| StatementParser.ReadRepeatHeader | src/mini4gl/statements/repeat.js:4-9 | the parser method computes `RepeatHeader` (result and cursor) |
| StatementParser.ReadWhileHeader | src/mini4gl/statements/while.js:4-7 | the parser method computes `WhileHeader` (result and cursor) |
| StatementParser.ReadRecordName | src/mini4gl/statements/do.js:53-57 | the parser method computes `RecordName` (result and cursor) |
| StatementParser.ReadRecordList | src/mini4gl/statements/do.js:51-63 | the parser method computes `RecordList` (result and cursor) |
| StatementParser.ReadBy | src/mini4gl/statements/do.js:80-84 | the parser method computes `ByClause` (result and cursor) |
| StatementParser.ReadCounted | src/mini4gl/statements/do.js:69-92 | the parser method computes `Counted` (result and cursor) |
| StatementParser.ReadDoOptions | src/mini4gl/statements/do.js:48-100 | the parser method computes `DoOptions` (result and cursor) |
| StatementParser.ReadDoHeader | src/mini4gl/statements/do.js:28-100 | the parser method computes `DoHeader` (result and cursor) |
| StatementParser.ReadForHead | src/mini4gl/statements/forEach.js:4-14 | the parser method computes `ForHead` (result and cursor) |
| StatementParser.ReadNoLock | src/mini4gl/statements/forEach.js:15-27 | the parser method computes `NoLockClause` (result and cursor) |
| StatementParser.ReadOrder | src/mini4gl/statements/forEach.js:32-47 | the parser method computes `OrderFrom` (result and cursor) |
| StatementParser.ReadForTail | src/mini4gl/statements/forEach.js:15-48 | the parser method computes `ForTail` (result and cursor) |
| StatementParser.ReadOrdinal | src/mini4gl/statements/procedure.js:62-69 | the parser method computes `OrdinalClause` (result and cursor) |
| StatementParser.ReadThreadSafe | src/mini4gl/statements/procedure.js:27-39 | the parser method computes `ThreadSafe` (result and cursor) |
| StatementParser.ReadExternalOptions | src/mini4gl/statements/procedure.js:62-71 | the parser method computes `ExternalOptions` (result and cursor) |
| StatementParser.ReadExternal | src/mini4gl/statements/procedure.js:52-78 | the parser method computes `ExternalClause` (result and cursor) |
| StatementParser.ReadFlags | src/mini4gl/statements/procedure.js:41-89 | the parser method computes `FlagsFrom` (result and cursor) |
| StatementParser.ReadProcedureHead | src/mini4gl/statements/procedure.js:4-89 | the parser method computes `ProcedureHead` (result and cursor) |
| StatementParser.SplitBody | src/mini4gl/statements/procedure.js:111-130 | the for-loop over the parsed statements returns exactly `Partition(stmts)` |
| StatementParser.ReadOnHeader | src/mini4gl/statements/on.js:46-60 | the parser method computes `OnHeader` (result and cursor) |
| StatementParser.Statement | src/mini4gl/parser.js:176-198 | the parser method computes `ParseStatement` (result and cursor) |
| StatementParser.Route | src/mini4gl/parser.js:184-195 | the parser method computes `Dispatch` (result and cursor) |
| StatementParser.SimpleStatement | src/mini4gl/parser.js:184-195 | the parser method computes `ParseSimple` (result and cursor) |
| StatementParser.PossiblyBlockOf | src/mini4gl/parser.js:202-210 | the parser method computes `PossiblyBlock` (result and cursor) |
| StatementParser.BlockStatements | src/mini4gl/parser.js:212-219 | the parser method computes `BlockFrom` (result and cursor) |
| StatementParser.BlockThroughEnd | src/mini4gl/statements/while.js:8-10 | the parser method computes `BlockEnd` (result and cursor) |
| StatementParser.IfStatement | src/mini4gl/statements/if.js:3-13 | the parser method computes `ParseIf` (result and cursor) |
| StatementParser.DoStatement | src/mini4gl/statements/do.js:27-115 | the parser method computes `ParseDo` (result and cursor) |
| StatementParser.RepeatStatement | src/mini4gl/statements/repeat.js:3-14 | the parser method computes `ParseRepeat` (result and cursor) |
| StatementParser.WhileStatement | src/mini4gl/statements/while.js:3-12 | the parser method computes `ParseWhile` (result and cursor) |
| StatementParser.ForEachStatement | src/mini4gl/statements/forEach.js:3-53 | the parser method computes `ParseForEach` (result and cursor) |
| StatementParser.ProcedureStatement | src/mini4gl/statements/procedure.js:3-142 | the parser method computes `ParseProcedure` (result and cursor) |
| StatementParser.ProcedureRest | src/mini4gl/statements/procedure.js:91-109 | the parser method computes `ProcedureBody` (result and cursor) |
| StatementParser.OnStatement | src/mini4gl/statements/on.js:45-69 | the parser method computes `ParseOn` (result and cursor) |
| StatementParser.Program | src/mini4gl/parser.js:167-174 | the parsing loop returns exactly `ProgramFrom` from the starting cursor, and on success leaves the cursor on EOF |
| BlockExec.IfEffect | src/mini4gl/statements/if.js:15-21 | a failing test throws before anything changes; a falsy test without ELSE changes nothing |
| BlockExec.IfRunsOneBranch | src/mini4gl/statements/if.js:15-21 | a truthy test runs exactly the consequent, a falsy one exactly the alternate when there is one |
| BlockExec.ExecuteIf | src/mini4gl/statements/if.js:15-21 | `executeIf` installs `IfEffect`'s state and throws exactly when it threw |
| BlockExec.Put | src/mini4gl/statements/do.js:140-149 | putting back a saved entry gives the key its saved value, or no entry, and leaves every other key alone |
| BlockExec.SaveOne | src/mini4gl/statements/do.js:127-134 | saving a record name remembers its two entries and sets both to null, leaving every other name alone |
| BlockExec.SaveAll | src/mini4gl/statements/do.js:126-135 | one saved entry per record name, in the order of the names |
| BlockExec.RestoreOne | src/mini4gl/statements/do.js:140-149 | the `finally` step gives the name its saved variable and, when there is a records map, its saved record |
| BlockExec.RestoreAll | src/mini4gl/statements/do.js:139-150 | the `finally` loop never adds or removes the records map |
| BlockExec.RecordKeys | src/mini4gl/statements/do.js:127 | the keys are the records' names, lower-cased, in order |
| BlockExec.ScopeEntry | src/mini4gl/statements/do.js:123-125 | entering the scope creates the records map when it is missing |
| BlockExec.ScopeClears | src/mini4gl/statements/do.js:126-135 | inside the scope every FOR name is null in both maps, and every other variable is as it was |
| BlockExec.SaveAllClears | src/mini4gl/statements/do.js:126-135 | the saving loop sets each FOR name to null in both maps and leaves the other variables alone |
| BlockExec.SavedOriginals | src/mini4gl/statements/do.js:126-135 | for distinct names each saved entry is the name's entries from before the scope, and other names are untouched |
| BlockExec.RestoreAllPutsBack | src/mini4gl/statements/do.js:139-150 | for distinct names the `finally` loop gives each its saved entries and leaves every other name as it was |
| BlockExec.ScopeRestores | src/mini4gl/statements/do.js:118-152 | with distinct FOR names, after the scope (whether or not the body threw) each name's variable and record are as before: the previous value or absent |
| BlockExec.RepeatedNameLeftNull | src/mini4gl/statements/do.js:126-150 | a name listed twice is left null after the scope, because its second save recorded the null the first one wrote |
| BlockExec.SaveEach | src/mini4gl/statements/do.js:126-135 | the saving loop computes `SaveAll` |
| BlockExec.RestoreEach | src/mini4gl/statements/do.js:139-150 | the `finally` loop computes `RestoreAll` |
| BlockExec.RunScoped | src/mini4gl/statements/do.js:154-158 | `runIteration` installs `ScopedRun`'s state and throws exactly when the body threw |
| BlockExec.Condition | src/mini4gl/statements/do.js:160-165 | without a WHILE the condition is true |
| BlockExec.WhileExitsOnFalse | src/mini4gl/statements/while.js:14-18 | a loop that ends without an exception ends because the test, on the final environments, is falsy |
| BlockExec.WhileFalseAtStart | src/mini4gl/statements/while.js:15 | a test that is falsy at the start runs the body zero times and changes nothing |
| BlockExec.RunWhile | src/mini4gl/statements/while.js:14-18 | the loop installs `WhileLoop`'s state and throws exactly when it threw |
| BlockExec.RepeatEffect | src/mini4gl/statements/repeat.js:16-23 | REPEAT without WHILE throws "REPEAT without WHILE not supported in this mini-interpreter" and changes nothing; a completed REPEAT ends on a falsy condition |
| BlockExec.ExecuteWhile | src/mini4gl/statements/while.js:14-18 | `executeWhile` installs `WhileEffect`'s state and throws exactly when it threw |
| BlockExec.ExecuteRepeat | src/mini4gl/statements/repeat.js:16-23 | `executeRepeat` installs `RepeatEffect`'s state and throws exactly when it threw |
| BlockExec.CountedFrom | src/mini4gl/statements/do.js:177-191 | the counted loop reports how many passes it ran, never more than its bound |
| BlockExec.ScopedNoThrow | src/mini4gl/statements/do.js:136-151 | a body that never throws does not throw inside the record scope either |
| BlockExec.CountedPass | src/mini4gl/statements/do.js:177-191 | a value within the limit sets the variable, runs the body once in the scope, and continues from the value plus the step |
| BlockExec.CountedRunsRange | src/mini4gl/statements/do.js:167-192 | `DO v = a TO b` with step 1 and a body that does not throw runs b - a + 1 times, or not at all when b < a |
| BlockExec.CountedNoPass | src/mini4gl/statements/do.js:182-184 | a first value already past the limit runs no pass and changes nothing, so the variable keeps what it held |
| BlockExec.CountedUnroll | src/mini4gl/statements/do.js:185-190 | one pass of the integer loop with step 1, as an equation: set the variable, run the body, continue from a + 1 |
| BlockExec.CountedStep | src/mini4gl/statements/do.js:185-190 | with a fixed limit b and a body that never throws, a pass at a <= b leads on to the loop from a + 1, on the frames that pass left |
| BlockExec.CountedEndsOnLast | src/mini4gl/statements/do.js:182-190 | after `DO v = a TO b` (step 1, a <= b) the variable holds b, the last value that passed the limit test, and not b + 1 |
| BlockExec.DoRejectsStep | src/mini4gl/statements/do.js:168-174 | a BY value that is zero or not a finite number throws "DO loop BY value must be a non-zero finite number" before anything changes |
| BlockExec.DoRejectsStart | src/mini4gl/statements/do.js:175-181 | a start value that is not a finite number throws "DO loop bounds must evaluate to finite numbers" before the variable is set |
| BlockExec.RunCounted | src/mini4gl/statements/do.js:177-191 | the loop installs `CountedFrom`'s state and throws exactly when it threw |
| BlockExec.ExecuteDo | src/mini4gl/statements/do.js:117-203 | `executeDo` installs `DoEffect`'s state and throws exactly when it threw |
| BlockExec.OrderValues | src/mini4gl/statements/forEach.js:81-83 | one order value per BY entry |
| BlockExec.ForEachQuery | src/mini4gl/statements/forEach.js:56-83 | the store is asked only through a delegate with `findMany` and, for OF, with a truthy active parent record; the query is ordered exactly for EACH with BY entries |
| BlockExec.LastOf | src/mini4gl/statements/forEach.js:95-97 | the last row alone, and nothing exactly for an empty list |
| BlockExec.Rows | src/mini4gl/statements/forEach.js:84-100 | FIRST and LAST visit at most one row, LAST the last row of `findMany`; EACH visits all of `findMany`; FIRST without `findFirst` throws "... does not support findFirst" |
| BlockExec.ForEachRestores | src/mini4gl/statements/forEach.js:101-126 | a completed FOR EACH leaves the target's variable and record entries as they were before it |
| BlockExec.ForEachThrowKeepsRow | src/mini4gl/statements/forEach.js:108-126 | a body that throws on the first row leaves that row bound to the variable: the entries are not put back |
| BlockExec.ForEachNeedsParent | src/mini4gl/statements/forEach.js:72-77 | FOR EACH ... OF parent with no active parent record, or a falsy one, throws "No active record for ..." and changes nothing |
| BlockExec.PrefixedJoin | src/mini4gl/statements/forEach.js:82 | the order values collected so far stay in front of those computed after them |
| BlockExec.BuildOrder | src/mini4gl/statements/forEach.js:82 | the loop computes `OrderValues` |
| BlockExec.RunRows | src/mini4gl/statements/forEach.js:108-114 | the row loop installs `RowLoop`'s state and throws exactly when the body threw |
| BlockExec.ExecuteForEach | src/mini4gl/statements/forEach.js:55-127 | `executeForEach` installs `ForEachEffect`'s state and throws exactly when it threw |
| BlockExec.ProcedureEffect | src/mini4gl/statements/procedure.js:144-159 | after PROCEDURE the procedures map exists and holds the definition, owned by the current environment, under the name; every other procedure is kept; nothing else in the environment changes |
| BlockExec.ExecuteProcedure | src/mini4gl/statements/procedure.js:144-159 | `executeProcedure` applies `ProcedureEffect` to the current environment only |
| Builtins.TextOr | src/mini4gl/builtins.js:13 | `null` and a missing argument read as the empty string, and a string reads as itself |
| Builtins.StringOf | src/mini4gl/builtins.js:24-45 | STRING without a format (none, or `null`) is `String(args[0] ?? '')` |
| Builtins.Delimiter | src/mini4gl/builtins.js:53-56 | the ENTRY delimiter is never empty, and is `,` when the third argument is absent, `null` or `''` |
| Builtins.Entries | src/mini4gl/builtins.js:57-58 | a list always has at least one piece |
| Builtins.Entry | src/mini4gl/builtins.js:50-61 | an index that is not a finite number or is below 1 gives `''` |
| Builtins.EvaluateBuiltin | src/mini4gl/builtins.js:10-70 | the evaluator throws "Unknown function <name>" exactly for names outside UPPER, LOWER, LENGTH, INT, INTEGER, FLOAT, STRING, MONTH, ENTRY and PRINT, and only PRINT touches the environment |
| Builtins.NullIsEmptyText | src/mini4gl/builtins.js:12-17 | UPPER, LOWER and LENGTH read a `null` or missing argument as `''` |
| Builtins.CaseKeepsLength | src/mini4gl/builtins.js:12-17 | LENGTH of a string is its number of characters, and UPPER and LOWER keep that length |
| Builtins.MonthNumber | src/mini4gl/builtins.js:46-49 | MONTH is `null` or a month number from 1 to 12 |
| Builtins.PrintOneLine | src/mini4gl/builtins.js:62-66 | PRINT returns `null` and, with an output, appends exactly one line, the arguments' strings joined by spaces, changing nothing else; without one it changes nothing |
| Builtins.EntryAtIndex | src/mini4gl/builtins.js:53-60 | with a finite whole index k of at least 1, ENTRY gives the trimmed k-th element of the split list, or `''` past its end |
| Builtins.EntryDependsOnArgs | src/mini4gl/builtins.js:50-61 | ENTRY depends only on the index, the list and the delimiter it reads |
| Builtins.EntryDefaultDelimiter | src/mini4gl/builtins.js:53-56 | leaving out the delimiter and passing `null` or `''` select the same element as `,` |
| Builtins.EntryDefaultList | src/mini4gl/builtins.js:50-61 | `ENTRY(2, "alpha,beta,gamma")` is "beta" |
| Builtins.EntryPipeList | src/mini4gl/builtins.js:50-61 | `ENTRY(3, "a\|b\|c", "\|")` is "c" |
| Builtins.EntryPastEnd | src/mini4gl/builtins.js:59-60 | `ENTRY(5, "x,y,z")` is `''` |
| Builtins.EntrySelects | src/mini4gl/builtins.js:50-61 | for a list joined from pieces free of the delimiter, index k selects the k-th piece trimmed, and `''` after the last |
| Builtins.UnknownNameThrows | src/mini4gl/builtins.js:67-68 | a name outside the table, such as SUBSTRING, throws "Unknown function SUBSTRING" |
| Builtins.StringWithoutFormat | src/mini4gl/builtins.js:27-41 | STRING without a format is `''` for `null` and a missing value, and `String(v)` otherwise |
| LegacyParser.ParseStatement | mini4GL.js:137-153 | the statement kind is fixed by the first token's type (ASSIGN and IDENT an assignment, DISPLAY and PRINT a display, and so on), and any other type is "Unexpected token <type>" |
| LegacyParser.ParseAssignLike | mini4GL.js:157-166 | a parsed `[ASSIGN] ident = expr` is an `Assign` node |
| LegacyParser.ParseDisplay | mini4GL.js:168-174 | a parsed DISPLAY or PRINT is a `Display` node with at least one item |
| LegacyParser.ParseInput | mini4GL.js:176-181 | a parsed INPUT is an `Input` node |
| LegacyParser.PossiblyBlock | mini4GL.js:226-236 | a colon block or one statement consumes at least one token |
| LegacyParser.BlockFrom | mini4GL.js:238-245 | the block loop stops, without consuming it, exactly at END or EOF |
| LegacyParser.BlockEnd | mini4GL.js:201-202 | the block statements, END and the optional dot consume at least the END |
| LegacyParser.ParseIf | mini4GL.js:183-194 | a parsed IF is an `If` node |
| LegacyParser.LoopHead | mini4GL.js:197-200 | the `kw [WHILE expr] [:]` head consumes at least its keyword |
| LegacyParser.ParseLoop | mini4GL.js:196-214 | a parsed DO is a `Do` node and a parsed REPEAT a `Repeat` node |
| LegacyParser.ParseWhile | mini4GL.js:216-224 | a parsed WHILE is a `While` node |
| LegacyParser.ProgramFrom | mini4GL.js:127-135 | the program loop keeps the statements collected before, in front and in order |
| LegacyParser.Statement | mini4GL.js:137-153 | the parser method computes `ParseStatement` |
| LegacyParser.AssignLike | mini4GL.js:157-166 | the parser method computes `ParseAssignLike` |
| LegacyParser.DisplayStatement | mini4GL.js:168-174 | the parser method computes `ParseDisplay` |
| LegacyParser.InputStatement | mini4GL.js:176-181 | the parser method computes `ParseInput` |
| LegacyParser.PossiblyBlockOf | mini4GL.js:226-236 | the parser method computes `PossiblyBlock` |
| LegacyParser.BlockStatements | mini4GL.js:238-245 | the loop computes `BlockFrom` |
| LegacyParser.BlockThroughEnd | mini4GL.js:201-202 | the parser method computes `BlockEnd` |
| LegacyParser.IfStatement | mini4GL.js:183-194 | the parser method computes `ParseIf` |
| LegacyParser.ReadLoopHead | mini4GL.js:197-200 | the parser method computes `LoopHead` |
| LegacyParser.LoopStatement | mini4GL.js:196-214 | the parser method computes `ParseLoop` |
| LegacyParser.WhileStatement | mini4GL.js:216-224 | the parser method computes `ParseWhile` |
| LegacyParser.Program | mini4GL.js:127-135 | the loop computes `ProgramFrom` |
| LegacyParser.AssignNeedsEquals | mini4GL.js:161-162 | an operator other than `=` after the name, `==` included, is "Expected '=' but got <op>" |
| LegacyParser.AssignKeywordOptional | mini4GL.js:159 | `ASSIGN x = e` and `x = e` give the same node, and one parses exactly when the other does |
| LegacyParser.EndIsEmpty | mini4GL.js:149 | END at the start of a statement is an `Empty` statement that takes its optional dot |
| LegacyParser.StrayDotSkipped | mini4GL.js:131 | a stray dot in a block or at the top level does not change what is collected |
| LegacyParser.BlockKeepsCollected | mini4GL.js:238-245 | the statements a block has collected stay in front, in order |
| LegacyInterp.Compare | mini4GL.js:325-333 | exactly the seven comparison operators succeed, each giving a boolean, `<>` the negation of loose equality; any other operator throws "Bad compare op <op>" |
| LegacyInterp.UnaryValue | mini4GL.js:340-346 | exactly `-`, `+` and NOT succeed, and NOT is the negation of `truthy` |
| LegacyInterp.CallValue | mini4GL.js:362-375 | exactly UPPER, LOWER, LENGTH, INT, FLOAT and PRINT are known, any other name throws "Unknown function <name>", and only PRINT outputs, one line |
| LegacyInterp.Eval | mini4GL.js:335-378 | AND and OR always give a boolean |
| LegacyInterp.EvalLogical | mini4GL.js:357-361 | AND and OR give a boolean whenever they do not throw |
| LegacyInterp.EvalList | mini4GL.js:363 | evaluated arguments, one per argument |
| LegacyInterp.AdvancesTrans | mini4GL.js:380-428 | lines only appended and inputs only taken from the front compose across statements |
| LegacyInterp.Emit | mini4GL.js:435-438 | outputting lines appends them after those already output and changes neither variables nor inputs |
| LegacyInterp.Exec | mini4GL.js:380-424 | every statement only appends output lines and only takes inputs from the front of the queue, whether or not it throws |
| LegacyInterp.Run | mini4GL.js:426-428 | a block only appends output lines and only takes inputs from the front |
| LegacyInterp.Loop | mini4GL.js:397-419 | a loop only appends output lines and only takes inputs from the front |
| LegacyInterp.LoopPass | mini4GL.js:417 | a truthy test runs the body once and, unless it throws, the loop continues from the state the body left |
| LegacyInterp.LoopStop | mini4GL.js:399-418 | a test that throws, is falsy, or finds no passes left ends the loop at once, after the test's output, with the test's error, nothing, or the out-of-fuel error |
| LegacyInterp.PlusJoinsOrAdds | mini4GL.js:350 | `+` joins two strings, and without a string operand is the numeric sum of `Number(l)` and `Number(r)` |
| LegacyInterp.ArithmeticCoerces | mini4GL.js:351-353 | `-`, `*` and `/` coerce both operands to numbers, strings included |
| LegacyInterp.StringPlusInteger | mini4GL.js:350 | a string plus an integer appends the integer's digits (`"1" + 2` is `"12"`) |
| LegacyInterp.DigitsMinusInteger | mini4GL.js:351 | a string of digits minus an integer is numeric subtraction (`"3" - 1` is 2) |
| LegacyInterp.ShortCircuit | mini4GL.js:357-361 | a falsy left side of AND or a truthy left side of OR decides the result without evaluating the right side, whose output and errors are then skipped |
| LegacyInterp.LogicalConnectives | mini4GL.js:357-361 | AND and OR are the boolean connectives of the operands' truthiness, and the right side's output appears exactly when it is evaluated |
| LegacyInterp.CallsAgreeWithBuiltins | mini4GL.js:362-375 | each call the legacy evaluator knows gives the value the modular builtin evaluator gives, PRINT the same line, and a name the modular one rejects is rejected with the same message |
| LegacyInterp.DisplayShowsNullAsBlank | mini4GL.js:384-387 | DISPLAY of an unset variable outputs an empty line, while the evaluator's `PRINT` call node (mini4GL.js:370-371) yields "null"; that node cannot come from program text (see GrammarProps.PrintNotAnExpression) |
| LegacyInterp.LoopForms | mini4GL.js:397-419 | DO without WHILE runs its body once; DO WHILE, REPEAT WHILE and WHILE are the same loop; REPEAT without WHILE throws before doing anything |
| LegacyInterp.TestBeforeFirstPass | mini4GL.js:417 | a loop whose test is falsy at the start never runs its body |
| LegacyInterp.LoopEndsOnFalse | mini4GL.js:399-418 | a loop that ends without an error ends because its test is falsy on the final variables |
| LegacyInterp.InputsQueue | mini4GL.js:388-391 | a run of INPUT statements never throws or outputs, and drops one queued value per INPUT until the queue is empty |
| LegacyInterp.InputsBind | mini4GL.js:388-391 | in a run of INPUT statements for distinct names the k-th binds the k-th queued value, or null past the end of the queue |
| LegacyInterp.InputsKeep | mini4GL.js:388-391 | a run of INPUT statements leaves every variable it does not name as it was |
| LegacyInterp.InputsInOrder | mini4GL.js:388-391 | INPUT statements for distinct names bind the queued values in order, then null once the queue is empty; nothing is output and other variables keep their values |
| LegacyInterp.EmptyQueueBindsNull | mini4GL.js:389-390 | with the queue empty INPUT binds null and changes nothing else |
| LegacyInterp.Interpret | mini4GL.js:430-441 | a finished run lexed its source, and the queue it leaves is what remains of the given inputs after some were taken from the front |
| LegacyInterp.Env.constructor | mini4GL.js:435 | a new environment has no variables, the given queue and no output |
| LegacyInterp.Env.ExecStmt | mini4GL.js:380-424 | the method leaves the state and the exception `Exec` gives |
| LegacyInterp.Env.ExecBlock | mini4GL.js:426-428 | the method leaves the state and the exception `Run` gives |
| LegacyInterp.Env.LoopStep | mini4GL.js:399-418 | one test and at most one pass either ends the loop with the state and exception `Loop` gives, or leaves a state from which `Loop` with one pass less gives the same outcome |
| LegacyInterp.Env.RunLoop | mini4GL.js:399-418 | the loop leaves the state and the exception `Loop` gives |
| LegacyInterp.Interpret4GL | mini4GL.js:430-441 | `interpret4GL` computes `Interpret` on a copy of the inputs, and the caller's array is not changed |

## Left out

- Asynchrony: every executor of the modular interpreter is `async`. Here each one is a function of the state it starts from, run to completion.
- The `context` object's helpers are given functions of the environments they read, and are not part of this model. They are `evalExpr`, `setVar`, `truthy`, `execBlock`, `initialValueForType`, `formatDisplayValue`, `centerLine`, `runProcedure`, `buildWhere`, `relationWhere`, `mergeWhereClauses` and `buildOrderBy`.
- The record store (`env.prisma`) is a map from delegate name to given `findFirst`/`findMany` functions. The database itself is not part of this model.
- `window.prompt` is a given function of its argument (`readFromTerminal`). MESSAGE's `scope.alert(text)` call is not carried out: `MessageStmt.Execute` is told whether the global scope has an `alert` function and returns the text it would be called with (`MessageStmt.MessageAlert`). What the browser does with that call is not part of this model.
- The date and number helpers the builtin table is created with are given functions: `formatDisplayValue`, `formatTimeFromSeconds`, `parse4GLDate` and `toIntegerValue`.
- Numbers are exact rationals with NaN and the infinities. Floating-point rounding, signed zero and exponent notation in `String(n)` are not modelled.
- Case mapping (`toUpperCase`/`toLowerCase`) covers the ASCII letters only.
- Values.ParseFloat: numbers are read as digits with an optional fraction, a sign and `Infinity`. An exponent (`parseFloat("1e3")` and `Number("1e3")` are 1000 in JavaScript) is not read: the model stops before the `e`, so `parseFloat` gives 1 and `Number` gives NaN. The `0x`, `0o` and `0b` forms that `Number` accepts are not read either, so `Number("0x10")` is NaN in the model and 16 in JavaScript. This carries over to `-`, `*`, `/` and loose equality in LegacyInterp.BinaryValue and LegacyInterp.Compare, to FLOAT and INT, and to DO bounds given as text.
- Values.StringToNumber: `Number(s)` has the same gap: no exponent and no `0x`/`0o`/`0b` prefix.
- Values.ParseFloatUnsigned: its finite, non-negative result is the value of the digits before any exponent.
- Builtins.CaseKeepsLength: LENGTH counts Unicode scalar values, not UTF-16 code units (see the next line); and UPPER and LOWER map only ASCII letters, so they always keep the length, while JavaScript's full case mapping can change it (`'ß'.toUpperCase()` is `'SS'`).
- Text and Lexer: a string is a sequence of Unicode scalar values, while JavaScript strings are sequences of UTF-16 code units. The two agree on text inside the Basic Multilingual Plane. A character outside it counts 1 here and 2 in JavaScript. That changes LENGTH, the lexer's `src[i]` indexing, token positions and the offset `k` in "Unexpected character 'c' at k". It also changes relational string comparison (Values.StrLess): JavaScript compares code units, so a character above U+FFFF sorts before one in U+E000–U+FFFF, while here it sorts after.
- JavaScript's `null` and `undefined` are both the value `Null`. The source mostly tests them together (`== null`, `??`). Where it prints them, `String(undefined)` is "undefined" but `Null` shows as "null". Where it tests `!== null` it tells them apart: a queued `undefined` input is bound by INPUT (input.js:217-218, 227-229), while here InputStmt.TakeNext's `Null` falls through to the terminal answer as a queued `null` does.
- InputStmt.ParseInput: reads the STREAM-HANDLE clause as it was evidently intended (`InputStmt.ParseStream`, see Findings). So `INPUT STREAM-HANDLE h` parses here, while src/mini4gl/statements/input.js:30-32 as written throws "Expected IDENT but got OP". The as-written clause is `InputStmt.StreamClauseAsWritten`, with `InputStmt.StreamHandleRejected`.
- InputStmt.Parse: computes `InputStmt.ParseInput`, so it too accepts `INPUT STREAM-HANDLE h`.
- BlockExec.RunWhile: a WHILE, REPEAT, DO WHILE or counted DO loop runs at most `fuel` passes, then ends with "iteration bound reached". The source keeps looping; a loop that never ends is not represented.
- LegacyInterp.Loop: legacy loops have the same `fuel` bound and the same "iteration bound reached" error.
- LegacyInterp.Interpret: the result of a run that throws carries only the message, not the lines output before the throw. The `Env` methods do keep those lines.
- The `onOutput` callback of `interpret4GL` is the `outputs` field of `LegacyInterp.Env`.
- Rich DISPLAY lines that hold widgets are modelled as their list of segments. How the page renders them is not part of this model.
- src/server.js, src/db.js, src/seedDatabase.js, prisma/seed.js and src/mini4gl/statements/widgetHelpers.js are not part of this model. Neither is the file that defines the interpreter's `context`.

## Findings

| source | as written | input that shows it | evidently intended | confidence | as-written member | corrected member |
|---|---|---|---|---|---|---|
| src/mini4gl/statements/input.js:30-39 | `parseStreamClause` checks for a STREAM token before it tries the STREAM-HANDLE lookahead, so the STREAM-HANDLE branch can never run | `INPUT STREAM-HANDLE h.` fails with "Expected IDENT but got OP" once STREAM has been eaten | try the longer STREAM-HANDLE form first, so that `INPUT STREAM-HANDLE h` reads a handle named `h` | not executed | InputStmt.StreamHandleRejected | InputStmt.StreamClauseCorrected |
| src/mini4gl/parser.js:2-81 | the tokenizer's KEYWORDS set lacks MESSAGE, so the word is lexed as an IDENT and the statement goes to the identifier parsers (ASSIGN) instead of the MESSAGE module that registers itself under `MESSAGE` (src/mini4gl/statements/message.js:168-172) | `MESSAGE "hi".` fails with "Expected OP but got STRING" | MESSAGE is a keyword, so the statement reaches `parseMessage` | not executed | Statements.MessageStatementRejected | MessageKeyword.CorrectedWordToken |

`InputStmt.ParseInput` uses the corrected clause `InputStmt.ParseStream`.

`MessageKeyword.MessageNeverLexed` shows that no token stream reaches the MESSAGE module as written. `Statements.MessageCorrected` shows that with the corrected word rule a MESSAGE statement is parsed by `MessageStmt.ParseMessage`. The shipped word rule `Lexer.WordToken` is kept for every other word (`MessageKeyword.CorrectedKeepsOtherWords`).
