# rql in Dafny: the rule language and its two JSONLogic front ends

rql translates a small rule language into JSONLogic trees. The language has
infix comparisons over `@variables`, `and`/`or`, `in`, `between`, `not`,
`if` chains and `let`/`const` declarations. The repository holds two
independent front ends. Each is a deterministic pipeline from source text
to tokens, to a syntax tree, to a JSON value, with no I/O inside. This
project models both pipelines and proves properties of the models.

## The primary pipeline (the command-line path)

- **Tokens** (`tokens.dfy`) are the token kinds of `internal/lexer/tokens.go`.
  They are a newtype over `int`, so a value outside the declared kinds
  exists and `TokenTypeString` can answer `"unknown"`. The module also
  holds the keyword map, `IsOneOfMany` and `NewToken`.
- **Lexer** (`lexer.dfy`) is the regex-table lexer of `internal/lexer/lexer.go`.
  - The pattern table is a function `PatternAt(i)` over the 26 entries, in
    table order.
  - Each regular expression is a hand-written prefix recogniser
    (`MatchAt`). Go's regexp engine is not modelled.
  - `class Lexer` keeps the Go fields `Tokens` and `position`. Its handler
    methods push and advance exactly as the Go handlers do.
  - `Tokenize` is a `while` loop over the table, proved equal to the
    functional `Lex`. A panic ("unexpected character") is an `Err`.
- **LexerProperties** gives an independent, per-character description of
  what the lexer does (`Scan`: the whitespace run, the `//…␠` comment,
  strings, numbers, variables, words and operators). It proves that
  first-match over the table computes exactly that description. From this
  it derives:
  - the operator precedence in the table;
  - the EOF-terminated shape of every token list;
  - that `not not` and `not in` are never produced;
  - where a panic can occur.
- **Lookups** (`lookups.dfy`) fills the four Pratt tables of
  `internal/parser/lookups.go` in `class Tables`, through the `register*`
  methods. The finished tables are constant functions (`Power`, `NudOf`,
  `LedOf`, `StatementOf`). The proofs show that:
  - every token with a binding power above the default has a led handler,
    so the "led handler expected" panic cannot happen;
  - re-running `createTokenLookups` changes nothing.
- **ParserSpec / Parser** model the Pratt parser of `internal/parser`
  (`expression.go`, `statement.go` and `main.go`).
  - ParserSpec gives each handler as a function from the token list and
    the state (position, errors) to a node and a new state, or to a panic.
  - The `class Parser` methods mutate `position` and `errors` as the Go
    code does. Each one is proved to agree with the function of the same
    name.
  - `Parse` keeps only the last non-empty group of expression statements.
- **Translator** (`translator.dfy`) lowers the tree to a `Value`
  (`Null | Bool | Num | Str | Arr | Obj`). It:
  - desugars `between` into an `and` of two comparisons;
  - flattens `and`/`or` chains with `combineConditions` (a loop proved
    against `Combine`);
  - panics (an `Err`) on nodes it cannot translate and on a non-map
    top-level result.

## The older pipeline (the HTTP path)

- **LegacyToken / LegacyLexer** model the byte scanner of
  `internal/parser/lexer.go` and `token.go`.
  - The input is a string of bytes: characters below 256.
  - Keywords are case-insensitive, through ASCII upper-casing.
  - `class Lexer` keeps `position`, `nextPosition` and `ch`. Its
    `read*`/`skip*` loops are proved against `NextTokenAt`.
- **LegacyParserSpec / LegacyParser** model the recursive-descent parser
  (`parser.go`, `operators.go`, `parser_expressions.go`, `parser_core.go`
  and `parser_literals.go`).
  - The parser state is the lexer position, the current token, the peeked
    token and the error list.
  - Termination is shown by a measure: bytes left plus non-EOF tokens held.
  - `parseFunctionCall`'s argument loop does not terminate in Go when an
    argument consumes nothing (for example at the end of input). The model
    detects exactly that case and returns `NoProgress`: the next Go
    iteration would start from the same state, so it loops for ever.
- **LegacyTransform** models `internal/parser/jsonlogic.go`. It differs
  from the primary translator:
  - `!` wraps its operand in a one-element array;
  - `===` becomes `==`;
  - `AND` is not flattened;
  - only the upper-case operator spellings are accepted.
- **LegacyPipeline** composes the stages as the HTTP handler does: it
  reports the first parse error when the tree is nil, then transforms.
- **LegacyParseShapes / LegacyExamples** are lemmas about the parse of
  whole inputs. They are generic over the input, given the tokens it
  lexes to. The examples run these lemmas over concrete inputs.
- A lemma whose name starts with `Example` fixes one concrete input. It
  illustrates a behaviour; the general statements are the other lemmas
  and the contracts of the functions and methods.

### Behaviour of the code that the tests or comments contradict

- **Single-quoted strings.** `internal/parser/lexer.go:109-136` closes a
  string only at `"`. So `@name == 'John'` yields the string `John'` (the
  closing `'` is kept), while `internal/parser/parser_test.go:17-20` expects
  `John`. The model follows the code (`LegacyExamples.ExampleSingleQuotedName`).
- **`LOG` calls.** `LOG` is a keyword token
  (`internal/parser/token.go:66`), and `parsePrimaryExpression` only
  builds calls from IDENTIFIER tokens. So `LOG(1)` is rejected, and the
  `"log"` case of `transformFunctionCall` can never be reached from the
  parser (`LegacyExamples.ExampleLogIsRejected`,
  `LegacyParserProperties.CallNeverTranslates`).
- **Lower-case `and`.** `and` lexes as AND, but the transform keys on
  the literal, so `1 and 2` fails to transform
  (`LegacyExamples.ExampleLowerCaseAnd`).
- **Unclosed calls.** `f(` makes the HTTP handler loop for ever
  (`LegacyExamples.ExampleUnclosedCallHangs`).
- **Lower-case `not in`.** NOT IN is recognised only when NOT is spelled
  in capitals (`internal/parser/parser_core.go:35-39`). A `not` or `!`
  before IN ends the comparison, and the rest of the input is dropped
  (`LegacyParserProperties.LowerCaseNotInDropsRest`).
- **`NextToken` and `nextToken`.** `internal/parser/parser.go:22` calls
  `p.lexer.NextToken()`, while `internal/parser/lexer.go:138` defines
  `nextToken`. As written the package does not build. The model takes
  both names for the one lexer method `LegacyLexer.NextTokenAt`.

## Model

| member | source | states |
|---|---|---|
| Tokens.IsOneOfMany | internal/lexer/tokens.go:79-81 | true exactly when the token's kind is in the list; false for the empty list |
| Tokens.NewToken | internal/lexer/tokens.go:83-88 | the token has exactly the given kind and literal |
| Tokens.TokenTypeStringNames | internal/lexer/tokens.go:90-178 | every declared kind has a name other than "unknown"; every other value is "unknown" |
| Tokens.TokenTypeStringInjective | internal/lexer/tokens.go:90-178 | distinct declared kinds have distinct names |
| Tokens.KeywordTable | internal/lexer/tokens.go:62-77 | the reserved words are exactly the 14 spellings; lookup is case-sensitive (`AND` is not a key); no keyword maps to IDENTIFIER or EOF; the NOT_NOT and NOT_IN keys contain a space |
| Json.ParseFloat | internal/parser/expression.go:39-43 | succeeds exactly on digit strings with at most one `.` and at least one digit, keeping the text as the value |
| Lookups.Tables.constructor | internal/parser/lookups.go:45-48 | the four tables start empty |
| Lookups.Tables.RegisterLed | internal/parser/lookups.go:51-54 | sets the binding power and the led handler of the token together, nothing else |
| Lookups.Tables.RegisterNud | internal/parser/lookups.go:57-59 | sets only the nud handler of the token |
| Lookups.Tables.RegisterStatement | internal/parser/lookups.go:62-65 | sets the statement handler and forces the token's power to default |
| Lookups.Tables.CreateTokenLookups | internal/parser/lookups.go:67-115 | each table becomes its old contents overwritten by the fixed entries; the led-coverage invariant is kept |
| Lookups.LedKeepsCovered | internal/parser/lookups.go:51-54 | a led registration keeps "every power above default has a led" |
| Lookups.StatementKeepsCovered | internal/parser/lookups.go:62-65 | a statement registration keeps the same invariant |
| Lookups.WithTablesCovered | internal/parser/lookups.go:67-115 | createTokenLookups keeps the invariant from any covered start |
| Lookups.WithTablesIdempotent | internal/parser/lookups.go:67-115 | running the registrations a second time (as every CreateParser does) leaves all four tables unchanged |
| Lookups.WithTablesFromEmpty | internal/parser/lookups.go:67-115 | from empty tables the registrations give exactly the constant tables the parser reads |
| Lookups.PowerChain | internal/parser/lookups.go:10-22 | default < comma < assignment < logical < relational < additive < multiplicative < unary < call < member < primary |
| Lookups.PowerFacts | internal/parser/lookups.go:69-89 | and/or are logical, the eight comparisons with in and between are relational, `=` is assignment; EOF, closers, separators and let/const have default power |
| Lookups.LedCoverage | internal/parser/expression.go:23-28 | a token has power above default exactly when it has a led handler, so the "led handler expected" panic is unreachable |
| Lookups.NudFacts | internal/parser/lookups.go:70-110 | NOT/NOT_NOT are prefix-only; the six literal kinds have the primary nud; if, `(` and `[` have theirs; NULL has none |
| Lookups.StatementFacts | internal/parser/lookups.go:113-114 | only let and const have statement handlers |
| Lexer.PatternAt | internal/lexer/lexer.go:113-146 | every table entry is well formed: a fixed pattern matches its own literal, and the string handler sits only on the two quote patterns |
| Lexer.MatchAt | internal/lexer/lexer.go:115-145 | every pattern match is at least one character long and lies within the remaining input |
| Lexer.FirstMatchFrom | internal/lexer/lexer.go:27-34 | a found match is a well-formed table entry that matches at offset 0 with the reported length |
| Lexer.Step | internal/lexer/lexer.go:25-39 | a successful step strictly advances and stays within the source |
| Lexer.Lexer.constructor | internal/lexer/lexer.go:108-112 | a new lexer is at position 0 with no tokens |
| Lexer.Lexer.AdvanceN | internal/lexer/lexer.go:88-90 | the position grows by exactly n |
| Lexer.Lexer.Push | internal/lexer/lexer.go:92-94 | the token list grows by exactly the pushed token |
| Lexer.Lexer.Default | internal/lexer/lexer.go:45-50 | pushes the fixed token and advances by its literal's length |
| Lexer.Lexer.NumberH | internal/lexer/lexer.go:52-56 | pushes NUMBER with the matched text and advances past it |
| Lexer.Lexer.StringH | internal/lexer/lexer.go:58-64 | pushes STRING with the text between the quotes and advances past both quotes |
| Lexer.Lexer.SymbolH | internal/lexer/lexer.go:66-75 | pushes the keyword kind for a reserved spelling, else IDENTIFIER, with the word as literal, and advances past it |
| Lexer.Lexer.VariableH | internal/lexer/lexer.go:77-81 | pushes VARIABLE with the `@` kept |
| Lexer.Lexer.SkipH | internal/lexer/lexer.go:83-86 | advances past the match and pushes nothing |
| Lexer.Lexer.Handle | internal/lexer/lexer.go:27-33 | runs the matched pattern's handler: the position and tokens advance as the pattern's emission prescribes |
| Lexer.Tokenize | internal/lexer/lexer.go:22-43 | the scan loop computes exactly `Lex`, the step-by-step functional lexer |
| LexerProperties.ScanIsFirstMatch | internal/lexer/lexer.go:27-34 | trying the table in order and taking the first match at offset 0 gives exactly the per-character recogniser `Scan` |
| LexerProperties.FirstOnSpace | internal/lexer/lexer.go:115 | on whitespace the table's first match agrees with `Scan`: the whole run is skipped and no token is pushed |
| LexerProperties.FirstOnSlash | internal/lexer/lexer.go:117 | on `/` the first match agrees with `Scan`: `//` is a comment only up to the last space on its line, and only if there is one; otherwise nothing matches |
| LexerProperties.FirstOnQuote | internal/lexer/lexer.go:119-120 | on a quote the first match agrees with `Scan`: STRING without the quotes up to the next quote of the same kind; with none, nothing matches |
| LexerProperties.FirstOnDigit | internal/lexer/lexer.go:121 | on a digit the first match agrees with `Scan`: a NUMBER `[0-9]+(\.[0-9]+)?` |
| LexerProperties.FirstOnAt | internal/lexer/lexer.go:122 | on `@` the first match agrees with `Scan`: VARIABLE when a letter follows; a bare `@` matches nothing |
| LexerProperties.FirstOnLetter | internal/lexer/lexer.go:123 | on a letter the first match agrees with `Scan`: the maximal word, typed by the keyword table |
| LexerProperties.FirstOnPunctuation | internal/lexer/lexer.go:125-145 | on a bracket, brace, parenthesis, `:`, `;` or `,` the first match agrees with `Scan`: its one-character token |
| LexerProperties.StrictEqualsWins | internal/lexer/lexer.go:132-133 | before `===` the first match agrees with `Scan`: STRICT_EQ, not `==` |
| LexerProperties.EqualsWins | internal/lexer/lexer.go:132-136 | before `==` not followed by `=` the first match agrees with `Scan`: EQ, not `=` |
| LexerProperties.AssignWins | internal/lexer/lexer.go:132-136 | before a lone `=` the first match agrees with `Scan`: ASSIGN |
| LexerProperties.StrictNotWins | internal/lexer/lexer.go:134-135 | before `!==` the first match agrees with `Scan`: NOT_STRICT_EQ, not `!=` |
| LexerProperties.NotEqualsWins | internal/lexer/lexer.go:134-137 | before `!=` not followed by `=` the first match agrees with `Scan`: NOT_EQ, not `!` |
| LexerProperties.NotWins | internal/lexer/lexer.go:134-137 | before a lone `!` the first match agrees with `Scan`: NOT, the kind the keyword `not` also has |
| LexerProperties.FirstOnGreater | internal/lexer/lexer.go:138-140 | on `>` the first match agrees with `Scan`: `>=` is taken before `>` |
| LexerProperties.FirstOnLess | internal/lexer/lexer.go:139-141 | on `<` the first match agrees with `Scan`: `<=` is taken before `<` |
| LexerProperties.FirstOnOther | internal/lexer/lexer.go:36-38 | on a character no pattern can start, no pattern matches, as in `Scan`, so the loop panics |
| LexerProperties.StepIsScan | internal/lexer/lexer.go:25-39 | one turn of the outer loop is `Scan` on the remaining input, or the panic when it finds nothing |
| LexerProperties.WordTokenOrdinary | internal/lexer/lexer.go:123 | a word token is never EOF, NOT_NOT or NOT_IN, since the spaced keys cannot be matched |
| LexerProperties.ScanOrdinary | internal/lexer/lexer.go:115-145 | no pattern emits EOF, NOT_NOT or NOT_IN |
| LexerProperties.StepOrdinary | internal/lexer/lexer.go:25-39 | no loop turn emits EOF, NOT_NOT or NOT_IN |
| LexerProperties.LexFromEnd | internal/lexer/lexer.go:41-42 | at the end of the source the single EOF token with literal "EOF" is pushed |
| LexerProperties.LexFromShape | internal/lexer/lexer.go:25-42 | the tokens so far are kept, then come only ordinary tokens, then one EOF |
| LexerProperties.LexFromPanic | internal/lexer/lexer.go:36-38 | a panic reports the remaining input at a position where `Scan` finds nothing |
| LexerProperties.LexEndsWithEof | internal/lexer/lexer.go:41-42 | Tokenize's result ends with exactly one EOF, and no token before it is EOF, NOT_NOT or NOT_IN |
| LexerProperties.LexPanicsOnlyUnmatched | internal/lexer/lexer.go:36-38 | Tokenize panics only where no pattern matches |
| ParserSpec.Current | internal/parser/main.go:61-63 | the current token exists exactly while the position is inside the list; otherwise an index panic |
| ParserSpec.Advance | internal/parser/main.go:65-69 | returns the current token and moves the position by exactly one |
| ParserSpec.ExpectError | internal/parser/main.go:92-104 | advances iff the current kind is the wanted one; otherwise panics with the custom error, or with "expected X, got Y" |
| ParserSpec.ExpectOneOf | internal/parser/main.go:75-86 | advances iff the current kind is in the list; otherwise panics |
| ParserSpec.Primary | internal/parser/expression.go:36-61 | a success moves strictly forward, stays within the token list and only appends errors, for every literal kind |
| ParserSpec.ParseExpression | internal/parser/expression.go:11-34 | a success moves strictly forward, stays within the token list and only appends errors; it stops on a token (never past the end) whose power is at most bp |
| ParserSpec.LedLoop | internal/parser/expression.go:23-31 | never moves backwards and only appends errors; it stops on a token whose power is at most bp |
| ParserSpec.Nud | internal/parser/expression.go:14-21 | a success moves strictly forward, stays within the token list and only appends errors, whichever nud handler runs |
| ParserSpec.Led | internal/parser/expression.go:25-30 | a success moves strictly forward, stays within the token list and only appends errors, whichever led handler runs |
| ParserSpec.Binary | internal/parser/expression.go:63-72 | a success moves strictly forward, stays within the token list and only appends errors |
| ParserSpec.Assignment | internal/parser/expression.go:91-99 | a success moves strictly forward, stays within the token list and only appends errors |
| ParserSpec.Prefix | internal/parser/expression.go:74-81 | a success moves strictly forward, stays within the token list and only appends errors |
| ParserSpec.Group | internal/parser/expression.go:83-89 | a success moves strictly forward, stays within the token list and only appends errors |
| ParserSpec.Array | internal/parser/expression.go:101-117 | a success moves strictly forward, stays within the token list and only appends errors |
| ParserSpec.ArrayElements | internal/parser/expression.go:105-111 | a success moves strictly forward, stays within the token list and only appends errors, from any point of the element loop |
| ParserSpec.If | internal/parser/expression.go:119-164 | a success moves strictly forward, stays within the token list and only appends errors |
| ParserSpec.IfArm | internal/parser/expression.go:125-132 | a success moves strictly forward, stays within the token list and only appends errors; it stops before the end |
| ParserSpec.IfBranches | internal/parser/expression.go:135-159 | the branch loop never moves backwards and only appends errors |
| ParserSpec.IfAfterComma | internal/parser/expression.go:136-158 | a success moves strictly forward, stays within the token list and only appends errors |
| ParserSpec.Between | internal/parser/expression.go:166-199 | a success started on `(` or `[` and ended on `)` or `]`, keeps `left`, and has Inclusive[0] iff it opened with `(` and Inclusive[1] iff it closed with `)`; any other opening token is the "expected ( or [" panic; a success moves forward and only appends errors |
| ParserSpec.BetweenBounds | internal/parser/expression.go:184-199 | a success keeps `left` and the given lower flag, ended on `)` or `]`, and has Inclusive[1] iff it closed with `)`; it moves forward and only appends errors |
| ParserSpec.ParseStatement | internal/parser/statement.go:10-22 | a success moves strictly forward, stays within the token list and only appends errors |
| ParserSpec.VarDeclaration | internal/parser/statement.go:24-36 | a success moves strictly forward, stays within the token list and only appends errors |
| Parser.Parser.constructor | internal/parser/main.go:16-23 | starts at position 0 with no errors over the given tokens |
| Parser.Parser.Advance | internal/parser/main.go:65-69 | returns the token at the old position and moves by one; an index panic past the end |
| Parser.Parser.ExpectError | internal/parser/main.go:92-104 | agrees with ParserSpec.ExpectError; on a mismatch without a custom error it appends exactly one "expected" error |
| Parser.Parser.Expect | internal/parser/main.go:88-90 | agrees with ParserSpec.Expect |
| Parser.Parser.ExpectOneOf | internal/parser/main.go:75-86 | the loop over the wanted kinds agrees with ParserSpec.ExpectOneOf |
| Parser.Parser.ParseExpression | internal/parser/expression.go:11-34 | the nud-then-led loop returns the node and state of ParserSpec.ParseExpression, or its panic |
| Parser.Parser.Nud | internal/parser/expression.go:14-21 | dispatches to the nud handler as ParserSpec.Nud |
| Parser.Parser.Led | internal/parser/expression.go:25-30 | dispatches to the led handler as ParserSpec.Led |
| Parser.Parser.ParsePrimaryExpression | internal/parser/expression.go:36-61 | agrees with ParserSpec.Primary, ParseFloat failures included |
| Parser.Parser.ParseBinaryExpression | internal/parser/expression.go:63-72 | agrees with ParserSpec.Binary |
| Parser.Parser.ParsePrefixExpression | internal/parser/expression.go:74-81 | agrees with ParserSpec.Prefix |
| Parser.Parser.ParseGroupExpression | internal/parser/expression.go:83-89 | agrees with ParserSpec.Group |
| Parser.Parser.ParseAssignmentExpression | internal/parser/expression.go:91-99 | agrees with ParserSpec.Assignment |
| Parser.Parser.ParseArrayExpression | internal/parser/expression.go:101-117 | the element loop agrees with ParserSpec.Array |
| Parser.Parser.ParseIfExpression | internal/parser/expression.go:119-164 | agrees with ParserSpec.If |
| Parser.Parser.ParseIfBranches | internal/parser/expression.go:134-159 | the branch loop agrees with ParserSpec.IfBranches |
| Parser.Parser.ParseIfArm | internal/parser/expression.go:125-132 | agrees with ParserSpec.IfArm |
| Parser.Parser.ParseBetweenExpression | internal/parser/expression.go:166-199 | agrees with ParserSpec.Between, so the flags follow the delimiters and other opening tokens panic |
| Parser.Parser.ParseBetweenBounds | internal/parser/expression.go:184-199 | agrees with ParserSpec.BetweenBounds, so Inclusive[1] follows the closing delimiter |
| Parser.Parser.ParseStatement | internal/parser/statement.go:10-22 | agrees with ParserSpec.ParseStatement |
| Parser.Parser.ParseVarDeclarationStatement | internal/parser/statement.go:24-36 | agrees with ParserSpec.VarDeclaration |
| Parser.Parse | internal/parser/main.go:25-59 | the group loop computes exactly ParserSpec.Parse |
| ParserProperties.ParseFromKeepsLastGroup | internal/parser/main.go:31-54 | from any point, the loop's result is the last non-empty group of the remaining items, or the body so far |
| ParserProperties.ParseKeepsLastGroup | internal/parser/main.go:25-59 | Parse keeps only the last non-empty group of expression statements; declarations are dropped; with none the body is empty |
| ParserProperties.GroupExampleLastAfterSeparator | internal/parser/main.go:31-42 | `a; b;` keeps [b] |
| ParserProperties.GroupExampleSameLine | internal/parser/main.go:43-54 | `a b` keeps [a, b] |
| ParserProperties.GroupExampleOnlySeparators | internal/parser/main.go:32-42 | separators alone leave the body empty |
| ParserProperties.GroupExampleDeclaration | internal/parser/main.go:43-46 | a declaration after `a;` is dropped and [a] is kept |
| ParserProperties.BinaryRightStops | internal/parser/expression.go:63-72 | a binary node keeps the left side and operator token, and its right side stops at a power at most the operator's, so equal powers associate left |
| ParserProperties.PrefixSwallowsRest | internal/parser/expression.go:74-81 | a prefix operand runs on to a token with default power and no led handler |
| ParserProperties.GroupAddsNoNode | internal/parser/expression.go:83-89 | `( e )` succeeds iff `e` parses and is followed by `)`, and yields e's node itself |
| ParserProperties.StatementKind | internal/parser/statement.go:10-22 | the statement is a declaration iff it starts with let or const |
| ParserProperties.VarDeclarationShape | internal/parser/statement.go:24-36 | a declaration needs IDENTIFIER then `=`; IsConstant iff `const`; the value stops at assignment power; a missing identifier panics with the custom error |
| ParserProperties.IfHasArm | internal/parser/expression.go:119-132 | an if-expression has at least one branch |
| ParserProperties.IfBranchesKeep | internal/parser/expression.go:134-159 | later arms only extend the branches already parsed |
| ParserProperties.ExampleLogicalLeftAssociative | internal/parser/expression.go:23-31 | `@a or @b and @c` parses as ((@a or @b) and @c) |
| ParserProperties.ExamplePrefixSwallows | internal/parser/expression.go:74-81 | `not @a and @b` parses as not(@a and @b) |
| ParserProperties.BetweenBoundsCloses | internal/parser/expression.go:184-199 | once both bounds parse, the range succeeds iff the next token is `)` or `]`, consuming it, with those bounds and Inclusive[1] iff `)`; otherwise it is the "expected ) or ]" panic |
| ParserProperties.ExampleBetweenFlags | internal/parser/expression.go:166-200 | `@x between [0, 10)` gives Inclusive = [false, true] |
| Translator.CombineConditions | internal/translator/jsonlogic/jsonlogic.go:123-143 | the append loop computes exactly `Combine`, the concatenation of each argument's contribution |
| Translator.TranslateAllFailsAt | internal/translator/jsonlogic/jsonlogic.go:52-57 | the first failing element's error is the array's error |
| Translator.TranslateExpression | internal/translator/jsonlogic/jsonlogic.go:26-61 | the recursive translation, with its array loop, computes `Translate` |
| Translator.TranslateBinaryExpression | internal/translator/jsonlogic/jsonlogic.go:66-83 | agrees with `Translate` on binary nodes |
| Translator.TranslatePrefixExpression | internal/translator/jsonlogic/jsonlogic.go:86-97 | agrees with `Translate` on prefix nodes |
| Translator.TranslateBetweenExpression | internal/translator/jsonlogic/jsonlogic.go:100-119 | agrees with `Translate` on between nodes |
| Translator.TranslateToJSONLogic | internal/translator/jsonlogic/jsonlogic.go:10-22 | agrees with `ToJsonLogic` |
| TranslatorProperties.CombineAppend | internal/translator/jsonlogic/jsonlogic.go:123-143 | combining a concatenation is concatenating the combinations, so argument order is kept |
| TranslatorProperties.CombineKeepsOrder | internal/translator/jsonlogic/jsonlogic.go:123-143 | without same-operator sides the result is exactly [l, r] |
| TranslatorProperties.CombineSplices | internal/translator/jsonlogic/jsonlogic.go:128-135 | a left side keyed by the operator contributes its array's elements in place |
| TranslatorProperties.CombineFlat | internal/translator/jsonlogic/jsonlogic.go:121-143 | combining flat arguments yields no element keyed by the operator |
| TranslatorProperties.TranslationFlat | internal/translator/jsonlogic/jsonlogic.go:65-79 | when no comparison token is spelled `and` or `or` (the lexer guarantees it), no element of a translated `and` (or `or`) list is itself a map keyed `and` (or `or`) |
| TranslatorProperties.LogicalStep | internal/translator/jsonlogic/jsonlogic.go:74-79 | and/or translate to {op.Literal: Combine(op.Literal, [l, r])} |
| TranslatorProperties.ComparisonStep | internal/translator/jsonlogic/jsonlogic.go:71-72 | comparisons and in translate to {op.Literal: [l, r]}, keyed by the token's own spelling |
| TranslatorProperties.ExampleAndChain | internal/translator/jsonlogic/jsonlogic.go:74-79 | `@a and @b and @c` yields one three-element `and` list |
| TranslatorProperties.BetweenDesugars | internal/translator/jsonlogic/jsonlogic.go:100-119 | a between translates exactly as the `and` of the two comparisons: `>=` iff Inclusive[0] else `>`, `<=` iff Inclusive[1] else `<` |
| TranslatorProperties.VariableDropsSigil | internal/translator/jsonlogic/jsonlogic.go:37-38 | `@name` becomes {"var": name} |
| TranslatorProperties.TranslateAllPointwise | internal/translator/jsonlogic/jsonlogic.go:52-57 | an array translates iff every element does, to the in-order list of the same length |
| TranslatorProperties.ToJsonLogicShape | internal/translator/jsonlogic/jsonlogic.go:10-22 | the result is always a map; zero or several expressions give {}; one expression succeeds iff its translation is a map |
| TranslatorProperties.ExampleComparison | internal/translator/jsonlogic/jsonlogic.go:66-72 | `@age > 18` gives {">": [{"var": "age"}, 18]} |
| TranslatorProperties.ExampleLoneLiteral | internal/translator/jsonlogic/jsonlogic.go:17-18 | a lone number at top level panics |
| TranslatorProperties.ExampleBetween | internal/translator/jsonlogic/jsonlogic.go:100-119 | `@x between [0, 10)` gives {"and": [{">": …}, {"<=": …}]} |
| TranslatorProperties.ExampleNot | internal/translator/jsonlogic/jsonlogic.go:90-91 | `not @d` gives {"!": {"var": "d"}}, with no array wrapper |
| LegacyToken.NewToken | internal/parser/token.go:12-17 | the token has exactly the given kind and literal |
| LegacyToken.ToUpper | internal/parser/token.go:70 | upper-cases byte by byte and keeps the length |
| LegacyToken.LookupIdentifier | internal/parser/token.go:69-75 | a word is a keyword iff its upper-cased form is a key, and then has that key's kind; otherwise IDENTIFIER |
| LegacyToken.ToUpperIdempotent | internal/parser/token.go:70 | upper-casing twice is upper-casing once |
| LegacyToken.LookupIgnoresCase | internal/parser/token.go:69-75 | the lookup gives the same kind for a word and its upper-cased form |
| LegacyToken.KeywordSet | internal/parser/token.go:61-67 | the keywords are exactly AND, OR, IN, NOT, LOG, with NOT mapping to BANG |
| LegacyToken.LookupAndAnyCase | internal/parser/token.go:69-75 | `and`, `And` and `AND` are all AND |
| LegacyToken.LookupNot | internal/parser/token.go:65 | `not` is BANG, the kind of `!` |
| LegacyToken.LookupWords | internal/parser/token_test.go:28-35 | `exp` and the empty word are IDENTIFIER |
| LegacyLexer.At | internal/parser/lexer.go:30-46 | the character read is always a byte, and anything but NUL comes from inside the input (past the end reads NUL) |
| LegacyLexer.EncodeRune | internal/parser/lexer.go:126-129 | a byte below 0x80 is one character, a higher byte two (its UTF-8 encoding) |
| LegacyLexer.LineCommentEnd | internal/parser/lexer.go:53-57 | a `//` comment runs to the first newline or NUL |
| LegacyLexer.BlockCommentEnd | internal/parser/lexer.go:58-64 | a block comment runs to `*/` or to the end of input |
| LegacyLexer.Skip | internal/parser/lexer.go:49-72 | skipping stops at the first position that starts no whitespace and no comment |
| LegacyLexer.IdentifierEnd | internal/parser/lexer.go:75-83 | an identifier is the maximal run of letters and `_` |
| LegacyLexer.VariableEnd | internal/parser/lexer.go:86-93 | a variable's tail is the maximal run of letters, digits and `_` |
| LegacyLexer.NumberEnd | internal/parser/lexer.go:96-106 | a number is digits and at most one `.`, stopping at the second dot or any other byte |
| LegacyLexer.StringBody | internal/parser/lexer.go:113-132 | the string body ends just after `"` or NUL |
| LegacyLexer.NextTokenAt | internal/parser/lexer.go:138-240 | each call moves forward; at or past the end it gives EOF |
| LegacyLexer.TokenAt | internal/parser/lexer.go:143-239 | each token moves forward; at or past the end it is EOF |
| LegacyLexer.Lexer.constructor | internal/parser/lexer.go:15-19 | the lexer starts on the first byte |
| LegacyLexer.Lexer.readChar | internal/parser/lexer.go:30-38 | position takes nextPosition, nextPosition grows by one, and ch is the byte there or NUL past the end |
| LegacyLexer.Lexer.peekChar | internal/parser/lexer.go:41-46 | the byte at nextPosition, or NUL past the end |
| LegacyLexer.Lexer.skipWhitespaceAndComments | internal/parser/lexer.go:49-72 | the loop stops exactly where `Skip` does |
| LegacyLexer.Lexer.skipLineComment | internal/parser/lexer.go:53-57 | the inner loop stops at `LineCommentEnd` |
| LegacyLexer.Lexer.skipBlockComment | internal/parser/lexer.go:58-67 | the inner loop stops at `BlockCommentEnd`, then consumes two more bytes |
| LegacyLexer.Lexer.readIdentifier | internal/parser/lexer.go:75-83 | returns the raw bytes up to `IdentifierEnd` |
| LegacyLexer.Lexer.readVariable | internal/parser/lexer.go:86-93 | returns `@` and the bytes up to `VariableEnd` |
| LegacyLexer.Lexer.readNumber | internal/parser/lexer.go:96-106 | returns the bytes up to `NumberEnd` |
| LegacyLexer.Lexer.readString | internal/parser/lexer.go:109-136 | the builder loop computes exactly `ReadString`, escapes decoded |
| LegacyLexer.Lexer.readOperator | internal/parser/lexer.go:144-186 | the lookahead branches give the token of `TokenAt` |
| LegacyLexer.Lexer.nextToken | internal/parser/lexer.go:138-240 | returns the token and the position of `NextTokenAt` |
| LegacyLexerProperties.OperatorConsumesLiteral | internal/parser/lexer.go:144-186 | an operator token's literal is what the input spells at that point, and the lexer moves past exactly it |
| LegacyLexerProperties.OperatorIsLongest | internal/parser/lexer.go:144-186 | no longer operator spelling is present at that point: `===` over `==` over `=`, `!==` over `!=` over `!`, `>=` over `>`, `<=` over `<` |
| LegacyLexerProperties.IdentifierToken | internal/parser/lexer.go:224-228 | a letter starts a maximal letter run, kept with its case, whose kind is LookupIdentifier of it |
| LegacyLexerProperties.VariableToken | internal/parser/lexer.go:216-218 | `@` starts VARIABLE with `@` kept, and the byte after it is swallowed |
| LegacyLexerProperties.NumberAtMostOneDot | internal/parser/lexer.go:96-106 | a number never holds two dots |
| LegacyLexerProperties.NumberToken | internal/parser/lexer.go:229-232 | a digit starts NUMBER: digits with at most one `.` |
| LegacyLexerProperties.IllegalExactly | internal/parser/lexer.go:233-235 | ILLEGAL comes exactly from bytes that start no token, one byte at a time |
| LegacyLexerProperties.EofRepeats | internal/parser/lexer.go:220-221 | at the end every call gives EOF again |
| LegacyLexerProperties.NulIsEof | internal/parser/lexer.go:220-221 | a NUL byte inside the input gives EOF |
| LegacyLexerProperties.ExampleSingleQuotedRunsOn | internal/parser/lexer.go:109-136 | `'John'` lexes as STRING `John'`: strings close only on `"` |
| LegacyLexerProperties.ExampleEscape | internal/parser/lexer.go:114-127 | `\"` inside a string is decoded to `"` |
| LegacyLexerProperties.ExampleVariableSwallowsNext | internal/parser/lexer.go:216-218 | in `@a)` the `)` is lost |
| LegacyLexerProperties.ExampleIdentifierStopsAtDigit | internal/parser/lexer.go:21-23 | `exp1` lexes as `exp` then `1` |
| LegacyParserSpec.Advance | internal/parser/parser.go:20-23 | peek moves into current and one new token is pulled; consuming a non-EOF token lowers the measure |
| LegacyParserSpec.AddError | internal/parser/parser.go:29-37 | appends exactly one error and keeps the earlier ones in order |
| LegacyParserSpec.Init | internal/parser/parser.go:12-18 | the current token is the first lexed token, with no errors |
| LegacyParserSpec.ParseExpression | internal/parser/parser_expressions.go:6-8 | never moves backwards, only adds errors, a nil result comes with a new error, and a success stops at a token other than OR |
| LegacyParserSpec.Or | internal/parser/parser_expressions.go:11-26 | the same soundness for OR chains; a success stops at a token other than OR |
| LegacyParserSpec.OrLoop | internal/parser/parser_expressions.go:14-24 | the OR loop returns nil only when it was given nil and consumed nothing, and stops only at a token other than OR |
| LegacyParserSpec.And | internal/parser/parser_expressions.go:29-44 | the same soundness for AND chains; a success stops at a token other than AND |
| LegacyParserSpec.AndLoop | internal/parser/parser_expressions.go:32-42 | the AND loop returns nil only when it was given nil and consumed nothing, and stops only at a token other than AND |
| LegacyParserSpec.Comparison | internal/parser/parser_core.go:6-32 | the same soundness for comparisons |
| LegacyParserSpec.ComparisonTail | internal/parser/parser_core.go:9-31 | after the left operand, a nil result either changes nothing or comes with a new error |
| LegacyParserSpec.ComparisonLoop | internal/parser/parser_core.go:20-30 | the comparison loop returns nil only when it was given nil and consumed nothing, and stops only at a token that is no comparison operator |
| LegacyParserSpec.NotIn | internal/parser/parser_core.go:42-75 | the same soundness for NOT IN |
| LegacyParserSpec.In | internal/parser/parser_core.go:78-101 | the same soundness for IN |
| LegacyParserSpec.Primary | internal/parser/parser_core.go:104-134 | the same soundness for primaries |
| LegacyParserSpec.Parenthesized | internal/parser/parser_core.go:137-147 | the same soundness for parentheses |
| LegacyParserSpec.Unary | internal/parser/parser_core.go:150-160 | the same soundness for unary operators |
| LegacyParserSpec.Array | internal/parser/parser_literals.go:6-50 | the same soundness for arrays |
| LegacyParserSpec.ArrayElements | internal/parser/parser_literals.go:28-42 | the same soundness for the element loop |
| LegacyParserSpec.ArrayClose | internal/parser/parser_literals.go:44-49 | the same soundness for the closing bracket |
| LegacyParserSpec.Call | internal/parser/parser_literals.go:53-79 | the same soundness for function calls |
| LegacyParserSpec.Arguments | internal/parser/parser_literals.go:62-71 | the same soundness for the argument loop |
| LegacyParser.Parser.constructor | internal/parser/parser.go:12-18 | two nextToken calls: current is the first token, peek the second |
| LegacyParser.Parser.nextToken | internal/parser/parser.go:20-23 | the state becomes `Advance` of the old state |
| LegacyParser.Parser.Errors | internal/parser/parser.go:25-27 | returns the accumulated errors unchanged |
| LegacyParser.Parser.addError | internal/parser/parser.go:29-37 | the state becomes `AddError` of the old state |
| LegacyParser.Parser.expectPeek | internal/parser/operators.go:58-65 | agrees with `ExpectPeek` |
| LegacyParser.Parser.ParseExpression | internal/parser/parser_expressions.go:6-8 | agrees with the spec's ParseExpression, divergence included, so the OR fold of `OrFolds` is what it builds |
| LegacyParser.Parser.parseOrExpression | internal/parser/parser_expressions.go:11-26 | the loop agrees with `Or`, so it builds the OR fold of `OrFolds` and stops off OR |
| LegacyParser.Parser.parseAndExpression | internal/parser/parser_expressions.go:29-44 | the loop agrees with `And`, so it builds the AND fold of `AndFolds` and stops off AND |
| LegacyParser.Parser.parseComparisonExpression | internal/parser/parser_core.go:6-32 | agrees with `Comparison`, so it builds the fold of `ComparisonFolds` |
| LegacyParser.Parser.comparisonLoop | internal/parser/parser_core.go:20-31 | the loop agrees with `ComparisonLoop`, so it folds onto its left operand and stops at a token that is no comparison operator |
| LegacyParser.Parser.parseNotInExpression | internal/parser/parser_core.go:42-75 | agrees with `NotIn` |
| LegacyParser.Parser.parseInExpression | internal/parser/parser_core.go:78-101 | agrees with `In` |
| LegacyParser.Parser.parsePrimaryExpression | internal/parser/parser_core.go:104-134 | agrees with `Primary` |
| LegacyParser.Parser.parseParenthesizedExpression | internal/parser/parser_core.go:137-147 | agrees with `Parenthesized` |
| LegacyParser.Parser.parseUnaryExpression | internal/parser/parser_core.go:150-160 | agrees with `Unary` |
| LegacyParser.Parser.parseVariable | internal/parser/parser_core.go:163-167 | agrees with `Primary` on a variable |
| LegacyParser.Parser.parseNumberLiteral | internal/parser/parser_core.go:170-174 | agrees with `Primary` on a number |
| LegacyParser.Parser.parseStringLiteral | internal/parser/parser_core.go:177-187 | agrees with `Primary` on a string |
| LegacyParser.Parser.parseIdentifier | internal/parser/parser_core.go:190-194 | agrees with `Primary` on an identifier not followed by `(` |
| LegacyParser.Parser.parseArrayLiteral | internal/parser/parser_literals.go:6-50 | the element loop agrees with `Array` |
| LegacyParser.Parser.parseFunctionCall | internal/parser/parser_literals.go:53-79 | the argument loop agrees with `Call`, divergence included |
| LegacyParserProperties.IdentifierIsNotKeyword | internal/parser/token.go:69-75 | an IDENTIFIER token is never a keyword in any case, and in particular never `LOG` |
| LegacyParserProperties.ArgumentsBuildCall | internal/parser/parser_literals.go:53-79 | a finished argument loop yields a FunctionCall named by the identifier's literal |
| LegacyParserProperties.CallNeverTranslates | internal/parser/jsonlogic.go:129-134 | every call the parser can build fails to transform, since its name is never `LOG` |
| LegacyParserProperties.NilComesWithError | internal/parser/parser_core.go:130-132 | a nil expression always comes with a new error |
| LegacyParserProperties.ParenthesesAddNoNode | internal/parser/parser_core.go:137-147 | a parenthesised expression is the inner node itself, and needs `)` |
| LegacyParserProperties.FoldThrough | internal/parser/parser_expressions.go:17-22 | a left fold onto `first op right` is a left fold onto `first` |
| LegacyParserProperties.OrLoopFolds | internal/parser/parser_expressions.go:14-24 | the OR loop's result is `left` with operands folded onto it from the left by OR tokens |
| LegacyParserProperties.AndLoopFolds | internal/parser/parser_expressions.go:32-42 | the AND loop's result is `left` with operands folded onto it from the left by AND tokens |
| LegacyParserProperties.ComparisonLoopFolds | internal/parser/parser_core.go:20-30 | the comparison loop's result is `left` with operands folded onto it from the left by comparison operators |
| LegacyParserProperties.OrFolds | internal/parser/parser_expressions.go:11-26 | a successful OR parse is the first AND-level parse with further operands folded onto it by OR |
| LegacyParserProperties.AndFolds | internal/parser/parser_expressions.go:29-44 | a successful AND parse is the first comparison with further operands folded onto it by AND |
| LegacyParserProperties.ComparisonFolds | internal/parser/parser_core.go:6-32 | when no IN or NOT IN follows the first primary, a comparison is that primary with further primaries folded onto it by comparison operators, and stops at a token that is none |
| LegacyParserProperties.ArrayElementsShape | internal/parser/parser_literals.go:28-49 | a non-nil element loop result is an array literal with the opening bracket's token, starting with the elements already read |
| LegacyParserProperties.ArrayShape | internal/parser/parser_literals.go:6-50 | a non-nil array parse is an array literal whose token is the opening bracket |
| LegacyParserProperties.NotInShape | internal/parser/parser_core.go:35-75 | on capital NOT then IN, a non-nil result is NOT over (left IN array), with the NOT and IN tokens and an array literal opened at the `[`; no `[` after IN gives nil with the "expected array" error |
| LegacyParserProperties.NotInNeedsCapitals | internal/parser/parser_core.go:9-17 | a BANG not spelled `NOT` before IN is no NOT IN: the comparison tail returns `left` unchanged at that token |
| LegacyParserProperties.LowerCaseNotInDropsRest | internal/parser/parser_core.go:9-12 | an operand followed by `not in` parses as the operand alone, stopping at `not` |
| LegacyParserProperties.InEndsComparison | internal/parser/parser_core.go:15-17 | on IN the comparison tail is exactly the IN parse, so no further comparison is chained after it |
| LegacyParserProperties.PrecedenceTable | internal/parser/operators.go:8-55 | LOWEST < LOGICAL < EQUALS < COMPARISON < PREFIX < CALL; AND/OR are LOGICAL, `==`/`!=` EQUALS, `>` and IN COMPARISON; `=` counts as a comparison operator but has LOWEST precedence; IN is not a comparison operator |
| LegacyParserProperties.ExpectPeekMeaning | internal/parser/operators.go:58-65 | advances iff peek has the kind; otherwise records exactly one error and does not move |
| LegacyTransform.JsonLogicOfAllFailsAt | internal/parser/jsonlogic.go:105-116 | the first failing element's error is the array's error |
| LegacyTransform.Transform | internal/parser/jsonlogic.go:12-33 | the recursive transform computes `JsonLogicOf`: operands first, then the operator check, the first error ending it |
| LegacyTransform.transformBinaryExpression | internal/parser/jsonlogic.go:36-70 | agrees with `JsonLogicOf` on binary nodes |
| LegacyTransform.transformUnaryExpression | internal/parser/jsonlogic.go:73-82 | agrees with `JsonLogicOf` on unary nodes |
| LegacyTransform.transformVariable | internal/parser/jsonlogic.go:85-89 | {"var": the name without its first byte}; an empty name, where slicing panics in Go, is an error |
| LegacyTransform.transformLiteral | internal/parser/jsonlogic.go:92-102 | a NUMBER literal whose text parses as a float becomes that number; every other literal keeps its text as a string |
| LegacyTransform.transformArrayLiteral | internal/parser/jsonlogic.go:105-116 | the indexed loop agrees with `JsonLogicOf` on arrays |
| LegacyTransform.transformFunctionCall | internal/parser/jsonlogic.go:119-135 | the indexed loop agrees with `JsonLogicOf` on calls |
| LegacyTransformProperties.AllPointwise | internal/parser/jsonlogic.go:105-116 | a list transforms iff every element does, to the in-order list of the same length |
| LegacyTransformProperties.SuccessMeansNilFree | internal/parser/jsonlogic.go:12-15 | a tree transforms only if it contains no nil node |
| LegacyTransformProperties.BinaryKeySpellings | internal/parser/jsonlogic.go:48-69 | exactly AND, OR, IN and the nine operator symbols are accepted; `=`/`==`/`===` become `==`, `!=`/`!==` become `!=`, the orderings keep their spelling; anything else, `and` included, is an unsupported-operator error |
| LegacyTransformProperties.OperandErrorFirst | internal/parser/jsonlogic.go:37-40 | the left operand's error is returned unchanged |
| LegacyTransformProperties.AndNotFlattened | internal/parser/jsonlogic.go:49-50 | `a AND b AND c` becomes {"and": [{"and": [a, b]}, c]} |
| LegacyTransformProperties.NegationWraps | internal/parser/jsonlogic.go:73-82 | a unary node over a transformable operand becomes {"!": [operand]}, whatever its operator |
| LegacyTransformProperties.OnlyLog | internal/parser/jsonlogic.go:119-135 | a call transforms iff its name is `LOG` and every argument transforms; an argument's error comes first |
| LegacyTransformProperties.LexedNumberIsNum | internal/parser/jsonlogic.go:92-97 | every NUMBER the lexer produces transforms to a number |
| LegacyTransformProperties.LexedVariable | internal/parser/jsonlogic.go:85-89 | every lexed variable becomes {"var": name after `@`} |
| LegacyPipeline.ServeTranslate | cmd/server/main.go:36-53 | an "invalid expression" reply carries the first error of a nil parse |
| LegacyPipeline.NilTreeHasError | cmd/server/main.go:41-43 | `Errors()[0]` always exists when the tree is nil |
| LegacyPipeline.ServedTreeIsNilFree | cmd/server/main.go:40-53 | a successful reply comes from a nil-free tree and is its transform |
| LegacyParseShapes.VariableComparedToLiteral | internal/parser/parser_core.go:20-31 | an input lexing to variable, operator, literal parses as that one binary node, using the whole input |
| LegacyParseShapes.NegatedVariable | internal/parser/parser_core.go:150-160 | `NOT @v` parses as a unary over the variable alone |
| LegacyParseShapes.OrLoopStep | internal/parser/parser_expressions.go:14-24 | one turn of the OR loop folds the next AND-level parse onto the left, and that parse has taken every AND after it |
| LegacyParseShapes.AndLoopStep | internal/parser/parser_expressions.go:32-42 | one turn of the AND loop folds the next comparison onto the left |
| LegacyParseShapes.ComparisonLoopStep | internal/parser/parser_core.go:20-30 | one turn of the comparison loop folds the next primary onto the left |
| LegacyParseShapes.NumbersOrAnd | internal/parser/parser_expressions.go:11-44 | number OR number AND number parses as OR(x, AND(y, z)) over the whole input |
| LegacyParseShapes.NumbersAndAnd | internal/parser/parser_expressions.go:29-44 | number AND number AND number parses as AND(AND(x, y), z) over the whole input |
| LegacyParseShapes.NumbersJoined | internal/parser/parser_expressions.go:29-44 | number, AND token, number parses as one binary node keeping the AND token's literal |
| LegacyParseShapes.UnclosedCall | internal/parser/parser_literals.go:62-76 | an identifier and `(` with nothing after them make the argument loop spin |
| LegacyParseShapes.RejectedStart | internal/parser/parser_core.go:130-132 | a first token no primary accepts gives nil with one "unexpected token" error |
| LegacyParseShapes.LeadingNumber | internal/parser/parser_expressions.go:6-8 | a number followed by anything not an operator parses as that number; the rest is ignored |
| LegacyExamples.ExampleAgeAbove18 | internal/parser/parser_test.go:13-16 | `@age > 18` serves {">": [{"var": "age"}, 18]} |
| LegacyExamples.ExampleSingleQuotedName | internal/parser/parser_test.go:17-20 | `@name == 'John'` serves {"==": [{"var": "name"}, "John'"]}, not the test's "John" |
| LegacyExamples.ExampleNotDeleted | internal/parser/parser_test.go:29-32 | `NOT @isDeleted` serves {"!": [{"var": "isDeleted"}]} |
| LegacyExamples.ExampleLowerCaseAnd | internal/parser/jsonlogic.go:48-69 | `1 and 2` parses but fails to transform: unsupported operator "and" |
| LegacyExamples.ExampleUnclosedCallHangs | internal/parser/parser_literals.go:62-76 | `f(` makes the parser loop for ever, so the handler never replies |
| LegacyExamples.ExampleLogIsRejected | internal/parser/parser_core.go:104-134 | `LOG(1)` is rejected as an unexpected LOG token |
| LegacyExamples.ExampleOrOfAnd | internal/parser/parser_expressions.go:11-44 | `1 OR 2 AND 3` parses as `1 OR (2 AND 3)` |
| LegacyExamples.ExampleAndFoldsLeft | internal/parser/parser_expressions.go:29-44 | `1 AND 2 AND 3` parses as `(1 AND 2) AND 3` |
| LegacyExamples.ExampleTrailingInputIgnored | cmd/server/main.go:40 | `1 2` serves 1: trailing input is ignored |

## Left out

- Go's regexp engine: each pattern is a hand-written recogniser of the same language, so only the patterns this lexer uses are covered.
- strconv.ParseFloat: numbers stay as their decimal text (`Float64(text)`), with no arithmetic. Success is modelled for exactly the shapes the lexers produce, and range overflow of huge literals is not modelled.
- unicode.IsLetter, IsDigit and IsSpace are defined on the Latin-1 range only, which holds every byte the older lexer reads.
- strings.ToUpper: ASCII upper-casing only. Go decodes the bytes as UTF-8 before upper-casing; non-ASCII bytes, valid UTF-8 or not, are not modelled. LookupIdentifier is unaffected, since no keyword has a non-ASCII byte.
- fmt-formatted messages: errors are datatype values that carry the same information. `addError` and `addErrorf` are one operation.
- Go panics and recover: a panic is an `Err` outcome carrying its kind.
- The package-level handler maps and their re-population on every CreateParser (a data race under concurrent use): the tables are fields of one `Tables` object, and the parser reads the constant tables that `WithTablesFromEmpty` shows they hold.
- CLI and HTTP plumbing (cobra flags, file reading, request decoding, status codes, JSON encoding) and `Token.Debug`, which only prints. `LegacyPipeline.ServeTranslate` keeps only the handler's decisions.
- The primary CLI path's composition of Tokenize, Parse and TranslateToJSONLogic is three calls in sequence and has no function of its own.
- LegacyParser.Parser.parseFunctionCall: a Go loop that runs for ever is modelled as the `NoProgress` outcome, detected when an iteration consumes nothing. The check after the loop that can never fire is not repeated.
- LegacyParserSpec.NotIn, In, Array, Call, Parenthesized, Unary: each requires the token that its only caller has already checked. The Go functions are unexported and are reached only through that check.
- ParserSpec.Primary, Nud, Led, Binary, Assignment, Prefix, Group, Array, If, ParseStatement, VarDeclaration: their own contracts state only progress and bounds. Their exact results are their definitions, which the `Parser` methods are proved to compute. What is proved about them is in the ParserProperties rows above: BinaryRightStops, PrefixSwallowsRest, GroupAddsNoNode, StatementKind, VarDeclarationShape, IfHasArm and IfBranchesKeep.
- LegacyParserSpec.Primary, ComparisonTail, NotIn, In, Parenthesized, Unary, Array, ArrayElements, ArrayClose, Call, Arguments: their own contracts state soundness only (progress, errors only appended, nil comes with an error). The shapes they build are stated by the LegacyParserProperties lemmas above. For ParseExpression, Or, And and Comparison, the left folds are stated by OrFolds, AndFolds and ComparisonFolds, not by their own contracts.
- Array literals (`[]`, trailing commas, element kinds) in both parsers, and the `hasTokens` guard against running past EOF in the primary parser: stated by the definitions only, with no separate lemma.
