# Arithmetic expression compiler, modelled in Dafny

The system compiles one line of arithmetic, such as `-(5 + 3) * 2`, in three
phases:

1. The **lexer** (`Lexer`) moves a cursor over the text. It skips spaces, tabs
   and line breaks. It reads each number as a maximal run of digits, with a
   fraction only when a digit follows the `.`. It turns each of
   `+ - * / ( )` into one token, ends the list with a single `EOF` token, and
   rejects any other character.
2. The **parser** (`Parser`) is a recursive-descent parser for

       expression ::= term ((PLUS | MINUS) term)*
       term       ::= factor ((MULTIPLY | DIVIDE) factor)*
       factor     ::= (PLUS | MINUS) factor | NUMBER | LPAREN expression RPAREN

   The two binary levels are loops that fold to the left. Leading signs nest
   to the right. Tokens left after the top-level expression are an error.
3. The **evaluator** (`Evaluator`) walks the tree (`NumberNode`,
   `BinaryOpNode`, `UnaryOpNode`). It fails on a division by zero or on an
   operator it does not know.

Modules and files:

- `outcomes.dfy` (`Outcomes`): `Option` and `Result`. A thrown exception
  becomes an `Err` that aborts the phases after it.
- `tokens.dfy` (`Tokens`): tokens and their printed form.
- `decimals.dfy` (`Decimals`): the lexeme shape `digit+ ('.' digit+)?` and its
  exact value.
- `ast.dfy` (`Ast`): the tree as a datatype and the fully parenthesised
  printer.
- `lexer.dfy` (`Lexing`): the scan step and the whole scan as functions of the
  text and a cursor position. Class `Lexer` holds the mutable cursor
  `pos`/`current`. Each of its methods is proved to compute what the
  corresponding function describes.
- `lexer_props.dfy` (`LexerProperties`): what the scan functions guarantee.
- `parser.dfy` (`Parsing`): each grammar rule as a function from the token
  list and a position to a tree and the next position. Each loop is its own
  function. Class `Parser` holds the mutable cursor and is proved against
  those functions.
- `parser_props.dfy` (`ParserProperties`): precedence, associativity, sign
  nesting, parentheses and error cases.
- `evaluator.dfy` (`Evaluation`): the tree walk over exact reals.
- `pipeline.dfy` (`Pipeline`): `Compile`, the three phases in sequence, and
  the imperative `CompileText` that drives the two classes.
- `demos.dfy` (`Demos`): the driver's ten demo inputs and four more edge
  cases, phase by phase.

Two facts about the parser's error reports:

- A missing `)` is reported as `MissingClosingParen` (Parser.java:67-69),
  without the expected and actual kinds. Only `expect`, which no rule calls,
  names them.
- A factor position holding a wrong token reports that token
  (`UnexpectedToken`, Parser.java:74).

## Model

| member | source | states |
|---|---|---|
| Tokens.WithoutValue | src/compiler/Token.java:16-18 | definition: the one-argument constructor, a token of that kind with no text; that the lexer uses it only for EOF is LexerProperties.TokenizeShape ("only EOF lacks a value") |
| Tokens.KindName | src/compiler/TokenType.java:6-15 | the printed name of a kind is a non-empty upper-case word |
| Tokens.ToString | src/compiler/Token.java:28-34 | the printed form starts with `Token(` and ends with `)`; it ends in `')` exactly when the token has a value |
| Tokens.ToStringInjective | src/compiler/Token.java:28-34 | two tokens that print alike are the same token, so the printed form keeps both kind and value |
| Tokens.KindNameInjective | src/compiler/TokenType.java:6-15 | distinct kinds print under distinct names |
| Decimals.WholeLexeme | src/compiler/Lexer.java:46-49 | a run of digits is a valid lexeme whose value is the integer it spells |
| Decimals.FractionLexeme | src/compiler/Lexer.java:52-61 | digits, `.`, digits form a valid lexeme whose value is the integer part plus the fraction digits over ten to their count, so it lies in [integer part, integer part + 1) |
| Ast.Print | src/compiler/ast/BinaryOpNode.java:36-38 | the three toString methods (also NumberNode.java:24 and UnaryOpNode.java:32): a number prints as its formatted value only; an inner node prints starting with `(` and ending with `)` |
| Ast.BinaryPrintEnclosed | src/compiler/ast/BinaryOpNode.java:37 | `(left op right)` is a single balanced bracket group when both children print balanced |
| Ast.UnaryPrintEnclosed | src/compiler/ast/UnaryOpNode.java:32 | `(op operand)` is a single balanced bracket group when the operand prints balanced |
| Ast.PrintBalanced | src/compiler/ast/NumberNode.java:23-25 | over all three toString methods (also BinaryOpNode.java:37 and UnaryOpNode.java:32): if numbers and operators print without parentheses, every printed tree is balanced and every inner node is one bracket group |
| Evaluation.Evaluate | src/compiler/Evaluator.java:13-15 | definition: `evaluate`, a match on the variant that calls its visit function; its meaning is stated by the lemmas below |
| Evaluation.VisitNumberNode | src/compiler/Evaluator.java:19-21 | definition: the value stored in the number node |
| Evaluation.VisitBinaryOpNode | src/compiler/Evaluator.java:25-39 | definition: left operand, then right operand, then ApplyBinary (see Evaluation.EvaluationOrder) |
| Evaluation.VisitUnaryOpNode | src/compiler/Evaluator.java:43-51 | definition: the operand, then ApplyUnary (see Evaluation.UnaryArithmetic) |
| Evaluation.ApplyBinary | src/compiler/Evaluator.java:30-38 | fails exactly on an operator outside `+ - * /` or a zero divisor; a quotient times the divisor is the dividend |
| Evaluation.ApplyUnary | src/compiler/Evaluator.java:47-50 | fails exactly on a sign outside `+ -`; the result keeps the value's magnitude |
| Evaluation.EvaluateSucceedsIff | src/compiler/Evaluator.java:13-51 | evaluation succeeds exactly when every operator is known and no divisor evaluates to zero |
| Evaluation.KnownOpsFailOnlyByDivision | src/compiler/Evaluator.java:33-38 | on a tree of known operators the only possible error is DivisionByZero |
| Evaluation.EvaluationOrder | src/compiler/Evaluator.java:26-28 | the left operand's error wins, then the right operand's, and only then is the operator applied |
| Evaluation.BinaryArithmetic | src/compiler/Evaluator.java:25-39 | `+ - * /` give sum, difference, product and quotient; division fails exactly on a zero divisor; any other operator is UnknownOperator |
| Evaluation.UnaryArithmetic | src/compiler/Evaluator.java:43-51 | unary `+` changes nothing, unary `-` negates, two minuses cancel, and any other operator is UnknownUnaryOperator |
| Lexing.CharAt | src/compiler/Lexer.java:19-25 | definition: what `current` holds at a position, the sentinel `'\0'` past the end |
| Lexing.SkipWs | src/compiler/Lexer.java:35-39 | the cursor stops at the first position that is not whitespace, never past the end |
| Lexing.DigitRunEnd | src/compiler/Lexer.java:46-49 | the cursor stops at the end of the maximal digit run, never past the end |
| Lexing.NumberEnd | src/compiler/Lexer.java:42-64 | where readNumber stops, never before the start nor past the end; its text is a maximal lexeme (LexerProperties.NumberLexeme) |
| Lexing.NextToken | src/compiler/Lexer.java:67-113 | a scan step fails exactly when the first non-whitespace character starts no token, naming that character; the cursor never goes back or past the end; EOF exactly when nothing after the whitespace is consumed |
| Lexing.TokenizeFrom | src/compiler/Lexer.java:116-126 | a successful scan ends in EOF and holds no earlier EOF |
| Lexing.Lex | src/compiler/Lexer.java:116-126 | definition: the scan of the whole text from position 0 |
| Lexing.Lexer.constructor | src/compiler/Lexer.java:16-20 | the cursor starts at 0 with `current` the first character or the sentinel |
| Lexing.Lexer.Advance | src/compiler/Lexer.java:23-26 | the cursor moves one position and `current` is what it then sees |
| Lexing.Lexer.Peek | src/compiler/Lexer.java:29-32 | returns the character after the cursor, or the sentinel past the end |
| Lexing.Lexer.SkipWhitespace | src/compiler/Lexer.java:35-39 | the loop ends where SkipWs says |
| Lexing.Lexer.AppendDigits | src/compiler/Lexer.java:46-49 | one digit loop: the cursor ends at the digit run's end and the buffer holds exactly the text read |
| Lexing.Lexer.ReadNumber | src/compiler/Lexer.java:42-64 | the token is the NUMBER of the text from the start to NumberEnd, and the cursor ends there |
| Lexing.Lexer.GetNextToken | src/compiler/Lexer.java:67-113 | returns NextToken's token and cursor, or its error |
| Lexing.Lexer.Tokenize | src/compiler/Lexer.java:116-126 | returns TokenizeFrom of the starting cursor |
| LexerProperties.NumberLexeme | src/compiler/Lexer.java:42-64 | a number read from a digit matches `digit+ ('.' digit+)?`, and no digit follows it |
| LexerProperties.NextTokenShape | src/compiler/Lexer.java:75-112 | every token a step yields is a NUMBER with a valid lexeme, a symbol carrying its character, or EOF without text |
| LexerProperties.NumberTokenIsMaximal | src/compiler/Lexer.java:46-61 | scanning a number stops at a non-digit, and a `.` followed by a digit is never left behind a fractionless number |
| LexerProperties.SymbolIsOneToken | src/compiler/Lexer.java:79-107 | each of `+ - * / ( )` yields one token of its kind whose text is that character, consuming exactly it |
| LexerProperties.WhitespaceProducesNoToken | src/compiler/Lexer.java:70-73 | a whitespace character under the cursor changes nothing in the scan |
| LexerProperties.BlankInputIsEof | src/compiler/Lexer.java:68-112 | an input made only of whitespace lexes to just EOF |
| LexerProperties.TokenizeShape | src/compiler/Lexer.java:116-126 | every scanned token has the lexer's shape, only EOF lacks a value, and there is at most one token per character plus EOF |
| LexerProperties.LexErrorNamesInputChar | src/compiler/Lexer.java:109 | a failed scan names `current` at the failing step, after its whitespace: a character of the input, not the sentinel, that starts no token |
| LexerProperties.TokenizeSame | src/compiler/Lexer.java:19-25 | two inputs that agree up to a sentinel position scan alike |
| LexerProperties.LexStopsAtSentinel | src/compiler/Lexer.java:68 | a `'\0'` in the text ends it: whatever follows is never read, and `'\0'` first lexes to just EOF |
| LexerProperties.NextTokenText | src/compiler/Lexer.java:67-113 | without `'\0'`, a token's text is the consumed text minus whitespace, and EOF comes only at the end |
| LexerProperties.TokenizeSpelling | src/compiler/Lexer.java:116-126 | without `'\0'`, the texts of all tokens, concatenated, are the rest of the input minus whitespace |
| LexerProperties.LexSpellsInput | src/compiler/Lexer.java:42-126 | without `'\0'`, the token texts before EOF, concatenated, are the input minus whitespace |
| LexerProperties.TokenizeReadsOnlyInputChars | src/compiler/Lexer.java:67-113 | a successful scan without `'\0'` has read only whitespace, digits, `.` and the six symbols |
| LexerProperties.ForeignCharacterFails | src/compiler/Lexer.java:109 | any other character anywhere in an input without `'\0'` makes lexing fail |
| Parsing.TokenAt | src/compiler/Parser.java:23-29 | definition: what `current` holds at a position, a synthetic EOF past the end |
| Parsing.ParseFactorAt | src/compiler/Parser.java:43-75 | a parsed factor consumes at least one token and no EOF |
| Parsing.ParseTermAt | src/compiler/Parser.java:79-90 | a parsed term consumes at least one token and no EOF |
| Parsing.ParseTermLoop | src/compiler/Parser.java:82-87 | the loop moves the cursor only forward, over non-EOF tokens |
| Parsing.ParseExpressionAt | src/compiler/Parser.java:94-105 | a parsed expression consumes at least one token and no EOF |
| Parsing.ParseExpressionLoop | src/compiler/Parser.java:97-102 | the loop moves the cursor only forward, over non-EOF tokens |
| Parsing.ParseFrom | src/compiler/Parser.java:108-116 | definition: an expression, then EOF or TrailingTokens (see ParserProperties.ParseReadsToEof) |
| Parsing.ParseTokens | src/compiler/Parser.java:108-116 | definition: ParseFrom at position 0 |
| Parsing.Parser.constructor | src/compiler/Parser.java:20-24 | the cursor starts at 0 with `current` the first token or a synthetic EOF |
| Parsing.Parser.Advance | src/compiler/Parser.java:27-30 | the cursor moves one token; past the end `current` is a synthetic EOF |
| Parsing.Parser.Expect | src/compiler/Parser.java:33-39 | the token of the expected kind is consumed; otherwise an error names both kinds and the cursor stays |
| Parsing.Parser.ParseFactor | src/compiler/Parser.java:43-75 | result and final cursor are those of ParseFactorAt |
| Parsing.Parser.ParseTerm | src/compiler/Parser.java:79-90 | result and final cursor are those of ParseTermAt |
| Parsing.Parser.ParseExpression | src/compiler/Parser.java:94-105 | result and final cursor are those of ParseExpressionAt |
| Parsing.Parser.Parse | src/compiler/Parser.java:108-116 | the result is that of ParseFrom: an expression followed by EOF, else TrailingTokens |
| ParserProperties.NumberFactor | src/compiler/Parser.java:58-61 | a NUMBER factor becomes a leaf of its lexeme's value, consuming one token |
| ParserProperties.FoldStepsLast | src/compiler/Parser.java:86 | in a left fold the last operator is at the root with all before it as its left operand: `a - b - c` is `(a - b) - c` |
| ParserProperties.TermLoopFoldsLeft | src/compiler/Parser.java:82-87 | the term loop folds any chain of `*`/`/` factors to the left and stops at the first other token |
| ParserProperties.TermLoopIsFold | src/compiler/Parser.java:82-87 | conversely, every result of the term loop is the left fold of the `*`/`/` factors it read, ending before a token that is not `*` or `/` |
| ParserProperties.TermParsesFactors | src/compiler/Parser.java:79-90 | a factor followed by a chain of `*`/`/` factors parses as a term to their left fold |
| ParserProperties.TermIsFoldOfFactors | src/compiler/Parser.java:79-90 | every parsed term is its first factor with the `*`/`/` factors after it folded on from the left |
| ParserProperties.ExpressionLoopFoldsLeft | src/compiler/Parser.java:97-102 | the expression loop folds any chain of `+`/`-` terms to the left and stops at the first other token |
| ParserProperties.ExpressionLoopIsFold | src/compiler/Parser.java:97-102 | conversely, every result of the expression loop is the left fold of the `+`/`-` terms it read |
| ParserProperties.ExpressionParsesTerms | src/compiler/Parser.java:94-105 | a term followed by a chain of `+`/`-` terms parses as an expression to their left fold |
| ParserProperties.ExpressionIsFoldOfTerms | src/compiler/Parser.java:94-105 | every parsed expression is its first term with the `+`/`-` terms after it folded on from the left |
| ParserProperties.ParseIsSumOfTerms | src/compiler/Parser.java:94-116 | precedence: a successful parse is a left fold of `+`/`-` rounds whose operands are all whole terms, followed by EOF |
| ParserProperties.SumOfTermsParses | src/compiler/Parser.java:94-116 | and back: a term, a chain of `+`/`-` terms and EOF parse to their left fold |
| ParserProperties.SignsNestToTheRight | src/compiler/Parser.java:47-55 | each leading sign wraps exactly one unary node, the first sign outermost; a failure of the inner factor is the failure of the whole |
| ParserProperties.ParenthesesAddNoNode | src/compiler/Parser.java:64-72 | a parenthesised expression yields the inner tree itself; a missing `)` is MissingClosingParen; an inner error passes through |
| ParserProperties.FactorRejects | src/compiler/Parser.java:74 | a token other than `+ - NUMBER (` where a factor, term or expression starts is UnexpectedToken naming it |
| ParserProperties.ParseReadsToEof | src/compiler/Parser.java:108-116 | on a list ending in its only EOF, parse succeeds exactly when the expression reads every token before EOF; otherwise TrailingTokens |
| Pipeline.Compile | src/compiler/Compiler.java:14-54 | definition: lex, parse, evaluate, stopping at the first phase that fails (see Pipeline.CompileFailures) |
| Pipeline.LexedTokensParse | src/compiler/Lexer.java:116-126 | the lexer's output is a well-formed token list for the parser, ending in its only EOF |
| Pipeline.LexedTreeKnownOps | src/compiler/Parser.java:83-101 | a tree parsed from lexed text holds only operators the evaluator knows |
| Pipeline.CompileSucceedsIff | src/compiler/Compiler.java:14-54 | lexed text compiles exactly when its tokens parse and no divisor evaluates to zero |
| Pipeline.CompileFailures | src/compiler/Compiler.java:14-54 | a lexical error occurs exactly when lexing fails, a syntax error exactly when lexing succeeds and parsing fails, and the only evaluation error is DivisionByZero |
| Pipeline.CompileText | src/compiler/Compiler.java:14-54 | running a Lexer, a Parser and the evaluator in sequence gives Compile's result |
| Demos.Precedence | src/compiler/Compiler.java:63 | `3 + 4 * 2`: its tokens, the tree `3 + (4 * 2)`, and the value 11 |
| Demos.GroupedProduct | src/compiler/Compiler.java:64 | `(1 + 2) * (3 + 4)`: its tokens, its tree, and the value 21 |
| Demos.GroupThenDifference | src/compiler/Compiler.java:65 | `(3 + 2) * 5 - 1`: its tokens, the tree `((3 + 2) * 5) - 1`, and the value 24 |
| Demos.NestedParentheses | src/compiler/Compiler.java:66 | `((3))`: its tokens, the tree `Num(3)` with no node for the parentheses, and the value 3 |
| Demos.Negation | src/compiler/Compiler.java:67 | `-3`: its tokens, the tree `Un(-, 3)`, and the value -3 |
| Demos.NegationThenSum | src/compiler/Compiler.java:68 | `-5 + 3`: its tokens, the tree `(-5) + 3`, and the value -2 |
| Demos.NegatedGroup | src/compiler/Compiler.java:69 | `-(5 + 3) * 2`: its tokens, the tree `(-(5 + 3)) * 2`, and the value -16 |
| Demos.ConsecutiveOperators | src/compiler/Compiler.java:85 | `3 + * 5` lexes, then fails to parse with UnexpectedToken on the `*` |
| Demos.EmptyParentheses | src/compiler/Compiler.java:86 | `()` lexes, then fails to parse with UnexpectedToken on the `)` |
| Demos.IncompleteGroup | src/compiler/Compiler.java:87 | `3 + (4 - )` lexes, then fails to parse with UnexpectedToken on the `)` |
| Demos.UnclosedGroup | src/compiler/Parser.java:67-69 | `(3 + 4` fails to parse with MissingClosingParen |
| Demos.Juxtaposed | src/compiler/Parser.java:111-113 | `3 4` fails to parse with TrailingTokens |
| Demos.DividedByZero | src/compiler/Evaluator.java:33-36 | `1 / 0` parses and then fails in evaluation with DivisionByZero |
| Demos.TrailingDot | src/compiler/Lexer.java:52 | `3.` fails to lex on the `.`, since no digit follows it |

## Left out

- Console I/O: the interactive loop, the printing between phases in
  `Compiler.compile`, and `main`'s demo loops are not modelled. The demo
  inputs are lemmas in `Demos` and the composition is `Pipeline.Compile`.
- Floating point: values are exact Dafny `real`s. Double rounding, overflow,
  infinities, NaN and `-0.0` are not modelled.
- `Double.parseDouble` is replaced by the exact value of the lexeme
  (`Decimals.DecimalValue`). It is defined only on `digit+ ('.' digit+)?`
  lexemes.
- Parsing.Parser.constructor: requires a well-formed token list. A NUMBER
  must carry a lexeme of the lexer's shape, and a binary operator must carry
  its text. The lexer's output always meets this
  (`Pipeline.LexedTokensParse`). On other lists Java may succeed with a value
  the model cannot express, or fail later than parsing, and none of that is
  modelled. `Double.parseDouble` accepts texts such as `1e5`, ` 7 `,
  `Infinity`, `0x1p3` or `2d`, and throws a NullPointerException on a null
  NUMBER value. A null operator text is not a parse error: the node is built
  with a null operator, prints as `null`, and the evaluator throws a
  NullPointerException on it.
- `String.valueOf(double)` in `NumberNode.toString` is the parameter `fmt` of
  `Ast.Print`. No claim is made that printing and re-parsing round-trip.
- Characters: a Java `String` is a sequence of UTF-16 code units and
  `current` is one code unit (Lexer.java:19, 25), while a Dafny `string` is a
  sequence of Unicode scalar values. For a character outside the Basic
  Multilingual Plane the lexer's error (`LexerProperties.LexErrorNamesInputChar`)
  carries the whole character, where Java names its first surrogate, and
  positions after such a character count differently. A lone surrogate, which
  a Java `String` can hold, cannot be written in the model.
- `Character.isDigit` is modelled on ASCII `'0'..'9'` only. Other Unicode
  digits are not covered.
- Exception classes and message texts become error datatypes (`LexError`,
  `ParseError`, `EvalError`, `CompileError`) that carry their reason; the
  message strings are not modelled.
- Lexing.Lexer.Advance: requires that `current` is not the sentinel. Every
  call site of the private `advance` in `Lexer.java` advances only over a
  real character, so the cursor never passes the end. Calling it at the end
  is not modelled.
- Getters and final fields of `Token`, `NumberNode`, `BinaryOpNode` and
  `UnaryOpNode` hold by construction of the datatypes: the destructors are
  the getters, and a datatype value never changes.
- `accept` and the visitor interface are a `match` on the tree's variant in
  `Evaluation.Evaluate`. `ASTNode`, `ASTVisitor` and `TokenType` only declare
  shapes, which are the datatype declarations.
- The Java `List<Token>` is a `seq<Token>` and a null token value is `None`.
- `Parsing.Parser.Expect` is modelled even though no rule calls it.
- A literal `'\0'` inside the text ends the input for the lexer
  (`LexerProperties.LexStopsAtSentinel`). This is the code's behaviour; the
  properties about spelling and accepted characters assume an input without
  `'\0'`.
