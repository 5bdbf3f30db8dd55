# Mini-Scheme interpreter core, modelled in Dafny

This project models the TypeScript Mini-Scheme interpreter (`ts-impl/src`): the
character-level `Tokenizer`, the recursive-descent `Parser`, the tree-walking
`Evaluator` with its `Environment`, the `primitives` table and the shared types
and error classes. The code is modelled as written, including where it differs
from the interpreter's own tests (see "Behaviour as written").

Modules, one per file:

- `Types` (types.ts): tokens, AST nodes and runtime values.
  - The `SchemeError` hierarchy, with its message formats.
  - Number lexemes, with the exact decimal value of the lexeme, without the rounding to a double that `parseFloat` does.
- `Primitives` (primitives.ts):
  - `+ - * /` as `reduce` with no initial value.
  - `cons`/`car`/`cdr` over a two-slot pair.
- `Tokenizer` (tokenizer.ts):
  - Each scanning loop is first a function of the input and a start position.
  - `Lex` is the whole token stream.
  - The `Tokenizer` class, with its `position` cursor and while-loops, is proved to compute exactly these functions.
- `Parser` (parser.ts):
  - `ParseForm`/`ParseListFrom` are the parser's mutual recursion as functions.
  - The `Parser` class is proved to agree with them.
  - Parsing is proved to be the exact inverse of writing a node back as tokens, on every node that holds no string node; the parser rejects string tokens.
- `Environment` (environment.ts): a class whose frames form a chain through an immutable `parent` link.
  - `Bindings()` is the one map the chain denotes.
  - `define` binds in the frame itself.
  - `get`/`has`/`set` search up the chain.
- `Evaluator` (evaluator.ts): `Eval` maps a node and the current bindings to a result and the bindings afterwards.
  - The `Evaluator` class's methods are proved equal to it, against the live `Environment`.
  - Lemmas state what `define`, `set!` and `if` do to the bindings.
  - With the root environment's seeding as written, every application fails.

## Model

| member | source | states |
|---|---|---|
| Types.NatToStringRoundTrip | ts-impl/src/tokenizer/tokenizer.ts:138 | the position printed in an invalid-character message is a digit string that reads back as that position |
| Types.IsDigit | ts-impl/src/tokenizer/tokenizer.ts:33-35 | (definition, no contract) true exactly on the ten ASCII digits `0`-`9` |
| Types.NumberValue | ts-impl/src/tokenizer/tokenizer.ts:57 | (definition) the exact decimal value of the lexeme, unrounded; the contract states only its sign: non-negative without a leading `-`, non-positive with one |
| Types.SpecialFormOf | ts-impl/src/types/types.ts:38 | a name is a special form exactly when it is `define`, `set!` or `if`, and the form found has that keyword |
| Types.KeywordRoundTrip | ts-impl/src/types/types.ts:38 | each special form is recognised from its own keyword |
| Types.SubclassMessages | ts-impl/src/types/types.ts:40-65 | UndefinedVariableError, InvalidArgumentError and ConditionalError messages are their fixed prefix followed by the name or detail; all three are SchemeErrors |
| Primitives.Reduce | ts-impl/src/evaluator/primitives.ts:2-5 | `reduce` with no initial value fails exactly on the empty array and returns a lone element unchanged |
| Primitives.Arithmetic | ts-impl/src/evaluator/primitives.ts:2-5 | an arithmetic entry fails on an empty array with the `reduce` TypeError and returns a lone argument of any type unchanged; with two or more arguments, all numbers (and non-zero divisors for `/`) it succeeds with their `reduce`, and only then |
| Primitives.ReduceIsLeftFold | ts-impl/src/evaluator/primitives.ts:2-5 | `reduce` is a left fold: appending an argument combines it with the result for the earlier arguments |
| Primitives.ReduceAdd | ts-impl/src/evaluator/primitives.ts:2 | `+` is the first argument plus the sum of the rest |
| Primitives.ReduceSub | ts-impl/src/evaluator/primitives.ts:3 | `-` is the first argument minus the sum of the rest |
| Primitives.ReduceMul | ts-impl/src/evaluator/primitives.ts:4 | `*` is the first argument times the product of the rest |
| Primitives.ReduceDiv | ts-impl/src/evaluator/primitives.ts:5 | `/` with non-zero divisors is the first argument over the product of the rest |
| Primitives.ArithmeticEmptyAndSingle | ts-impl/src/evaluator/primitives.ts:2-5 | with no arguments every arithmetic entry fails; with one argument it returns that argument unchanged |
| Primitives.MakePair | ts-impl/src/evaluator/primitives.ts:6 | `car` and `cdr` of `cons(a, b)` are `a` and `b` |
| Primitives.First | ts-impl/src/evaluator/primitives.ts:7 | `car` gives a pair's first slot or a non-empty string's first character, throws on `null`, and fails on everything else |
| Primitives.Second | ts-impl/src/evaluator/primitives.ts:8 | `cdr` gives a pair's second slot or the second character of a string of two or more, throws on `null`, and fails on everything else |
| Primitives.PairEta | ts-impl/src/evaluator/primitives.ts:6-8 | every pair is `cons` of its `car` and `cdr` |
| Tokenizer.IsWhitespace | ts-impl/src/tokenizer/tokenizer.ts:29-31 | (definition, no contract) true exactly on space, tab, line feed, carriage return, vertical tab and form feed |
| Tokenizer.IsSymbolChar | ts-impl/src/tokenizer/tokenizer.ts:37-40 | (definition, no contract) true exactly on ASCII letters, digits and `+ - * / < > = ! ? _ #` |
| Tokenizer.NumberLexemeShape | ts-impl/src/tokenizer/tokenizer.ts:42-59 | from a number start, the lexeme read is non-empty, has the shape `-?[0-9]+(\.[0-9]*)?`, and is the longest such lexeme there |
| Tokenizer.EscapeRoundTrip | ts-impl/src/tokenizer/tokenizer.ts:66-75 | every text has a literal body that decodes back to it through the escape rules |
| Tokenizer.ScanStringSound | ts-impl/src/tokenizer/tokenizer.ts:61-90 | when the string loop stops at a quote, it has read a well-formed body and built the text that body denotes |
| Tokenizer.ScanStringComplete | ts-impl/src/tokenizer/tokenizer.ts:61-90 | a well-formed body followed by a quote is read up to exactly that quote, giving its decoded text |
| Tokenizer.UnterminatedMeansNoClosingQuote | ts-impl/src/tokenizer/tokenizer.ts:81-83 | the string loop runs to the end of input exactly when no quote closes a well-formed body |
| Tokenizer.SymbolRunMaximal | ts-impl/src/tokenizer/tokenizer.ts:92-96 | a symbol is the maximal run of symbol characters |
| Tokenizer.Classify | ts-impl/src/tokenizer/tokenizer.ts:102-108 | exactly the runs `#t` and `#f` become booleans true and false; every other run is a symbol token |
| Tokenizer.NextToken | ts-impl/src/tokenizer/tokenizer.ts:114-139 | one pass of the tokenize loop always moves the cursor forward unless it throws, and it throws exactly on an unterminated string or a character that can begin no token |
| Tokenizer.LexEmpty | ts-impl/src/tokenizer/tokenizer.ts:111-143 | empty input gives no tokens |
| Tokenizer.LexSkipsWhitespace | ts-impl/src/tokenizer/tokenizer.ts:117-120 | whitespace produces no token |
| Tokenizer.LexSingleCharacterTokens | ts-impl/src/tokenizer/tokenizer.ts:122-130 | `(`, `)` and `'` each produce one token and consume one character |
| Tokenizer.LexRejects | ts-impl/src/tokenizer/tokenizer.ts:137-138 | a character that can begin no token, where a token starts, is reported as an invalid character at its own position |
| Tokenizer.LexErrors | ts-impl/src/tokenizer/tokenizer.ts:137-138 | tokenizing fails only with an unterminated string or an invalid character, and the latter reports the position of a character that can begin no token |
| Tokenizer.LexSymbolsWellFormed | ts-impl/src/tokenizer/tokenizer.ts:92-108 | every symbol token is a non-empty run of symbol characters other than `#t` and `#f` |
| Tokenizer.QuotedStringTokenizes | ts-impl/src/tokenizer/tokenizer.ts:131-132 | a quoted, escaped text tokenizes to one string token holding that text |
| Tokenizer.Tokenizer.constructor | ts-impl/src/tokenizer/tokenizer.ts:7-10 | the cursor starts at 0 over the given input |
| Tokenizer.Tokenizer.Peek | ts-impl/src/tokenizer/tokenizer.ts:13-15 | the current character, or the empty string at the end |
| Tokenizer.Tokenizer.Advance | ts-impl/src/tokenizer/tokenizer.ts:18-27 | returns the current character and steps past it; at the end returns the empty string and stays |
| Tokenizer.Tokenizer.ReadNumber | ts-impl/src/tokenizer/tokenizer.ts:42-59 | stops where the number lexeme ends and returns the number token of exactly the characters consumed |
| Tokenizer.Tokenizer.ReadEscaped | ts-impl/src/tokenizer/tokenizer.ts:68-75 | decodes `\n \t \" \\` and keeps any other escaped character |
| Tokenizer.Tokenizer.ReadStringChar | ts-impl/src/tokenizer/tokenizer.ts:66-78 | one pass of the string loop: a plain character is taken as itself; a backslash and the character after it give the decoded escape; a backslash at the end of input gives nothing |
| Tokenizer.Tokenizer.ReadStringBody | ts-impl/src/tokenizer/tokenizer.ts:63-79 | stops at the first unescaped quote or at the end of input, having built exactly the text the body scan denotes |
| Tokenizer.Tokenizer.ReadString | ts-impl/src/tokenizer/tokenizer.ts:61-90 | returns the decoded string and steps past the closing quote, or fails with "Unterminated string" at the end of input |
| Tokenizer.Tokenizer.ReadSymbol | ts-impl/src/tokenizer/tokenizer.ts:92-109 | consumes the maximal symbol run and classifies it, or reports an invalid character when the run is empty |
| Tokenizer.Tokenizer.ScanToken | ts-impl/src/tokenizer/tokenizer.ts:115-139 | one pass of the tokenize loop: skips whitespace, reads one token, or fails exactly as the one-step lexer does at the cursor |
| Tokenizer.Tokenizer.Tokenize | ts-impl/src/tokenizer/tokenizer.ts:111-143 | terminates, and returns exactly the tokens (or the error) that `Lex` gives for the rest of the input |
| Parser.AtomOf | ts-impl/src/parser/parser.ts:27-39 | number, boolean and symbol tokens become leaves of the same kind and value; any other token is an unexpected token type |
| Parser.ParseForm | ts-impl/src/parser/parser.ts:62-81 | a successful parse consumes at least one token and stays within the tokens |
| Parser.ParseListFrom | ts-impl/src/parser/parser.ts:41-55 | a successfully parsed list consumes at least its closing parenthesis and is a list node |
| Parser.ParseUnparse | ts-impl/src/parser/parser.ts:62-81 | wherever the tokens of a parseable node start, parsing returns that node and stops just after its tokens, whatever follows |
| Parser.ParseUnparseList | ts-impl/src/parser/parser.ts:69-71 | the tokens of a parseable list node, wherever they start, parse back to that list and stop just after its `)` |
| Parser.ParseUnparseQuote | ts-impl/src/parser/parser.ts:57-60 | `'` followed by the tokens of a parseable node parses back to the quote node and stops just after those tokens |
| Parser.ParseListUnparse | ts-impl/src/parser/parser.ts:41-55 | elements written out and closed by `)` are parsed back, in order, into the list |
| Parser.ParseSound | ts-impl/src/parser/parser.ts:62-81 | whatever parsing accepts is a parseable node whose tokens are exactly those consumed |
| Parser.ParseListSound | ts-impl/src/parser/parser.ts:41-55 | the element loop returns the elements already read followed by parseable elements whose tokens, with `)`, are exactly those consumed |
| Parser.ParseAtEnd | ts-impl/src/parser/parser.ts:62-65 | parsing with no tokens left fails with "Unexpected end of input" |
| Parser.ParseRejectsLeadingToken | ts-impl/src/parser/parser.ts:78-80 | a leading `)` or string token fails with "Unexpected token type" naming its type |
| Parser.ParseListUnclosed | ts-impl/src/parser/parser.ts:45-51 | elements running to the end of the tokens without `)` fail with "Unclosed parenthesis" |
| Parser.UnclosedParenthesisReported | ts-impl/src/parser/parser.ts:41-51 | `(` followed by elements and nothing else fails with "Unclosed parenthesis" |
| Parser.StringLiteralRejected | ts-impl/src/parser/parser.ts:69-80 | a string token cannot be parsed: it fails with "Unexpected token type: string" |
| Parser.Parser.constructor | ts-impl/src/parser/parser.ts:7-10 | the cursor starts at 0 over the given tokens |
| Parser.Parser.Peek | ts-impl/src/parser/parser.ts:12-14 | the current token, or nothing past the end |
| Parser.Parser.Advance | ts-impl/src/parser/parser.ts:16-25 | returns the current token and steps past it; past the end returns nothing and stays |
| Parser.Parser.ParseAtom | ts-impl/src/parser/parser.ts:27-39 | consumes one token and returns its leaf, or the unexpected-token error |
| Parser.Parser.ParseList | ts-impl/src/parser/parser.ts:41-55 | agrees with `ParseListFrom` after the `(`: the same list and end position, or the same error |
| Parser.Parser.ParseQuote | ts-impl/src/parser/parser.ts:57-60 | returns a quote node wrapping exactly the next parsed form |
| Parser.Parser.Parse | ts-impl/src/parser/parser.ts:62-81 | agrees with `ParseForm`: the same node and end position, or the same error |
| Environment.Lookup | ts-impl/tests/evaluatorVarAssign.test.ts:106-110 | a lookup succeeds exactly on a bound name, with its value, and otherwise fails with UndefinedVariableError naming it |
| Environment.Environment.constructor | ts-impl/src/evaluator/environment.ts:5-8 | a new frame has no bindings of its own and records the given parent, or none |
| Environment.Environment.Has | ts-impl/src/evaluator/evaluator.ts:99 | true exactly when some frame of the chain binds the name |
| Environment.Environment.Get | ts-impl/src/evaluator/environment.ts:14-16 | the innermost binding of the name, or UndefinedVariableError |
| Environment.Environment.Define | ts-impl/src/evaluator/environment.ts:10-12 | binds the name in this frame, overwriting; the chain's bindings change only at that name |
| Environment.Environment.Set | ts-impl/src/evaluator/environment.ts:18-20 | rebinds the name in the innermost frame that binds it, and no other frame's bindings change; on an unbound name fails with UndefinedVariableError and changes nothing |
| Evaluator.HeadText | ts-impl/src/evaluator/evaluator.ts:62 | (definition, no contract) the text `${first.value}` gives for the head: a symbol's name, a string's text, `true`/`false`, a number's lexeme, and `[object Object]` joined by commas for a list |
| Evaluator.Eval | ts-impl/src/evaluator/evaluator.ts:26-72 | (definition, no contract) `evaluate` as a function from a node and the bindings before to a result and the bindings after: literals give their value, a symbol its lookup, `()` gives `null`, a list headed by a special-form keyword goes to that form, any other list evaluates its head, checks it is callable, evaluates the arguments and calls; a quote node fails; its properties are the lemmas below |
| Evaluator.EvalArgs | ts-impl/src/evaluator/evaluator.ts:65 | (definition, no contract) the arguments evaluated left to right, each against the bindings the previous one left, stopping at the first error |
| Evaluator.EvalDefine | ts-impl/src/evaluator/evaluator.ts:74-87 | (definition, no contract) checks two arguments and a symbol name, evaluates the value and binds it, returning `null`; see `Evaluator.DefineBinds` |
| Evaluator.EvalSet | ts-impl/src/evaluator/evaluator.ts:89-106 | (definition, no contract) checks two arguments, a symbol name and that the name is bound, evaluates the value and rebinds it, returning `null`; see `Evaluator.SetBoundUpdates` |
| Evaluator.EvalIf | ts-impl/src/evaluator/evaluator.ts:108-124 | (definition, no contract) checks two or three arguments, evaluates the test and then the consequent unless the test is `false`, else the alternative or `null`; see `Evaluator.IfSelectsOneBranch` |
| Evaluator.CallSpread | ts-impl/src/evaluator/evaluator.ts:66 | with the arguments spread, an arithmetic entry can succeed only when its first argument is a pair; `cons` of two or more arguments pairs the first two |
| Evaluator.Evaluator.constructor | ts-impl/src/evaluator/evaluator.ts:15-24 | a root evaluator's frame holds exactly the primitives table, each name bound to the bare function; a child frame starts empty under its parent |
| Evaluator.Evaluator.Evaluate | ts-impl/src/evaluator/evaluator.ts:26-72 | the result and the environment's bindings afterwards are those `Eval` gives from the bindings before |
| Evaluator.Evaluator.EvaluateArgs | ts-impl/src/evaluator/evaluator.ts:65 | evaluates the arguments left to right, stopping at the first error, with the result and bindings `EvalArgs` gives |
| Evaluator.Evaluator.EvaluateDefine | ts-impl/src/evaluator/evaluator.ts:74-87 | agrees with `EvalDefine` on result and bindings |
| Evaluator.Evaluator.EvaluateSet | ts-impl/src/evaluator/evaluator.ts:89-106 | agrees with `EvalSet` on result and bindings |
| Evaluator.Evaluator.EvaluateIf | ts-impl/src/evaluator/evaluator.ts:108-124 | agrees with `EvalIf` on result and bindings |
| Evaluator.EvalKeysGrow | ts-impl/src/evaluator/evaluator.ts:74-106 | evaluation never unbinds a name |
| Evaluator.ArgsKeysGrow | ts-impl/src/evaluator/evaluator.ts:65 | evaluating the arguments never unbinds a name |
| Evaluator.EvalFrame | ts-impl/tests/evaluatorVarAssign.test.ts:142-152 | every name that no `define` or `set!` inside the node names keeps its binding, or stays unbound |
| Evaluator.ArgsFrame | ts-impl/src/evaluator/evaluator.ts:65 | the same for the argument list of an application |
| Evaluator.SpecialFormsDispatch | ts-impl/src/evaluator/evaluator.ts:48-57 | a list headed by `define`, `set!` or `if` goes to that special form whatever the bindings hold |
| Evaluator.DefineThenGet | ts-impl/tests/evaluatorVarAssign.test.ts:19-25 | evaluating `(define x e)` and then `x` gives `null` and then the value of `e`; every other name is as the evaluation of `e` left it |
| Evaluator.Redefine | ts-impl/tests/evaluatorVarAssign.test.ts:36-44 | `(define x e1)`, `x`, `(define x e2)`, `x` give `null`, the value of `e1`, `null`, the value of `e2`: a redefinition replaces the earlier value |
| Evaluator.DefineBinds | ts-impl/src/evaluator/evaluator.ts:74-87 | `define` returns `null` and binds the name to the value, and looking it up gives the value; other names keep what the value's evaluation left |
| Evaluator.AssignmentShapeErrors | ts-impl/src/evaluator/evaluator.ts:74-95 | `define` and `set!` with other than two arguments or a non-symbol name fail with InvalidArgumentError and change nothing |
| Evaluator.SetUnboundFails | ts-impl/src/evaluator/evaluator.ts:99-101 | `set!` of an unbound name fails with UndefinedVariableError before evaluating the value, leaving the bindings unchanged |
| Evaluator.SetBoundUpdates | ts-impl/src/evaluator/evaluator.ts:89-106 | `set!` of a bound name returns `null` and rebinds it to the value; other names keep what the value's evaluation left |
| Evaluator.IfArity | ts-impl/src/evaluator/evaluator.ts:109-111 | `if` with other than two or three arguments fails with ConditionalError and changes nothing |
| Evaluator.IfSelectsOneBranch | ts-impl/src/evaluator/evaluator.ts:113-123 | only the value `false` selects the alternative; exactly one branch is evaluated; two arguments and a false test give `null` |
| Evaluator.OnlyFalseIsFalse | ts-impl/src/evaluator/evaluator.ts:116-118 | zero, the empty string and the empty list are true; `#f` is false |
| Evaluator.AtomsLeaveBindings | ts-impl/src/evaluator/evaluator.ts:26-70 | literals give their value, a symbol its lookup, `()` gives `null`, a quote node fails; none of them changes the bindings |
| Evaluator.EvalNoProcedures | ts-impl/src/evaluator/evaluator.ts:60-63 | from bindings without `{type:'primitive'}` objects, evaluation neither produces nor binds one |
| Evaluator.NotAProcedure | ts-impl/src/evaluator/evaluator.ts:59-63 | a head that evaluates to anything but a `{type:'primitive'}` object fails with SchemeError "<head> is not a procedure", leaving the head's bindings and evaluating no argument |
| Evaluator.ApplicationsFail | ts-impl/src/evaluator/evaluator.ts:59-63 | with no `{type:'primitive'}` object bound, every application fails, with the head's own error or with "<head> is not a procedure", and no argument is evaluated |
| Evaluator.SeededBindings | ts-impl/src/evaluator/evaluator.ts:18-23 | the root bindings are exactly the seven table names, each bound to the bare function |
| Evaluator.RootAdditionFails | ts-impl/src/evaluator/evaluator.ts:60-63 | in a root evaluator `(+ 1 2)` fails with "+ is not a procedure" and changes nothing |
| Evaluator.SpreadCallMismatch | ts-impl/src/evaluator/evaluator.ts:66 | spreading two numbers into `+` fails, while `+` given their array adds them; only a pair as first argument is summed |

## Behaviour as written

The model follows the code where it differs from the interpreter's tests.
These are stated as lemmas, not corrected:

- **Seeding.** The root evaluator binds each primitive as a bare function (evaluator.ts:20-22). The callable check (evaluator.ts:61) accepts only `{type: 'primitive'}` objects, so every application fails. `Evaluator.SeededBindings`, `Evaluator.ApplicationsFail` and `Evaluator.RootAdditionFails` show this. The tests expect `(+ 1 2)` to give 3.
- **Calling convention.** The arithmetic entries take one array argument, but the evaluator spreads its arguments (evaluator.ts:66). `Evaluator.SpreadCallMismatch` shows the mismatch. `Evaluator.CallSpread` models the spread call.
- **Strings in the parser.** `parse` has no case for string tokens, so `"str"` fails with "Unexpected token type: string" (`Parser.StringLiteralRejected`). parser.test.ts:18 expects a string node.
- **Empty and single-argument arithmetic.** `reduce` with no initial value fails on an empty array, and applied to the array `[5]` the `-` entry returns 5 (and `/` applied to `[2]` returns 2), where the tests expect -5 and 0.5 (`Primitives.ArithmeticEmptyAndSingle`). The expressions `(+)`, `(*)`, `(- 5)` and `(/ 2)` themselves never reach the table entry: they fail at the callable check (evaluator.ts:61-62), as every application does.

## Left out

- The REPL front-end (index.ts) is not part of this model. It is input and output only, and its output formatting relies on JavaScript number printing.
- Numbers are exact reals, not doubles. `parseFloat` is modelled as the exact decimal value of the lexeme, with no rounding. Arithmetic has no rounding, overflow or NaN.
- Operations that JavaScript would carry on with give an `Unmodelled` error instead:
  - a division by zero, which yields `Infinity` or `NaN`;
  - arithmetic with two or more arguments, one of them not a number, which JavaScript coerces implicitly (string concatenation, numeric coercion of booleans and `null`, or `NaN`); this coercion is not modelled;
  - `car`/`cdr` of a value that is neither an array, a long enough string nor `null`, which gives `undefined`; values holding `undefined` are not modelled;
  - `cons` with a missing argument, which stores `undefined`.
- Errors raised by the JavaScript runtime itself (a `TypeError` from `reduce` or from indexing `null`) are `HostTypeError`s. Their message texts are indicative only.
- Positions and characters are Unicode scalar values, not UTF-16 code units. JavaScript indexes strings by code units, so after a character outside the Basic Multilingual Plane the source reports invalid-character positions one higher per such character. It also reports a lone surrogate half as the invalid character, where the model reports the whole character. `car`/`cdr` of a string likewise index by character.
- Whitespace is a fixed set: space, tab, line feed, carriage return, vertical tab and form feed. JavaScript's Unicode `\s` class is not modelled.
- A lookahead past the end of the input counts as "not a digit", which is what `isDigit(undefined)` returns.
- Evaluator.HeadText: a number head is printed by its lexeme in the "not a procedure" message, not by JavaScript's number-to-string conversion, so `1.50` prints as written.
- Environment.Environment.Has: environment.ts has no `has`, and the bodies of `define`, `get` and `set` are empty. Their behaviour is taken from the evaluator's calls and the variable tests, with `get`, `has` and `set` searching the parent chain.
- Lambda, closures, procedure `define`, quote-to-pair construction, `FunctionError` and `ListError` appear only in the tests. No source file implements them.
- Aliasing of environment frames between evaluators beyond the parent link is not modelled. Only the frame an evaluator owns and its ancestors are in its frame set.
