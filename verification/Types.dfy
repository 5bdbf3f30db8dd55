/**
 * Shared types of the interpreter: tokens, syntax nodes, runtime values, the
 * error classes with their message formats, and the number lexemes with
 * their exact decimal value, without the rounding `parseFloat` does.
 */
module Types {

  /** Either a value or the error that the source throws instead. */
  datatype Result<T> = Ok(value: T) | Err(error: Error)

  // ---------------------------------------------------------------------------
  // Characters and number lexemes
  // ---------------------------------------------------------------------------

  predicate IsDigit(c: char) { '0' <= c <= '9' }

  predicate AllDigits(s: string) { forall i :: 0 <= i < |s| ==> IsDigit(s[i]) }

  /** The digits of a number lexeme, after an optional leading minus sign. */
  function Unsigned(s: string): string
  {
    if |s| > 0 && s[0] == '-' then s[1..] else s
  }

  /**
   * The shape of every lexeme the tokenizer reads as a number:
   * `-?[0-9]+(\.[0-9]*)?` -- an optional sign, a leading digit, then digits
   * with at most one dot among them.
   */
  predicate IsNumberLexeme(s: string)
  {
    var u := Unsigned(s);
    && |u| > 0
    && IsDigit(u[0])
    && (forall i :: 0 <= i < |u| ==> IsDigit(u[i]) || u[i] == '.')
    && (forall i, j :: 0 <= i < j < |u| && u[i] == '.' ==> u[j] != '.')
  }

  type NumberLexeme = s: string | IsNumberLexeme(s) witness "0"

  function DigitValue(c: char): nat
    requires IsDigit(c)
  {
    c as int - '0' as int
  }

  /** The value of a run of decimal digits, most significant first. */
  function DigitsValue(s: string): nat
    requires AllDigits(s)
  {
    if s == [] then 0 else DigitsValue(s[..|s| - 1]) * 10 + DigitValue(s[|s| - 1])
  }

  function Pow10(k: nat): (r: nat)
    ensures r >= 1
  {
    if k == 0 then 1 else 10 * Pow10(k - 1)
  }

  /** Index of the first '.' in `s`, or |s| when there is none. */
  function DotIndex(s: string): (k: nat)
    ensures k <= |s|
    ensures k < |s| ==> s[k] == '.'
    ensures forall i :: 0 <= i < k ==> s[i] != '.'
  {
    if s == [] then 0 else if s[0] == '.' then 0 else 1 + DotIndex(s[1..])
  }

  /**
   * The exact decimal value of a number lexeme: the value `parseFloat`
   * rounds to a double, here left unrounded. Its sign is the lexeme's.
   */
  function NumberValue(lexeme: NumberLexeme): (r: real)
    ensures lexeme[0] == '-' ==> r <= 0.0
    ensures lexeme[0] != '-' ==> r >= 0.0
  {
    var u := Unsigned(lexeme);
    var k := DotIndex(u);
    var whole := DigitsValue(u[..k]) as real;
    var fraction := if k < |u| then DigitsValue(u[k + 1..]) as real / Pow10(|u| - k - 1) as real else 0.0;
    if |lexeme| > 0 && lexeme[0] == '-' then -(whole + fraction) else whole + fraction
  }

  /** Decimal rendering of a natural number, as `${n}` gives it. */
  function NatToString(n: nat): (s: string)
    ensures |s| > 0 && AllDigits(s)
  {
    var d := ['0' + ((n % 10) as char)];
    if n < 10 then d else NatToString(n / 10) + d
  }

  /** A rendered natural number reads back, as a number lexeme, to the same number. */
  lemma {:induction false} NatToStringRoundTrip(n: nat)
    ensures IsNumberLexeme(NatToString(n))
    ensures NumberValue(NatToString(n)) == n as real
  {
    var s := NatToString(n);
    assert Unsigned(s) == s;
    DigitsNoDot(s);
    assert s[..|s|] == s;
    DigitsOfNatToString(n);
  }

  lemma DigitsNoDot(s: string)
    requires AllDigits(s)
    ensures DotIndex(s) == |s|
  {
    if s != [] {
      DigitsNoDot(s[1..]);
    }
  }

  lemma {:induction false} DigitsOfNatToString(n: nat)
    ensures DigitsValue(NatToString(n)) == n
  {
    var s := NatToString(n);
    if n >= 10 {
      DigitsOfNatToString(n / 10);
      assert s[..|s| - 1] == NatToString(n / 10);
    }
  }

  // ---------------------------------------------------------------------------
  // Tokens and syntax nodes
  // ---------------------------------------------------------------------------

  /** The seven token types; a number token keeps the lexeme it was read from. */
  datatype Token =
    | NumberToken(lexeme: NumberLexeme)
    | StringToken(text: string)
    | SymbolToken(name: string)
    | LeftParen
    | RightParen
    | BooleanToken(b: bool)
    | QuoteToken

  /** The `type` tag of a token, as the parser's error message prints it. */
  function TypeName(t: Token): string
  {
    match t
    case NumberToken(_) => "number"
    case StringToken(_) => "string"
    case SymbolToken(_) => "symbol"
    case LeftParen => "leftParen"
    case RightParen => "rightParen"
    case BooleanToken(_) => "boolean"
    case QuoteToken => "quote"
  }

  /** The six kinds of syntax node. */
  datatype Node =
    | NumberNode(lexeme: NumberLexeme)
    | StringNode(text: string)
    | BooleanNode(b: bool)
    | SymbolNode(name: string)
    | ListNode(elements: seq<Node>)
    | QuoteNode(quoted: Node)

  // ---------------------------------------------------------------------------
  // Runtime values
  // ---------------------------------------------------------------------------

  /** The seven entries of the primitives table. */
  datatype PrimOp = Add | Sub | Mul | Div | Cons | Car | Cdr
  {
    predicate IsArithmetic() { Add? || Sub? || Mul? || Div? }
  }

  /**
   * Runtime values. `Procedure` is a `{type: 'primitive', func}` object, the
   * only shape the evaluator accepts as callable; `RawPrimitive` is a bare
   * function taken from the primitives table; `Pair` is the two-element array
   * that `cons` returns.
   */
  datatype Value =
    | Num(n: real)
    | Str(s: string)
    | Bool(b: bool)
    | Null
    | Procedure(op: PrimOp)
    | RawPrimitive(op: PrimOp)
    | Pair(car: Value, cdr: Value)

  /** The special forms the evaluator dispatches on. */
  datatype SpecialForm = Define | SetBang | If

  function Keyword(f: SpecialForm): string
  {
    match f
    case Define => "define"
    case SetBang => "set!"
    case If => "if"
  }

  /** Recognises a special-form keyword. */
  function SpecialFormOf(name: string): (r: Option<SpecialForm>)
    ensures r.Some? <==> name in {"define", "set!", "if"}
    ensures r.Some? ==> Keyword(r.value) == name
  {
    if name == "define" then Some(Define)
    else if name == "set!" then Some(SetBang)
    else if name == "if" then Some(If)
    else None
  }

  lemma KeywordRoundTrip(f: SpecialForm)
    ensures SpecialFormOf(Keyword(f)) == Some(f)
  {
  }

  datatype Option<T> = None | Some(value: T)

  // ---------------------------------------------------------------------------
  // Errors
  // ---------------------------------------------------------------------------

  /**
   * Everything the interpreter throws. The tokenizer and the parser throw
   * plain `Error`s; the evaluator throws `SchemeError` and its three
   * subclasses; `HostTypeError` is a TypeError raised by the JavaScript
   * runtime itself; `Unmodelled` marks a JavaScript outcome (a coercion,
   * `undefined`, an infinite quotient) that this model does not represent.
   */
  datatype Error =
    | InvalidCharacter(position: nat, found: string)
    | UnterminatedString
    | UnexpectedEndOfInput
    | UnclosedParenthesis
    | UnexpectedTokenType(typeName: string)
    | SchemeError(message: string)
    | UndefinedVariableError(name: string)
    | InvalidArgumentError(detail: string)
    | ConditionalError(detail: string)
    | HostTypeError(hostMessage: string)
    | Unmodelled(reason: string)
  {
    /** `instanceof SchemeError`. */
    predicate IsSchemeError()
    {
      SchemeError? || UndefinedVariableError? || InvalidArgumentError? || ConditionalError?
    }

    function Message(): string
    {
      match this
      case InvalidCharacter(p, c) => "Invalid character at position " + NatToString(p) + ": " + c
      case UnterminatedString => "Unterminated string"
      case UnexpectedEndOfInput => "Unexpected end of input"
      case UnclosedParenthesis => "Unclosed parenthesis"
      case UnexpectedTokenType(t) => "Unexpected token type: " + t
      case SchemeError(m) => m
      case UndefinedVariableError(x) => UndefinedPrefix + x
      case InvalidArgumentError(d) => InvalidArgumentPrefix + d
      case ConditionalError(d) => ConditionalPrefix + d
      case HostTypeError(m) => m
      case Unmodelled(r) => r
    }
  }

  const UndefinedPrefix := "Undefined variable: "
  const InvalidArgumentPrefix := "Invalid argument: "
  const ConditionalPrefix := "Conditional error: "

  /**
   * Each SchemeError subclass prefixes its detail with a fixed text, and the
   * detail can be read back from the message.
   */
  lemma SubclassMessages(e: Error)
    ensures e.UndefinedVariableError? ==>
      e.Message()[..|UndefinedPrefix|] == UndefinedPrefix && e.Message()[|UndefinedPrefix|..] == e.name
    ensures e.InvalidArgumentError? ==>
      e.Message()[..|InvalidArgumentPrefix|] == InvalidArgumentPrefix && e.Message()[|InvalidArgumentPrefix|..] == e.detail
    ensures e.ConditionalError? ==>
      e.Message()[..|ConditionalPrefix|] == ConditionalPrefix && e.Message()[|ConditionalPrefix|..] == e.detail
    ensures e.UndefinedVariableError? || e.InvalidArgumentError? || e.ConditionalError? ==> e.IsSchemeError()
  {
  }
}
