/**
 * The character-level tokenizer. A cursor walks the input and emits typed
 * tokens: parentheses and the quote marker, numbers, strings with escapes,
 * and symbols (of which the exact runs `#t` and `#f` are booleans).
 *
 * The first half gives each scanning loop of the tokenizer as a function of
 * the input and a start position, and proves what each scan reads; the
 * `Tokenizer` class below runs the same scans with its `position` cursor and
 * is proved to agree with them.
 */
module Tokenizer {
  import opened Types

  // ---------------------------------------------------------------------------
  // Character classes
  // ---------------------------------------------------------------------------

  /** The whitespace characters: space, tab, line feed, carriage return, vertical tab, form feed. */
  predicate IsWhitespace(c: char)
  {
    c == ' ' || c == '\t' || c == '\n' || c == '\r' || c == '\U{000B}' || c == '\U{000C}'
  }

  // Letters, digits and the characters + - * / < > = ! ? _ #.
  predicate IsSymbolChar(c: char)
  {
    ('a' <= c <= 'z') || ('A' <= c <= 'Z') || IsDigit(c) ||
    c == '+' || c == '-' || c == '*' || c == '/' || c == '<' || c == '>' ||
    c == '=' || c == '!' || c == '?' || c == '_' || c == '#'
  }

  /** The one-character string at `i`, or the empty string past the end (what `peek` returns). */
  function CharAt(input: string, i: nat): (c: string)
    ensures |c| <= 1
  {
    if i < |input| then [input[i]] else ""
  }

  /** Comparing the text at `i` with a one-character string compares the character there. */
  lemma CharAtIs(input: string, i: nat, ch: char)
    ensures CharAt(input, i) == [ch] <==> i < |input| && input[i] == ch
    ensures CharAt(input, i) == "" <==> i >= |input|
  {
    if i < |input| && CharAt(input, i) == [ch] {
      assert CharAt(input, i)[0] == input[i];
    }
  }

  /** A digit, or `-` immediately followed by a digit, starts a number. */
  predicate NumberStart(input: string, i: nat)
  {
    i < |input| && (IsDigit(input[i]) || (input[i] == '-' && i + 1 < |input| && IsDigit(input[i + 1])))
  }

  /** The character at `i` can begin some token (or is skipped as whitespace). */
  predicate Recognised(input: string, i: nat)
    requires i < |input|
  {
    var c := input[i];
    IsWhitespace(c) || c == '(' || c == ')' || c == '\'' || c == '"' || NumberStart(input, i) || IsSymbolChar(c)
  }

  // ---------------------------------------------------------------------------
  // Numbers
  // ---------------------------------------------------------------------------

  /** The digit-and-dot loop of `readNumber`, from `i`; `hasDot` says a dot was already taken. */
  function NumberScan(input: string, i: nat, hasDot: bool): (e: nat)
    requires i <= |input|
    ensures i <= e <= |input|
    decreases |input| - i
  {
    if i < |input| && (IsDigit(input[i]) || (!hasDot && input[i] == '.'))
    then NumberScan(input, i + 1, hasDot || input[i] == '.')
    else i
  }

  /** Where `readNumber` stops: an optional leading `-`, then the scan. */
  function NumberEnd(input: string, start: nat): (e: nat)
    requires start <= |input|
    ensures start <= e <= |input|
  {
    NumberScan(input, if start < |input| && input[start] == '-' then start + 1 else start, false)
  }

  /** Helper: a slice grown by one character. */
  lemma SliceAppend(input: string, a: nat, b: nat)
    requires a <= b < |input|
    ensures input[a..b + 1] == input[a..b] + [input[b]]
  {
  }

  /** Helper: one step of the digit-and-dot scan. */
  lemma NumberScanStep(input: string, i: nat, hasDot: bool)
    requires i < |input| && (IsDigit(input[i]) || (!hasDot && input[i] == '.'))
    ensures NumberScan(input, i, hasDot) == NumberScan(input, i + 1, hasDot || input[i] == '.')
  {
  }

  lemma {:induction false} NumberScanReads(input: string, i: nat, hasDot: bool)
    requires i <= |input|
    ensures var e := NumberScan(input, i, hasDot);
      && (forall k :: i <= k < e ==> IsDigit(input[k]) || input[k] == '.')
      && (hasDot ==> forall k :: i <= k < e ==> input[k] != '.')
      && (forall k, l :: i <= k < l < e && input[k] == '.' ==> input[l] != '.')
      && (e < |input| ==> !IsDigit(input[e]))
      && (e < |input| && input[e] == '.' ==> hasDot || exists k :: i <= k < e && input[k] == '.')
    decreases |input| - i
  {
    if i < |input| && (IsDigit(input[i]) || (!hasDot && input[i] == '.')) {
      NumberScanReads(input, i + 1, hasDot || input[i] == '.');
    }
  }

  /** Helper: dropping an optional leading `-` from a slice of the input. */
  lemma UnsignedSlice(input: string, start: nat, j: nat, e: nat)
    requires start < e <= |input|
    requires j == if input[start] == '-' then start + 1 else start
    ensures Unsigned(input[start..e]) == input[j..e]
  {
    var s := input[start..e];
    assert s[0] == input[start];
    if input[start] == '-' {
      assert s[1..] == input[j..e];
    }
  }

  /**
   * A number lexeme is `-?[0-9]+(\.[0-9]*)?`, and it is the longest one at its
   * start: adding the next character would not give a number lexeme.
   */
  lemma NumberLexemeShape(input: string, start: nat)
    requires NumberStart(input, start)
    ensures NumberEnd(input, start) > start
    ensures IsNumberLexeme(input[start..NumberEnd(input, start)])
    ensures NumberEnd(input, start) < |input| ==> !IsNumberLexeme(input[start..NumberEnd(input, start) + 1])
  {
    var j := if input[start] == '-' then start + 1 else start;
    var e := NumberEnd(input, start);
    assert e == NumberScan(input, j, false);
    NumberScanReads(input, j, false);
    assert IsDigit(input[j]);
    assert e > j;
    UnsignedSlice(input, start, j, e);
    DigitRunShape(input, j, e);
    if e < |input| {
      NumberLexemeMaximal(input, start, j, e);
    }
  }

  /** Helper: a run of digits and at most one dot, starting with a digit, has the unsigned number shape. */
  lemma DigitRunShape(input: string, j: nat, e: nat)
    requires j < e <= |input| && IsDigit(input[j])
    requires forall k :: j <= k < e ==> IsDigit(input[k]) || input[k] == '.'
    requires forall k, l :: j <= k < l < e && input[k] == '.' ==> input[l] != '.'
    ensures var u := input[j..e];
      && IsDigit(u[0])
      && (forall i :: 0 <= i < |u| ==> IsDigit(u[i]) || u[i] == '.')
      && (forall i, i' :: 0 <= i < i' < |u| && u[i] == '.' ==> u[i'] != '.')
  {
    var u := input[j..e];
    forall k | 0 <= k < |u|
      ensures IsDigit(u[k]) || u[k] == '.'
    {
      assert j <= j + k < e && u[k] == input[j + k];
    }
    forall k, l | 0 <= k < l < |u| && u[k] == '.'
      ensures u[l] != '.'
    {
      assert u[k] == input[j + k] && u[l] == input[j + l];
    }
  }

  /** Helper: the character where the scan stops cannot extend the lexeme. */
  lemma NumberLexemeMaximal(input: string, start: nat, j: nat, e: nat)
    requires start < |input| && j == (if input[start] == '-' then start + 1 else start)
    requires j < e < |input| && !IsDigit(input[e])
    requires input[e] == '.' ==> exists k :: j <= k < e && input[k] == '.'
    ensures !IsNumberLexeme(input[start..e + 1])
  {
    UnsignedSlice(input, start, j, e + 1);
    var u' := input[j..e + 1];
    assert u'[e - j] == input[e];
    if input[e] == '.' {
      var k :| j <= k < e && input[k] == '.';
      assert u'[k - j] == '.';
    }
  }

  // ---------------------------------------------------------------------------
  // Strings
  // ---------------------------------------------------------------------------

  /** The character an escape `\c` stands for; other escaped characters stand for themselves. */
  function Decode(c: char): char
  {
    match c
    case 'n' => '\n'
    case 't' => '\t'
    case '"' => '"'
    case '\\' => '\\'
    case _ => c
  }

  datatype Scanned = Scanned(end: nat, text: string)

  /**
   * The body loop of `readString`, from `i` (just after the opening quote):
   * where it stops (at a `"` or at the end of input) and the text it built.
   */
  function ScanString(input: string, i: nat): (r: Scanned)
    requires i <= |input|
    ensures i <= r.end <= |input|
    decreases |input| - i
  {
    if i == |input| || input[i] == '"' then Scanned(i, "")
    else if input[i] == '\\' then
      if i + 1 == |input| then Scanned(|input|, "")
      else
        var rest := ScanString(input, i + 2);
        Scanned(rest.end, [Decode(input[i + 1])] + rest.text)
    else
      var rest := ScanString(input, i + 1);
      Scanned(rest.end, [input[i]] + rest.text)
  }

  /**
   * One pass of the string loop keeps its invariant: the scan from `start`
   * is the text built so far followed by the scan from the new position.
   * A plain character is appended as it is; a backslash and the character
   * after it append the decoded character; a backslash at the end of the
   * input appends nothing.
   */
  lemma ScanStep(input: string, start: nat, here: nat, before: string, after: string, next: nat)
    requires start <= here < |input| && input[here] != '"'
    requires ScanString(input, start).end == ScanString(input, here).end
    requires ScanString(input, start).text == before + ScanString(input, here).text
    requires input[here] != '\\' ==> next == here + 1 && after == before + [input[here]]
    requires input[here] == '\\' && here + 1 < |input| ==> next == here + 2 && after == before + [Decode(input[here + 1])]
    requires input[here] == '\\' && here + 1 == |input| ==> next == |input| && after == before + ""
    ensures next <= |input|
    ensures ScanString(input, start).end == ScanString(input, next).end
    ensures ScanString(input, start).text == after + ScanString(input, next).text
  {
  }

  /** Helper: at the end of input or at a quote the scan reads nothing. */
  lemma ScanStops(input: string, i: nat)
    requires i <= |input| && (i == |input| || input[i] == '"')
    ensures ScanString(input, i) == Scanned(i, "")
  {
  }

  /** The raw text between the quotes of a string literal: plain characters other than `"` and `\`, and two-character escapes. */
  predicate StringBody(b: string)
    decreases |b|
  {
    || b == []
    || (b[0] != '"' && b[0] != '\\' && StringBody(b[1..]))
    || (|b| >= 2 && b[0] == '\\' && StringBody(b[2..]))
  }

  /** The text a literal body denotes. */
  function Unescape(b: string): string
    decreases |b|
  {
    if b == [] then []
    else if b[0] == '\\' && |b| >= 2 then [Decode(b[1])] + Unescape(b[2..])
    else [b[0]] + Unescape(b[1..])
  }

  /** Writes a character so that it can stand inside a string literal. */
  function EscapeChar(c: char): string
  {
    if c == '"' then "\\\""
    else if c == '\\' then "\\\\"
    else if c == '\n' then "\\n"
    else if c == '\t' then "\\t"
    else [c]
  }

  function Escape(s: string): string
  {
    if s == [] then [] else EscapeChar(s[0]) + Escape(s[1..])
  }

  /** Helper: one escaped character in front of a body keeps it a body and denotes that character first. */
  lemma EscapeCharStep(c: char, r: string)
    requires StringBody(r)
    ensures StringBody(EscapeChar(c) + r)
    ensures Unescape(EscapeChar(c) + r) == [c] + Unescape(r)
  {
    var e := EscapeChar(c);
    if |e| == 2 {
      assert (e + r)[2..] == r;
    } else {
      assert (e + r)[1..] == r;
    }
  }

  /** Every text has a literal body that denotes it: escaping and then reading back gives the text. */
  lemma {:induction false} EscapeRoundTrip(s: string)
    ensures StringBody(Escape(s))
    ensures Unescape(Escape(s)) == s
  {
    if s != [] {
      EscapeRoundTrip(s[1..]);
      EscapeCharStep(s[0], Escape(s[1..]));
      assert s == [s[0]] + s[1..];
    }
  }

  /**
   * When the scan stops at a quote, it has read a well-formed body up to
   * that quote and built the text that body denotes.
   */
  lemma {:induction false} ScanStringSound(input: string, i: nat)
    requires i <= |input|
    ensures var r := ScanString(input, i);
      r.end < |input| ==> input[r.end] == '"' && StringBody(input[i..r.end]) && r.text == Unescape(input[i..r.end])
    decreases |input| - i
  {
    var r := ScanString(input, i);
    if i == |input| || input[i] == '"' {
    } else if input[i] == '\\' {
      if i + 1 < |input| {
        ScanStringSound(input, i + 2);
        if r.end < |input| {
          var b := input[i..r.end];
          assert b[2..] == input[i + 2..r.end];
        }
      }
    } else {
      ScanStringSound(input, i + 1);
      if r.end < |input| {
        var b := input[i..r.end];
        assert b[1..] == input[i + 1..r.end];
      }
    }
  }

  /** A well-formed body followed by a quote is read up to exactly that quote. */
  lemma {:induction false} ScanStringComplete(input: string, i: nat, j: nat)
    requires i <= j < |input| && input[j] == '"' && StringBody(input[i..j])
    ensures ScanString(input, i) == Scanned(j, Unescape(input[i..j]))
    decreases j - i
  {
    var b := input[i..j];
    if b != [] {
      if b[0] == '\\' && |b| >= 2 {
        assert b[2..] == input[i + 2..j];
        ScanStringComplete(input, i + 2, j);
      } else {
        assert b[0] != '"' && b[0] != '\\';
        assert b[1..] == input[i + 1..j];
        ScanStringComplete(input, i + 1, j);
      }
    }
  }

  /** The scan runs to the end of input exactly when no quote closes a well-formed body. */
  lemma UnterminatedMeansNoClosingQuote(input: string, i: nat)
    requires i <= |input|
    ensures ScanString(input, i).end == |input| <==>
      forall j :: i <= j < |input| && input[j] == '"' ==> !StringBody(input[i..j])
  {
    if ScanString(input, i).end == |input| {
      forall j | i <= j < |input| && input[j] == '"' ensures !StringBody(input[i..j]) {
        if StringBody(input[i..j]) {
          ScanStringComplete(input, i, j);
        }
      }
    } else {
      ScanStringSound(input, i);
    }
  }

  // ---------------------------------------------------------------------------
  // Symbols and booleans
  // ---------------------------------------------------------------------------

  /** Where the run of symbol characters from `i` ends. */
  function SymbolEnd(input: string, i: nat): (e: nat)
    requires i <= |input|
    ensures i <= e <= |input|
    decreases |input| - i
  {
    if i < |input| && IsSymbolChar(input[i]) then SymbolEnd(input, i + 1) else i
  }

  /** The run is the maximal run of symbol characters at `i`. */
  lemma {:induction false} SymbolRunMaximal(input: string, i: nat)
    requires i <= |input|
    ensures forall k :: i <= k < SymbolEnd(input, i) ==> IsSymbolChar(input[k])
    ensures SymbolEnd(input, i) < |input| ==> !IsSymbolChar(input[SymbolEnd(input, i)])
    decreases |input| - i
  {
    if i < |input| && IsSymbolChar(input[i]) {
      SymbolRunMaximal(input, i + 1);
    }
  }

  /** Exactly `#t` and `#f` are booleans; every other run is a symbol. */
  function Classify(run: string): (t: Token)
    ensures t.BooleanToken? <==> run == "#t" || run == "#f"
    ensures t.BooleanToken? ==> (t.b <==> run == "#t")
    ensures !t.BooleanToken? ==> t == SymbolToken(run)
  {
    if run == "#t" then BooleanToken(true)
    else if run == "#f" then BooleanToken(false)
    else SymbolToken(run)
  }

  /** What `readSymbol` returns when started at `i`. */
  function SymbolAt(input: string, i: nat): Result<Token>
    requires i <= |input|
  {
    var e := SymbolEnd(input, i);
    if e == i then Err(InvalidCharacter(i, CharAt(input, i))) else Ok(Classify(input[i..e]))
  }

  // ---------------------------------------------------------------------------
  // The whole token stream
  // ---------------------------------------------------------------------------

  /** One pass of the `tokenize` loop: skip a character, push a token and go on from `next`, or throw. */
  datatype Lexed = Skip(next: nat) | Emit(token: Token, next: nat) | Fail(error: Error)

  /**
   * The branch of the `tokenize` loop taken at `pos`. Every pass moves
   * forward, and the only errors are an unterminated string and a
   * character that can begin no token, reported where it stands.
   */
  function NextToken(input: string, pos: nat): (r: Lexed)
    requires pos < |input|
    ensures !r.Fail? ==> pos < r.next <= |input|
    ensures r.Fail? <==> (input[pos] == '"' && ScanString(input, pos + 1).end == |input|) || !Recognised(input, pos)
    ensures r.Fail? ==> r.error == UnterminatedString || r.error == InvalidCharacter(pos, [input[pos]])
  {
    var c := input[pos];
    if IsWhitespace(c) then Skip(pos + 1)
    else if c == '(' then Emit(LeftParen, pos + 1)
    else if c == ')' then Emit(RightParen, pos + 1)
    else if c == '\'' then Emit(QuoteToken, pos + 1)
    else if c == '"' then
      var sc := ScanString(input, pos + 1);
      if sc.end == |input| then Fail(UnterminatedString) else Emit(StringToken(sc.text), sc.end + 1)
    else if NumberStart(input, pos) then
      NumberLexemeShape(input, pos);
      var e := NumberEnd(input, pos);
      Emit(NumberToken(input[pos..e]), e)
    else if IsSymbolChar(c) then
      assert SymbolEnd(input, pos) > pos;
      Emit(Classify(input[pos..SymbolEnd(input, pos)]), SymbolEnd(input, pos))
    else Fail(InvalidCharacter(pos, [c]))
  }

  function Prepend(t: Token, r: Result<seq<Token>>): Result<seq<Token>>
  {
    if r.Ok? then Ok([t] + r.value) else r
  }

  function PrependAll(ts: seq<Token>, r: Result<seq<Token>>): Result<seq<Token>>
  {
    if r.Ok? then Ok(ts + r.value) else r
  }

  lemma PrependAllStep(ts: seq<Token>, t: Token, r: Result<seq<Token>>)
    ensures PrependAll(ts + [t], r) == PrependAll(ts, Prepend(t, r))
  {
    if r.Ok? {
      assert (ts + [t]) + r.value == ts + ([t] + r.value);
    }
  }

  /** The tokens of `input[pos..]`, or the error that tokenizing it throws. */
  function LexFrom(input: string, pos: nat): Result<seq<Token>>
    requires pos <= |input|
    decreases |input| - pos
  {
    if pos == |input| then Ok([])
    else
      match NextToken(input, pos)
      case Skip(next) => LexFrom(input, next)
      case Emit(t, next) => Prepend(t, LexFrom(input, next))
      case Fail(e) => Err(e)
  }

  function Lex(input: string): Result<seq<Token>>
  {
    LexFrom(input, 0)
  }

  /** Empty input yields no tokens. */
  lemma LexEmpty()
    ensures Lex("") == Ok([])
  {
  }

  /** A whitespace character is skipped and produces no token. */
  lemma LexSkipsWhitespace(input: string, pos: nat)
    requires pos < |input| && IsWhitespace(input[pos])
    ensures LexFrom(input, pos) == LexFrom(input, pos + 1)
  {
  }

  /** `(`, `)` and `'` each produce exactly one token and consume exactly one character. */
  lemma LexSingleCharacterTokens(input: string, pos: nat)
    requires pos < |input|
    ensures input[pos] == '(' ==> LexFrom(input, pos) == Prepend(LeftParen, LexFrom(input, pos + 1))
    ensures input[pos] == ')' ==> LexFrom(input, pos) == Prepend(RightParen, LexFrom(input, pos + 1))
    ensures input[pos] == '\'' ==> LexFrom(input, pos) == Prepend(QuoteToken, LexFrom(input, pos + 1))
  {
  }

  /** A character that can begin no token, met where a token starts, is reported as invalid at its own position. */
  lemma LexRejects(input: string, pos: nat)
    requires pos < |input| && !Recognised(input, pos)
    ensures LexFrom(input, pos) == Err(InvalidCharacter(pos, [input[pos]]))
  {
  }

  /**
   * Tokenizing fails only with an invalid character or an unterminated
   * string, and an invalid character is reported at its own position: a
   * character that can begin no token.
   */
  lemma {:induction false} LexErrors(input: string, pos: nat)
    requires pos <= |input|
    ensures var r := LexFrom(input, pos);
      r.Err? ==> r.error == UnterminatedString || r.error.InvalidCharacter?
    ensures var r := LexFrom(input, pos);
      r.Err? && r.error.InvalidCharacter? ==>
        var p := r.error.position;
        pos <= p < |input| && r.error.found == [input[p]] && !Recognised(input, p)
    decreases |input| - pos
  {
    if pos < |input| {
      var step := NextToken(input, pos);
      if !step.Fail? {
        LexErrors(input, step.next);
      }
    }
  }

  /** Every symbol token is a non-empty run of symbol characters other than `#t` and `#f`. */
  predicate WellFormedSymbols(ts: seq<Token>)
  {
    forall i :: 0 <= i < |ts| && ts[i].SymbolToken? ==>
      ts[i].name != [] && ts[i].name != "#t" && ts[i].name != "#f" &&
      forall k :: 0 <= k < |ts[i].name| ==> IsSymbolChar(ts[i].name[k])
  }

  lemma {:induction false} LexSymbolsWellFormed(input: string, pos: nat)
    requires pos <= |input|
    ensures LexFrom(input, pos).Ok? ==> WellFormedSymbols(LexFrom(input, pos).value)
    decreases |input| - pos
  {
    if pos < |input| {
      var step := NextToken(input, pos);
      if !step.Fail? {
        LexSymbolsWellFormed(input, step.next);
      }
      var c := input[pos];
      if !IsWhitespace(c) && c != '(' && c != ')' && c != '\'' && c != '"' && !NumberStart(input, pos) && IsSymbolChar(c) {
        var e := SymbolEnd(input, pos);
        SymbolRunMaximal(input, pos);
        var run := input[pos..e];
        assert forall k :: 0 <= k < |run| ==> run[k] == input[pos + k];
      }
    }
  }

  /** A string literal written with `Escape` tokenizes to one string token holding the text. */
  lemma QuotedStringTokenizes(s: string)
    ensures Lex("\"" + Escape(s) + "\"") == Ok([StringToken(s)])
  {
    var b := Escape(s);
    var input := "\"" + b + "\"";
    EscapeRoundTrip(s);
    assert input[1..1 + |b|] == b;
    assert input[0] == '"' && input[1 + |b|] == '"' && |input| == 2 + |b|;
    ScanStringComplete(input, 1, 1 + |b|);
    assert NextToken(input, 0) == Emit(StringToken(s), 2 + |b|);
    assert LexFrom(input, 2 + |b|) == Ok([]);
    assert LexFrom(input, 0) == Prepend(StringToken(s), LexFrom(input, 2 + |b|));
    assert [StringToken(s)] + [] == [StringToken(s)];
  }

  // ---------------------------------------------------------------------------
  // The tokenizer object
  // ---------------------------------------------------------------------------

  predicate IsDigitText(c: string) { |c| == 1 && IsDigit(c[0]) }

  predicate IsSymbolText(c: string) { |c| == 1 && IsSymbolChar(c[0]) }

  predicate IsWhitespaceText(c: string) { |c| == 1 && IsWhitespace(c[0]) }

  class Tokenizer {
    const input: string
    var position: nat

    ghost predicate Valid()
      reads this
    {
      position <= |input|
    }

    constructor(input: string)
      ensures Valid() && this.input == input && position == 0
    {
      this.input := input;
      position := 0;
    }

    /** The current character, or the empty string at the end. */
    function Peek(): (c: string)
      reads this
      ensures c == CharAt(input, position)
    {
      if position < |input| then [input[position]] else ""
    }

    /** Returns the current character and steps past it; at the end, returns the empty string and stays. */
    method Advance() returns (c: string)
      requires Valid()
      modifies this`position
      ensures Valid()
      ensures c == CharAt(input, old(position))
      ensures position == if old(position) < |input| then old(position) + 1 else old(position)
    {
      if position < |input| {
        c := [input[position]];
        position := position + 1;
      } else {
        c := "";
      }
    }

    method ReadNumber() returns (tok: Token)
      requires Valid() && NumberStart(input, position)
      modifies this`position
      ensures Valid() && position == NumberEnd(input, old(position))
      ensures tok.NumberToken? && tok.lexeme == input[old(position)..position]
    {
      var start := position;
      var numStr := "";
      var hasDot := false;
      if Peek() == "-" {
        var c := Advance();
        numStr := numStr + c;
      }
      while IsDigitText(Peek()) || (!hasDot && Peek() == ".")
        invariant Valid() && start <= position
        invariant numStr == input[start..position]
        invariant NumberScan(input, position, hasDot) == NumberEnd(input, start)
        decreases |input| - position
      {
        ghost var here := position;
        CharAtIs(input, here, '.');
        assert here < |input| && (IsDigit(input[here]) || (!hasDot && input[here] == '.'));
        NumberScanStep(input, here, hasDot);
        if Peek() == "." {
          hasDot := true;
        }
        var c := Advance();
        numStr := numStr + c;
        SliceAppend(input, start, here);
      }
      NumberLexemeShape(input, start);
      tok := NumberToken(numStr);
    }

    /** The escape switch of `readString`: the character after a backslash, decoded, and consumed. */
    method ReadEscaped() returns (c: string)
      requires Valid()
      modifies this`position
      ensures Valid()
      ensures c == if old(position) < |input| then [Decode(input[old(position)])] else ""
      ensures position == if old(position) < |input| then old(position) + 1 else old(position)
    {
      var p := Peek();
      if p == "n" {
        c := "\n";
      } else if p == "t" {
        c := "\t";
      } else if p == "\"" {
        c := "\"";
      } else if p == "\\" {
        c := "\\";
      } else {
        c := p;
      }
      var escaped := Advance();
    }

    /** One pass of the loop in `readString`: a plain character, or a backslash and the escape after it. */
    method ReadStringChar() returns (c: string)
      requires Valid() && position < |input| && input[position] != '"'
      modifies this`position
      ensures Valid()
      ensures input[old(position)] != '\\' ==> c == [input[old(position)]] && position == old(position) + 1
      ensures input[old(position)] == '\\' && old(position) + 1 < |input| ==>
        c == [Decode(input[old(position) + 1])] && position == old(position) + 2
      ensures input[old(position)] == '\\' && old(position) + 1 == |input| ==> c == "" && position == |input|
    {
      CharAtIs(input, position, '\\');
      if Peek() == "\\" {
        var backslash := Advance();
        c := ReadEscaped();
      } else {
        c := Advance();
      }
    }

    /** The loop of `readString`: reads the body up to the closing quote or the end of input. */
    method ReadStringBody() returns (str: string)
      requires Valid()
      modifies this`position
      ensures Valid()
      ensures ScanString(input, old(position)) == Scanned(position, str)
      ensures position < |input| ==> input[position] == '"'
    {
      str := "";
      while Peek() != "" && Peek() != "\""
        invariant Valid() && old(position) <= position
        invariant ScanString(input, old(position)).end == ScanString(input, position).end
        invariant ScanString(input, old(position)).text == str + ScanString(input, position).text
        decreases |input| - position
      {
        ghost var here := position;
        ghost var before := str;
        CharAtIs(input, here, '"');
        var c := ReadStringChar();
        str := str + c;
        ScanStep(input, old(position), here, before, str, position);
      }
      CharAtIs(input, position, '"');
      ScanStops(input, position);
      assert str + "" == str;
    }

    method ReadString() returns (r: Result<Token>)
      requires Valid() && position < |input| && input[position] == '"'
      modifies this`position
      ensures Valid()
      ensures var sc := ScanString(input, old(position) + 1);
        if sc.end < |input| then r == Ok(StringToken(sc.text)) && position == sc.end + 1
        else r == Err(UnterminatedString) && position == |input|
    {
      var open := Advance();
      var str := ReadStringBody();
      CharAtIs(input, position, '"');
      if Peek() != "\"" {
        r := Err(UnterminatedString);
        return;
      }
      var close := Advance();
      r := Ok(StringToken(str));
    }

    method ReadSymbol() returns (r: Result<Token>)
      requires Valid()
      modifies this`position
      ensures Valid() && position == SymbolEnd(input, old(position))
      ensures r == SymbolAt(input, old(position))
    {
      var symbol := "";
      var start := position;
      while position < |input| && IsSymbolText(Peek())
        invariant Valid() && start <= position
        invariant symbol == input[start..position]
        invariant SymbolEnd(input, position) == SymbolEnd(input, start)
        decreases |input| - position
      {
        var c := Advance();
        symbol := symbol + c;
      }
      if symbol == "" {
        r := Err(InvalidCharacter(position, Peek()));
        return;
      }
      if symbol == "#t" {
        r := Ok(BooleanToken(true));
        return;
      }
      if symbol == "#f" {
        r := Ok(BooleanToken(false));
        return;
      }
      r := Ok(SymbolToken(symbol));
    }

    /**
     * One pass of the `tokenize` loop body at the cursor: skip whitespace,
     * read one token, or throw.
     */
    method ScanToken() returns (step: Lexed)
      requires Valid() && position < |input|
      modifies this`position
      ensures Valid()
      ensures step == NextToken(input, old(position))
      ensures !step.Fail? ==> position == step.next
    {
      var c := Peek();
      if IsWhitespaceText(c) {
        var skipped := Advance();
        step := Skip(position);
      } else if c == "(" {
        var paren := Advance();
        step := Emit(LeftParen, position);
      } else if c == ")" {
        var paren := Advance();
        step := Emit(RightParen, position);
      } else if c == "'" {
        var quote := Advance();
        step := Emit(QuoteToken, position);
      } else if c == "\"" {
        var t := ReadString();
        step := if t.Ok? then Emit(t.value, position) else Fail(t.error);
      } else if IsDigitText(c) || (c == "-" && IsDigitText(CharAt(input, position + 1))) {
        var t := ReadNumber();
        step := Emit(t, position);
      } else if IsSymbolText(c) {
        // The run starts with a symbol character, so it is never empty here.
        var t := ReadSymbol();
        assert t.Ok?;
        step := Emit(t.value, position);
      } else {
        step := Fail(InvalidCharacter(position, c));
      }
    }

    /** Tokenizes the rest of the input; `position` ends at the end of input unless an error is thrown. */
    method Tokenize() returns (r: Result<seq<Token>>)
      requires Valid()
      modifies this`position
      ensures Valid()
      ensures r == LexFrom(input, old(position))
      ensures r.Ok? ==> position == |input|
    {
      var tokens: seq<Token> := [];
      assert LexFrom(input, position).Ok? ==> [] + LexFrom(input, position).value == LexFrom(input, position).value;
      while position < |input|
        invariant Valid() && old(position) <= position
        invariant LexFrom(input, old(position)) == PrependAll(tokens, LexFrom(input, position))
        decreases |input| - position
      {
        var step := ScanToken();
        match step
        case Skip(_) =>
        case Emit(t, _) =>
          PrependAllStep(tokens, t, LexFrom(input, position));
          tokens := tokens + [t];
        case Fail(e) =>
          r := Err(e);
          return;
      }
      assert tokens + [] == tokens;
      r := Ok(tokens);
    }
  }
}
