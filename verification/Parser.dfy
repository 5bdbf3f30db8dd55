/**
 * The recursive-descent parser: one expression from a token sequence, with
 * lists between parentheses and `'` as a quote prefix.
 *
 * `ParseForm` and `ParseListFrom` give the parser's mutual recursion as
 * functions of the tokens and a position; the `Parser` class runs it with its
 * `position` cursor and is proved to agree with them. `Unparse` writes a node
 * back as tokens, and the lemmas show that parsing is exactly its inverse on
 * the nodes the parser can produce.
 */
module Parser {
  import opened Types

  /** A parsed node and the position just after its last token. */
  datatype Parsed = Parsed(node: Node, next: nat)

  /** The atom a token stands for; other token types are rejected with their type name. */
  function AtomOf(t: Token): (r: Result<Node>)
    ensures r.Err? <==> !(t.NumberToken? || t.BooleanToken? || t.SymbolToken?)
    ensures r.Err? ==> r.error == UnexpectedTokenType(TypeName(t))
    ensures t.NumberToken? ==> r == Ok(NumberNode(t.lexeme))
    ensures t.BooleanToken? ==> r == Ok(BooleanNode(t.b))
    ensures t.SymbolToken? ==> r == Ok(SymbolNode(t.name))
  {
    match t
    case NumberToken(l) => Ok(NumberNode(l))
    case BooleanToken(b) => Ok(BooleanNode(b))
    case SymbolToken(n) => Ok(SymbolNode(n))
    case _ => Err(UnexpectedTokenType(TypeName(t)))
  }

  /** What `parse` returns when started at `pos`, and where it stops. */
  function ParseForm(toks: seq<Token>, pos: nat): (r: Result<Parsed>)
    requires pos <= |toks|
    ensures r.Ok? ==> pos < r.value.next <= |toks|
    decreases |toks| - pos, 1
  {
    if pos >= |toks| then Err(UnexpectedEndOfInput)
    else match toks[pos]
      case LeftParen => ParseListFrom(toks, pos + 1, [])
      case QuoteToken =>
        (match ParseForm(toks, pos + 1)
         case Err(e) => Err(e)
         case Ok(p) => Ok(Parsed(QuoteNode(p.node), p.next)))
      case NumberToken(_) => Ok(Parsed(AtomOf(toks[pos]).value, pos + 1))
      case BooleanToken(_) => Ok(Parsed(AtomOf(toks[pos]).value, pos + 1))
      case SymbolToken(_) => Ok(Parsed(AtomOf(toks[pos]).value, pos + 1))
      case _ => Err(UnexpectedTokenType(TypeName(toks[pos])))
  }

  /**
   * The element loop of `parseList` from `p`, with the elements `acc` read
   * so far, up to and including the closing parenthesis.
   */
  function ParseListFrom(toks: seq<Token>, p: nat, acc: seq<Node>): (r: Result<Parsed>)
    requires p <= |toks|
    ensures r.Ok? ==> p < r.value.next <= |toks| && r.value.node.ListNode?
    decreases |toks| - p, 2
  {
    if p < |toks| && toks[p] != RightParen then
      match ParseForm(toks, p)
      case Err(e) => Err(e)
      case Ok(q) => ParseListFrom(toks, q.next, acc + [q.node])
    else if p >= |toks| then Err(UnclosedParenthesis)
    else Ok(Parsed(ListNode(acc), p + 1))
  }

  /** Parses one expression from the start of the token sequence. */
  function Parse(toks: seq<Token>): Result<Node>
  {
    match ParseForm(toks, 0)
    case Ok(p) => Ok(p.node)
    case Err(e) => Err(e)
  }

  // ---------------------------------------------------------------------------
  // Writing nodes back as tokens
  // ---------------------------------------------------------------------------

  function Unparse(n: Node): (ts: seq<Token>)
    ensures |ts| > 0 && ts[0] != RightParen
  {
    match n
    case NumberNode(l) => [NumberToken(l)]
    case StringNode(t) => [StringToken(t)]
    case BooleanNode(b) => [BooleanToken(b)]
    case SymbolNode(x) => [SymbolToken(x)]
    case ListNode(es) => [LeftParen] + UnparseAll(es) + [RightParen]
    case QuoteNode(q) => [QuoteToken] + Unparse(q)
  }

  function UnparseAll(es: seq<Node>): seq<Token>
  {
    if es == [] then [] else Unparse(es[0]) + UnparseAll(es[1..])
  }

  /** The parser never builds a string node; every other node can be parsed. */
  predicate Parseable(n: Node)
  {
    match n
    case StringNode(_) => false
    case ListNode(es) => AllParseable(es)
    case QuoteNode(q) => Parseable(q)
    case _ => true
  }

  predicate AllParseable(es: seq<Node>)
  {
    es == [] || (Parseable(es[0]) && AllParseable(es[1..]))
  }

  // ---------------------------------------------------------------------------
  // Parsing inverts unparsing
  // ---------------------------------------------------------------------------

  /**
   * Completeness: wherever the tokens of a parseable node start, parsing
   * returns that node and stops just after its tokens, whatever follows.
   */
  lemma {:induction false} ParseUnparse(n: Node, toks: seq<Token>, pos: nat)
    requires Parseable(n)
    requires pos + |Unparse(n)| <= |toks| && toks[pos..pos + |Unparse(n)|] == Unparse(n)
    ensures ParseForm(toks, pos) == Ok(Parsed(n, pos + |Unparse(n)|))
    decreases n, 2
  {
    match n
    case ListNode(es) =>
      ParseUnparseList(es, toks, pos);
    case QuoteNode(q) =>
      ParseUnparseQuote(q, toks, pos);
    case _ =>
      FirstToken(toks, pos, Unparse(n));
  }

  /** The list case of `ParseUnparse`: `(` enters the element loop, which reads every element and the `)`. */
  lemma {:induction false} ParseUnparseList(es: seq<Node>, toks: seq<Token>, pos: nat)
    requires AllParseable(es)
    requires pos + |Unparse(ListNode(es))| <= |toks|
    requires toks[pos..pos + |Unparse(ListNode(es))|] == Unparse(ListNode(es))
    ensures ParseForm(toks, pos) == Ok(Parsed(ListNode(es), pos + |Unparse(ListNode(es))|))
    decreases es, 3
  {
    var u := Unparse(ListNode(es));
    FirstToken(toks, pos, u);
    assert u[1..] == UnparseAll(es) + [RightParen];
    ParseListUnparse(es, [], toks, pos + 1);
    assert [] + es == es;
  }

  /** The quote case of `ParseUnparse`: `'` is followed by the quoted node's tokens. */
  lemma {:induction false} ParseUnparseQuote(q: Node, toks: seq<Token>, pos: nat)
    requires Parseable(q)
    requires pos + |Unparse(QuoteNode(q))| <= |toks|
    requires toks[pos..pos + |Unparse(QuoteNode(q))|] == Unparse(QuoteNode(q))
    ensures ParseForm(toks, pos) == Ok(Parsed(QuoteNode(q), pos + |Unparse(QuoteNode(q))|))
    decreases q, 3
  {
    var u := Unparse(QuoteNode(q));
    FirstToken(toks, pos, u);
    assert u[1..] == Unparse(q);
    ParseUnparse(q, toks, pos + 1);
  }

  /** A known non-empty slice of tokens: its first token, and the slice after it. */
  lemma FirstToken(toks: seq<Token>, pos: nat, u: seq<Token>)
    requires |u| > 0 && pos + |u| <= |toks| && toks[pos..pos + |u|] == u
    ensures toks[pos] == u[0]
    ensures toks[pos + 1..pos + |u|] == u[1..]
  {
    assert toks[pos] == toks[pos..pos + |u|][0];
    SubSlice(toks, pos, u, 1, |u|);
  }

  lemma {:induction false} ParseListUnparse(es: seq<Node>, acc: seq<Node>, toks: seq<Token>, p: nat)
    requires AllParseable(es)
    requires p + |UnparseAll(es)| + 1 <= |toks|
    requires toks[p..p + |UnparseAll(es)| + 1] == UnparseAll(es) + [RightParen]
    ensures ParseListFrom(toks, p, acc) == Ok(Parsed(ListNode(acc + es), p + |UnparseAll(es)| + 1))
    decreases es, 1
  {
    if es == [] {
      assert toks[p] == toks[p..p + 1][0];
      ListClose(toks, p, acc);
      assert acc + es == acc;
    } else {
      var q := ListUnparseStep(es, acc, toks, p);
      ParseListUnparse(es[1..], acc + [es[0]], toks, q);
      AppendFirst(acc, es);
    }
  }

  /** Helper: moving the first element of `es` onto the end of `acc`. */
  lemma AppendFirst(acc: seq<Node>, es: seq<Node>)
    requires es != []
    ensures acc + [es[0]] + es[1..] == acc + es
  {
  }

  /** The first element of a written-out list is parsed, and the loop goes on after its tokens. */
  lemma ListUnparseStep(es: seq<Node>, acc: seq<Node>, toks: seq<Token>, p: nat) returns (q: nat)
    requires es != [] && AllParseable(es)
    requires p + |UnparseAll(es)| + 1 <= |toks|
    requires toks[p..p + |UnparseAll(es)| + 1] == UnparseAll(es) + [RightParen]
    ensures AllParseable(es[1..])
    ensures q + |UnparseAll(es[1..])| == p + |UnparseAll(es)|
    ensures toks[q..q + |UnparseAll(es[1..])| + 1] == UnparseAll(es[1..]) + [RightParen]
    ensures ParseListFrom(toks, p, acc) == ParseListFrom(toks, q, acc + [es[0]])
    decreases es, 0
  {
    q := SplitListTokens(es, toks, p);
    ParseUnparse(es[0], toks, p);
    ListStep(toks, p, acc, es[0], q);
  }

  /** The tokens of a non-empty element list and `)`, split after the first element. */
  lemma SplitListTokens(es: seq<Node>, toks: seq<Token>, p: nat) returns (q: nat)
    requires es != [] && AllParseable(es)
    requires p + |UnparseAll(es)| + 1 <= |toks|
    requires toks[p..p + |UnparseAll(es)| + 1] == UnparseAll(es) + [RightParen]
    ensures q == p + |Unparse(es[0])| && p < |toks| && toks[p] != RightParen
    ensures Parseable(es[0]) && AllParseable(es[1..])
    ensures toks[p..q] == Unparse(es[0])
    ensures q + |UnparseAll(es[1..])| == p + |UnparseAll(es)|
    ensures toks[q..q + |UnparseAll(es[1..])| + 1] == UnparseAll(es[1..]) + [RightParen]
  {
    var first, rest := Unparse(es[0]), UnparseAll(es[1..]);
    assert UnparseAll(es) == first + rest;
    q := p + |first|;
    SplitTokens(toks, p, q, p + |UnparseAll(es)| + 1, first, rest);
    assert toks[p] == toks[p..q][0];
  }

  /** Helper: tokens `p..e` spelling `x + y + [)]`, cut at `q`, just after `x`. */
  lemma SplitTokens(toks: seq<Token>, p: nat, q: nat, e: nat, x: seq<Token>, y: seq<Token>)
    requires q == p + |x| && e == q + |y| + 1 && e <= |toks|
    requires toks[p..e] == x + y + [RightParen]
    ensures toks[p..q] == x
    ensures toks[q..e] == y + [RightParen]
  {
    var w := x + y + [RightParen];
    SplitAfter(x, y, [RightParen]);
    SubSlice(toks, p, w, 0, |x|);
    SubSlice(toks, p, w, |x|, |x| + |y| + 1);
  }

  /** The element loop stops at a closing parenthesis with the elements read so far. */
  lemma ListClose(toks: seq<Token>, p: nat, acc: seq<Node>)
    requires p < |toks| && toks[p] == RightParen
    ensures ParseListFrom(toks, p, acc) == Ok(Parsed(ListNode(acc), p + 1))
  {
  }

  /**
   * Soundness: whatever parsing accepts is a parseable node written out in
   * exactly the tokens it consumed.
   */
  lemma {:induction false} ParseSound(toks: seq<Token>, pos: nat)
    requires pos <= |toks|
    ensures var r := ParseForm(toks, pos);
      r.Ok? ==> Parseable(r.value.node) && toks[pos..r.value.next] == Unparse(r.value.node)
    decreases |toks| - pos, 1
  {
    var r := ParseForm(toks, pos);
    if r.Ok? {
      match toks[pos]
      case LeftParen =>
        ParseListSound(toks, pos + 1, []);
        var es := r.value.node.elements;
        assert [] + es == es;
        FirstAndRest(toks, pos, r.value.next);
      case QuoteToken =>
        ParseSound(toks, pos + 1);
        FirstAndRest(toks, pos, r.value.next);
      case NumberToken(_) =>
        assert toks[pos..r.value.next] == [toks[pos]];
      case BooleanToken(_) =>
        assert toks[pos..r.value.next] == [toks[pos]];
      case SymbolToken(_) =>
        assert toks[pos..r.value.next] == [toks[pos]];
      case _ =>
    }
  }

  /** Helper: a non-empty slice is its first token followed by the rest. */
  lemma FirstAndRest(toks: seq<Token>, pos: nat, e: nat)
    requires pos < e <= |toks|
    ensures toks[pos..e] == [toks[pos]] + toks[pos + 1..e]
  {
  }

  lemma {:induction false} ParseListSound(toks: seq<Token>, p: nat, acc: seq<Node>)
    requires p <= |toks|
    ensures var r := ParseListFrom(toks, p, acc);
      r.Ok? ==>
        var es := r.value.node.elements;
        && |acc| <= |es| && es[..|acc|] == acc && AllParseable(es[|acc|..])
        && toks[p..r.value.next] == UnparseAll(es[|acc|..]) + [RightParen]
    decreases |toks| - p, 2
  {
    var r := ParseListFrom(toks, p, acc);
    if r.Ok? {
      if p < |toks| && toks[p] != RightParen {
        var q := ParseForm(toks, p).value;
        ListStep(toks, p, acc, q.node, q.next);
        ParseSound(toks, p);
        ParseListSound(toks, q.next, acc + [q.node]);
        ElementStep(r.value.node.elements, acc, q.node);
        SliceSplit(toks, p, q.next, r.value.next);
      } else {
        assert r.value.node.elements == acc;
        assert acc[|acc|..] == [];
        assert toks[p..r.value.next] == [RightParen];
      }
    }
  }

  /** Splits off the element at index |acc| of a list whose prefix is known. */
  lemma ElementStep(es: seq<Node>, acc: seq<Node>, n: Node)
    requires |acc| + 1 <= |es| && es[..|acc| + 1] == acc + [n]
    ensures es[..|acc|] == acc && |acc| <= |es|
    ensures UnparseAll(es[|acc|..]) + [RightParen] == Unparse(n) + (UnparseAll(es[|acc| + 1..]) + [RightParen])
    ensures Parseable(n) && AllParseable(es[|acc| + 1..]) ==> AllParseable(es[|acc|..])
  {
    var k := |acc|;
    assert es[..k] == es[..k + 1][..k];
    assert es[k] == es[..k + 1][k] == n;
    assert es[k..][0] == n;
    assert es[k..][1..] == es[k + 1..];
    assert UnparseAll(es[k..]) == Unparse(n) + UnparseAll(es[k + 1..]);
  }

  /** One pass of the element loop: an element parsed at `p` is appended and the loop goes on after it. */
  lemma ListStep(toks: seq<Token>, p: nat, acc: seq<Node>, n: Node, q: nat)
    requires p < |toks| && toks[p] != RightParen && ParseForm(toks, p) == Ok(Parsed(n, q))
    ensures q <= |toks|
    ensures ParseListFrom(toks, p, acc) == ParseListFrom(toks, q, acc + [n])
  {
  }

  /** A part of a known slice of tokens is the same part of what the slice holds. */
  lemma SubSlice(toks: seq<Token>, a: nat, w: seq<Token>, i: nat, j: nat)
    requires a + |w| <= |toks| && toks[a..a + |w|] == w && i <= j <= |w|
    ensures toks[a + i..a + j] == w[i..j]
  {
    forall k | 0 <= k < j - i
      ensures toks[a + i..a + j][k] == w[i..j][k]
    {
      assert toks[a + i..a + j][k] == toks[a + i + k];
      assert w[i + k] == toks[a..a + |w|][i + k] == toks[a + i + k];
    }
  }

  /** Helper: the two sides of `x + y + z` when it is cut after `x`. */
  lemma SplitAfter(x: seq<Token>, y: seq<Token>, z: seq<Token>)
    ensures |x + y + z| == |x| + |y| + |z|
    ensures (x + y + z)[0..|x|] == x
    ensures (x + y + z)[|x|..|x| + |y| + |z|] == y + z
  {
  }

  /** A slice of tokens is the slices on either side of a split point, joined. */
  lemma SliceSplit(toks: seq<Token>, a: nat, b: nat, c: nat)
    requires a <= b <= c <= |toks|
    ensures toks[a..c] == toks[a..b] + toks[b..c]
  {
  }

  // ---------------------------------------------------------------------------
  // Errors
  // ---------------------------------------------------------------------------

  /** No tokens left: the end of input is unexpected. */
  lemma ParseAtEnd(toks: seq<Token>)
    ensures ParseForm(toks, |toks|) == Err(UnexpectedEndOfInput)
    ensures Parse([]) == Err(UnexpectedEndOfInput)
  {
  }

  /** A closing parenthesis or a string token cannot begin an expression. */
  lemma ParseRejectsLeadingToken(toks: seq<Token>, pos: nat)
    requires pos < |toks| && (toks[pos] == RightParen || toks[pos].StringToken?)
    ensures ParseForm(toks, pos) == Err(UnexpectedTokenType(TypeName(toks[pos])))
  {
  }

  /**
   * Elements that run to the end of the tokens without a closing
   * parenthesis make the list unclosed.
   */
  lemma {:induction false} ParseListUnclosed(es: seq<Node>, acc: seq<Node>, toks: seq<Token>, p: nat)
    requires AllParseable(es)
    requires p <= |toks| && toks[p..] == UnparseAll(es)
    ensures ParseListFrom(toks, p, acc) == Err(UnclosedParenthesis)
    decreases es
  {
    if es != [] {
      var first, w := Unparse(es[0]), UnparseAll(es);
      assert w == first + UnparseAll(es[1..]);
      assert w[..|first|] == first && w[|first|..] == UnparseAll(es[1..]);
      assert toks[p..p + |w|] == w;
      SubSlice(toks, p, w, 0, |first|);
      assert toks[p] == first[0];
      ParseUnparse(es[0], toks, p);
      ListStep(toks, p, acc, es[0], p + |first|);
      assert toks[p + |first|..] == toks[p..][|first|..];
      ParseListUnclosed(es[1..], acc + [es[0]], toks, p + |first|);
    }
  }

  /** An opening parenthesis followed by elements and nothing else is unclosed. */
  lemma UnclosedParenthesisReported(es: seq<Node>)
    requires AllParseable(es)
    ensures Parse([LeftParen] + UnparseAll(es)) == Err(UnclosedParenthesis)
  {
    var toks := [LeftParen] + UnparseAll(es);
    assert toks[1..] == UnparseAll(es);
    ParseListUnclosed(es, [], toks, 1);
  }

  /**
   * A string literal is tokenized but cannot be parsed: `parse` has no case
   * for the string token type.
   */
  lemma StringLiteralRejected(text: string)
    ensures Parse([StringToken(text)]) == Err(UnexpectedTokenType("string"))
  {
  }

  // ---------------------------------------------------------------------------
  // The parser object
  // ---------------------------------------------------------------------------

  class Parser {
    const tokens: seq<Token>
    var position: nat

    ghost predicate Valid()
      reads this
    {
      position <= |tokens|
    }

    constructor(tokens: seq<Token>)
      ensures Valid() && this.tokens == tokens && position == 0
    {
      this.tokens := tokens;
      position := 0;
    }

    /** The current token, or nothing past the end. */
    function Peek(): (t: Option<Token>)
      reads this
      ensures t.Some? <==> position < |tokens|
      ensures t.Some? ==> t.value == tokens[position]
    {
      if position < |tokens| then Some(tokens[position]) else None
    }

    method Advance() returns (t: Option<Token>)
      requires Valid()
      modifies this`position
      ensures Valid()
      ensures t == old(Peek())
      ensures position == if old(position) < |tokens| then old(position) + 1 else old(position)
    {
      var current := Peek();
      if position < |tokens| {
        position := position + 1;
        t := current;
      } else {
        t := None;
      }
    }

    method ParseAtom() returns (r: Result<Node>)
      requires Valid() && position < |tokens|
      modifies this`position
      ensures Valid() && position == old(position) + 1
      ensures r == AtomOf(tokens[old(position)])
    {
      var token := Advance();
      match token.value
      case NumberToken(l) => r := Ok(NumberNode(l));
      case BooleanToken(b) => r := Ok(BooleanNode(b));
      case SymbolToken(x) => r := Ok(SymbolNode(x));
      case _ => r := Err(UnexpectedTokenType(TypeName(token.value)));
    }

    method ParseList() returns (r: Result<Node>)
      requires Valid() && position < |tokens| && tokens[position] == LeftParen
      modifies this`position
      ensures Valid()
      ensures var spec := ParseListFrom(tokens, old(position) + 1, []);
        if spec.Ok? then r == Ok(spec.value.node) && position == spec.value.next
        else r == Err(spec.error)
      decreases |tokens| - position, 0
    {
      var open := Advance();
      var elements: seq<Node> := [];
      while position < |tokens| && Peek() != Some(RightParen)
        invariant Valid() && old(position) < position
        invariant ParseListFrom(tokens, old(position) + 1, []) == ParseListFrom(tokens, position, elements)
        decreases |tokens| - position
      {
        var element := Parse();
        if element.Err? {
          r := Err(element.error);
          return;
        }
        elements := elements + [element.value];
      }
      if position >= |tokens| || Peek() != Some(RightParen) {
        r := Err(UnclosedParenthesis);
        return;
      }
      var close := Advance();
      r := Ok(ListNode(elements));
    }

    method ParseQuote() returns (r: Result<Node>)
      requires Valid() && position < |tokens| && tokens[position] == QuoteToken
      modifies this`position
      ensures Valid()
      ensures var spec := ParseForm(tokens, old(position) + 1);
        if spec.Ok? then r == Ok(QuoteNode(spec.value.node)) && position == spec.value.next
        else r == Err(spec.error)
      decreases |tokens| - position, 0
    {
      var quote := Advance();
      var quoted := Parse();
      if quoted.Err? {
        r := Err(quoted.error);
        return;
      }
      r := Ok(QuoteNode(quoted.value));
    }

    /** Parses one expression from the current position. */
    method Parse() returns (r: Result<Node>)
      requires Valid()
      modifies this`position
      ensures Valid()
      ensures var spec := ParseForm(tokens, old(position));
        if spec.Ok? then r == Ok(spec.value.node) && position == spec.value.next
        else r == Err(spec.error)
      decreases |tokens| - position, 1
    {
      if position >= |tokens| {
        r := Err(UnexpectedEndOfInput);
        return;
      }
      var token := Peek().value;
      match token
      case LeftParen => r := ParseList();
      case QuoteToken => r := ParseQuote();
      case NumberToken(_) => r := ParseAtom();
      case BooleanToken(_) => r := ParseAtom();
      case SymbolToken(_) => r := ParseAtom();
      case _ => r := Err(UnexpectedTokenType(TypeName(token)));
    }
  }
}
