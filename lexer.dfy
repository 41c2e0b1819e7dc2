/** The primary lexer (internal/lexer/lexer.go): an ordered table of
    patterns, each tried at the cursor; the first one that matches there
    runs its handler, which pushes at most one token and moves the cursor.

    Go's regular expressions are not modelled: each pattern of the table
    is a hand-written recogniser that returns the length of the match Go's
    leftmost-first semantics finds at offset 0, or None. */
module Lexer {
  import opened Results
  import opened Tokens

  // ---------------------------------------------------------------------
  // Character classes of the patterns
  // ---------------------------------------------------------------------

  /** `\s` in Go's RE2 syntax: `[\t\n\f\r ]`. */
  predicate IsSpace(c: char) {
    c == '\t' || c == '\n' || c == '\U{000C}' || c == '\r' || c == ' '
  }

  predicate IsAsciiLetter(c: char) {
    ('a' <= c <= 'z') || ('A' <= c <= 'Z')
  }

  predicate IsAsciiDigit(c: char) {
    '0' <= c <= '9'
  }

  /** `[a-zA-Z0-9_]` */
  predicate IsWordChar(c: char) {
    IsAsciiLetter(c) || IsAsciiDigit(c) || c == '_'
  }

  datatype CharClass = Space | Digit | WordChar

  predicate InClass(c: char, cls: CharClass) {
    match cls
    case Space => IsSpace(c)
    case Digit => IsAsciiDigit(c)
    case WordChar => IsWordChar(c)
  }

  /** Length of the longest run of `cls` characters starting at `i`. */
  function Span(s: string, i: nat, cls: CharClass): (n: nat)
    requires i <= |s|
    ensures i + n <= |s|
    ensures forall k :: i <= k < i + n ==> InClass(s[k], cls)
    ensures i + n < |s| ==> !InClass(s[i + n], cls)
    decreases |s| - i
  {
    if i < |s| && InClass(s[i], cls) then 1 + Span(s, i + 1, cls) else 0
  }

  /** Index of the first `c` at or after `i`, if any. */
  function IndexOf(s: string, i: nat, c: char): (r: Option<nat>)
    requires i <= |s|
    ensures r.Some? ==> i <= r.value < |s| && s[r.value] == c
    ensures forall k :: i <= k < (if r.Some? then r.value else |s|) ==> s[k] != c
    decreases |s| - i
  {
    if i == |s| then None
    else if s[i] == c then Some(i)
    else IndexOf(s, i + 1, c)
  }

  /** Index of the last space in `s[lo..hi]`, if any. */
  function LastSpace(s: string, lo: nat, hi: nat): (r: Option<nat>)
    requires lo <= hi <= |s|
    ensures r.Some? ==> lo <= r.value < hi && s[r.value] == ' '
    ensures forall k :: (if r.Some? then r.value + 1 else lo) <= k < hi ==> s[k] != ' '
    decreases hi - lo
  {
    if hi == lo then None
    else if s[hi - 1] == ' ' then Some(hi - 1)
    else LastSpace(s, lo, hi - 1)
  }

  // ---------------------------------------------------------------------
  // The pattern table (createLexer)
  // ---------------------------------------------------------------------

  datatype Regex =
    | Whitespace      // [\s]+
    | LineComment     // \/\/.*<space>
    | DoubleQuoted    // "[^"]*"
    | SingleQuoted    // '[^']*'
    | Number          // [0-9]+(\.[0-9]+)?
    | Variable        // @[a-zA-Z][a-zA-Z0-9_]*
    | Word            // [a-zA-Z][a-zA-Z0-9_]*
    | Text(text: string)  // a fixed spelling such as `===`

  datatype Handler =
    | SkipHandler
    | StringHandler
    | NumberHandler
    | VariableHandler
    | SymbolHandler
    | DefaultHandler(tokenType: TokenType, literal: string)

  datatype Pattern = Pattern(regex: Regex, handler: Handler)

  function Fixed(t: TokenType, text: string): Pattern {
    Pattern(Text(text), DefaultHandler(t, text))
  }

  const PatternCount: nat := 26

  /** Entry `i` of the table of createLexer, in the order Tokenize tries it. */
  function PatternAt(i: nat): (p: Pattern)
    requires i < PatternCount
    ensures WellFormed(p)
  {
    if i == 0 then Pattern(Whitespace, SkipHandler)
    else if i == 1 then Pattern(LineComment, SkipHandler)
    else if i == 2 then Pattern(DoubleQuoted, StringHandler)
    else if i == 3 then Pattern(SingleQuoted, StringHandler)
    else if i == 4 then Pattern(Number, NumberHandler)
    else if i == 5 then Pattern(Variable, VariableHandler)
    else if i == 6 then Pattern(Word, SymbolHandler)
    else if i == 7 then Fixed(LBRACKET, "[")
    else if i == 8 then Fixed(RBRACKET, "]")
    else if i == 9 then Fixed(LBRACE, "{")
    else if i == 10 then Fixed(RBRACE, "}")
    else if i == 11 then Fixed(LPAREN, "(")
    else if i == 12 then Fixed(RPAREN, ")")
    else if i == 13 then Fixed(STRICT_EQ, "===")
    else if i == 14 then Fixed(EQ, "==")
    else if i == 15 then Fixed(NOT_STRICT_EQ, "!==")
    else if i == 16 then Fixed(NOT_EQ, "!=")
    else if i == 17 then Fixed(ASSIGN, "=")
    else if i == 18 then Fixed(NOT, "!")
    else if i == 19 then Fixed(GTE, ">=")
    else if i == 20 then Fixed(LTE, "<=")
    else if i == 21 then Fixed(GT, ">")
    else if i == 22 then Fixed(LT, "<")
    else if i == 23 then Fixed(COLON, ":")
    else if i == 24 then Fixed(SEMICOLON, ";")
    else Fixed(COMMA, ",")
  }

  /** The table itself. */
  const Patterns: seq<Pattern> := seq(26, i requires 0 <= i < 26 => PatternAt(i))

  /** Length of the match of `r` that starts at offset 0 of `rest`, as
      `FindStringIndex` reports it when `loc[0] == 0`; None when `r` has no
      match starting there. No pattern matches the empty string. */
  function MatchAt(r: Regex, rest: string): (n: Option<nat>)
    ensures n.Some? ==> 1 <= n.value <= |rest|
  {
    match r
    case Whitespace =>
      var k := Span(rest, 0, Space);
      if k == 0 then None else Some(k)
    case LineComment =>
      if |rest| >= 2 && rest[0] == '/' && rest[1] == '/' then
        // `.*` stops at the end of the line; greedy matching then backs up
        // to the last space on that line.
        var j := LastSpace(rest, 2, LineEnd(rest));
        if j.Some? then Some(j.value + 1) else None
      else None
    case DoubleQuoted => Quoted(rest, '"')
    case SingleQuoted => Quoted(rest, '\'')
    case Number =>
      var d := Span(rest, 0, Digit);
      if d == 0 then None
      else if d + 1 < |rest| && rest[d] == '.' && IsAsciiDigit(rest[d + 1]) then
        Some(d + 1 + Span(rest, d + 1, Digit))
      else Some(d)
    case Variable =>
      if |rest| >= 2 && rest[0] == '@' && IsAsciiLetter(rest[1]) then
        Some(2 + Span(rest, 2, WordChar))
      else None
    case Word =>
      if |rest| >= 1 && IsAsciiLetter(rest[0]) then Some(1 + Span(rest, 1, WordChar))
      else None
    case Text(t) =>
      if |t| >= 1 && |t| <= |rest| && rest[..|t|] == t then Some(|t|) else None
  }

  /** End of the line that starts at offset 2 (where `.` stops). */
  function LineEnd(rest: string): (e: nat)
    requires |rest| >= 2
    ensures 2 <= e <= |rest|
    ensures forall k :: 2 <= k < e ==> rest[k] != '\n'
  {
    var nl := IndexOf(rest, 2, '\n');
    if nl.Some? then nl.value else |rest|
  }

  function Quoted(rest: string, q: char): (n: Option<nat>)
    ensures n.Some? ==> 2 <= n.value <= |rest|
  {
    if |rest| >= 1 && rest[0] == q then
      var close := IndexOf(rest, 1, q);
      if close.Some? then Some(close.value + 1) else None
    else None
  }

  /** The first pattern of the table, from index `i` on, that matches at
      offset 0 of `rest`, with its match length. */
  function FirstMatchFrom(i: nat, rest: string): (r: Option<(Pattern, nat)>)
    ensures r.Some? ==> WellFormed(r.value.0) && MatchAt(r.value.0.regex, rest) == Some(r.value.1)
    decreases PatternCount - i
  {
    if i >= PatternCount then None
    else
      var m := MatchAt(PatternAt(i).regex, rest);
      if m.Some? then Some((PatternAt(i), m.value)) else FirstMatchFrom(i + 1, rest)
  }

  /** The token a handler pushes for the matched text (None for skip). */
  function Emitted(h: Handler, matched: string): Option<Token>
    requires h.StringHandler? ==> |matched| >= 2
  {
    match h
    case SkipHandler => None
    case StringHandler => Some(NewToken(STRING, matched[1..|matched| - 1]))
    case NumberHandler => Some(NewToken(NUMBER, matched))
    case VariableHandler => Some(NewToken(VARIABLE, matched))
    case SymbolHandler => Some(NewToken(WordType(matched), matched))
    case DefaultHandler(t, lit) => Some(NewToken(t, lit))
  }

  /** The symbol handler's lookup: a reserved word's own type, otherwise
      IDENTIFIER. The lookup is case-sensitive. */
  function WordType(w: string): TokenType {
    if w in ReservedKeywords then ReservedKeywords[w] else IDENTIFIER
  }

  /** How far a handler moves the cursor for a match of length `n`. */
  function Advanced(h: Handler, n: nat): nat
    requires h.StringHandler? ==> n >= 2
  {
    match h
    case StringHandler => (n - 2) + 2
    case DefaultHandler(_, lit) => |lit|
    case _ => n
  }

  function AsSeq(t: Option<Token>): seq<Token> {
    if t.Some? then [t.value] else []
  }

  /** Every fixed pattern advances by exactly its own match, and string
      patterns match at least their two quotes. */
  predicate WellFormed(p: Pattern) {
    && (p.handler.DefaultHandler? ==> p.regex == Text(p.handler.literal))
    && (p.handler.StringHandler? ==> p.regex == DoubleQuoted || p.regex == SingleQuoted)
  }

  datatype LexError = UnexpectedCharacter(at: char, remaining: string)

  datatype StepResult = StepResult(token: Option<Token>, next: nat)

  /** One turn of Tokenize's outer loop at cursor `pos`. */
  function Step(source: string, pos: nat): (r: Result<StepResult, LexError>)
    requires pos < |source|
    ensures r.Ok? ==> pos < r.value.next <= |source|
  {
    var rest := source[pos..];
    var m := FirstMatchFrom(0, rest);
    if m.None? then Err(UnexpectedCharacter(source[pos], rest))
    else
      var (p, n) := m.value;
      Ok(StepResult(Emitted(p.handler, rest[..n]), pos + Advanced(p.handler, n)))
  }

  /** The tokens Tokenize returns from cursor `pos`, after `acc`. */
  function LexFrom(source: string, pos: nat, acc: seq<Token>): Result<seq<Token>, LexError>
    requires pos <= |source|
    decreases |source| - pos
  {
    if pos == |source| then Ok(acc + [NewToken(EOF, "EOF")])
    else
      var s :- Step(source, pos);
      LexFrom(source, s.next, acc + AsSeq(s.token))
  }

  function Lex(source: string): Result<seq<Token>, LexError> {
    LexFrom(source, 0, [])
  }

  // ---------------------------------------------------------------------
  // The imperative lexer
  // ---------------------------------------------------------------------

  class Lexer {
    var Tokens: seq<Token>
    const patterns: seq<Pattern>
    const source: string
    var position: nat

    ghost predicate Valid()
      reads this
    {
      position <= |source| && patterns == Patterns
    }

    /** createLexer */
    constructor (source: string)
      ensures Valid()
      ensures this.source == source && position == 0 && Tokens == []
    {
      this.source := source;
      position := 0;
      Tokens := [];
      patterns := Patterns;
    }

    method AdvanceN(n: nat)
      modifies this`position
      ensures position == old(position) + n
    {
      position := position + n;
    }

    method Push(token: Token)
      modifies this`Tokens
      ensures Tokens == old(Tokens) + [token]
    {
      Tokens := Tokens + [token];
    }

    function At(): char
      reads this
      requires position < |source|
    {
      source[position]
    }

    function Remaining(): string
      reads this
      requires position <= |source|
    {
      source[position..]
    }

    predicate AtEOF()
      reads this
    {
      position >= |source|
    }

    method Default(tokenType: TokenType, literal: string)
      modifies this
      ensures position == old(position) + |literal|
      ensures Tokens == old(Tokens) + [NewToken(tokenType, literal)]
    {
      AdvanceN(|literal|);
      Push(NewToken(tokenType, literal));
    }

    method NumberH(n: nat)
      requires Valid() && position + n <= |source|
      modifies this
      ensures Valid()
      ensures position == old(position) + n
      ensures Tokens == old(Tokens) + [NewToken(NUMBER, old(Remaining())[..n])]
    {
      var matched := Remaining()[..n];
      Push(NewToken(NUMBER, matched));
      AdvanceN(|matched|);
    }

    method StringH(n: nat)
      requires Valid() && 2 <= n && position + n <= |source|
      modifies this
      ensures Valid()
      ensures position == old(position) + n
      ensures Tokens == old(Tokens) + [NewToken(STRING, old(Remaining())[1..n - 1])]
    {
      var stringLiteral := Remaining()[1..n - 1];
      Push(NewToken(STRING, stringLiteral));
      AdvanceN(|stringLiteral| + 2);
    }

    method SymbolH(n: nat)
      requires Valid() && position + n <= |source|
      modifies this
      ensures Valid()
      ensures position == old(position) + n
      ensures Tokens == old(Tokens) + AsSeq(Emitted(SymbolHandler, old(Remaining())[..n]))
    {
      var value := Remaining()[..n];
      if value in ReservedKeywords {
        Push(NewToken(ReservedKeywords[value], value));
      } else {
        Push(NewToken(IDENTIFIER, value));
      }
      AdvanceN(|value|);
    }

    method VariableH(n: nat)
      requires Valid() && position + n <= |source|
      modifies this
      ensures Valid()
      ensures position == old(position) + n
      ensures Tokens == old(Tokens) + [NewToken(VARIABLE, old(Remaining())[..n])]
    {
      var value := Remaining()[..n];
      Push(NewToken(VARIABLE, value));
      AdvanceN(|value|);
    }

    method SkipH(n: nat)
      requires Valid() && position + n <= |source|
      modifies this
      ensures Valid()
      ensures position == old(position) + n && Tokens == old(Tokens)
    {
      AdvanceN(n);
    }

    /** `pattern.handler(lex, pattern.regex)` for a pattern that matched
        `n` characters at the cursor. */
    method Handle(p: Pattern, n: nat)
      requires Valid() && WellFormed(p) && !AtEOF()
      requires MatchAt(p.regex, Remaining()) == Some(n)
      modifies this
      ensures Valid()
      ensures position == old(position) + Advanced(p.handler, n)
      ensures Tokens == old(Tokens) + AsSeq(Emitted(p.handler, old(Remaining())[..n]))
    {
      match p.handler
      case SkipHandler => SkipH(n);
      case StringHandler =>
        assert Remaining()[..n][1..n - 1] == Remaining()[1..n - 1];
        StringH(n);
      case NumberHandler => NumberH(n);
      case VariableHandler => VariableH(n);
      case SymbolHandler => SymbolH(n);
      case DefaultHandler(t, lit) =>
        assert lit == Remaining()[..n];
        Default(t, lit);
    }
  }

  /** Tokenize: the token list of `source`, ended by one EOF token, or the
      panic raised at the first character no pattern matches. */
  method Tokenize(source: string) returns (r: Result<seq<Token>, LexError>)
    ensures r == Lex(source)
  {
    var lex := new Lexer(source);

    while !lex.AtEOF()
      invariant lex.Valid() && lex.source == source
      invariant LexFrom(source, lex.position, lex.Tokens) == Lex(source)
      decreases |source| - lex.position
    {
      ghost var pos, acc := lex.position, lex.Tokens;
      var matched := false;
      for i := 0 to |lex.patterns|
        invariant lex.Valid() && lex.source == source
        invariant !matched && lex.position == pos && lex.Tokens == acc
        invariant FirstMatchFrom(0, lex.Remaining()) == FirstMatchFrom(i, lex.Remaining())
      {
        var pattern := lex.patterns[i];
        var loc := MatchAt(pattern.regex, lex.Remaining());
        if loc.Some? {
          lex.Handle(pattern, loc.value);
          matched := true;
          break;
        }
      }

      if !matched {
        return Err(UnexpectedCharacter(lex.At(), lex.Remaining()));
      }
    }

    lex.Push(NewToken(EOF, "EOF"));
    return Ok(lex.Tokens);
  }
}
