/** Tokens of the older, recursive-descent pipeline
    (internal/parser/token.go). Go strings are sequences of bytes; here a
    string whose characters are all below 256 stands for one, a character
    per byte. */
module LegacyToken {

  /** Go's `TokenType string`, one constructor per declared constant;
      `Unset` is the zero value "" a parser holds before its first read. */
  datatype TokenType =
    | Unset
    | ILLEGAL | EOF
    | VARIABLE | IDENTIFIER | NUMBER | STRING
    | ASSIGN | SEMICOLON | COMMA
    | LPAREN | RPAREN | LBRACKET | RBRACKET | LBRACE | RBRACE
    | EQ | STRICT_EQ | NOT_EQ | STRICT_NOT | BANG | GT | LT | GTE | LTE
    | AND | OR | IN | LOG

  datatype Token = Token(Type: TokenType, Literal: string)

  predicate IsByte(c: char) {
    (c as int) < 256
  }

  /** A Go string: bytes. */
  type Bytes = s: string | forall i | 0 <= i < |s| :: IsByte(s[i]) witness ""

  /** NewToken */
  function NewToken(tokenType: TokenType, literal: string): (t: Token)
    ensures t.Type == tokenType && t.Literal == literal
  {
    Token(tokenType, literal)
  }

  /** `strings.ToUpper` on the ASCII letters; the case mapping of other
      runes is not modelled. */
  function UpperByte(c: char): char {
    if 'a' <= c <= 'z' then (c as int - 32) as char else c
  }

  function ToUpper(s: string): (r: string)
    ensures |r| == |s| && forall i :: 0 <= i < |s| ==> r[i] == UpperByte(s[i])
  {
    if s == [] then [] else [UpperByte(s[0])] + ToUpper(s[1..])
  }

  const Keywords: map<string, TokenType> := map[
    "AND" := AND,
    "OR" := OR,
    "IN" := IN,
    "NOT" := BANG,
    "LOG" := LOG
  ]

  /** LookupIdentifier: the keyword kind of the upper-cased word, or
      IDENTIFIER. */
  function LookupIdentifier(ident: string): (t: TokenType)
    ensures t != IDENTIFIER <==> ToUpper(ident) in Keywords
    ensures ToUpper(ident) in Keywords ==> t == Keywords[ToUpper(ident)]
  {
    var upper := ToUpper(ident);
    if upper in Keywords then Keywords[upper] else IDENTIFIER
  }

  /** Upper-casing is idempotent, so the lookup ignores case. */
  lemma {:induction false} ToUpperIdempotent(s: string)
    ensures ToUpper(ToUpper(s)) == ToUpper(s)
  {
    if s != [] {
      ToUpperIdempotent(s[1..]);
    }
  }

  lemma LookupIgnoresCase(ident: string)
    ensures LookupIdentifier(ident) == LookupIdentifier(ToUpper(ident))
  {
    ToUpperIdempotent(ident);
  }

  /** The keyword set is exactly AND, OR, IN, NOT and LOG, with NOT read as
      BANG, the kind `!` lexes to. */
  lemma KeywordSet()
    ensures Keywords.Keys == {"AND", "OR", "IN", "NOT", "LOG"}
    ensures Keywords.Values == {AND, OR, IN, BANG, LOG}
    ensures Keywords["NOT"] == BANG
  {
    assert Keywords["AND"] == AND && Keywords["OR"] == OR && Keywords["IN"] == IN;
    assert Keywords["NOT"] == BANG && Keywords["LOG"] == LOG;
  }

  /** `and`, `And` and `AND` all read as AND. */
  lemma LookupAndAnyCase()
    ensures LookupIdentifier("and") == AND && LookupIdentifier("And") == AND && LookupIdentifier("AND") == AND
  {
    assert ToUpper("and") == "AND";
    assert ToUpper("And") == "AND";
    assert ToUpper("AND") == "AND";
  }

  /** `not` reads as BANG, the kind `!` lexes to. */
  lemma LookupNot()
    ensures LookupIdentifier("not") == BANG
  {
    assert ToUpper("not") == "NOT";
  }

  /** Ordinary words, including "", are identifiers. */
  lemma LookupWords()
    ensures LookupIdentifier("exp") == IDENTIFIER
    ensures LookupIdentifier("") == IDENTIFIER
  {
    assert ToUpper("exp") == "EXP";
    assert ToUpper("") == "";
  }
}
