/** Token kinds, the reserved-keyword table and the small token helpers of
    the primary lexer (internal/lexer/tokens.go). */
module Tokens {
  import opened Results

  /** Go declares `type TokenType int` and numbers its kinds with iota, so a
      value outside the declared range is still a TokenType. */
  newtype TokenType = int

  const EOF: TokenType := 0
  const ILLEGAL: TokenType := 1
  const NULL: TokenType := 2
  const TRUE: TokenType := 3
  const FALSE: TokenType := 4
  const IDENTIFIER: TokenType := 5
  const VARIABLE: TokenType := 6
  const NUMBER: TokenType := 7
  const STRING: TokenType := 8
  const LPAREN: TokenType := 9
  const RPAREN: TokenType := 10
  const LBRACE: TokenType := 11
  const RBRACE: TokenType := 12
  const LBRACKET: TokenType := 13
  const RBRACKET: TokenType := 14
  const ASSIGN: TokenType := 15
  const EQ: TokenType := 16
  const NOT: TokenType := 17
  const NOT_NOT: TokenType := 18
  const STRICT_EQ: TokenType := 19
  const NOT_EQ: TokenType := 20
  const NOT_STRICT_EQ: TokenType := 21
  const NOT_IN: TokenType := 22
  const GT: TokenType := 23
  const LT: TokenType := 24
  const GTE: TokenType := 25
  const LTE: TokenType := 26
  const BETWEEN: TokenType := 27
  const COLON: TokenType := 28
  const SEMICOLON: TokenType := 29
  const COMMA: TokenType := 30
  const LET: TokenType := 31
  const CONST: TokenType := 32
  const IN: TokenType := 33
  const AND: TokenType := 34
  const OR: TokenType := 35
  const IF: TokenType := 36
  const ELSE: TokenType := 37

  /** The kinds the source declares. */
  predicate Declared(t: TokenType) {
    EOF <= t <= ELSE
  }

  datatype Token = Token(Type: TokenType, Literal: string)

  const ReservedKeywords: map<string, TokenType> := map[
    "true" := TRUE,
    "false" := FALSE,
    "null" := NULL,
    "let" := LET,
    "const" := CONST,
    "if" := IF,
    "else" := ELSE,
    "not" := NOT,
    "not not" := NOT_NOT,
    "not in" := NOT_IN,
    "in" := IN,
    "and" := AND,
    "or" := OR,
    "between" := BETWEEN
  ]

  /** `token.IsOneOfMany(ts...)`: whether the token's kind occurs in `ts`. */
  function IsOneOfMany(token: Token, ts: seq<TokenType>): (r: bool)
    ensures r <==> exists i :: 0 <= i < |ts| && ts[i] == token.Type
    ensures ts == [] ==> !r
  {
    token.Type in ts
  }

  /** `NewToken`: a token with exactly the given kind and literal. */
  function NewToken(tokenType: TokenType, literal: string): (r: Token)
    ensures r.Type == tokenType && r.Literal == literal
  {
    Token(tokenType, literal)
  }

  function TokenTypeString(t: TokenType): string {
    if t == EOF then "eof"
    else if t == ILLEGAL then "illegal"
    else if t == NULL then "null"
    else if t == TRUE then "true"
    else if t == FALSE then "false"
    else if t == IDENTIFIER then "identifier"
    else if t == VARIABLE then "variable"
    else if t == NUMBER then "number"
    else if t == STRING then "string"
    else if t == LPAREN then "lparen"
    else if t == RPAREN then "rparen"
    else if t == LBRACE then "lbrace"
    else if t == RBRACE then "rbrace"
    else if t == LBRACKET then "lbracket"
    else if t == RBRACKET then "rbracket"
    else if t == ASSIGN then "assign"
    else if t == EQ then "eq"
    else if t == NOT then "not"
    else if t == NOT_NOT then "not not"
    else if t == NOT_IN then "not in"
    else if t == STRICT_EQ then "strict_eq"
    else if t == NOT_EQ then "not_eq"
    else if t == NOT_STRICT_EQ then "not_strict_eq"
    else if t == GT then "gt"
    else if t == LT then "lt"
    else if t == GTE then "gte"
    else if t == LTE then "lte"
    else if t == BETWEEN then "between"
    else if t == COLON then "colon"
    else if t == SEMICOLON then "semicolon"
    else if t == COMMA then "comma"
    else if t == LET then "let"
    else if t == CONST then "const"
    else if t == IN then "in"
    else if t == AND then "and"
    else if t == OR then "or"
    else if t == IF then "if"
    else if t == ELSE then "else"
    else "unknown"
  }

  /** Every declared kind has its own name, no declared kind is named
      "unknown", and every other value is. */
  lemma TokenTypeStringNames(t: TokenType)
    ensures Declared(t) ==> TokenTypeString(t) != "unknown"
    ensures !Declared(t) ==> TokenTypeString(t) == "unknown"
  {
  }

  lemma TokenTypeStringInjective(a: TokenType, b: TokenType)
    requires Declared(a) && Declared(b) && a != b
    ensures TokenTypeString(a) != TokenTypeString(b)
  {
  }

  /** Keyword lookup is exact and case-sensitive over fourteen spellings. */
  lemma KeywordTable()
    ensures ReservedKeywords.Keys == {"true", "false", "null", "let", "const", "if", "else", "not",
                                      "not not", "not in", "in", "and", "or", "between"}
    ensures ReservedKeywords["and"] == AND && "AND" !in ReservedKeywords
    ensures ReservedKeywords["not"] == NOT
    ensures ReservedKeywords["not not"] == NOT_NOT && ReservedKeywords["not in"] == NOT_IN
    ensures forall k :: k in ReservedKeywords ==> ReservedKeywords[k] != IDENTIFIER && ReservedKeywords[k] != EOF
    ensures forall k :: k in ReservedKeywords && (ReservedKeywords[k] == NOT_NOT || ReservedKeywords[k] == NOT_IN) ==> ' ' in k
  {
  }
}
