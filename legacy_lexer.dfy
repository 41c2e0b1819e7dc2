/** The byte lexer of the older pipeline (internal/parser/lexer.go). The
    functions below say, for an input and a position, where each scanning
    step stops; the class `Lexer` is the Go struct, and each of its methods
    is proved to move its position exactly as the matching function says.
    Between calls a lexer keeps `nextPosition == position + 1` and `ch` the
    byte at `position` (0 past the end), so its whole state is `position`. */
module LegacyLexer {
  import opened LegacyToken

  /** The byte at `i`, or 0 past the end (readChar and peekChar). */
  function At(input: Bytes, i: nat): (c: char)
    ensures IsByte(c)
    ensures c != '\0' ==> i < |input|
  {
    if i < |input| then input[i] else '\0'
  }

  /** `unicode.IsLetter` on the runes a byte can hold: the Latin-1 letters. */
  predicate UnicodeIsLetter(c: char) {
    ('A' <= c <= 'Z') || ('a' <= c <= 'z')
    || c == '\U{00AA}' || c == '\U{00B5}' || c == '\U{00BA}'
    || ('\U{00C0}' <= c <= '\U{00D6}') || ('\U{00D8}' <= c <= '\U{00F6}') || ('\U{00F8}' <= c <= '\U{00FF}')
  }

  /** `unicode.IsSpace` on the runes a byte can hold. */
  predicate UnicodeIsSpace(c: char) {
    c == '\t' || c == '\n' || c == '\U{000B}' || c == '\U{000C}' || c == '\r' || c == ' '
    || c == '\U{0085}' || c == '\U{00A0}'
  }

  /** isLetter */
  predicate IsLetter(c: char) {
    UnicodeIsLetter(c) || c == '_'
  }

  /** isDigit: `unicode.IsDigit`, which below 256 holds only for 0-9. */
  predicate IsDigit(c: char) {
    '0' <= c <= '9'
  }

  /** `strings.Builder.WriteRune` of a byte-sized rune: its UTF-8 form, two
      bytes from 0x80 on. */
  function EncodeRune(c: char): (s: string)
    requires IsByte(c)
    ensures 1 <= |s| <= 2 && (|s| == 1 <==> (c as int) < 0x80)
  {
    if (c as int) < 0x80 then [c]
    else [(0xC0 + (c as int) / 64) as char, (0x80 + (c as int) % 64) as char]
  }

  // ---------------------------------------------------------------------
  // Where each scanning loop stops
  // ---------------------------------------------------------------------

  /** The single-line comment loop: up to the newline or the end. */
  function LineCommentEnd(input: Bytes, p: nat): (q: nat)
    ensures p <= q && (At(input, q) == '\n' || At(input, q) == '\0')
    ensures forall i :: p <= i < q ==> At(input, i) != '\n' && At(input, i) != '\0'
    decreases |input| - p
  {
    if At(input, p) == '\n' || At(input, p) == '\0' then p else LineCommentEnd(input, p + 1)
  }

  /** The block comment loop: up to a star followed by a slash, or the end. */
  function BlockCommentEnd(input: Bytes, p: nat): (q: nat)
    ensures p <= q && ((At(input, q) == '*' && At(input, q + 1) == '/') || At(input, q) == '\0')
    decreases |input| - p
  {
    if (At(input, p) == '*' && At(input, p + 1) == '/') || At(input, p) == '\0' then p
    else BlockCommentEnd(input, p + 1)
  }

  /** Does the byte at `p` start something skipWhitespaceAndComments skips? */
  predicate StartsSkippable(input: Bytes, p: nat) {
    UnicodeIsSpace(At(input, p)) || (At(input, p) == '/' && (At(input, p + 1) == '/' || At(input, p + 1) == '*'))
  }

  /** skipWhitespaceAndComments: whitespace, line comments and block comments
      (the latter closed or not), as often as they follow each other. */
  function Skip(input: Bytes, p: nat): (q: nat)
    ensures p <= q && !StartsSkippable(input, q)
    decreases |input| - p
  {
    var c := At(input, p);
    if UnicodeIsSpace(c) then Skip(input, p + 1)
    else if c == '/' && At(input, p + 1) == '/' then Skip(input, LineCommentEnd(input, p))
    else if c == '/' && At(input, p + 1) == '*' then Skip(input, BlockCommentEnd(input, p + 2) + 2)
    else p
  }

  /** readIdentifier's loop: letters and `_`. */
  function IdentifierEnd(input: Bytes, p: nat): (q: nat)
    ensures p <= q && !IsLetter(At(input, q))
    ensures p <= |input| ==> q <= |input|
    ensures forall i :: p <= i < q ==> IsLetter(At(input, i))
    decreases |input| - p
  {
    if IsLetter(At(input, p)) then IdentifierEnd(input, p + 1) else p
  }

  predicate InVariable(c: char) {
    IsLetter(c) || IsDigit(c) || c == '_'
  }

  /** readVariable's loop after the `@`: letters, digits and `_`. */
  function VariableEnd(input: Bytes, p: nat): (q: nat)
    ensures p <= q && !InVariable(At(input, q))
    ensures p <= |input| ==> q <= |input|
    ensures forall i :: p <= i < q ==> InVariable(At(input, i))
    decreases |input| - p
  {
    if InVariable(At(input, p)) then VariableEnd(input, p + 1) else p
  }

  /** readNumber's loop: digits and at most one `.`; `dots` counts the dots
      read so far. */
  function NumberEnd(input: Bytes, p: nat, dots: nat): (q: nat)
    ensures p <= q
    ensures p <= |input| ==> q <= |input|
    ensures !IsDigit(At(input, q)) && (At(input, q) != '.' || dots > 0 || exists i :: p <= i < q && At(input, i) == '.')
    ensures forall i :: p <= i < q ==> IsDigit(At(input, i)) || At(input, i) == '.'
    ensures dots > 0 ==> forall i :: p <= i < q ==> At(input, i) != '.'
    decreases |input| - p
  {
    var c := At(input, p);
    if IsDigit(c) || (c == '.' && dots == 0) then
      NumberEnd(input, p + 1, if c == '.' then dots + 1 else dots)
    else p
  }

  /** What a backslash followed by `c` writes. */
  function Unescape(c: char): char {
    match c
    case '"' => '"'
    case 'n' => '\n'
    case 't' => '\t'
    case '\\' => '\\'
    case _ => c
  }

  /** readString's loop from `p` with `acc` written so far: the text up to
      a `"` or the end, and the position after the closing skip. */
  function StringBody(input: Bytes, p: nat, acc: string): (r: (string, nat))
    ensures p < r.1 && (At(input, r.1 - 1) == '"' || At(input, r.1 - 1) == '\0')
    decreases |input| - p
  {
    var c := At(input, p);
    if c == '"' || c == '\0' then (acc, p + 1)
    else if c == '\\' then StringBody(input, p + 2, acc + EncodeRune(Unescape(At(input, p + 1))))
    else StringBody(input, p + 1, acc + EncodeRune(c))
  }

  /** readString, called on the opening quote at `p`. */
  function ReadString(input: Bytes, p: nat): (string, nat) {
    StringBody(input, p + 1, [])
  }

  /** nextToken from position `p`: the token and the position after it.
      The closing `readChar` also runs after a string and after a variable,
      whose readers already stand past their text, so the byte that follows
      either is skipped. */
  function NextTokenAt(input: Bytes, p: nat): (r: (Token, nat))
    ensures p < r.1
    ensures p >= |input| ==> r.0 == Token(EOF, "")
  {
    TokenAt(input, Skip(input, p))
  }

  /** The token starting at `q`, where skipping has stopped. */
  function TokenAt(input: Bytes, q: nat): (r: (Token, nat))
    ensures q < r.1
    ensures q >= |input| ==> r.0 == Token(EOF, "")
  {
    var c := At(input, q);
    if c == '=' then
      if At(input, q + 1) == '=' then
        if At(input, q + 2) == '=' then (Token(STRICT_EQ, "==="), q + 3) else (Token(EQ, "=="), q + 2)
      else (Token(ASSIGN, "="), q + 1)
    else if c == '!' then
      if At(input, q + 1) == '=' then
        if At(input, q + 2) == '=' then (Token(STRICT_NOT, "!=="), q + 3) else (Token(NOT_EQ, "!="), q + 2)
      else (Token(BANG, "!"), q + 1)
    else if c == '>' then
      if At(input, q + 1) == '=' then (Token(GTE, ">="), q + 2) else (Token(GT, ">"), q + 1)
    else if c == '<' then
      if At(input, q + 1) == '=' then (Token(LTE, "<="), q + 2) else (Token(LT, "<"), q + 1)
    else if c == ';' then (Token(SEMICOLON, ";"), q + 1)
    else if c == ',' then (Token(COMMA, ","), q + 1)
    else if c == '(' then (Token(LPAREN, "("), q + 1)
    else if c == ')' then (Token(RPAREN, ")"), q + 1)
    else if c == '[' then (Token(LBRACKET, "["), q + 1)
    else if c == ']' then (Token(RBRACKET, "]"), q + 1)
    else if c == '{' then (Token(LBRACE, "{"), q + 1)
    else if c == '}' then (Token(RBRACE, "}"), q + 1)
    else if c == '"' || c == '\'' then
      var (s, e) := ReadString(input, q);
      (Token(STRING, s), e + 1)
    else if c == '@' then
      var e := VariableEnd(input, q + 1);
      (Token(VARIABLE, input[q..e]), e + 1)
    else if c == '\0' then (Token(EOF, ""), q + 1)
    else if IsLetter(c) then
      var e := IdentifierEnd(input, q);
      (Token(LookupIdentifier(input[q..e]), input[q..e]), e)
    else if IsDigit(c) then
      var e := NumberEnd(input, q, 0);
      (Token(NUMBER, input[q..e]), e)
    else (Token(ILLEGAL, EncodeRune(c)), q + 1)
  }

  // ---------------------------------------------------------------------
  // The Go struct
  // ---------------------------------------------------------------------

  class Lexer {
    const input: Bytes
    var position: nat
    var nextPosition: nat
    var ch: char

    /** The state every method leaves behind. */
    predicate Valid()
      reads this
    {
      nextPosition == position + 1 && ch == At(input, position)
    }

    /** NewLexer: positioned on the first byte. */
    constructor (input: Bytes)
      ensures this.input == input && position == 0 && Valid()
    {
      this.input := input;
      position := 0;
      nextPosition := 0;
      ch := '\0';
      new;
      readChar();
    }

    /** readChar */
    method readChar()
      modifies this
      ensures position == old(nextPosition) && nextPosition == old(nextPosition) + 1
      ensures ch == At(input, position)
    {
      if nextPosition >= |input| {
        ch := '\0';
      } else {
        ch := input[nextPosition];
      }
      position := nextPosition;
      nextPosition := nextPosition + 1;
    }

    /** peekChar */
    function peekChar(): (c: char)
      reads this
      ensures c == At(input, nextPosition)
    {
      if nextPosition >= |input| then '\0' else input[nextPosition]
    }

    /** skipWhitespaceAndComments */
    method skipWhitespaceAndComments()
      requires Valid()
      modifies this
      ensures Valid() && position == Skip(input, old(position))
    {
      while true
        invariant Valid() && Skip(input, position) == Skip(input, old(position))
        decreases |input| - position
      {
        if UnicodeIsSpace(ch) {
          readChar();
        } else if ch == '/' && peekChar() == '/' {
          skipLineComment();
        } else if ch == '/' && peekChar() == '*' {
          skipBlockComment();
        } else {
          break;
        }
      }
    }

    /** skipWhitespaceAndComments' line comment loop, from the first `/`. */
    method skipLineComment()
      requires Valid() && ch == '/' && At(input, position + 1) == '/'
      modifies this
      ensures Valid() && old(position) < position == LineCommentEnd(input, old(position))
    {
      ghost var start := position;
      while ch != '\n' && ch != '\0'
        invariant Valid() && start <= position && LineCommentEnd(input, position) == LineCommentEnd(input, start)
        invariant position == start ==> ch == '/'
        decreases |input| - position
      {
        readChar();
      }
    }

    /** skipWhitespaceAndComments' block comment loop, from the `/`. */
    method skipBlockComment()
      requires Valid() && ch == '/' && At(input, position + 1) == '*'
      modifies this
      ensures Valid() && position == BlockCommentEnd(input, old(position) + 2) + 2
    {
      ghost var start := position;
      readChar();
      readChar();
      while !(ch == '*' && peekChar() == '/') && ch != '\0'
        invariant Valid() && start + 2 <= position
        invariant BlockCommentEnd(input, position) == BlockCommentEnd(input, start + 2)
        decreases |input| - position
      {
        readChar();
      }
      readChar();
      readChar();
    }

    /** readIdentifier */
    method readIdentifier() returns (raw: string)
      requires Valid() && position <= |input|
      modifies this
      ensures Valid() && position == IdentifierEnd(input, old(position))
      ensures raw == input[old(position)..position]
    {
      var start := position;
      while IsLetter(ch)
        invariant Valid() && start <= position <= |input|
        invariant IdentifierEnd(input, position) == IdentifierEnd(input, start)
        decreases |input| - position
      {
        readChar();
      }
      raw := input[start..position];
    }

    /** readVariable, called on the `@`. */
    method readVariable() returns (literal: string)
      requires Valid() && ch == '@'
      modifies this
      ensures Valid() && position == VariableEnd(input, old(position) + 1)
      ensures literal == input[old(position)..position]
    {
      var start := position;
      readChar();
      while IsLetter(ch) || IsDigit(ch) || ch == '_'
        invariant Valid() && start < position <= |input|
        invariant VariableEnd(input, position) == VariableEnd(input, start + 1)
        decreases |input| - position
      {
        readChar();
      }
      literal := input[start..position];
    }

    /** readNumber */
    method readNumber() returns (literal: string)
      requires Valid() && position <= |input|
      modifies this
      ensures Valid() && position == NumberEnd(input, old(position), 0)
      ensures literal == input[old(position)..position]
    {
      var start := position;
      var dotCount: nat := 0;
      while IsDigit(ch) || (ch == '.' && dotCount == 0)
        invariant Valid() && start <= position <= |input|
        invariant NumberEnd(input, position, dotCount) == NumberEnd(input, start, 0)
        decreases |input| - position
      {
        if ch == '.' {
          dotCount := dotCount + 1;
        }
        readChar();
      }
      literal := input[start..position];
    }

    /** readString, called on the opening quote. */
    method readString() returns (s: string)
      requires Valid()
      modifies this
      ensures Valid() && (s, position) == ReadString(input, old(position))
    {
      readChar();
      var result: string := [];
      while ch != '"' && ch != '\0'
        invariant Valid() && StringBody(input, position, result) == ReadString(input, old(position))
        decreases |input| - position
      {
        if ch == '\\' {
          readChar();
          var c := ch;
          if c == '"' {
            result := result + EncodeRune('"');
          } else if c == 'n' {
            result := result + EncodeRune('\n');
          } else if c == 't' {
            result := result + EncodeRune('\t');
          } else if c == '\\' {
            result := result + EncodeRune('\\');
          } else {
            result := result + EncodeRune(c);
          }
        } else {
          result := result + EncodeRune(ch);
        }
        readChar();
      }
      readChar();
      s := result;
    }

    /** nextToken's operator cases: the longest of `=`, `==`, `===`, `!`,
        `!=`, `!==`, `>`, `>=`, `<`, `<=` at the cursor, which is left on
        the operator's last byte. */
    method readOperator() returns (token: Token)
      requires Valid() && ch in {'=', '!', '>', '<'}
      modifies this
      ensures Valid() && TokenAt(input, old(position)) == (token, position + 1)
    {
      if ch == '=' || ch == '!' {
        var single := ch;
        if peekChar() == '=' {
          readChar();
          if peekChar() == '=' {
            readChar();
            token := if single == '=' then NewToken(STRICT_EQ, "===") else NewToken(STRICT_NOT, "!==");
          } else {
            token := if single == '=' then NewToken(EQ, "==") else NewToken(NOT_EQ, "!=");
          }
        } else {
          token := if single == '=' then NewToken(ASSIGN, "=") else NewToken(BANG, "!");
        }
      } else {
        var single := ch;
        if peekChar() == '=' {
          readChar();
          token := if single == '>' then NewToken(GTE, ">=") else NewToken(LTE, "<=");
        } else {
          token := if single == '>' then NewToken(GT, ">") else NewToken(LT, "<");
        }
      }
    }

    /** nextToken */
    method nextToken() returns (token: Token)
      requires Valid()
      modifies this
      ensures Valid() && (token, position) == NextTokenAt(input, old(position))
    {
      skipWhitespaceAndComments();
      ghost var q := position;
      match ch {
      case '=' | '!' | '>' | '<' =>
        token := readOperator();
      case ';' => token := NewToken(SEMICOLON, ";");
      case ',' => token := NewToken(COMMA, ",");
      case '(' => token := NewToken(LPAREN, "(");
      case ')' => token := NewToken(RPAREN, ")");
      case '[' => token := NewToken(LBRACKET, "[");
      case ']' => token := NewToken(RBRACKET, "]");
      case '{' => token := NewToken(LBRACE, "{");
      case '}' => token := NewToken(RBRACE, "}");
      case '"' =>
        var literal := readString();
        token := Token(STRING, literal);
      case '\'' =>
        var literal := readString();
        token := Token(STRING, literal);
      case '@' =>
        var literal := readVariable();
        token := Token(VARIABLE, literal);
      case '\0' =>
        token := Token(EOF, "");
      case _ =>
        if IsLetter(ch) {
          var literal := readIdentifier();
          var tokenType := LookupIdentifier(literal);
          token := NewToken(tokenType, literal);
          return;
        } else if IsDigit(ch) {
          var literal := readNumber();
          token := NewToken(NUMBER, literal);
          return;
        } else {
          token := NewToken(ILLEGAL, EncodeRune(ch));
        }
      }
      readChar();
    }
  }
}
