/** Properties of the primary lexer: what one step does, decided by the
    character under the cursor, and what every token list looks like. */
module LexerProperties {
  import opened Results
  import opened Tokens
  import opened Lexer

  function StartsWith(s: string, p: string): bool {
    |p| <= |s| && s[..|p|] == p
  }

  /** One lexing step read directly off the character under the cursor:
      the token it pushes (None for skipped text) and how many characters
      it consumes; None when nothing matches. Operators take their longest
      spelling. */
  function Scan(rest: string): Option<(Option<Token>, nat)> {
    if rest == [] then None
    else
      var c := rest[0];
      if IsSpace(c) then Some((None, Span(rest, 0, Space)))
      else if c == '/' then ScanComment(rest)
      else if c == '"' || c == '\'' then ScanString(rest)
      else if IsAsciiDigit(c) then ScanNumber(rest)
      else if c == '@' then ScanVariable(rest)
      else if IsAsciiLetter(c) then ScanWord(rest)
      else if c in "[]{}():;," then Some((Some(Token(PunctuationType(c), [c])), 1))
      else if c in "=!><" then ScanOperator(rest)
      else None
  }

  /** `//` up to the last space on its line; nothing when that part of the
      line holds no space. */
  function ScanComment(rest: string): Option<(Option<Token>, nat)> {
    var m := MatchAt(LineComment, rest);
    if m.Some? then Some((None, m.value)) else None
  }

  /** A string closes at the next quote of the kind that opened it; the
      token holds the text between the quotes. */
  function ScanString(rest: string): Option<(Option<Token>, nat)>
    requires rest != []
  {
    var close := IndexOf(rest, 1, rest[0]);
    if close.Some? then Some((Some(Token(STRING, rest[1..close.value])), close.value + 1)) else None
  }

  function ScanNumber(rest: string): Option<(Option<Token>, nat)>
    requires rest != [] && IsAsciiDigit(rest[0])
  {
    var n := MatchAt(Number, rest).value;
    Some((Some(Token(NUMBER, rest[..n])), n))
  }

  /** `@` must be followed by a letter. */
  function ScanVariable(rest: string): Option<(Option<Token>, nat)> {
    if |rest| >= 2 && IsAsciiLetter(rest[1]) then
      var n := 2 + Span(rest, 2, WordChar);
      Some((Some(Token(VARIABLE, rest[..n])), n))
    else None
  }

  function ScanWord(rest: string): Option<(Option<Token>, nat)>
    requires rest != []
  {
    var n := 1 + Span(rest, 1, WordChar);
    Some((Some(Token(WordType(rest[..n]), rest[..n])), n))
  }

  function PunctuationType(c: char): TokenType {
    match c
    case '[' => LBRACKET
    case ']' => RBRACKET
    case '{' => LBRACE
    case '}' => RBRACE
    case '(' => LPAREN
    case ')' => RPAREN
    case ':' => COLON
    case ';' => SEMICOLON
    case _ => COMMA
  }

  /** Comparison and assignment operators, longest spelling first. */
  function ScanOperator(rest: string): Option<(Option<Token>, nat)>
    requires rest != []
  {
    var c := rest[0];
    if c == '=' then
      if StartsWith(rest, "===") then Some((Some(Token(STRICT_EQ, "===")), 3))
      else if StartsWith(rest, "==") then Some((Some(Token(EQ, "==")), 2))
      else Some((Some(Token(ASSIGN, "=")), 1))
    else if c == '!' then
      if StartsWith(rest, "!==") then Some((Some(Token(NOT_STRICT_EQ, "!==")), 3))
      else if StartsWith(rest, "!=") then Some((Some(Token(NOT_EQ, "!=")), 2))
      else Some((Some(Token(NOT, "!")), 1))
    else if c == '>' then
      if StartsWith(rest, ">=") then Some((Some(Token(GTE, ">=")), 2))
      else Some((Some(Token(GT, ">")), 1))
    else
      if StartsWith(rest, "<=") then Some((Some(Token(LTE, "<=")), 2))
      else Some((Some(Token(LT, "<")), 1))
  }

  /** Whether a match of `r` can begin with `c`. */
  predicate CanStart(r: Regex, c: char) {
    match r
    case Whitespace => IsSpace(c)
    case LineComment => c == '/'
    case DoubleQuoted => c == '"'
    case SingleQuoted => c == '\''
    case Number => IsAsciiDigit(c)
    case Variable => c == '@'
    case Word => IsAsciiLetter(c)
    case Text(t) => |t| >= 1 && t[0] == c
  }

  lemma MatchNeedsStart(r: Regex, rest: string)
    requires MatchAt(r, rest).Some?
    ensures rest != [] && CanStart(r, rest[0])
  {
  }

  /** No pattern with index in [i, k) can begin with `c`. */
  predicate NoCandidate(i: nat, k: nat, c: char)
    requires k <= PatternCount
  {
    forall j :: i <= j < k ==> !CanStart(PatternAt(j).regex, c)
  }

  /** Patterns that cannot begin with the character under the cursor are
      passed over. */
  lemma {:induction false} SkipFrom(i: nat, k: nat, rest: string)
    requires i <= k <= PatternCount && rest != []
    requires NoCandidate(i, k, rest[0])
    ensures FirstMatchFrom(i, rest) == FirstMatchFrom(k, rest)
    decreases k - i
  {
    if i < k {
      if MatchAt(PatternAt(i).regex, rest).Some? {
        MatchNeedsStart(PatternAt(i).regex, rest);
      }
      SkipFrom(i + 1, k, rest);
    }
  }

  lemma {:induction false} NothingMatchesEmpty(i: nat)
    ensures FirstMatchFrom(i, []) == None
    decreases PatternCount - i
  {
    if i < PatternCount {
      NothingMatchesEmpty(i + 1);
    }
  }

  /** What the handler of a match pushes and how far it moves. */
  function Outcome(m: Option<(Pattern, nat)>, rest: string): Option<(Option<Token>, nat)>
    requires m.Some? ==> WellFormed(m.value.0) && m.value.1 <= |rest|
  {
    if m.None? then None
    else
      var (p, n) := m.value;
      if p.handler.StringHandler? && n < 2 then None
      else Some((Emitted(p.handler, rest[..n]), Advanced(p.handler, n)))
  }

  /** The first characters of the fixed spellings. */
  const FixedStarts: string := "[]{}()=!><:;,"

  /** Index of the first fixed spelling that begins with `c`. */
  function FirstFixed(c: char): nat {
    match c
    case '[' => 7
    case ']' => 8
    case '{' => 9
    case '}' => 10
    case '(' => 11
    case ')' => 12
    case '=' => 13
    case '!' => 15
    case '>' => 19
    case '<' => 20
    case ':' => 23
    case ';' => 24
    case _ => 25
  }

  /** Trying the table in order and taking the first pattern that matches at
      the cursor is the same as dispatching on the character under it, so
      `===` wins over `==` and `=`, `!==` over `!=` and `!`, `>=` over `>`
      and `<=` over `<`. */
  lemma ScanIsFirstMatch(rest: string)
    ensures Outcome(FirstMatchFrom(0, rest), rest) == Scan(rest)
  {
    if rest == [] {
      NothingMatchesEmpty(0);
      return;
    }
    var c := rest[0];
    if IsSpace(c) {
      FirstOnSpace(rest);
    } else if c == '/' {
      FirstOnSlash(rest);
    } else if c == '"' || c == '\'' {
      FirstOnQuote(rest);
    } else if c == '@' {
      FirstOnAt(rest);
    } else if IsAsciiDigit(c) {
      FirstOnDigit(rest);
    } else if IsAsciiLetter(c) {
      FirstOnLetter(rest);
    } else if c in "[]{}():;," {
      SkipFrom(0, FirstFixed(c), rest);
      FirstOnPunctuation(rest);
    } else if c == '=' {
      SkipFrom(0, 13, rest);
      FirstOnEquals(rest);
    } else if c == '!' {
      SkipFrom(0, 15, rest);
      FirstOnBang(rest);
    } else if c == '>' {
      SkipFrom(0, 19, rest);
      FirstOnGreater(rest);
    } else if c == '<' {
      SkipFrom(0, 20, rest);
      FirstOnLess(rest);
    } else {
      FirstOnOther(rest);
    }
  }

  lemma FirstOnSpace(rest: string)
    requires rest != [] && IsSpace(rest[0])
    ensures Outcome(FirstMatchFrom(0, rest), rest) == Scan(rest)
  {
  }

  lemma FirstOnDigit(rest: string)
    requires rest != [] && IsAsciiDigit(rest[0])
    ensures Outcome(FirstMatchFrom(0, rest), rest) == Scan(rest)
  {
    NumberMatchesFirst(rest);
    ScanOnDigit(rest);
  }

  lemma NumberMatchesFirst(rest: string)
    requires rest != [] && IsAsciiDigit(rest[0])
    ensures FirstMatchFrom(0, rest) == Some((Pattern(Number, NumberHandler), MatchAt(Number, rest).value))
  {
    SkipFrom(0, 4, rest);
    MatchWins(rest, 4);
  }

  lemma ScanOnDigit(rest: string)
    requires rest != [] && IsAsciiDigit(rest[0])
    ensures Scan(rest) == ScanNumber(rest)
  {
  }

  /** A pattern that matches at the cursor is chosen over all later ones. */
  lemma MatchWins(rest: string, i: nat)
    requires i < PatternCount && MatchAt(PatternAt(i).regex, rest).Some?
    ensures FirstMatchFrom(i, rest) == Some((PatternAt(i), MatchAt(PatternAt(i).regex, rest).value))
  {
  }

  lemma FirstOnLetter(rest: string)
    requires rest != [] && IsAsciiLetter(rest[0])
    ensures Outcome(FirstMatchFrom(0, rest), rest) == Scan(rest)
  {
    WordMatchesFirst(rest);
    ScanOnLetter(rest);
  }

  lemma WordMatchesFirst(rest: string)
    requires rest != [] && IsAsciiLetter(rest[0])
    ensures FirstMatchFrom(0, rest) == Some((Pattern(Word, SymbolHandler), 1 + Span(rest, 1, WordChar)))
  {
    SkipFrom(0, 6, rest);
  }

  lemma ScanOnLetter(rest: string)
    requires rest != [] && IsAsciiLetter(rest[0])
    ensures Scan(rest) == ScanWord(rest)
  {
  }

  lemma FirstOnOther(rest: string)
    requires rest != [] && !IsSpace(rest[0]) && !IsAsciiDigit(rest[0]) && !IsAsciiLetter(rest[0])
    requires rest[0] !in "/\"'@" && rest[0] !in FixedStarts
    ensures Outcome(FirstMatchFrom(0, rest), rest) == Scan(rest)
  {
    SkipFrom(0, PatternCount, rest);
  }

  lemma FirstOnSlash(rest: string)
    requires rest != [] && rest[0] == '/'
    ensures Outcome(FirstMatchFrom(0, rest), rest) == Scan(rest)
  {
    assert FirstMatchFrom(0, rest) == FirstMatchFrom(1, rest) by {
      SkipFrom(0, 1, rest);
    }
    if MatchAt(LineComment, rest).Some? {
      MatchWins(rest, 1);
    } else {
      PanicsFrom(rest, 1);
    }
  }

  lemma FirstOnAt(rest: string)
    requires rest != [] && rest[0] == '@'
    ensures Outcome(FirstMatchFrom(0, rest), rest) == Scan(rest)
  {
    assert FirstMatchFrom(0, rest) == FirstMatchFrom(5, rest) by {
      SkipFrom(0, 5, rest);
    }
    if MatchAt(Variable, rest).Some? {
      MatchWins(rest, 5);
    } else {
      PanicsFrom(rest, 5);
    }
  }

  lemma FirstOnQuote(rest: string)
    requires rest != [] && (rest[0] == '"' || rest[0] == '\'')
    ensures Outcome(FirstMatchFrom(0, rest), rest) == Scan(rest)
  {
    var i := if rest[0] == '"' then 2 else 3;
    assert FirstMatchFrom(0, rest) == FirstMatchFrom(i, rest) by {
      SkipFrom(0, i, rest);
    }
    if Quoted(rest, rest[0]).Some? {
      StringWins(rest, i);
    } else {
      PanicsFrom(rest, i);
    }
  }

  lemma StringWins(rest: string, i: nat)
    requires rest != [] && i == (if rest[0] == '"' then 2 else 3) && (rest[0] == '"' || rest[0] == '\'')
    requires Quoted(rest, rest[0]).Some?
    ensures Outcome(FirstMatchFrom(i, rest), rest) == Scan(rest)
  {
    var n := Quoted(rest, rest[0]).value;
    assert PatternAt(i) == Pattern(if i == 2 then DoubleQuoted else SingleQuoted, StringHandler);
    MatchWins(rest, i);
    assert rest[..n][1..n - 1] == rest[1..n - 1];
  }

  /** The special patterns 1, 2, 3 and 5 begin with a character no later
      pattern begins with: when one fails at the cursor, Tokenize panics. */
  lemma PanicsFrom(rest: string, i: nat)
    requires rest != [] && i in {1, 2, 3, 5}
    requires CanStart(PatternAt(i).regex, rest[0]) && MatchAt(PatternAt(i).regex, rest).None?
    requires Scan(rest).None?
    ensures Outcome(FirstMatchFrom(i, rest), rest) == Scan(rest)
  {
    MatchMisses(rest, i);
    UniqueStart(i, rest[0]);
    SkipFrom(i + 1, PatternCount, rest);
  }

  lemma UniqueStart(i: nat, c: char)
    requires i in {1, 2, 3, 5} && CanStart(PatternAt(i).regex, c)
    ensures NoCandidate(i + 1, PatternCount, c)
  {
  }

  /** A pattern that does not match at the cursor is passed over. */
  lemma MatchMisses(rest: string, i: nat)
    requires i < PatternCount && MatchAt(PatternAt(i).regex, rest).None?
    ensures FirstMatchFrom(i, rest) == FirstMatchFrom(i + 1, rest)
  {
  }

  lemma FirstOnPunctuation(rest: string)
    requires rest != [] && rest[0] in "[]{}():;,"
    ensures Outcome(FirstMatchFrom(FirstFixed(rest[0]), rest), rest) == Scan(rest)
  {
    var c := rest[0];
    ScanPunctuation(rest);
    PunctuationPattern(c);
    assert rest[..1] == [c];
    FixedMatch(rest, FirstFixed(c));
  }

  lemma ScanPunctuation(rest: string)
    requires rest != [] && rest[0] in "[]{}():;,"
    ensures Scan(rest) == Some((Some(Token(PunctuationType(rest[0]), [rest[0]])), 1))
  {
  }

  lemma PunctuationPattern(c: char)
    requires c in "[]{}():;,"
    ensures FirstFixed(c) < PatternCount && PatternAt(FirstFixed(c)) == Fixed(PunctuationType(c), [c])
  {
  }

  /** A fixed pattern whose text is at the cursor emits its own token. */
  lemma FixedMatch(rest: string, k: nat)
    requires k < PatternCount && PatternAt(k).regex.Text? && PatternAt(k).handler.DefaultHandler?
    requires StartsWith(rest, PatternAt(k).regex.text)
    ensures Outcome(FirstMatchFrom(k, rest), rest) ==
      Some((Some(Token(PatternAt(k).handler.tokenType, PatternAt(k).regex.text)), |PatternAt(k).regex.text|))
  {
  }

  lemma FirstOnEquals(rest: string)
    requires rest != [] && rest[0] == '='
    ensures Outcome(FirstMatchFrom(13, rest), rest) == Scan(rest)
  {
    if StartsWith(rest, "===") {
      StrictEqualsWins(rest);
    } else if StartsWith(rest, "==") {
      EqualsWins(rest);
    } else {
      AssignWins(rest);
    }
  }

  lemma StrictEqualsWins(rest: string)
    requires rest != [] && rest[0] == '=' && StartsWith(rest, "===")
    ensures Outcome(FirstMatchFrom(13, rest), rest) == Scan(rest)
  {
    ScanOnOperator(rest);
    FixedMatch(rest, 13);
  }

  lemma EqualsWins(rest: string)
    requires rest != [] && rest[0] == '=' && !StartsWith(rest, "===") && StartsWith(rest, "==")
    ensures Outcome(FirstMatchFrom(13, rest), rest) == Scan(rest)
  {
    ScanOnOperator(rest);
    FixedMiss(rest, 13);
    FixedMatch(rest, 14);
  }

  lemma AssignWins(rest: string)
    requires rest != [] && rest[0] == '=' && !StartsWith(rest, "===") && !StartsWith(rest, "==")
    ensures Outcome(FirstMatchFrom(13, rest), rest) == Scan(rest)
  {
    assert Scan(rest) == Some((Some(Token(ASSIGN, "=")), 1)) by {
      ScanOnOperator(rest);
    }
    AssignSkips(rest);
    AssignMatches(rest);
  }

  lemma AssignMatches(rest: string)
    requires rest != [] && rest[0] == '='
    ensures Outcome(FirstMatchFrom(17, rest), rest) == Some((Some(Token(ASSIGN, "=")), 1))
  {
    assert rest[..1] == "=";
    FixedMatch(rest, 17);
  }

  lemma AssignSkips(rest: string)
    requires rest != [] && rest[0] == '=' && !StartsWith(rest, "===") && !StartsWith(rest, "==")
    ensures FirstMatchFrom(13, rest) == FirstMatchFrom(17, rest)
  {
    FixedMiss(rest, 13);
    FixedMiss(rest, 14);
    SkipFrom(15, 17, rest);
  }

  lemma FirstOnBang(rest: string)
    requires rest != [] && rest[0] == '!'
    ensures Outcome(FirstMatchFrom(15, rest), rest) == Scan(rest)
  {
    if StartsWith(rest, "!==") {
      StrictNotWins(rest);
    } else if StartsWith(rest, "!=") {
      NotEqualsWins(rest);
    } else {
      NotWins(rest);
    }
  }

  lemma StrictNotWins(rest: string)
    requires rest != [] && rest[0] == '!' && StartsWith(rest, "!==")
    ensures Outcome(FirstMatchFrom(15, rest), rest) == Scan(rest)
  {
    ScanOnOperator(rest);
    FixedMatch(rest, 15);
  }

  lemma NotEqualsWins(rest: string)
    requires rest != [] && rest[0] == '!' && !StartsWith(rest, "!==") && StartsWith(rest, "!=")
    ensures Outcome(FirstMatchFrom(15, rest), rest) == Scan(rest)
  {
    ScanOnOperator(rest);
    FixedMiss(rest, 15);
    FixedMatch(rest, 16);
  }

  lemma NotWins(rest: string)
    requires rest != [] && rest[0] == '!' && !StartsWith(rest, "!==") && !StartsWith(rest, "!=")
    ensures Outcome(FirstMatchFrom(15, rest), rest) == Scan(rest)
  {
    assert Scan(rest) == Some((Some(Token(NOT, "!")), 1)) by {
      ScanOnOperator(rest);
    }
    assert FirstMatchFrom(15, rest) == FirstMatchFrom(18, rest) by {
      FixedMiss(rest, 15);
      FixedMiss(rest, 16);
      SkipFrom(17, 18, rest);
    }
    BangMatches(rest);
  }

  lemma BangMatches(rest: string)
    requires rest != [] && rest[0] == '!'
    ensures Outcome(FirstMatchFrom(18, rest), rest) == Some((Some(Token(NOT, "!")), 1))
  {
    assert rest[..1] == "!";
    FixedMatch(rest, 18);
  }

  lemma FirstOnGreater(rest: string)
    requires rest != [] && rest[0] == '>'
    ensures Outcome(FirstMatchFrom(19, rest), rest) == Scan(rest)
  {
    if StartsWith(rest, ">=") {
      ScanOnOperator(rest);
      FixedMatch(rest, 19);
    } else {
      GreaterWins(rest);
    }
  }

  lemma GreaterWins(rest: string)
    requires rest != [] && rest[0] == '>' && !StartsWith(rest, ">=")
    ensures Outcome(FirstMatchFrom(19, rest), rest) == Scan(rest)
  {
    assert Scan(rest) == Some((Some(Token(GT, ">")), 1)) by {
      ScanOnOperator(rest);
    }
    GreaterSkips(rest);
    GreaterMatches(rest);
  }

  lemma GreaterSkips(rest: string)
    requires rest != [] && rest[0] == '>' && !StartsWith(rest, ">=")
    ensures FirstMatchFrom(19, rest) == FirstMatchFrom(21, rest)
  {
    FixedMiss(rest, 19);
    FixedMiss(rest, 20);
  }

  lemma GreaterMatches(rest: string)
    requires rest != [] && rest[0] == '>'
    ensures Outcome(FirstMatchFrom(21, rest), rest) == Some((Some(Token(GT, ">")), 1))
  {
    assert rest[..1] == ">";
    FixedMatch(rest, 21);
  }

  lemma FirstOnLess(rest: string)
    requires rest != [] && rest[0] == '<'
    ensures Outcome(FirstMatchFrom(20, rest), rest) == Scan(rest)
  {
    if StartsWith(rest, "<=") {
      ScanOnOperator(rest);
      FixedMatch(rest, 20);
    } else {
      LessWins(rest);
    }
  }

  lemma LessWins(rest: string)
    requires rest != [] && rest[0] == '<' && !StartsWith(rest, "<=")
    ensures Outcome(FirstMatchFrom(20, rest), rest) == Scan(rest)
  {
    assert Scan(rest) == Some((Some(Token(LT, "<")), 1)) by {
      ScanOnOperator(rest);
    }
    LessSkips(rest);
    LessMatches(rest);
  }

  lemma LessSkips(rest: string)
    requires rest != [] && rest[0] == '<' && !StartsWith(rest, "<=")
    ensures FirstMatchFrom(20, rest) == FirstMatchFrom(22, rest)
  {
    FixedMiss(rest, 20);
    FixedMiss(rest, 21);
  }

  lemma LessMatches(rest: string)
    requires rest != [] && rest[0] == '<'
    ensures Outcome(FirstMatchFrom(22, rest), rest) == Some((Some(Token(LT, "<")), 1))
  {
    assert rest[..1] == "<";
    FixedMatch(rest, 22);
  }

  lemma ScanOnOperator(rest: string)
    requires rest != [] && rest[0] in "=!><"
    ensures Scan(rest) == ScanOperator(rest)
  {
  }

  /** A fixed pattern whose text is not at the cursor is passed over. */
  lemma FixedMiss(rest: string, k: nat)
    requires k < PatternCount && PatternAt(k).regex.Text?
    requires !StartsWith(rest, PatternAt(k).regex.text)
    ensures FirstMatchFrom(k, rest) == FirstMatchFrom(k + 1, rest)
  {
  }

  /** One step of Tokenize is the dispatch above; when nothing matches,
      Tokenize panics on the character under the cursor. */
  lemma StepIsScan(source: string, pos: nat)
    requires pos < |source|
    ensures Step(source, pos) == FromScan(source, pos, Scan(source[pos..]))
  {
    StepIsOutcome(source, pos);
    ScanIsFirstMatch(source[pos..]);
  }

  /** The step a dispatch result stands for: a panic on the character under
      the cursor when nothing matched, otherwise the token and the move. */
  function FromScan(source: string, pos: nat, s: Option<(Option<Token>, nat)>): Result<StepResult, LexError>
    requires pos < |source|
  {
    if s.None? then Err(UnexpectedCharacter(source[pos], source[pos..]))
    else Ok(StepResult(s.value.0, pos + s.value.1))
  }

  lemma StepIsOutcome(source: string, pos: nat)
    requires pos < |source|
    ensures Step(source, pos) == FromScan(source, pos, Outcome(FirstMatchFrom(0, source[pos..]), source[pos..]))
  {
    var m := FirstMatchFrom(0, source[pos..]);
    if m.Some? {
      StringMatchIsLong(m.value.0, source[pos..], m.value.1);
    }
  }

  /** A string pattern's match holds at least its two quotes. */
  lemma StringMatchIsLong(p: Pattern, rest: string, n: nat)
    requires WellFormed(p) && MatchAt(p.regex, rest) == Some(n)
    ensures p.handler.StringHandler? ==> n >= 2
  {
  }

  /** A token any lexing step can push: never EOF, and never one of the two
      spaced keywords, whose spelling no word pattern can match. */
  predicate Ordinary(t: Token) {
    t.Type != EOF && t.Type != NOT_NOT && t.Type != NOT_IN
  }

  lemma WordTokenOrdinary(w: string)
    requires forall k :: 0 <= k < |w| ==> IsWordChar(w[k])
    ensures Ordinary(Token(WordType(w), w))
  {
    KeywordTable();
    NoSpaceInWord(w);
  }

  lemma NoSpaceInWord(w: string)
    ensures (forall k :: 0 <= k < |w| ==> IsWordChar(w[k])) ==> ' ' !in w
  {
    if ' ' in w {
      var k :| 0 <= k < |w| && w[k] == ' ';
      assert !IsWordChar(w[k]);
    }
  }

  lemma ScanOrdinary(rest: string)
    requires Scan(rest).Some? && Scan(rest).value.0.Some?
    ensures Ordinary(Scan(rest).value.0.value)
  {
    var c := rest[0];
    if IsAsciiLetter(c) && !IsSpace(c) {
      var n := 1 + Span(rest, 1, WordChar);
      assert forall k :: 0 <= k < n ==> IsWordChar(rest[..n][k]);
      WordTokenOrdinary(rest[..n]);
    }
  }

  lemma StepOrdinary(source: string, pos: nat)
    requires pos < |source| && Step(source, pos).Ok? && Step(source, pos).value.token.Some?
    ensures Ordinary(Step(source, pos).value.token.value)
  {
    StepIsScan(source, pos);
    ScanOrdinary(source[pos..]);
  }

  lemma LexFromStep(source: string, pos: nat, acc: seq<Token>)
    requires pos < |source|
    ensures Step(source, pos).Err? ==> LexFrom(source, pos, acc) == Err(Step(source, pos).error)
    ensures Step(source, pos).Ok? ==>
      LexFrom(source, pos, acc) == LexFrom(source, Step(source, pos).value.next, acc + AsSeq(Step(source, pos).value.token))
  {
  }

  /** `ts` extends `acc` with ordinary tokens and one final EOF token whose
      literal is "EOF". */
  predicate Shaped(acc: seq<Token>, ts: seq<Token>) {
    && |ts| > |acc| && ts[..|acc|] == acc
    && ts[|ts| - 1] == Token(EOF, "EOF")
    && forall i :: |acc| <= i < |ts| - 1 ==> Ordinary(ts[i])
  }

  lemma ShapedExtends(acc: seq<Token>, extra: seq<Token>, ts: seq<Token>)
    requires forall t :: t in extra ==> Ordinary(t)
    requires Shaped(acc + extra, ts)
    ensures Shaped(acc, ts)
  {
    var acc' := acc + extra;
    assert ts[..|acc|] == acc'[..|acc|];
    forall i | |acc| <= i < |ts| - 1
      ensures Ordinary(ts[i])
    {
      if i < |acc'| {
        assert ts[i] == ts[..|acc'|][i];
        assert acc'[i] in extra;
      }
    }
  }

  lemma LexFromEnd(source: string, acc: seq<Token>)
    ensures LexFrom(source, |source|, acc) == Ok(acc + [Token(EOF, "EOF")])
  {
  }

  /** Lexing from `pos` keeps the tokens already pushed, pushes only
      ordinary ones, and ends with exactly one EOF token. */
  lemma {:induction false} LexFromShape(source: string, pos: nat, acc: seq<Token>)
    requires pos <= |source| && LexFrom(source, pos, acc).Ok?
    ensures Shaped(acc, LexFrom(source, pos, acc).value)
    decreases |source| - pos
  {
    if pos < |source| {
      LexFromStep(source, pos, acc);
      var s := Step(source, pos).value;
      if s.token.Some? {
        StepOrdinary(source, pos);
      }
      LexFromShape(source, s.next, acc + AsSeq(s.token));
      ShapedExtends(acc, AsSeq(s.token), LexFrom(source, s.next, acc + AsSeq(s.token)).value);
    } else {
      LexFromEnd(source, acc);
    }
  }

  /** A panic names a suffix of the source at which nothing matches. */
  lemma {:induction false} LexFromPanic(source: string, pos: nat, acc: seq<Token>)
    requires pos <= |source| && LexFrom(source, pos, acc).Err?
    ensures var e := LexFrom(source, pos, acc).error;
      exists q :: pos <= q < |source| && e.remaining == source[q..] && Scan(source[q..]).None?
    decreases |source| - pos
  {
    StepIsScan(source, pos);
    var s := Step(source, pos);
    if s.Ok? {
      LexFromPanic(source, s.value.next, acc + AsSeq(s.value.token));
    }
  }

  /** Tokenize's result ends with its only EOF token, and holds neither
      of the two spaced keywords. */
  lemma LexEndsWithEof(source: string)
    requires Lex(source).Ok?
    ensures var ts := Lex(source).value;
      |ts| >= 1 && ts[|ts| - 1] == Token(EOF, "EOF") &&
      forall i :: 0 <= i < |ts| - 1 ==> ts[i].Type != EOF && ts[i].Type != NOT_NOT && ts[i].Type != NOT_IN
  {
    LexFromShape(source, 0, []);
    assert Shaped([], Lex(source).value);
  }

  /** Tokenize panics only at a position where no pattern matches. */
  lemma LexPanicsOnlyUnmatched(source: string)
    requires Lex(source).Err?
    ensures exists q :: 0 <= q < |source| && Lex(source).error.remaining == source[q..] && Scan(source[q..]).None?
  {
    LexFromPanic(source, 0, []);
  }
}
