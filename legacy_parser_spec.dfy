/** The recursive-descent parser of the older pipeline
    (internal/parser/parser*.go, operators.go), as functions of the input
    and the parser's state. A parse function returns the node it built and
    the state after it, or `Diverges` where the Go code would loop for ever.

    The state is the lexer's position with the current and peeked tokens
    and the error list; the errors are only ever appended to and never
    read, so they take no part in deciding what is parsed. Every function
    that consumes a token first checks that it is not EOF, which is what
    makes the recursion terminate: `Measure` (bytes left to lex plus the
    non-EOF tokens held) falls with every consumed token. */
module LegacyParserSpec {
  import opened Results
  import opened LegacyToken
  import opened LegacyLexer
  import opened LegacyAst

  /** The messages the parser records, one per call site. */
  datatype ParseError =
    | ExpectedNextToken(expected: TokenType, got: TokenType)  // expectPeek
    | UnexpectedToken(got: TokenType)                          // parsePrimaryExpression
    | ExpectedRightParen                                       // parseParenthesizedExpression, parseFunctionCall
    | ExpectedArrayAfterNotIn
    | FailedArrayAfterNotIn
    | ExpectedArrayAfterIn
    | FailedArrayAfterIn
    | InvalidArrayElement
    | InvalidArrayElementAfterComma
    | ExpectedRightBracket(got: TokenType)

  datatype PState = PState(lexPos: nat, cur: Token, peek: Token, errors: seq<ParseError>)

  datatype Parsed = Parsed(node: Node, st: PState)

  /** parseFunctionCall's argument loop made no progress at this token: Go
      would repeat the same iteration for ever. */
  datatype Diverges = NoProgress(at: Token)

  type Outcome = Result<Parsed, Diverges>

  // ---------------------------------------------------------------------
  // Parser state (parser.go)
  // ---------------------------------------------------------------------

  const ZeroToken := Token(Unset, "")

  /** Bytes left to lex, plus one for each of `cur` and `peek` that is not
      EOF. */
  function Measure(input: Bytes, st: PState): nat {
    (if st.lexPos < |input| then |input| - st.lexPos else 0)
    + (if st.cur.Type != EOF then 1 else 0)
    + (if st.peek.Type != EOF then 1 else 0)
  }

  /** nextToken: the peeked token becomes current and the lexer reads the
      next one. Consuming a token other than EOF lowers the measure. */
  function Advance(input: Bytes, st: PState): (r: PState)
    ensures r.lexPos > st.lexPos && r.cur == st.peek && r.errors == st.errors
    ensures st.cur.Type != EOF ==> Measure(input, r) < Measure(input, st)
  {
    var (t, next) := NextTokenAt(input, st.lexPos);
    PState(next, st.peek, t, st.errors)
  }

  /** addError and addErrorf */
  function AddError(st: PState, e: ParseError): (r: PState)
    ensures r.errors == st.errors + [e]
    ensures r.lexPos == st.lexPos && r.cur == st.cur && r.peek == st.peek
  {
    st.(errors := st.errors + [e])
  }

  /** NewParser over NewLexer: the lexer starts at the first byte and the
      parser reads two tokens. */
  function Init(input: Bytes): (st: PState)
    ensures st.cur == NextTokenAt(input, 0).0 && st.errors == []
  {
    Advance(input, Advance(input, PState(0, ZeroToken, ZeroToken, [])))
  }

  /** What every parse function leaves behind: the lexer has not moved
      back, a move lowered the measure, no move left both tokens as they
      were, and the errors were only appended to. */
  predicate Progress(input: Bytes, st: PState, st': PState) {
    st.lexPos <= st'.lexPos && Measure(input, st') <= Measure(input, st)
    && (st'.lexPos == st.lexPos ==> st'.cur == st.cur && st'.peek == st.peek)
    && (st.lexPos < st'.lexPos ==> Measure(input, st') < Measure(input, st))
    && st.errors <= st'.errors
  }

  /** The contract every parse function keeps: progress, and a nil result
      only together with a new error. */
  predicate Sound(input: Bytes, st: PState, r: Outcome) {
    r.Ok? ==>
      Progress(input, st, r.value.st)
      && (r.value.node == Nil ==> |st.errors| < |r.value.st.errors|)
  }

  /** The contract of an operator loop: progress, and a nil result only
      when no operator followed a nil left operand. */
  predicate LoopSound(input: Bytes, st: PState, left: Node, r: Outcome) {
    r.Ok? ==>
      Progress(input, st, r.value.st)
      && (r.value.node == Nil ==> left == Nil && r.value.st == st)
  }

  // ---------------------------------------------------------------------
  // operators.go
  // ---------------------------------------------------------------------

  newtype OperatorPrecedence = x: int | 0 <= x <= 5

  const LOWEST: OperatorPrecedence := 0
  const LOGICAL: OperatorPrecedence := 1
  const EQUALS: OperatorPrecedence := 2
  const COMPARISON: OperatorPrecedence := 3
  const PREFIX: OperatorPrecedence := 4
  const CALL: OperatorPrecedence := 5

  const Precedences: map<TokenType, OperatorPrecedence> := map[
    EQ := EQUALS, STRICT_EQ := EQUALS, NOT_EQ := EQUALS, STRICT_NOT := EQUALS,
    LT := COMPARISON, GT := COMPARISON, LTE := COMPARISON, GTE := COMPARISON, IN := COMPARISON,
    AND := LOGICAL, OR := LOGICAL
  ]

  function PrecedenceOf(t: TokenType): OperatorPrecedence {
    if t in Precedences then Precedences[t] else LOWEST
  }

  /** peekPrecedence */
  function PeekPrecedence(st: PState): OperatorPrecedence {
    PrecedenceOf(st.peek.Type)
  }

  /** currentPrecedence */
  function CurrentPrecedence(st: PState): OperatorPrecedence {
    PrecedenceOf(st.cur.Type)
  }

  /** isComparisonOperator: the operators of the comparison loop, which
      include `=` and leave out IN. */
  predicate IsComparisonOperator(t: TokenType) {
    t in {ASSIGN, EQ, STRICT_EQ, NOT_EQ, STRICT_NOT, GT, LT, GTE, LTE}
  }

  /** peekTokenIs */
  predicate PeekTokenIs(st: PState, t: TokenType) {
    st.peek.Type == t
  }

  /** currentTokenIs */
  predicate CurrentTokenIs(st: PState, t: TokenType) {
    st.cur.Type == t
  }

  /** expectPeek: move on when the peeked token has kind `t`, otherwise
      record an error and stay. */
  function ExpectPeek(input: Bytes, st: PState, t: TokenType): (bool, PState) {
    if PeekTokenIs(st, t) then (true, Advance(input, st))
    else (false, AddError(st, ExpectedNextToken(t, st.peek.Type)))
  }

  // ---------------------------------------------------------------------
  // parser_expressions.go
  // ---------------------------------------------------------------------

  /** ParseExpression */
  function ParseExpression(input: Bytes, st: PState): (r: Outcome)
    ensures Sound(input, st, r)
    ensures r.Ok? ==> !CurrentTokenIs(r.value.st, OR)
    decreases Measure(input, st), 11
  {
    Or(input, st)
  }

  /** parseOrExpression */
  function Or(input: Bytes, st: PState): (r: Outcome)
    ensures Sound(input, st, r)
    ensures r.Ok? ==> !CurrentTokenIs(r.value.st, OR)
    decreases Measure(input, st), 10
  {
    var left :- And(input, st);
    OrLoop(input, left.st, left.node)
  }

  /** parseOrExpression's loop: each OR folds the next AND-level operand
      onto the left. */
  function OrLoop(input: Bytes, st: PState, left: Node): (r: Outcome)
    ensures LoopSound(input, st, left, r)
    ensures r.Ok? ==> !CurrentTokenIs(r.value.st, OR)
    decreases Measure(input, st), 9
  {
    if CurrentTokenIs(st, OR) then
      var token := st.cur;
      var right :- And(input, Advance(input, st));
      OrLoop(input, right.st, BinaryExpression(token, left, token.Literal, right.node))
    else Ok(Parsed(left, st))
  }

  /** parseAndExpression */
  function And(input: Bytes, st: PState): (r: Outcome)
    ensures Sound(input, st, r)
    ensures r.Ok? ==> !CurrentTokenIs(r.value.st, AND)
    decreases Measure(input, st), 8
  {
    var left :- Comparison(input, st);
    AndLoop(input, left.st, left.node)
  }

  /** parseAndExpression's loop */
  function AndLoop(input: Bytes, st: PState, left: Node): (r: Outcome)
    ensures LoopSound(input, st, left, r)
    ensures r.Ok? ==> !CurrentTokenIs(r.value.st, AND)
    decreases Measure(input, st), 7
  {
    if CurrentTokenIs(st, AND) then
      var token := st.cur;
      var right :- Comparison(input, Advance(input, st));
      AndLoop(input, right.st, BinaryExpression(token, left, token.Literal, right.node))
    else Ok(Parsed(left, st))
  }

  // ---------------------------------------------------------------------
  // parser_core.go
  // ---------------------------------------------------------------------

  /** isNotInPattern: a `NOT` spelled in capitals, then IN. */
  predicate IsNotInPattern(st: PState) {
    st.cur.Type == BANG && st.cur.Literal == "NOT" && st.peek.Type == IN
  }

  /** parseComparisonExpression */
  function Comparison(input: Bytes, st: PState): (r: Outcome)
    ensures Sound(input, st, r)
    decreases Measure(input, st), 6
  {
    var left :- Primary(input, st);
    ComparisonTail(input, left.st, left.node)
  }

  /** What follows the first primary: NOT IN, IN, or the comparison loop;
      nothing chains after an IN or a NOT IN. */
  function ComparisonTail(input: Bytes, st: PState, left: Node): (r: Outcome)
    ensures r.Ok? ==> Progress(input, st, r.value.st)
    ensures r.Ok? && r.value.node == Nil ==> (left == Nil && r.value.st == st) || |st.errors| < |r.value.st.errors|
    decreases Measure(input, st), 5
  {
    if IsNotInPattern(st) then NotIn(input, st, left)
    else if CurrentTokenIs(st, IN) then In(input, st, left)
    else ComparisonLoop(input, st, left)
  }

  /** parseComparisonExpression's loop over primaries. */
  function ComparisonLoop(input: Bytes, st: PState, left: Node): (r: Outcome)
    ensures LoopSound(input, st, left, r)
    ensures r.Ok? ==> !IsComparisonOperator(r.value.st.cur.Type)
    decreases Measure(input, st), 4
  {
    if IsComparisonOperator(st.cur.Type) then
      var token := st.cur;
      var right :- Primary(input, Advance(input, st));
      ComparisonLoop(input, right.st, BinaryExpression(token, left, token.Literal, right.node))
    else Ok(Parsed(left, st))
  }

  /** parseNotInExpression */
  function NotIn(input: Bytes, st: PState, left: Node): (r: Outcome)
    requires st.cur.Type == BANG && st.peek.Type == IN
    ensures Sound(input, st, r)
    decreases Measure(input, st), 4
  {
    var notToken := st.cur;
    var s1 := Advance(input, st);
    var inToken := s1.cur;
    var s2 := Advance(input, s1);
    if !CurrentTokenIs(s2, LBRACKET) then Ok(Parsed(Nil, AddError(s2, ExpectedArrayAfterNotIn)))
    else
      var right :- Array(input, s2);
      if right.node == Nil then Ok(Parsed(Nil, AddError(right.st, FailedArrayAfterNotIn)))
      else
        var inExpr := BinaryExpression(inToken, left, inToken.Literal, right.node);
        Ok(Parsed(UnaryExpression(notToken, notToken.Literal, inExpr), right.st))
  }

  /** parseInExpression */
  function In(input: Bytes, st: PState, left: Node): (r: Outcome)
    requires st.cur.Type == IN
    ensures Sound(input, st, r)
    decreases Measure(input, st), 4
  {
    var token := st.cur;
    var s1 := Advance(input, st);
    if !CurrentTokenIs(s1, LBRACKET) then Ok(Parsed(Nil, AddError(s1, ExpectedArrayAfterIn)))
    else
      var right :- Array(input, s1);
      if right.node == Nil then Ok(Parsed(Nil, AddError(right.st, FailedArrayAfterIn)))
      else Ok(Parsed(BinaryExpression(token, left, token.Literal, right.node), right.st))
  }

  /** parsePrimaryExpression */
  function Primary(input: Bytes, st: PState): (r: Outcome)
    ensures Sound(input, st, r)
    decreases Measure(input, st), 3
  {
    var t := st.cur;
    match t.Type
    case LPAREN => Parenthesized(input, st)
    case BANG => Unary(input, st)
    case VARIABLE => Ok(Parsed(Variable(t, t.Literal), Advance(input, st)))
    case NUMBER => Ok(Parsed(Literal(t, t.Literal), Advance(input, st)))
    case STRING => Ok(Parsed(Literal(t, StripQuotes(t.Literal)), Advance(input, st)))
    case LBRACKET => Array(input, st)
    case IDENTIFIER =>
      if st.peek.Type == LPAREN then Call(input, st)
      else Ok(Parsed(Literal(t, t.Literal), Advance(input, st)))
    case _ => Ok(Parsed(Nil, AddError(st, UnexpectedToken(t.Type))))
  }

  /** parseParenthesizedExpression: parentheses add no node. */
  function Parenthesized(input: Bytes, st: PState): (r: Outcome)
    requires st.cur.Type == LPAREN
    ensures Sound(input, st, r)
    decreases Measure(input, st), 2
  {
    var exp :- ParseExpression(input, Advance(input, st));
    if !CurrentTokenIs(exp.st, RPAREN) then Ok(Parsed(Nil, AddError(exp.st, ExpectedRightParen)))
    else Ok(Parsed(exp.node, Advance(input, exp.st)))
  }

  /** parseUnaryExpression: the operand is one primary. */
  function Unary(input: Bytes, st: PState): (r: Outcome)
    requires st.cur.Type == BANG
    ensures Sound(input, st, r)
    decreases Measure(input, st), 2
  {
    var token := st.cur;
    var right :- Primary(input, Advance(input, st));
    Ok(Parsed(UnaryExpression(token, token.Literal, right.node), right.st))
  }

  /** parseStringLiteral's value: the literal without its first and last
      byte when it is at least two long and starts with a quote. */
  function StripQuotes(literal: string): string {
    if |literal| >= 2 && (literal[0] == '"' || literal[0] == '\'') then literal[1..|literal| - 1]
    else literal
  }

  // ---------------------------------------------------------------------
  // parser_literals.go
  // ---------------------------------------------------------------------

  /** parseArrayLiteral: `[]`, or primaries separated by commas with an
      optional trailing comma; a nil element fails the whole array. */
  function Array(input: Bytes, st: PState): (r: Outcome)
    requires st.cur.Type == LBRACKET
    ensures Sound(input, st, r)
    decreases Measure(input, st), 2
  {
    var token := st.cur;
    var s1 := Advance(input, st);
    if CurrentTokenIs(s1, RBRACKET) then Ok(Parsed(ArrayLiteral(token, []), Advance(input, s1)))
    else
      var elem :- Primary(input, s1);
      if elem.node == Nil then Ok(Parsed(Nil, AddError(elem.st, InvalidArrayElement)))
      else ArrayElements(input, elem.st, token, [elem.node])
  }

  /** parseArrayLiteral's loop over the elements after the first. */
  function ArrayElements(input: Bytes, st: PState, token: Token, elements: seq<Node>): (r: Outcome)
    ensures Sound(input, st, r)
    decreases Measure(input, st), 1
  {
    if CurrentTokenIs(st, COMMA) then
      var s1 := Advance(input, st);
      if CurrentTokenIs(s1, RBRACKET) then ArrayClose(input, s1, token, elements)
      else
        var elem :- Primary(input, s1);
        if elem.node == Nil then Ok(Parsed(Nil, AddError(elem.st, InvalidArrayElementAfterComma)))
        else ArrayElements(input, elem.st, token, elements + [elem.node])
    else ArrayClose(input, st, token, elements)
  }

  /** parseArrayLiteral's closing bracket. */
  function ArrayClose(input: Bytes, st: PState, token: Token, elements: seq<Node>): (r: Outcome)
    ensures Sound(input, st, r)
  {
    if !CurrentTokenIs(st, RBRACKET) then Ok(Parsed(Nil, AddError(st, ExpectedRightBracket(st.cur.Type))))
    else Ok(Parsed(ArrayLiteral(token, elements), Advance(input, st)))
  }

  /** parseFunctionCall, on the name with `(` peeked. */
  function Call(input: Bytes, st: PState): (r: Outcome)
    requires st.cur.Type == IDENTIFIER && st.peek.Type == LPAREN
    ensures Sound(input, st, r)
    decreases Measure(input, st), 2
  {
    var token := st.cur;
    Arguments(input, Advance(input, Advance(input, st)), token, [])
  }

  /** parseFunctionCall's loop: until `)`, parse an expression, keep it if
      it is not nil, and skip one comma. An iteration that consumes nothing
      would repeat for ever; the check after the loop is never reached with
      any token but `)`. */
  function Arguments(input: Bytes, st: PState, token: Token, args: seq<Node>): (r: Outcome)
    ensures Sound(input, st, r)
    decreases Measure(input, st), 12
  {
    if CurrentTokenIs(st, RPAREN) then Ok(Parsed(FunctionCall(token, token.Literal, args), Advance(input, st)))
    else
      var arg :- ParseExpression(input, st);
      var args' := if arg.node != Nil then args + [arg.node] else args;
      var s := if CurrentTokenIs(arg.st, COMMA) then Advance(input, arg.st) else arg.st;
      if s.lexPos == st.lexPos then Err(NoProgress(st.cur))
      else Arguments(input, s, token, args')
  }

  /** The whole pipeline up to the tree: NewLexer, NewParser and
      ParseExpression. */
  function Parse(input: Bytes): Outcome {
    ParseExpression(input, Init(input))
  }
}
