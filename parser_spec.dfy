/** The primary Pratt parser as functions of the token list and the parser
    state (internal/parser/main.go, expression.go, statement.go). Each
    function returns the node built and the state after it, or the panic
    that ends the parse. The imperative parser in module Parser is proved
    to compute exactly these. */
module ParserSpec {
  import opened Results
  import opened Json
  import opened Tokens
  import opened Ast
  import opened Lookups

  /** An entry of `parser.errors`. */
  datatype Issue =
    | BadNumber(literal: string)                   // strconv.ParseFloat failed
    | Expected(want: TokenType, got: TokenType)    // "expected X, got Y"

  /** A Go panic raised while parsing. */
  datatype Panic =
    | TokenIndexOutOfRange(pos: nat)
    | NoNudHandler(tokenType: TokenType)
    | NoLedHandler(tokenType: TokenType)
    | NoPrimary(tokenType: TokenType)
    | ExpectedToken(want: TokenType, got: TokenType)
    | MissingIdentifier(got: TokenType)
    | ExpectedOneOf(wants: seq<TokenType>, got: TokenType)
    | ExpectedRangeOpen(got: TokenType)
    | ExpectedRangeClose(got: TokenType)

  /** `parser.position` and `parser.errors`. */
  datatype State = State(pos: nat, errors: seq<Issue>)

  datatype Parsed = Parsed(expr: Expr, st: State)
  datatype StatementParsed = StatementParsed(stmt: Statement, st: State)

  /** Positions only move forward and errors are only appended. */
  predicate Progress(st: State, st': State) {
    st.pos < st'.pos && st.errors <= st'.errors
  }

  // ---------------------------------------------------------------------
  // Token cursor
  // ---------------------------------------------------------------------

  /** currentToken: indexing past the end panics. */
  function Current(ts: seq<Token>, st: State): (r: Result<Token, Panic>)
    ensures r.Ok? <==> st.pos < |ts|
    ensures r.Err? ==> r.error == TokenIndexOutOfRange(st.pos)
  {
    if st.pos < |ts| then Ok(ts[st.pos]) else Err(TokenIndexOutOfRange(st.pos))
  }

  /** advance: the current token, with the position moved by one. */
  function Advance(ts: seq<Token>, st: State): (r: Result<(Token, State), Panic>)
    ensures r.Ok? <==> st.pos < |ts|
    ensures r.Ok? ==> r.value.0 == ts[st.pos] && r.value.1 == st.(pos := st.pos + 1)
  {
    var tok :- Current(ts, st);
    Ok((tok, st.(pos := st.pos + 1)))
  }

  function HasTokens(ts: seq<Token>, st: State): bool {
    st.pos < |ts| && ts[st.pos].Type != EOF
  }

  /** expectError: advance if the current kind is `want`, otherwise panic
      with the custom error, or with "expected X, got Y" when there is none
      (that message is also appended to the errors, which the panic then
      discards). */
  function ExpectError(ts: seq<Token>, st: State, want: TokenType, custom: Option<Panic>): (r: Result<(Token, State), Panic>)
    ensures r.Ok? <==> st.pos < |ts| && ts[st.pos].Type == want
    ensures r.Ok? ==> r.value == (ts[st.pos], st.(pos := st.pos + 1))
    ensures r.Err? && st.pos < |ts| ==> r.error == (if custom.Some? then custom.value else ExpectedToken(want, ts[st.pos].Type))
  {
    var tok :- Current(ts, st);
    if tok.Type != want then
      if custom.None? then Err(ExpectedToken(want, tok.Type)) else Err(custom.value)
    else
      Advance(ts, st)
  }

  function Expect(ts: seq<Token>, st: State, want: TokenType): Result<(Token, State), Panic> {
    ExpectError(ts, st, want, None)
  }

  /** expectOneOf */
  function ExpectOneOf(ts: seq<Token>, st: State, wants: seq<TokenType>): (r: Result<(Token, State), Panic>)
    ensures r.Ok? <==> st.pos < |ts| && ts[st.pos].Type in wants
    ensures r.Ok? ==> r.value == (ts[st.pos], st.(pos := st.pos + 1))
    ensures r.Err? && st.pos < |ts| ==> r.error == ExpectedOneOf(wants, ts[st.pos].Type)
  {
    var tok :- Current(ts, st);
    if tok.Type in wants then Advance(ts, st) else Err(ExpectedOneOf(wants, tok.Type))
  }

  // ---------------------------------------------------------------------
  // Expressions
  // ---------------------------------------------------------------------

  /** parsePrimaryExpression */
  function Primary(ts: seq<Token>, st: State): (r: Result<Parsed, Panic>)
    ensures r.Ok? ==> Progress(st, r.value.st) && r.value.st.pos <= |ts|
  {
    var tok :- Current(ts, st);
    var st1 := st.(pos := st.pos + 1);
    if tok.Type == NUMBER then
      var number := ParseFloat(tok.Literal);
      if number.None? then Ok(Parsed(Nil, st1.(errors := st1.errors + [BadNumber(tok.Literal)])))
      else Ok(Parsed(NumberExpression(number.value), st1))
    else if tok.Type == STRING then Ok(Parsed(StringExpression(tok.Literal), st1))
    else if tok.Type == IDENTIFIER then Ok(Parsed(SymbolExpression(tok.Literal), st1))
    else if tok.Type == VARIABLE then Ok(Parsed(VariableExpression(tok.Literal), st1))
    else if tok.Type == TRUE then Ok(Parsed(BooleanExpression(true), st1))
    else if tok.Type == FALSE then Ok(Parsed(BooleanExpression(false), st1))
    else Err(NoPrimary(tok.Type))
  }

  /** parseExpression(bp): the current token's nud, then leds while the
      current token binds tighter than `bp`. A successful parse always stops
      on a token, one whose power is at most `bp`. */
  function ParseExpression(ts: seq<Token>, st: State, bp: BindingPower): (r: Result<Parsed, Panic>)
    ensures r.Ok? ==> Progress(st, r.value.st) && r.value.st.pos < |ts|
    ensures r.Ok? ==> Power(ts[r.value.st.pos].Type) <= bp
    decreases |ts| - st.pos, 3
  {
    var tok :- Current(ts, st);
    var nud := NudOf(tok.Type);
    if nud.None? then Err(NoNudHandler(tok.Type))
    else
      var left :- Nud(ts, st, nud.value);
      LedLoop(ts, left.st, bp, left.expr)
  }

  /** The infix loop of parseExpression, from state `st` with `left` built. */
  function LedLoop(ts: seq<Token>, st: State, bp: BindingPower, left: Expr): (r: Result<Parsed, Panic>)
    ensures r.Ok? ==> st.pos <= r.value.st.pos < |ts| && st.errors <= r.value.st.errors
    ensures r.Ok? ==> Power(ts[r.value.st.pos].Type) <= bp
    decreases |ts| - st.pos, 2
  {
    var tok :- Current(ts, st);
    var power := Power(tok.Type);
    if power <= bp then Ok(Parsed(left, st))
    else
      var led := LedOf(tok.Type);
      if led.None? then Err(NoLedHandler(tok.Type))
      else
        var next :- Led(ts, st, led.value, left, power);
        LedLoop(ts, next.st, bp, next.expr)
  }

  function Nud(ts: seq<Token>, st: State, handler: NudHandler): (r: Result<Parsed, Panic>)
    ensures r.Ok? ==> Progress(st, r.value.st) && r.value.st.pos <= |ts|
    decreases |ts| - st.pos, 2
  {
    match handler
    case PrimaryNud => Primary(ts, st)
    case PrefixNud => Prefix(ts, st)
    case GroupNud => Group(ts, st)
    case ArrayNud => Array(ts, st)
    case IfNud => If(ts, st)
  }

  function Led(ts: seq<Token>, st: State, handler: LedHandler, left: Expr, bp: BindingPower): (r: Result<Parsed, Panic>)
    ensures r.Ok? ==> Progress(st, r.value.st) && r.value.st.pos <= |ts|
    decreases |ts| - st.pos, 1
  {
    match handler
    case BinaryLed => Binary(ts, st, left, bp)
    case AssignmentLed => Assignment(ts, st, left, bp)
    case BetweenLed => Between(ts, st, left)
  }

  /** parseBinaryExpression: the right side is parsed at the operator's own
      power. */
  function Binary(ts: seq<Token>, st: State, left: Expr, bp: BindingPower): (r: Result<Parsed, Panic>)
    ensures r.Ok? ==> Progress(st, r.value.st) && r.value.st.pos <= |ts|
    decreases |ts| - st.pos, 0
  {
    var (op, st1) :- Advance(ts, st);
    var right :- ParseExpression(ts, st1, bp);
    Ok(Parsed(BinaryExpression(left, op, right.expr), right.st))
  }

  /** parseAssignmentExpression */
  function Assignment(ts: seq<Token>, st: State, left: Expr, bp: BindingPower): (r: Result<Parsed, Panic>)
    ensures r.Ok? ==> Progress(st, r.value.st) && r.value.st.pos <= |ts|
    decreases |ts| - st.pos, 0
  {
    var (op, st1) :- Advance(ts, st);
    var value :- ParseExpression(ts, st1, bp);
    Ok(Parsed(AssignmentExpression(left, op, value.expr), value.st))
  }

  /** parsePrefixExpression: the operand is parsed at default power. */
  function Prefix(ts: seq<Token>, st: State): (r: Result<Parsed, Panic>)
    ensures r.Ok? ==> Progress(st, r.value.st) && r.value.st.pos <= |ts|
    decreases |ts| - st.pos, 1
  {
    var (op, st1) :- Advance(ts, st);
    var right :- ParseExpression(ts, st1, DEFAULT_BP);
    Ok(Parsed(PrefixExpression(op, right.expr), right.st))
  }

  /** parseGroupExpression: no node of its own. */
  function Group(ts: seq<Token>, st: State): (r: Result<Parsed, Panic>)
    ensures r.Ok? ==> Progress(st, r.value.st) && r.value.st.pos <= |ts|
    decreases |ts| - st.pos, 1
  {
    var (_, st1) :- Advance(ts, st);
    var inner :- ParseExpression(ts, st1, DEFAULT_BP);
    var (_, st2) :- Expect(ts, inner.st, RPAREN);
    Ok(Parsed(inner.expr, st2))
  }

  /** parseArrayExpression */
  function Array(ts: seq<Token>, st: State): (r: Result<Parsed, Panic>)
    ensures r.Ok? ==> Progress(st, r.value.st) && r.value.st.pos <= |ts|
    decreases |ts| - st.pos, 1
  {
    var (_, st1) :- Expect(ts, st, LBRACKET);
    ArrayElements(ts, st1, [])
  }

  /** The element loop of parseArrayExpression, `elements` parsed so far:
      an element is parsed at logical power and must be followed by `,`
      unless `]` comes next. */
  function ArrayElements(ts: seq<Token>, st: State, elements: seq<Expr>): (r: Result<Parsed, Panic>)
    ensures r.Ok? ==> Progress(st, r.value.st) && r.value.st.pos <= |ts|
    decreases |ts| - st.pos, 4
  {
    if HasTokens(ts, st) && ts[st.pos].Type != RBRACKET then
      var element :- ParseExpression(ts, st, LOGICAL_BP);
      if !IsOneOfMany(ts[element.st.pos], [RBRACKET]) then
        var (_, st2) :- Expect(ts, element.st, COMMA);
        ArrayElements(ts, st2, elements + [element.expr])
      else
        ArrayElements(ts, element.st, elements + [element.expr])
    else
      var (_, st1) :- Expect(ts, st, RBRACKET);
      Ok(Parsed(ArrayLiteral(elements), st1))
  }

  /** parseIfExpression */
  function If(ts: seq<Token>, st: State): (r: Result<Parsed, Panic>)
    ensures r.Ok? ==> Progress(st, r.value.st) && r.value.st.pos <= |ts|
    decreases |ts| - st.pos, 1
  {
    var (_, st1) :- Advance(ts, st);
    var (branch, st2) :- IfArm(ts, st1);
    IfBranches(ts, st2, [branch])
  }

  /** `condition : consequent`, both parsed at default power; the same code
      appears twice in parseIfExpression. */
  function IfArm(ts: seq<Token>, st: State): (r: Result<(IfBranch, State), Panic>)
    ensures r.Ok? ==> Progress(st, r.value.1) && r.value.1.pos < |ts|
    decreases |ts| - st.pos, 4
  {
    var condition :- ParseExpression(ts, st, DEFAULT_BP);
    var (_, st1) :- Expect(ts, condition.st, COLON);
    var consequent :- ParseExpression(ts, st1, DEFAULT_BP);
    Ok((IfBranch(condition.expr, consequent.expr), consequent.st))
  }

  /** The `, condition : consequent` loop of parseIfExpression: anything but
      a comma ends it with no else branch. */
  function IfBranches(ts: seq<Token>, st: State, branches: seq<IfBranch>): (r: Result<Parsed, Panic>)
    ensures r.Ok? ==> st.pos <= r.value.st.pos <= |ts| && st.errors <= r.value.st.errors
    decreases |ts| - st.pos, 6
  {
    var tok :- Current(ts, st);
    if tok.Type != COMMA then Ok(Parsed(IfExpression(branches, Nil), st))
    else IfAfterComma(ts, st.(pos := st.pos + 1), branches)
  }

  /** After a comma: `else : e` ends the chain with the else branch set,
      otherwise another arm follows. */
  function IfAfterComma(ts: seq<Token>, st: State, branches: seq<IfBranch>): (r: Result<Parsed, Panic>)
    ensures r.Ok? ==> Progress(st, r.value.st) && r.value.st.pos <= |ts|
    decreases |ts| - st.pos, 5
  {
    var next :- Current(ts, st);
    if next.Type == ELSE then
      var (_, st1) :- Expect(ts, st.(pos := st.pos + 1), COLON);
      var elseBranch :- ParseExpression(ts, st1, DEFAULT_BP);
      Ok(Parsed(IfExpression(branches, elseBranch.expr), elseBranch.st))
    else
      var (branch, st1) :- IfArm(ts, st);
      IfBranches(ts, st1, branches + [branch])
  }

  /** parseBetweenExpression: `(` sets the lower flag, `)` the upper one;
      `[` and `]` leave them false. */
  function Between(ts: seq<Token>, st: State, left: Expr): (r: Result<Parsed, Panic>)
    ensures r.Ok? ==> Progress(st, r.value.st) && r.value.st.pos <= |ts|
    ensures r.Ok? ==>
      st.pos + 1 < |ts| && ts[st.pos + 1].Type in {LPAREN, LBRACKET}
      && r.value.expr.BetweenExpression? && r.value.expr.left == left
      && (r.value.expr.inclusiveLower <==> ts[st.pos + 1].Type == LPAREN)
      && ts[r.value.st.pos - 1].Type in {RPAREN, RBRACKET}
      && (r.value.expr.inclusiveUpper <==> ts[r.value.st.pos - 1].Type == RPAREN)
    ensures st.pos + 1 < |ts| && ts[st.pos + 1].Type !in {LPAREN, LBRACKET} ==>
      r == Err(ExpectedRangeOpen(ts[st.pos + 1].Type))
    decreases |ts| - st.pos, 0
  {
    var (_, st1) :- Advance(ts, st);
    var open :- Current(ts, st1);
    if !IsOneOfMany(open, [LPAREN, LBRACKET]) then Err(ExpectedRangeOpen(open.Type))
    else BetweenBounds(ts, st1.(pos := st1.pos + 1), left, open.Type == LPAREN)
  }

  /** The rest of parseBetweenExpression, after the opening delimiter. */
  function BetweenBounds(ts: seq<Token>, st: State, left: Expr, inclusiveLower: bool): (r: Result<Parsed, Panic>)
    ensures r.Ok? ==> Progress(st, r.value.st) && r.value.st.pos <= |ts|
    ensures r.Ok? ==>
      r.value.expr.BetweenExpression? && r.value.expr.left == left
      && r.value.expr.inclusiveLower == inclusiveLower
      && ts[r.value.st.pos - 1].Type in {RPAREN, RBRACKET}
      && (r.value.expr.inclusiveUpper <==> ts[r.value.st.pos - 1].Type == RPAREN)
    decreases |ts| - st.pos, 4
  {
    var lower :- ParseExpression(ts, st, DEFAULT_BP);
    var (_, st1) :- Expect(ts, lower.st, COMMA);
    var upper :- ParseExpression(ts, st1, DEFAULT_BP);
    var close := ts[upper.st.pos];
    if !IsOneOfMany(close, [RPAREN, RBRACKET]) then Err(ExpectedRangeClose(close.Type))
    else
      Ok(Parsed(BetweenExpression(left, lower.expr, upper.expr, inclusiveLower, close.Type == RPAREN),
                upper.st.(pos := upper.st.pos + 1)))
  }

  // ---------------------------------------------------------------------
  // Statements and the program loop
  // ---------------------------------------------------------------------

  /** parseStatement */
  function ParseStatement(ts: seq<Token>, st: State): (r: Result<StatementParsed, Panic>)
    ensures r.Ok? ==> Progress(st, r.value.st) && r.value.st.pos <= |ts|
  {
    var tok :- Current(ts, st);
    if StatementOf(tok.Type).Some? then VarDeclaration(ts, st)
    else
      var e :- ParseExpression(ts, st, DEFAULT_BP);
      Ok(StatementParsed(ExpressionStatement(e.expr), e.st))
  }

  /** parseVarDeclarationStatement: the value is parsed at assignment power. */
  function VarDeclaration(ts: seq<Token>, st: State): (r: Result<StatementParsed, Panic>)
    ensures r.Ok? ==> Progress(st, r.value.st) && r.value.st.pos <= |ts|
  {
    var (keyword, st1) :- Advance(ts, st);
    var isConstant := keyword.Type == CONST;
    var cur :- Current(ts, st1);
    var (name, st2) :- ExpectError(ts, st1, IDENTIFIER, Some(MissingIdentifier(cur.Type)));
    var (_, st3) :- Expect(ts, st2, ASSIGN);
    var value :- ParseExpression(ts, st3, ASSIGNMENT_BP);
    Ok(StatementParsed(VarDeclarationStatement(name.Literal, isConstant, value.expr), value.st))
  }

  /** The loop of Parse from state `st`: `body` is the group kept so far,
      `current` the expressions since the last `;`. */
  function ParseFrom(ts: seq<Token>, st: State, body: seq<Expr>, current: seq<Expr>): Result<BlockStatement, Panic>
    decreases |ts| - st.pos
  {
    if !HasTokens(ts, st) then
      Ok(BlockStatement(LineStatement(if |current| > 0 then current else body)))
    else if ts[st.pos].Type == SEMICOLON then
      var (body', current') := if |current| > 0 then (current, []) else (body, current);
      ParseFrom(ts, st.(pos := st.pos + 1), body', current')
    else
      var s :- ParseStatement(ts, st);
      var current' := if s.stmt.ExpressionStatement? then current + [s.stmt.expression] else current;
      ParseFrom(ts, s.st, body, current')
  }

  /** Parse */
  function Parse(ts: seq<Token>): Result<BlockStatement, Panic> {
    ParseFrom(ts, State(0, []), [], [])
  }
}
