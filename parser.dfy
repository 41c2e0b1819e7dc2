/** The primary parser as Go runs it: a cursor over the token list whose
    handlers move `position` and append to `errors` (internal/parser/main.go,
    expression.go, statement.go). Every method is proved to agree with the
    function of the same name in ParserSpec. */
module Parser {
  import opened Results
  import opened Json
  import opened Tokens
  import opened Ast
  import opened Lookups
  import ParserSpec

  class Parser {
    const tokens: seq<Token>
    var position: nat
    var errors: seq<ParserSpec.Issue>

    function Snapshot(): ParserSpec.State
      reads this
    {
      ParserSpec.State(position, errors)
    }

    /** The method's outcome is the spec's: on success the same node and the
        same cursor and errors; on a panic the same panic. */
    predicate Agrees(r: Result<Expr, ParserSpec.Panic>, spec: Result<ParserSpec.Parsed, ParserSpec.Panic>)
      reads this
    {
      match spec
      case Ok(p) => r == Ok(p.expr) && Snapshot() == p.st
      case Err(e) => r == Err(e)
    }

    /** CreateParser (the lookup tables are constants, see Lookups). */
    constructor (tokens: seq<Token>)
      ensures this.tokens == tokens && position == 0 && errors == []
    {
      this.tokens := tokens;
      position := 0;
      errors := [];
    }

    function CurrentToken(): Result<Token, ParserSpec.Panic>
      reads this
    {
      ParserSpec.Current(tokens, Snapshot())
    }

    function HasTokens(): bool
      reads this
    {
      ParserSpec.HasTokens(tokens, Snapshot())
    }

    /** advance: returns the current token and moves one step. */
    method Advance() returns (r: Result<Token, ParserSpec.Panic>)
      modifies this`position
      ensures r.Ok? <==> old(position) < |tokens|
      ensures r.Ok? ==> r.value == tokens[old(position)] && position == old(position) + 1
      ensures r.Err? ==> r.error == ParserSpec.TokenIndexOutOfRange(old(position))
    {
      var current :- CurrentToken();
      position := position + 1;
      return Ok(current);
    }

    /** expectError */
    method ExpectError(want: TokenType, custom: Option<ParserSpec.Panic>) returns (r: Result<Token, ParserSpec.Panic>)
      modifies this
      ensures var spec := ParserSpec.ExpectError(tokens, old(Snapshot()), want, custom);
              (spec.Ok? ==> r == Ok(spec.value.0) && Snapshot() == spec.value.1)
              && (spec.Err? ==> r == Err(spec.error))
      ensures r.Err? && old(position) < |tokens| && custom.None? ==>
                errors == old(errors) + [ParserSpec.Expected(want, tokens[old(position)].Type)]
    {
      var token :- CurrentToken();
      if token.Type != want {
        if custom.None? {
          var err := ParserSpec.ExpectedToken(want, token.Type);
          errors := errors + [ParserSpec.Expected(want, token.Type)];
          return Err(err);
        }
        return Err(custom.value);
      }
      r := Advance();
    }

    /** expect */
    method Expect(want: TokenType) returns (r: Result<Token, ParserSpec.Panic>)
      modifies this
      ensures var spec := ParserSpec.Expect(tokens, old(Snapshot()), want);
              (spec.Ok? ==> r == Ok(spec.value.0) && Snapshot() == spec.value.1)
              && (spec.Err? ==> r == Err(spec.error))
    {
      r := ExpectError(want, None);
    }

    /** expectOneOf: tries the wanted kinds in order. */
    method ExpectOneOf(wants: seq<TokenType>) returns (r: Result<Token, ParserSpec.Panic>)
      modifies this
      ensures var spec := ParserSpec.ExpectOneOf(tokens, old(Snapshot()), wants);
              (spec.Ok? ==> r == Ok(spec.value.0) && Snapshot() == spec.value.1)
              && (spec.Err? ==> r == Err(spec.error))
    {
      var token :- CurrentToken();
      for i := 0 to |wants|
        invariant token.Type !in wants[..i]
      {
        if token.Type == wants[i] {
          r := Advance();
          return;
        }
      }
      assert wants[..|wants|] == wants;
      return Err(ParserSpec.ExpectedOneOf(wants, token.Type));
    }

    // -------------------------------------------------------------------
    // Expressions
    // -------------------------------------------------------------------

    /** parseExpression */
    method ParseExpression(bp: BindingPower) returns (r: Result<Expr, ParserSpec.Panic>)
      modifies this
      ensures Agrees(r, ParserSpec.ParseExpression(tokens, old(Snapshot()), bp))
      decreases |tokens| - position, 3
    {
      var current :- CurrentToken();
      var nud := NudOf(current.Type);
      if nud.None? {
        return Err(ParserSpec.NoNudHandler(current.Type));
      }
      ghost var spec := ParserSpec.ParseExpression(tokens, Snapshot(), bp);
      var left :- Nud(nud.value);

      while true
        invariant ParserSpec.LedLoop(tokens, Snapshot(), bp, left) == spec
        decreases |tokens| - position
      {
        var token :- CurrentToken();
        var power := Power(token.Type);
        if power <= bp {
          return Ok(left);
        }
        var led := LedOf(token.Type);
        if led.None? {
          return Err(ParserSpec.NoLedHandler(token.Type));
        }
        left :- Led(led.value, left, power);
      }
    }

    /** The nud handler call `nudFn(p)`. */
    method Nud(handler: NudHandler) returns (r: Result<Expr, ParserSpec.Panic>)
      modifies this
      ensures Agrees(r, ParserSpec.Nud(tokens, old(Snapshot()), handler))
      decreases |tokens| - position, 2
    {
      match handler
      case PrimaryNud => r := ParsePrimaryExpression();
      case PrefixNud => r := ParsePrefixExpression();
      case GroupNud => r := ParseGroupExpression();
      case ArrayNud => r := ParseArrayExpression();
      case IfNud => r := ParseIfExpression();
    }

    /** The led handler call `ledFn(p, left, bp)`. */
    method Led(handler: LedHandler, left: Expr, bp: BindingPower) returns (r: Result<Expr, ParserSpec.Panic>)
      modifies this
      ensures Agrees(r, ParserSpec.Led(tokens, old(Snapshot()), handler, left, bp))
      decreases |tokens| - position, 1
    {
      match handler
      case BinaryLed => r := ParseBinaryExpression(left, bp);
      case AssignmentLed => r := ParseAssignmentExpression(left, bp);
      case BetweenLed => r := ParseBetweenExpression(left);
    }

    /** parsePrimaryExpression */
    method ParsePrimaryExpression() returns (r: Result<Expr, ParserSpec.Panic>)
      modifies this
      ensures Agrees(r, ParserSpec.Primary(tokens, old(Snapshot())))
    {
      var current :- CurrentToken();
      if current.Type == NUMBER {
        var token := Advance();
        var number := ParseFloat(token.value.Literal);
        if number.None? {
          errors := errors + [ParserSpec.BadNumber(token.value.Literal)];
          return Ok(Nil);
        }
        return Ok(NumberExpression(number.value));
      } else if current.Type == STRING {
        var token := Advance();
        return Ok(StringExpression(token.value.Literal));
      } else if current.Type == IDENTIFIER {
        var token := Advance();
        return Ok(SymbolExpression(token.value.Literal));
      } else if current.Type == VARIABLE {
        var token := Advance();
        return Ok(VariableExpression(token.value.Literal));
      } else if current.Type == TRUE {
        var _ := Advance();
        return Ok(BooleanExpression(true));
      } else if current.Type == FALSE {
        var _ := Advance();
        return Ok(BooleanExpression(false));
      }
      return Err(ParserSpec.NoPrimary(current.Type));
    }

    /** parseBinaryExpression */
    method ParseBinaryExpression(left: Expr, bp: BindingPower) returns (r: Result<Expr, ParserSpec.Panic>)
      modifies this
      ensures Agrees(r, ParserSpec.Binary(tokens, old(Snapshot()), left, bp))
      decreases |tokens| - position, 0
    {
      var operatorToken :- Advance();
      var right :- ParseExpression(bp);
      return Ok(BinaryExpression(left, operatorToken, right));
    }

    /** parsePrefixExpression */
    method ParsePrefixExpression() returns (r: Result<Expr, ParserSpec.Panic>)
      modifies this
      ensures Agrees(r, ParserSpec.Prefix(tokens, old(Snapshot())))
      decreases |tokens| - position, 1
    {
      var operatorToken :- Advance();
      var right :- ParseExpression(DEFAULT_BP);
      return Ok(PrefixExpression(operatorToken, right));
    }

    /** parseGroupExpression */
    method ParseGroupExpression() returns (r: Result<Expr, ParserSpec.Panic>)
      modifies this
      ensures Agrees(r, ParserSpec.Group(tokens, old(Snapshot())))
      decreases |tokens| - position, 1
    {
      var _ :- Advance();
      var expression :- ParseExpression(DEFAULT_BP);
      var _ :- Expect(RPAREN);
      return Ok(expression);
    }

    /** parseAssignmentExpression */
    method ParseAssignmentExpression(left: Expr, bp: BindingPower) returns (r: Result<Expr, ParserSpec.Panic>)
      modifies this
      ensures Agrees(r, ParserSpec.Assignment(tokens, old(Snapshot()), left, bp))
      decreases |tokens| - position, 0
    {
      var operatorToken :- Advance();
      var right :- ParseExpression(bp);
      return Ok(AssignmentExpression(left, operatorToken, right));
    }

    /** parseArrayExpression */
    method ParseArrayExpression() returns (r: Result<Expr, ParserSpec.Panic>)
      modifies this
      ensures Agrees(r, ParserSpec.Array(tokens, old(Snapshot())))
      decreases |tokens| - position, 1
    {
      var elements: seq<Expr> := [];
      var _ :- Expect(LBRACKET);
      ghost var spec := ParserSpec.ArrayElements(tokens, Snapshot(), elements);
      while HasTokens() && tokens[position].Type != RBRACKET
        invariant ParserSpec.ArrayElements(tokens, Snapshot(), elements) == spec
        decreases |tokens| - position
      {
        var element :- ParseExpression(LOGICAL_BP);
        elements := elements + [element];
        var current := CurrentToken().value;
        if !IsOneOfMany(current, [RBRACKET]) {
          var _ :- Expect(COMMA);
        }
      }
      var _ :- Expect(RBRACKET);
      return Ok(ArrayLiteral(elements));
    }

    /** parseIfExpression */
    method ParseIfExpression() returns (r: Result<Expr, ParserSpec.Panic>)
      modifies this
      ensures Agrees(r, ParserSpec.If(tokens, old(Snapshot())))
      decreases |tokens| - position, 1
    {
      var _ :- Advance();
      var branch :- ParseIfArm();
      r := ParseIfBranches([branch]);
    }

    /** parseIfExpression's loop over `, condition : consequent` and the
        closing `, else : e`. */
    method ParseIfBranches(branches0: seq<IfBranch>) returns (r: Result<Expr, ParserSpec.Panic>)
      modifies this
      ensures Agrees(r, ParserSpec.IfBranches(tokens, old(Snapshot()), branches0))
      decreases |tokens| - position, 6
    {
      var branches := branches0;
      ghost var spec := ParserSpec.IfBranches(tokens, Snapshot(), branches);
      while true
        invariant ParserSpec.IfBranches(tokens, Snapshot(), branches) == spec
        decreases |tokens| - position
      {
        var current :- CurrentToken();
        if current.Type != COMMA {
          return Ok(IfExpression(branches, Nil));
        }
        var _ := Advance();
        assert ParserSpec.IfAfterComma(tokens, Snapshot(), branches) == spec;
        var next :- CurrentToken();
        if next.Type == ELSE {
          var _ := Advance();
          var _ :- Expect(COLON);
          var elseBranch :- ParseExpression(DEFAULT_BP);
          return Ok(IfExpression(branches, elseBranch));
        }
        var branch :- ParseIfArm();
        branches := branches + [branch];
      }
    }

    /** `condition : consequent`, as parsed at both places in parseIfExpression. */
    method ParseIfArm() returns (r: Result<IfBranch, ParserSpec.Panic>)
      modifies this
      ensures var spec := ParserSpec.IfArm(tokens, old(Snapshot()));
              (spec.Ok? ==> r == Ok(spec.value.0) && Snapshot() == spec.value.1)
              && (spec.Err? ==> r == Err(spec.error))
      decreases |tokens| - position, 4
    {
      var condition :- ParseExpression(DEFAULT_BP);
      var _ :- Expect(COLON);
      var consequent :- ParseExpression(DEFAULT_BP);
      return Ok(IfBranch(condition, consequent));
    }

    /** parseBetweenExpression */
    method ParseBetweenExpression(left: Expr) returns (r: Result<Expr, ParserSpec.Panic>)
      modifies this
      ensures Agrees(r, ParserSpec.Between(tokens, old(Snapshot()), left))
      decreases |tokens| - position, 0
    {
      var _ :- Advance();
      var inclusiveLower := false;

      var open :- CurrentToken();
      if IsOneOfMany(open, [LPAREN, LBRACKET]) {
        if open.Type == LPAREN {
          inclusiveLower := true;
        }
        var _ := Advance();
      } else {
        return Err(ParserSpec.ExpectedRangeOpen(open.Type));
      }
      r := ParseBetweenBounds(left, inclusiveLower);
    }

    /** The rest of parseBetweenExpression, after the opening delimiter. */
    method ParseBetweenBounds(left: Expr, inclusiveLower: bool) returns (r: Result<Expr, ParserSpec.Panic>)
      modifies this
      ensures Agrees(r, ParserSpec.BetweenBounds(tokens, old(Snapshot()), left, inclusiveLower))
      decreases |tokens| - position, 4
    {
      var inclusiveUpper := false;
      var lowerBound :- ParseExpression(DEFAULT_BP);
      var _ :- Expect(COMMA);
      var upperBound :- ParseExpression(DEFAULT_BP);

      var close := CurrentToken().value;
      if IsOneOfMany(close, [RPAREN, RBRACKET]) {
        if close.Type == RPAREN {
          inclusiveUpper := true;
        }
        var _ := Advance();
      } else {
        return Err(ParserSpec.ExpectedRangeClose(close.Type));
      }

      return Ok(BetweenExpression(left, lowerBound, upperBound, inclusiveLower, inclusiveUpper));
    }

    // -------------------------------------------------------------------
    // Statements
    // -------------------------------------------------------------------

    /** parseStatement */
    method ParseStatement() returns (r: Result<Statement, ParserSpec.Panic>)
      modifies this
      ensures var spec := ParserSpec.ParseStatement(tokens, old(Snapshot()));
              (spec.Ok? ==> r == Ok(spec.value.stmt) && Snapshot() == spec.value.st)
              && (spec.Err? ==> r == Err(spec.error))
    {
      var current :- CurrentToken();
      if StatementOf(current.Type).Some? {
        r := ParseVarDeclarationStatement();
        return;
      }
      var expression :- ParseExpression(DEFAULT_BP);
      return Ok(ExpressionStatement(expression));
    }

    /** parseVarDeclarationStatement */
    method ParseVarDeclarationStatement() returns (r: Result<Statement, ParserSpec.Panic>)
      modifies this
      ensures var spec := ParserSpec.VarDeclaration(tokens, old(Snapshot()));
              (spec.Ok? ==> r == Ok(spec.value.stmt) && Snapshot() == spec.value.st)
              && (spec.Err? ==> r == Err(spec.error))
    {
      var keyword :- Advance();
      var isConstant := keyword.Type == CONST;
      var current :- CurrentToken();
      var name :- ExpectError(IDENTIFIER, Some(ParserSpec.MissingIdentifier(current.Type)));
      var _ :- Expect(ASSIGN);
      var assignedValue :- ParseExpression(ASSIGNMENT_BP);
      return Ok(VarDeclarationStatement(name.Literal, isConstant, assignedValue));
    }
  }

  /** Parse: keeps the last non-empty `;`-separated group of expression
      statements. */
  method Parse(tokens: seq<Token>) returns (r: Result<BlockStatement, ParserSpec.Panic>)
    ensures r == ParserSpec.Parse(tokens)
  {
    var body: seq<Expr> := [];
    var p := new Parser(tokens);
    var currentLineExpressions: seq<Expr> := [];

    while p.HasTokens()
      invariant p.tokens == tokens
      invariant ParserSpec.ParseFrom(tokens, p.Snapshot(), body, currentLineExpressions) == ParserSpec.Parse(tokens)
      decreases |tokens| - p.position
    {
      if tokens[p.position].Type == SEMICOLON {
        if |currentLineExpressions| > 0 {
          body := currentLineExpressions;
          currentLineExpressions := [];
        }
        var _ := p.Advance();
      } else {
        var statement :- p.ParseStatement();
        if statement.ExpressionStatement? {
          currentLineExpressions := currentLineExpressions + [statement.expression];
        }
      }
    }

    if |currentLineExpressions| > 0 {
      body := currentLineExpressions;
    }
    return Ok(BlockStatement(LineStatement(body)));
  }
}
