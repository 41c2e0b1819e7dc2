/** The Go `Parser` struct of the older pipeline and its methods
    (internal/parser/parser.go, parser_expressions.go, parser_core.go,
    parser_literals.go, operators.go). Each parse method updates the
    parser and its lexer in place and is proved to return the node, and
    leave the state, that the function of the same name in
    `LegacyParserSpec` gives. Where the Go loop in parseFunctionCall would
    spin for ever the method returns `Diverges` instead. */
module LegacyParser {
  import opened Results
  import opened LegacyToken
  import opened LegacyLexer
  import opened LegacyAst
  import Spec = LegacyParserSpec

  type ParseResult = Result<Node, Spec.Diverges>

  /** A method's result and new state against the function's outcome. */
  predicate Agrees(r: ParseResult, spec: Spec.Outcome, now: Spec.PState) {
    match spec
    case Ok(p) => r == Ok(p.node) && now == p.st
    case Err(d) => r == Err(d)
  }

  class Parser {
    const lexer: Lexer
    var currentToken: Token
    var peekToken: Token
    var errors: seq<Spec.ParseError>

    predicate Valid()
      reads this, lexer
    {
      lexer.Valid()
    }

    function Input(): Bytes
      reads this
    {
      lexer.input
    }

    /** The parser's state as the functions see it. */
    function Snapshot(): Spec.PState
      reads this, lexer
    {
      Spec.PState(lexer.position, currentToken, peekToken, errors)
    }

    /** NewParser: reads two tokens, so the first token of the input is
        current and the second peeked. */
    constructor (l: Lexer)
      requires l.Valid()
      modifies l
      ensures lexer == l && Valid()
      ensures Snapshot() == Spec.Advance(l.input, Spec.Advance(l.input, Spec.PState(old(l.position), Spec.ZeroToken, Spec.ZeroToken, [])))
    {
      lexer := l;
      currentToken := Spec.ZeroToken;
      peekToken := Spec.ZeroToken;
      errors := [];
      new;
      nextToken();
      nextToken();
    }

    /** nextToken */
    method nextToken()
      requires Valid()
      modifies this, lexer
      ensures Valid() && Snapshot() == Spec.Advance(Input(), old(Snapshot()))
    {
      currentToken := peekToken;
      peekToken := lexer.nextToken();
    }

    /** Errors: the messages in the order they were recorded. */
    function Errors(): (r: seq<Spec.ParseError>)
      reads this, lexer
      ensures r == Snapshot().errors
    {
      errors
    }

    /** addError and addErrorf */
    method addError(e: Spec.ParseError)
      modifies this
      ensures Snapshot() == Spec.AddError(old(Snapshot()), e)
    {
      errors := errors + [e];
    }

    /** expectPeek */
    method expectPeek(t: TokenType) returns (ok: bool)
      requires Valid()
      modifies this, lexer
      ensures Valid() && (ok, Snapshot()) == Spec.ExpectPeek(Input(), old(Snapshot()), t)
    {
      if peekToken.Type == t {
        nextToken();
        return true;
      }
      addError(Spec.ExpectedNextToken(t, peekToken.Type));
      return false;
    }

    // -------------------------------------------------------------------
    // parser_expressions.go
    // -------------------------------------------------------------------

    /** ParseExpression */
    method ParseExpression() returns (r: ParseResult)
      requires Valid()
      modifies this, lexer
      ensures Valid() && Agrees(r, Spec.ParseExpression(Input(), old(Snapshot())), Snapshot())
      decreases Spec.Measure(Input(), Snapshot()), 11
    {
      r := parseOrExpression();
    }

    /** parseOrExpression */
    method parseOrExpression() returns (r: ParseResult)
      requires Valid()
      modifies this, lexer
      ensures Valid() && Agrees(r, Spec.Or(Input(), old(Snapshot())), Snapshot())
      decreases Spec.Measure(Input(), Snapshot()), 10
    {
      var left :- parseAndExpression();
      while currentToken.Type == OR
        invariant Valid() && Spec.Progress(Input(), old(Snapshot()), Snapshot())
        invariant Spec.Or(Input(), old(Snapshot())) == Spec.OrLoop(Input(), Snapshot(), left)
        decreases Spec.Measure(Input(), Snapshot())
      {
        var token := currentToken;
        nextToken();
        var right :- parseAndExpression();
        left := BinaryExpression(token, left, token.Literal, right);
      }
      r := Ok(left);
    }

    /** parseAndExpression */
    method parseAndExpression() returns (r: ParseResult)
      requires Valid()
      modifies this, lexer
      ensures Valid() && Agrees(r, Spec.And(Input(), old(Snapshot())), Snapshot())
      decreases Spec.Measure(Input(), Snapshot()), 8
    {
      var left :- parseComparisonExpression();
      while currentToken.Type == AND
        invariant Valid() && Spec.Progress(Input(), old(Snapshot()), Snapshot())
        invariant Spec.And(Input(), old(Snapshot())) == Spec.AndLoop(Input(), Snapshot(), left)
        decreases Spec.Measure(Input(), Snapshot())
      {
        var token := currentToken;
        nextToken();
        var right :- parseComparisonExpression();
        left := BinaryExpression(token, left, token.Literal, right);
      }
      r := Ok(left);
    }

    // -------------------------------------------------------------------
    // parser_core.go
    // -------------------------------------------------------------------

    /** parseComparisonExpression */
    method parseComparisonExpression() returns (r: ParseResult)
      requires Valid()
      modifies this, lexer
      ensures Valid() && Agrees(r, Spec.Comparison(Input(), old(Snapshot())), Snapshot())
      decreases Spec.Measure(Input(), Snapshot()), 6
    {
      ghost var s0 := Snapshot();
      var left :- parsePrimaryExpression();
      ghost var s1 := Snapshot();
      assert Spec.Comparison(Input(), s0) == Spec.ComparisonTail(Input(), s1, left);
      if Spec.IsNotInPattern(Snapshot()) {
        assert Spec.ComparisonTail(Input(), s1, left) == Spec.NotIn(Input(), s1, left);
        r := parseNotInExpression(left);
        return;
      }
      if currentToken.Type == IN {
        assert Spec.ComparisonTail(Input(), s1, left) == Spec.In(Input(), s1, left);
        r := parseInExpression(left);
        return;
      }
      r := comparisonLoop(left);
    }

    /** parseComparisonExpression's loop over primaries. */
    method comparisonLoop(left0: Node) returns (r: ParseResult)
      requires Valid()
      modifies this, lexer
      ensures Valid() && Agrees(r, Spec.ComparisonLoop(Input(), old(Snapshot()), left0), Snapshot())
      decreases Spec.Measure(Input(), Snapshot()), 4
    {
      var left := left0;
      while Spec.IsComparisonOperator(currentToken.Type)
        invariant Valid() && Spec.Progress(Input(), old(Snapshot()), Snapshot())
        invariant Spec.ComparisonLoop(Input(), old(Snapshot()), left0) == Spec.ComparisonLoop(Input(), Snapshot(), left)
        decreases Spec.Measure(Input(), Snapshot())
      {
        var token := currentToken;
        nextToken();
        var right :- parsePrimaryExpression();
        left := BinaryExpression(token, left, token.Literal, right);
      }
      r := Ok(left);
    }

    /** parseNotInExpression */
    method parseNotInExpression(left: Node) returns (r: ParseResult)
      requires Valid() && currentToken.Type == BANG && peekToken.Type == IN
      modifies this, lexer
      ensures Valid() && Agrees(r, Spec.NotIn(Input(), old(Snapshot()), left), Snapshot())
      decreases Spec.Measure(Input(), Snapshot()), 4
    {
      var notToken := currentToken;
      nextToken();
      var inToken := currentToken;
      nextToken();
      if currentToken.Type != LBRACKET {
        addError(Spec.ExpectedArrayAfterNotIn);
        return Ok(Nil);
      }
      var right :- parseArrayLiteral();
      if right == Nil {
        addError(Spec.FailedArrayAfterNotIn);
        return Ok(Nil);
      }
      var inExpr := BinaryExpression(inToken, left, inToken.Literal, right);
      r := Ok(UnaryExpression(notToken, notToken.Literal, inExpr));
    }

    /** parseInExpression */
    method parseInExpression(left: Node) returns (r: ParseResult)
      requires Valid() && currentToken.Type == IN
      modifies this, lexer
      ensures Valid() && Agrees(r, Spec.In(Input(), old(Snapshot()), left), Snapshot())
      decreases Spec.Measure(Input(), Snapshot()), 4
    {
      var token := currentToken;
      nextToken();
      if currentToken.Type != LBRACKET {
        addError(Spec.ExpectedArrayAfterIn);
        return Ok(Nil);
      }
      var right :- parseArrayLiteral();
      if right == Nil {
        addError(Spec.FailedArrayAfterIn);
        return Ok(Nil);
      }
      r := Ok(BinaryExpression(token, left, token.Literal, right));
    }

    /** parsePrimaryExpression */
    method parsePrimaryExpression() returns (r: ParseResult)
      requires Valid()
      modifies this, lexer
      ensures Valid() && Agrees(r, Spec.Primary(Input(), old(Snapshot())), Snapshot())
      decreases Spec.Measure(Input(), Snapshot()), 3
    {
      match currentToken.Type {
        case LPAREN => r := parseParenthesizedExpression();
        case BANG => r := parseUnaryExpression();
        case VARIABLE => r := parseVariable();
        case NUMBER => r := parseNumberLiteral();
        case STRING => r := parseStringLiteral();
        case LBRACKET => r := parseArrayLiteral();
        case IDENTIFIER =>
          if peekToken.Type == LPAREN {
            r := parseFunctionCall();
          } else {
            r := parseIdentifier();
          }
        case _ =>
          addError(Spec.UnexpectedToken(currentToken.Type));
          r := Ok(Nil);
      }
    }

    /** parseParenthesizedExpression */
    method parseParenthesizedExpression() returns (r: ParseResult)
      requires Valid() && currentToken.Type == LPAREN
      modifies this, lexer
      ensures Valid() && Agrees(r, Spec.Parenthesized(Input(), old(Snapshot())), Snapshot())
      decreases Spec.Measure(Input(), Snapshot()), 2
    {
      nextToken();
      var exp :- ParseExpression();
      if currentToken.Type != RPAREN {
        addError(Spec.ExpectedRightParen);
        return Ok(Nil);
      }
      nextToken();
      r := Ok(exp);
    }

    /** parseUnaryExpression */
    method parseUnaryExpression() returns (r: ParseResult)
      requires Valid() && currentToken.Type == BANG
      modifies this, lexer
      ensures Valid() && Agrees(r, Spec.Unary(Input(), old(Snapshot())), Snapshot())
      decreases Spec.Measure(Input(), Snapshot()), 2
    {
      var token := currentToken;
      nextToken();
      var right :- parsePrimaryExpression();
      r := Ok(UnaryExpression(token, token.Literal, right));
    }

    /** parseVariable */
    method parseVariable() returns (r: ParseResult)
      requires Valid() && currentToken.Type == VARIABLE
      modifies this, lexer
      ensures Valid() && Agrees(r, Spec.Primary(Input(), old(Snapshot())), Snapshot())
    {
      r := Ok(Variable(currentToken, currentToken.Literal));
      nextToken();
    }

    /** parseNumberLiteral */
    method parseNumberLiteral() returns (r: ParseResult)
      requires Valid() && currentToken.Type == NUMBER
      modifies this, lexer
      ensures Valid() && Agrees(r, Spec.Primary(Input(), old(Snapshot())), Snapshot())
    {
      r := Ok(Literal(currentToken, currentToken.Literal));
      nextToken();
    }

    /** parseStringLiteral */
    method parseStringLiteral() returns (r: ParseResult)
      requires Valid() && currentToken.Type == STRING
      modifies this, lexer
      ensures Valid() && Agrees(r, Spec.Primary(Input(), old(Snapshot())), Snapshot())
    {
      var literal := currentToken.Literal;
      var value := literal;
      if |literal| >= 2 && (literal[0] == '"' || literal[0] == '\'') {
        value := literal[1..|literal| - 1];
      }
      r := Ok(Literal(currentToken, value));
      nextToken();
    }

    /** parseIdentifier */
    method parseIdentifier() returns (r: ParseResult)
      requires Valid() && currentToken.Type == IDENTIFIER && peekToken.Type != LPAREN
      modifies this, lexer
      ensures Valid() && Agrees(r, Spec.Primary(Input(), old(Snapshot())), Snapshot())
    {
      r := Ok(Literal(currentToken, currentToken.Literal));
      nextToken();
    }

    // -------------------------------------------------------------------
    // parser_literals.go
    // -------------------------------------------------------------------

    /** parseArrayLiteral */
    method parseArrayLiteral() returns (r: ParseResult)
      requires Valid() && currentToken.Type == LBRACKET
      modifies this, lexer
      ensures Valid() && Agrees(r, Spec.Array(Input(), old(Snapshot())), Snapshot())
      decreases Spec.Measure(Input(), Snapshot()), 2
    {
      var token := currentToken;
      nextToken();
      ghost var s1 := Snapshot();
      var elements: seq<Node> := [];
      if currentToken.Type == RBRACKET {
        nextToken();
        return Ok(ArrayLiteral(token, elements));
      }
      var elem :- parsePrimaryExpression();
      assert Spec.Primary(Input(), s1) == Ok(Spec.Parsed(elem, Snapshot()));
      if elem == Nil {
        addError(Spec.InvalidArrayElement);
        return Ok(Nil);
      }
      elements := elements + [elem];
      assert elements == [elem];
      assert Spec.Array(Input(), old(Snapshot())) == Spec.ArrayElements(Input(), Snapshot(), token, elements);
      while currentToken.Type == COMMA
        invariant Valid() && Spec.Progress(Input(), old(Snapshot()), Snapshot())
        invariant Spec.Measure(Input(), Snapshot()) < Spec.Measure(Input(), old(Snapshot()))
        invariant Spec.Array(Input(), old(Snapshot())) == Spec.ArrayElements(Input(), Snapshot(), token, elements)
        decreases Spec.Measure(Input(), Snapshot())
      {
        nextToken();
        if currentToken.Type == RBRACKET {
          break;
        }
        elem :- parsePrimaryExpression();
        if elem == Nil {
          addError(Spec.InvalidArrayElementAfterComma);
          return Ok(Nil);
        }
        elements := elements + [elem];
      }
      if currentToken.Type != RBRACKET {
        addError(Spec.ExpectedRightBracket(currentToken.Type));
        return Ok(Nil);
      }
      nextToken();
      r := Ok(ArrayLiteral(token, elements));
    }

    /** parseFunctionCall. Go's loop runs until `)`, so the check after it
        always passes and is not repeated here; an iteration that consumes
        no token would run for ever, and returns `Diverges` instead. */
    method parseFunctionCall() returns (r: ParseResult)
      requires Valid() && currentToken.Type == IDENTIFIER && peekToken.Type == LPAREN
      modifies this, lexer
      ensures Valid() && Agrees(r, Spec.Call(Input(), old(Snapshot())), Snapshot())
      decreases Spec.Measure(Input(), Snapshot()), 2
    {
      var token := currentToken;
      nextToken();
      nextToken();
      var arguments: seq<Node> := [];
      while currentToken.Type != RPAREN
        invariant Valid() && Spec.Measure(Input(), Snapshot()) < Spec.Measure(Input(), old(Snapshot()))
        invariant Spec.Call(Input(), old(Snapshot())) == Spec.Arguments(Input(), Snapshot(), token, arguments)
        decreases Spec.Measure(Input(), Snapshot())
      {
        var at := currentToken;
        var position := lexer.position;
        var arg :- ParseExpression();
        if arg != Nil {
          arguments := arguments + [arg];
        }
        if currentToken.Type == COMMA {
          nextToken();
        }
        if lexer.position == position {
          return Err(Spec.NoProgress(at));
        }
      }
      nextToken();
      r := Ok(FunctionCall(token, token.Literal, arguments));
    }
  }
}
