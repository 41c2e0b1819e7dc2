/** What the older parser promises, stated on the functions of
    `LegacyParserSpec`. */
module LegacyParserProperties {
  import opened Results
  import opened LegacyToken
  import opened LegacyLexer
  import opened LegacyAst
  import opened LegacyParserSpec
  import LegacyTransform
  import LegacyTransformProperties

  /** A word lexed as IDENTIFIER is no keyword in any case; in particular
      it is never `LOG`, which the lexer makes a LOG token. */
  lemma IdentifierIsNotKeyword(input: Bytes, q: nat)
    ensures var t := TokenAt(input, q).0;
      t.Type == IDENTIFIER ==> ToUpper(t.Literal) !in Keywords && t.Literal != "LOG"
  {
    var t := TokenAt(input, q).0;
    if t.Type == IDENTIFIER {
      assert ToUpper(t.Literal) !in Keywords;
      assert ToUpper("LOG") == "LOG";
    }
  }

  /** The argument loop either runs for ever or builds a call named after
      the function's token. */
  lemma {:induction false} ArgumentsBuildCall(input: Bytes, st: PState, token: Token, args: seq<Node>)
    ensures var r := Arguments(input, st, token, args);
      r.Ok? ==> r.value.node.FunctionCall? && r.value.node.token == token && r.value.node.name == token.Literal
    decreases Measure(input, st)
  {
    if !CurrentTokenIs(st, RPAREN) {
      var arg := ParseExpression(input, st);
      if arg.Ok? {
        var a := arg.value;
        var args' := if a.node != Nil then args + [a.node] else args;
        var s := if CurrentTokenIs(a.st, COMMA) then Advance(input, a.st) else a.st;
        if s.lexPos != st.lexPos {
          ArgumentsBuildCall(input, s, token, args');
        }
      }
    }
  }

  /** No call the parser builds ever translates: its name is an
      identifier, never `LOG`, so `transformFunctionCall`'s only accepted
      name cannot be reached from parsed input. */
  lemma CallNeverTranslates(input: Bytes, st: PState)
    requires st.cur.Type == IDENTIFIER && st.peek.Type == LPAREN
    requires ToUpper(st.cur.Literal) !in Keywords
    ensures Call(input, st).Ok? ==> LegacyTransform.JsonLogicOf(Call(input, st).value.node).Err?
  {
    ArgumentsBuildCall(input, Advance(input, Advance(input, st)), st.cur, []);
    var r := Call(input, st);
    if r.Ok? {
      var n := r.value.node;
      assert ToUpper("LOG") == "LOG" && "LOG" in Keywords;
      assert n.name != "LOG";
      LegacyTransformProperties.OnlyLog(n.token, n.name, n.arguments);
    }
  }

  /** A nil result always comes with a recorded error, from whatever state
      the parse starts. */
  lemma NilComesWithError(input: Bytes, st: PState)
    requires ParseExpression(input, st).Ok? && ParseExpression(input, st).value.node == Nil
    ensures |ParseExpression(input, st).value.st.errors| > |st.errors|
  {
  }

  /** Parentheses add no node: a successful `( e )` is `e` itself, with the
      `)` consumed. */
  lemma ParenthesesAddNoNode(input: Bytes, st: PState)
    requires st.cur.Type == LPAREN
    requires Parenthesized(input, st).Ok? && Parenthesized(input, st).value.node != Nil
    ensures var inner := ParseExpression(input, Advance(input, st));
      inner.Ok? && inner.value.node == Parenthesized(input, st).value.node
      && inner.value.st.cur.Type == RPAREN
      && Parenthesized(input, st).value.st == Advance(input, inner.value.st)
  {
  }

  /** An IN or NOT IN ends the comparison: what follows the array is not
      folded into it. */
  lemma InEndsComparison(input: Bytes, st: PState, left: Node)
    requires st.cur.Type == IN
    ensures ComparisonTail(input, st, left) == In(input, st, left)
  {
  }

  /** The three operator levels of the descent, loosest first. */
  datatype Level = OrLevel | AndLevel | ComparisonLevel

  /** The token kinds that join two operands at a level. */
  predicate JoinsAt(level: Level, t: TokenType) {
    match level
    case OrLevel => t == OR
    case AndLevel => t == AND
    case ComparisonLevel => IsComparisonOperator(t)
  }

  /** `n` is `first` with zero or more operands folded onto it from the
      left by operators of `level`: `((first op r1) op r2) ...`. */
  predicate LeftFold(n: Node, first: Node, level: Level) {
    n == first
    || (n.BinaryExpression? && JoinsAt(level, n.token.Type) && n.op == n.token.Literal
        && LeftFold(n.left, first, level))
  }

  /** A fold onto `first op right` is a fold onto `first`. */
  lemma {:induction false} FoldThrough(n: Node, first: Node, t: Token, right: Node, level: Level)
    requires JoinsAt(level, t.Type)
    ensures LeftFold(n, BinaryExpression(t, first, t.Literal, right), level) ==> LeftFold(n, first, level)
  {
    if n != BinaryExpression(t, first, t.Literal, right) && LeftFold(n, BinaryExpression(t, first, t.Literal, right), level) {
      FoldThrough(n.left, first, t, right, level);
    }
  }

  /** parseOrExpression's loop folds every operand onto `left`. */
  lemma {:induction false} OrLoopFolds(input: Bytes, st: PState, left: Node)
    ensures var r := OrLoop(input, st, left);
      r.Ok? ==> LeftFold(r.value.node, left, OrLevel)
    decreases Measure(input, st)
  {
    if CurrentTokenIs(st, OR) {
      var right := And(input, Advance(input, st));
      if right.Ok? {
        var next := BinaryExpression(st.cur, left, st.cur.Literal, right.value.node);
        OrLoopFolds(input, right.value.st, next);
        var r := OrLoop(input, right.value.st, next);
        if r.Ok? {
          FoldThrough(r.value.node, left, st.cur, right.value.node, OrLevel);
        }
      }
    }
  }

  /** parseAndExpression's loop folds every operand onto `left`. */
  lemma {:induction false} AndLoopFolds(input: Bytes, st: PState, left: Node)
    ensures var r := AndLoop(input, st, left);
      r.Ok? ==> LeftFold(r.value.node, left, AndLevel)
    decreases Measure(input, st)
  {
    if CurrentTokenIs(st, AND) {
      var right := Comparison(input, Advance(input, st));
      if right.Ok? {
        var next := BinaryExpression(st.cur, left, st.cur.Literal, right.value.node);
        AndLoopFolds(input, right.value.st, next);
        var r := AndLoop(input, right.value.st, next);
        if r.Ok? {
          FoldThrough(r.value.node, left, st.cur, right.value.node, AndLevel);
        }
      }
    }
  }

  /** parseComparisonExpression's loop folds every operand onto `left`. */
  lemma {:induction false} ComparisonLoopFolds(input: Bytes, st: PState, left: Node)
    ensures var r := ComparisonLoop(input, st, left);
      r.Ok? ==> LeftFold(r.value.node, left, ComparisonLevel)
    decreases Measure(input, st)
  {
    if IsComparisonOperator(st.cur.Type) {
      var right := Primary(input, Advance(input, st));
      if right.Ok? {
        var next := BinaryExpression(st.cur, left, st.cur.Literal, right.value.node);
        ComparisonLoopFolds(input, right.value.st, next);
        var r := ComparisonLoop(input, right.value.st, next);
        if r.Ok? {
          FoldThrough(r.value.node, left, st.cur, right.value.node, ComparisonLevel);
        }
      }
    }
  }

  /** parseOrExpression: the first AND-level operand with zero or more
      AND-level operands folded onto it from the left by OR. */
  lemma OrFolds(input: Bytes, st: PState)
    ensures var r := Or(input, st);
      r.Ok? ==> And(input, st).Ok? && LeftFold(r.value.node, And(input, st).value.node, OrLevel)
  {
    var first := And(input, st);
    if first.Ok? {
      OrLoopFolds(input, first.value.st, first.value.node);
    }
  }

  /** parseAndExpression: the first comparison with zero or more
      comparisons folded onto it from the left by AND. */
  lemma AndFolds(input: Bytes, st: PState)
    ensures var r := And(input, st);
      r.Ok? ==> Comparison(input, st).Ok? && LeftFold(r.value.node, Comparison(input, st).value.node, AndLevel)
  {
    var first := Comparison(input, st);
    if first.Ok? {
      AndLoopFolds(input, first.value.st, first.value.node);
    }
  }

  /** parseComparisonExpression, when no IN or NOT IN follows the first
      primary: primaries folded onto it from the left by comparison
      operators, up to the first token that is none. */
  lemma ComparisonFolds(input: Bytes, st: PState)
    ensures var r := Comparison(input, st);
      r.Ok? ==>
        Primary(input, st).Ok?
        && var p := Primary(input, st).value;
           (!IsNotInPattern(p.st) && p.st.cur.Type != IN ==>
              !IsComparisonOperator(r.value.st.cur.Type) && LeftFold(r.value.node, p.node, ComparisonLevel))
  {
    var first := Primary(input, st);
    if first.Ok? {
      ComparisonLoopFolds(input, first.value.st, first.value.node);
    }
  }

  /** The element loop of an array literal yields, when not nil, an array
      literal opened at the bracket with the elements read so far first. */
  lemma {:induction false} ArrayElementsShape(input: Bytes, st: PState, token: Token, elements: seq<Node>)
    ensures var r := ArrayElements(input, st, token, elements);
      r.Ok? && r.value.node != Nil ==>
        r.value.node.ArrayLiteral? && r.value.node.token == token && elements <= r.value.node.elements
    decreases Measure(input, st)
  {
    if CurrentTokenIs(st, COMMA) {
      var s1 := Advance(input, st);
      if !CurrentTokenIs(s1, RBRACKET) {
        var e := Primary(input, s1);
        if e.Ok? && e.value.node != Nil {
          ArrayElementsShape(input, e.value.st, token, elements + [e.value.node]);
        }
      }
    }
  }

  /** parseArrayLiteral returns nil or an array literal whose token is
      the opening bracket. */
  lemma ArrayShape(input: Bytes, st: PState)
    requires st.cur.Type == LBRACKET
    ensures var r := Array(input, st);
      r.Ok? && r.value.node != Nil ==> r.value.node.ArrayLiteral? && r.value.node.token == st.cur
  {
    var s1 := Advance(input, st);
    if !CurrentTokenIs(s1, RBRACKET) {
      var e := Primary(input, s1);
      if e.Ok? && e.value.node != Nil {
        ArrayElementsShape(input, e.value.st, st.cur, [e.value.node]);
      }
    }
  }

  /** `NOT IN`, with NOT in capitals, makes `NOT (left IN array)`: the
      IN node's token is the peeked IN and its right operand the array
      literal after it; without a `[` after IN the result is nil with an
      error. Nothing is folded after it. */
  lemma NotInShape(input: Bytes, st: PState, left: Node)
    requires IsNotInPattern(st)
    ensures var r := ComparisonTail(input, st, left);
      var s2 := Advance(input, Advance(input, st));
      (s2.cur.Type != LBRACKET ==> r == Ok(Parsed(Nil, AddError(s2, ExpectedArrayAfterNotIn))))
      && (r.Ok? && r.value.node != Nil ==>
            var n := r.value.node;
            n.UnaryExpression? && n.token == st.cur && n.op == "NOT"
            && n.right.BinaryExpression?
            && n.right == BinaryExpression(st.peek, left, st.peek.Literal, n.right.right)
            && n.right.right.ArrayLiteral? && n.right.right.token == s2.cur)
  {
    var s2 := Advance(input, Advance(input, st));
    if s2.cur.Type == LBRACKET {
      ArrayShape(input, s2);
    }
  }

  /** A NOT spelled otherwise (`not`, `Not`, `!`) before IN is no NOT IN:
      the comparison ends at it and returns its left operand unchanged. */
  lemma NotInNeedsCapitals(input: Bytes, st: PState, left: Node)
    requires st.cur.Type == BANG && st.cur.Literal != "NOT" && st.peek.Type == IN
    ensures ComparisonTail(input, st, left) == Ok(Parsed(left, st))
  {
  }

  /** So `x not in [...]` parses as `x` alone: the whole expression stops
      at `not` and the rest of the input is dropped. */
  lemma LowerCaseNotInDropsRest(input: Bytes, st: PState, left: Node, s: PState)
    requires Primary(input, st) == Ok(Parsed(left, s))
    requires s.cur.Type == BANG && s.cur.Literal != "NOT" && s.peek.Type == IN
    ensures ParseExpression(input, st) == Ok(Parsed(left, s))
  {
    NotInNeedsCapitals(input, s, left);
    assert Comparison(input, st) == Ok(Parsed(left, s));
    assert AndLoop(input, s, left) == Ok(Parsed(left, s));
    assert And(input, st) == Ok(Parsed(left, s));
    assert OrLoop(input, s, left) == Ok(Parsed(left, s));
  }

  /** The precedence table: its levels are ordered, AND and OR share the
      lowest operator level, and `=` is missing from it although the
      comparison loop accepts it. */
  lemma PrecedenceTable()
    ensures LOWEST < LOGICAL < EQUALS < COMPARISON < PREFIX < CALL
    ensures PrecedenceOf(AND) == PrecedenceOf(OR) == LOGICAL
    ensures PrecedenceOf(EQ) == PrecedenceOf(NOT_EQ) == EQUALS
    ensures PrecedenceOf(GT) == PrecedenceOf(IN) == COMPARISON
    ensures IsComparisonOperator(ASSIGN) && PrecedenceOf(ASSIGN) == LOWEST
    ensures !IsComparisonOperator(IN)
  {
  }

  /** expectPeek moves on exactly when the peeked token has the kind
      asked for; otherwise it only records the mismatch. */
  lemma ExpectPeekMeaning(input: Bytes, st: PState, t: TokenType)
    ensures var (ok, st') := ExpectPeek(input, st, t);
      (ok <==> st.peek.Type == t)
      && (ok ==> st'.cur.Type == t && st'.errors == st.errors && st'.lexPos > st.lexPos)
      && (!ok ==> st'.lexPos == st.lexPos && st'.cur == st.cur && st'.peek == st.peek
                  && st'.errors == st.errors + [ExpectedNextToken(t, st.peek.Type)])
  {
  }
}
