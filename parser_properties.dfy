/** What the primary parser promises, proved about ParserSpec. */
module ParserProperties {
  import opened Results
  import opened Json
  import opened Tokens
  import opened Ast
  import opened Lookups
  import opened ParserSpec

  // ---------------------------------------------------------------------
  // Which group Parse keeps
  // ---------------------------------------------------------------------

  /** What the program loop sees: a `;`, an expression statement, or a
      declaration. */
  datatype Item = Separator | ExpressionItem(expr: Expr) | DeclarationItem

  /** The items Parse's loop goes through from state `st`, or the panic
      that stops it. */
  function Items(ts: seq<Token>, st: State): Result<seq<Item>, Panic>
    decreases |ts| - st.pos
  {
    if !HasTokens(ts, st) then Ok([])
    else if ts[st.pos].Type == SEMICOLON then
      var rest :- Items(ts, st.(pos := st.pos + 1));
      Ok([Separator] + rest)
    else
      var s :- ParseStatement(ts, st);
      var rest :- Items(ts, s.st);
      Ok([if s.stmt.ExpressionStatement? then ExpressionItem(s.stmt.expression) else DeclarationItem] + rest)
  }

  /** The expression groups between separators, starting with `current`;
      declarations belong to no group. */
  function Groups(current: seq<Expr>, items: seq<Item>): seq<seq<Expr>>
    decreases |items|
  {
    if items == [] then [current]
    else match items[0]
      case Separator => [current] + Groups([], items[1..])
      case ExpressionItem(e) => Groups(current + [e], items[1..])
      case DeclarationItem => Groups(current, items[1..])
  }

  /** The last non-empty group, or nothing. */
  function LastNonEmpty(groups: seq<seq<Expr>>): seq<Expr> {
    if groups == [] then []
    else if groups[|groups| - 1] != [] then groups[|groups| - 1]
    else LastNonEmpty(groups[..|groups| - 1])
  }

  lemma {:induction false} LastNonEmptyAppend(a: seq<seq<Expr>>, b: seq<seq<Expr>>)
    ensures LastNonEmpty(a + b) == if LastNonEmpty(b) != [] then LastNonEmpty(b) else LastNonEmpty(a)
    decreases |b|
  {
    if b != [] {
      assert (a + b)[..|a + b| - 1] == a + b[..|b| - 1];
      if b[|b| - 1] == [] {
        LastNonEmptyAppend(a, b[..|b| - 1]);
      }
    } else {
      assert a + b == a;
    }
  }

  /** The loop from `st` yields the last non-empty group of what is left,
      or else the group already kept. */
  predicate KeepsLastGroup(ts: seq<Token>, st: State, body: seq<Expr>, current: seq<Expr>) {
    ParseFrom(ts, st, body, current) ==
      match Items(ts, st)
      case Err(e) => Err(e)
      case Ok(items) => Ok(BlockStatement(LineStatement(LastNonEmpty([body] + Groups(current, items)))))
  }

  lemma {:induction false} ParseFromKeepsLastGroup(ts: seq<Token>, st: State, body: seq<Expr>, current: seq<Expr>)
    ensures KeepsLastGroup(ts, st, body, current)
    decreases |ts| - st.pos
  {
    if !HasTokens(ts, st) {
      KeepsAtEnd(ts, st, body, current);
    } else if ts[st.pos].Type == SEMICOLON {
      var (body', current') := if |current| > 0 then (current, []) else (body, current);
      ParseFromKeepsLastGroup(ts, st.(pos := st.pos + 1), body', current');
      KeepsAtSeparator(ts, st, body, current);
    } else {
      var s := ParseStatement(ts, st);
      if s.Ok? {
        var current' := if s.value.stmt.ExpressionStatement? then current + [s.value.stmt.expression] else current;
        ParseFromKeepsLastGroup(ts, s.value.st, body, current');
      }
      KeepsAtStatement(ts, st, body, current);
    }
  }

  lemma KeepsAtEnd(ts: seq<Token>, st: State, body: seq<Expr>, current: seq<Expr>)
    requires !HasTokens(ts, st)
    ensures KeepsLastGroup(ts, st, body, current)
  {
    assert Items(ts, st) == Ok([]);
    var groups := [body] + Groups(current, []);
    assert groups == [body, current];
    assert groups[..1] == [body] && [body][..0] == [];
    assert LastNonEmpty([body]) == body;
    assert LastNonEmpty(groups) == if current != [] then current else body;
    assert ParseFrom(ts, st, body, current) == Ok(BlockStatement(LineStatement(if |current| > 0 then current else body)));
  }

  lemma KeepsAtSeparator(ts: seq<Token>, st: State, body: seq<Expr>, current: seq<Expr>)
    requires HasTokens(ts, st) && ts[st.pos].Type == SEMICOLON
    requires var (body', current') := if |current| > 0 then (current, []) else (body, current);
             KeepsLastGroup(ts, st.(pos := st.pos + 1), body', current')
    ensures KeepsLastGroup(ts, st, body, current)
  {
    var (body', current') := if |current| > 0 then (current, []) else (body, current);
    var st1 := st.(pos := st.pos + 1);
    if Items(ts, st1).Ok? {
      var items := Items(ts, st1).value;
      var g := Groups([], items);
      assert Groups(current, [Separator] + items) == [current] + g by {
        assert ([Separator] + items)[1..] == items;
      }
      assert [body] + ([current] + g) == [body, current] + g;
      LastNonEmptyAppend([body, current], g);
      LastNonEmptyAppend([body'], g);
      assert [body, current][..1] == [body];
    }
  }

  lemma KeepsAtStatement(ts: seq<Token>, st: State, body: seq<Expr>, current: seq<Expr>)
    requires HasTokens(ts, st) && ts[st.pos].Type != SEMICOLON
    requires var s := ParseStatement(ts, st);
             s.Ok? ==> KeepsLastGroup(ts, s.value.st, body,
                                      if s.value.stmt.ExpressionStatement? then current + [s.value.stmt.expression] else current)
    ensures KeepsLastGroup(ts, st, body, current)
  {
    var s := ParseStatement(ts, st);
    if s.Ok? && Items(ts, s.value.st).Ok? {
      var items := Items(ts, s.value.st).value;
      var item := if s.value.stmt.ExpressionStatement? then ExpressionItem(s.value.stmt.expression) else DeclarationItem;
      assert ([item] + items)[1..] == items;
    }
  }

  /** Parse keeps only the last non-empty group of expression statements;
      declarations are dropped, and with no group the body is empty. */
  lemma ParseKeepsLastGroup(ts: seq<Token>)
    ensures Parse(ts) ==
              match Items(ts, State(0, []))
              case Err(e) => Err(e)
              case Ok(items) => Ok(BlockStatement(LineStatement(LastNonEmpty(Groups([], items)))))
  {
    ParseFromKeepsLastGroup(ts, State(0, []), [], []);
    assert KeepsLastGroup(ts, State(0, []), [], []);
    if Items(ts, State(0, [])).Ok? {
      LastNonEmptyAppend([[]], Groups([], Items(ts, State(0, [])).value));
    }
  }

  /** `a; b;` keeps [b]. */
  lemma GroupExampleLastAfterSeparator(a: Expr, b: Expr)
    ensures LastNonEmpty(Groups([], [ExpressionItem(a), Separator, ExpressionItem(b), Separator])) == [b]
  {
    var e: seq<Item> := [];
    var n: seq<Expr> := [];
    assert n + [a] == [a] && n + [b] == [b];
    assert [Separator][1..] == e;
    assert Groups([b], [Separator]) == [[b], []];
    assert [ExpressionItem(b), Separator][1..] == [Separator];
    assert Groups([], [ExpressionItem(b), Separator]) == [[b], []];
    assert [Separator, ExpressionItem(b), Separator][1..] == [ExpressionItem(b), Separator];
    assert Groups([a], [Separator, ExpressionItem(b), Separator]) == [[a], [b], []];
    assert [ExpressionItem(a), Separator, ExpressionItem(b), Separator][1..] == [Separator, ExpressionItem(b), Separator];
    var g: seq<seq<Expr>> := [[a], [b], []];
    assert g[..2] == [[a], [b]];
  }

  /** `a b` keeps [a, b]. */
  lemma GroupExampleSameLine(a: Expr, b: Expr)
    ensures LastNonEmpty(Groups([], [ExpressionItem(a), ExpressionItem(b)])) == [a, b]
  {
    var e: seq<Item> := [];
    var n: seq<Expr> := [];
    assert n + [a] == [a] && [a] + [b] == [a, b];
    assert [ExpressionItem(b)][1..] == e;
    assert Groups([a], [ExpressionItem(b)]) == [[a, b]];
    assert [ExpressionItem(a), ExpressionItem(b)][1..] == [ExpressionItem(b)];
  }

  /** `;;` keeps nothing. */
  lemma GroupExampleOnlySeparators()
    ensures LastNonEmpty(Groups([], [Separator, Separator])) == []
  {
    var e: seq<Item> := [];
    var n: seq<Expr> := [];
    assert [Separator][1..] == e;
    assert Groups(n, [Separator]) == [n, n];
    assert [Separator, Separator][1..] == [Separator];
    var g: seq<seq<Expr>> := [n, n, n];
    assert Groups(n, [Separator, Separator]) == g;
    assert g[..2] == [n, n] && g[..2][..1] == [n] && g[..2][..1][..0] == [];
    assert LastNonEmpty([n]) == [];
    assert LastNonEmpty([n, n]) == [];
  }

  /** A declaration adds nothing to its group: `a; let x = 1` keeps [a]. */
  lemma GroupExampleDeclaration(a: Expr)
    ensures LastNonEmpty(Groups([], [ExpressionItem(a), Separator, DeclarationItem])) == [a]
  {
    var e: seq<Item> := [];
    var n: seq<Expr> := [];
    assert n + [a] == [a];
    assert [DeclarationItem][1..] == e;
    assert Groups([], [DeclarationItem]) == [[]];
    assert [Separator, DeclarationItem][1..] == [DeclarationItem];
    assert Groups([a], [Separator, DeclarationItem]) == [[a], []];
    assert [ExpressionItem(a), Separator, DeclarationItem][1..] == [Separator, DeclarationItem];
    var g: seq<seq<Expr>> := [[a], []];
    assert g[..1] == [[a]];
  }

  // ---------------------------------------------------------------------
  // Operators, groups and statements
  // ---------------------------------------------------------------------

  /** The right operand of a binary operator stops at a token that binds no
      tighter than the operator, so a following operator of equal power is
      left for the enclosing loop: equal powers associate to the left. */
  lemma BinaryRightStops(ts: seq<Token>, st: State, left: Expr, bp: BindingPower)
    ensures var r := Binary(ts, st, left, bp);
            r.Ok? ==> && r.value.expr.BinaryExpression?
                      && r.value.expr.left == left && r.value.expr.op == ts[st.pos]
                      && r.value.st.pos < |ts| && Power(ts[r.value.st.pos].Type) <= bp
  {
  }

  /** A prefix operator parses its operand at default power, so it stops
      only at a token with no led handler: `not` swallows what follows. */
  lemma PrefixSwallowsRest(ts: seq<Token>, st: State)
    ensures var r := Prefix(ts, st);
            r.Ok? ==> && r.value.expr.PrefixExpression? && r.value.expr.op == ts[st.pos]
                      && r.value.st.pos < |ts| && Power(ts[r.value.st.pos].Type) == DEFAULT_BP
                      && LedOf(ts[r.value.st.pos].Type).None?
  {
    var r := Prefix(ts, st);
    if r.Ok? {
      LedCoverage(ts[r.value.st.pos].Type);
    }
  }

  /** `( e )` yields exactly the node of `e`, and needs the `)`. */
  lemma GroupAddsNoNode(ts: seq<Token>, st: State)
    requires st.pos < |ts|
    ensures var r := Group(ts, st);
            var inner := ParseExpression(ts, st.(pos := st.pos + 1), DEFAULT_BP);
            r.Ok? <==> inner.Ok? && ts[inner.value.st.pos].Type == RPAREN
    ensures var r := Group(ts, st);
            var inner := ParseExpression(ts, st.(pos := st.pos + 1), DEFAULT_BP);
            r.Ok? ==> r.value.expr == inner.value.expr && r.value.st == inner.value.st.(pos := inner.value.st.pos + 1)
  {
  }

  /** Only `let` and `const` start a declaration; everything else is an
      expression statement parsed at default power. */
  lemma StatementKind(ts: seq<Token>, st: State)
    requires st.pos < |ts|
    ensures var r := ParseStatement(ts, st);
            r.Ok? ==> (r.value.stmt.VarDeclarationStatement? <==> ts[st.pos].Type in {LET, CONST})
  {
    StatementFacts(ts[st.pos].Type);
  }

  /** A declaration is `let|const IDENTIFIER = value`: the name is the
      identifier's text, it is constant exactly for `const`, and the value
      stops before any token of assignment power or less, so a second `=`
      is not consumed. A missing identifier raises the custom error. */
  lemma VarDeclarationShape(ts: seq<Token>, st: State)
    requires st.pos < |ts|
    ensures var r := VarDeclaration(ts, st);
            r.Ok? ==> && st.pos + 2 < |ts|
                      && ts[st.pos + 1].Type == IDENTIFIER && ts[st.pos + 2].Type == ASSIGN
                      && r.value.stmt.VarDeclarationStatement?
                      && r.value.stmt.identifier == ts[st.pos + 1].Literal
                      && (r.value.stmt.isConstant <==> ts[st.pos].Type == CONST)
                      && r.value.st.pos < |ts| && Power(ts[r.value.st.pos].Type) <= ASSIGNMENT_BP
    ensures st.pos + 1 < |ts| && ts[st.pos + 1].Type != IDENTIFIER ==>
              VarDeclaration(ts, st) == Err(MissingIdentifier(ts[st.pos + 1].Type))
  {
  }

  /** An if-expression has at least one arm. */
  lemma IfHasArm(ts: seq<Token>, st: State)
    ensures var r := If(ts, st);
            r.Ok? ==> r.value.expr.IfExpression? && |r.value.expr.branches| >= 1
  {
    var st1 := st.(pos := st.pos + 1);
    if st.pos < |ts| {
      var arm := IfArm(ts, st1);
      if arm.Ok? {
        IfBranchesKeep(ts, arm.value.1, [arm.value.0]);
      }
    }
  }

  /** The arm loop only adds arms to those it was given. */
  lemma {:induction false} IfBranchesKeep(ts: seq<Token>, st: State, branches: seq<IfBranch>)
    ensures var r := IfBranches(ts, st, branches);
            r.Ok? ==> r.value.expr.IfExpression? && branches <= r.value.expr.branches
    decreases |ts| - st.pos, 1
  {
    if st.pos < |ts| && ts[st.pos].Type == COMMA {
      IfAfterCommaKeep(ts, st.(pos := st.pos + 1), branches);
    }
  }

  lemma {:induction false} IfAfterCommaKeep(ts: seq<Token>, st: State, branches: seq<IfBranch>)
    ensures var r := IfAfterComma(ts, st, branches);
            r.Ok? ==> r.value.expr.IfExpression? && branches <= r.value.expr.branches
    decreases |ts| - st.pos, 0
  {
    if st.pos < |ts| && ts[st.pos].Type != ELSE {
      var arm := IfArm(ts, st);
      if arm.Ok? {
        IfBranchesKeep(ts, arm.value.1, branches + [arm.value.0]);
      }
    }
  }

  // ---------------------------------------------------------------------
  // Examples on token lists
  // ---------------------------------------------------------------------

  /** `@a or @b and @c`: `and` and `or` share a power, so they group to the
      left. */
  lemma ExampleLogicalLeftAssociative()
    ensures var a := Token(VARIABLE, "@a");
            var b := Token(VARIABLE, "@b");
            var c := Token(VARIABLE, "@c");
            var or := Token(OR, "or");
            var and := Token(AND, "and");
            var ts := [a, or, b, and, c, Token(EOF, "EOF")];
            ParseExpression(ts, State(0, []), DEFAULT_BP) ==
              Ok(Parsed(BinaryExpression(BinaryExpression(VariableExpression("@a"), or, VariableExpression("@b")),
                                         and, VariableExpression("@c")),
                        State(5, [])))
  {
    var a := Token(VARIABLE, "@a");
    var b := Token(VARIABLE, "@b");
    var c := Token(VARIABLE, "@c");
    var or := Token(OR, "or");
    var and := Token(AND, "and");
    var ts := [a, or, b, and, c, Token(EOF, "EOF")];
    var A, B, C := VariableExpression("@a"), VariableExpression("@b"), VariableExpression("@c");
    var AB := BinaryExpression(A, or, B);
    var ABC := BinaryExpression(AB, and, C);
    PowerFacts();
    assert ParseExpression(ts, State(4, []), LOGICAL_BP) == Ok(Parsed(C, State(5, [])));
    assert Binary(ts, State(3, []), AB, LOGICAL_BP) == Ok(Parsed(ABC, State(5, [])));
    assert LedLoop(ts, State(5, []), DEFAULT_BP, ABC) == Ok(Parsed(ABC, State(5, [])));
    assert LedLoop(ts, State(3, []), DEFAULT_BP, AB) == Ok(Parsed(ABC, State(5, [])));
    assert ParseExpression(ts, State(2, []), LOGICAL_BP) == Ok(Parsed(B, State(3, [])));
    assert Binary(ts, State(1, []), A, LOGICAL_BP) == Ok(Parsed(AB, State(3, [])));
    assert LedLoop(ts, State(1, []), DEFAULT_BP, A) == Ok(Parsed(ABC, State(5, [])));
  }

  /** The tokens of `not @a and @b`. */
  const NotAAndB: seq<Token> :=
    [Token(NOT, "not"), Token(VARIABLE, "@a"), Token(AND, "and"), Token(VARIABLE, "@b"), Token(EOF, "EOF")]

  lemma ExamplePrefixOperand()
    ensures ParseExpression(NotAAndB, State(1, []), DEFAULT_BP) ==
              Ok(Parsed(BinaryExpression(VariableExpression("@a"), Token(AND, "and"), VariableExpression("@b")), State(4, [])))
  {
    var ts := NotAAndB;
    var A, B := VariableExpression("@a"), VariableExpression("@b");
    var AB := BinaryExpression(A, Token(AND, "and"), B);
    assert Power(AND) == LOGICAL_BP && Power(EOF) == DEFAULT_BP;
    assert ParseExpression(ts, State(3, []), LOGICAL_BP) == Ok(Parsed(B, State(4, [])));
    assert Binary(ts, State(2, []), A, LOGICAL_BP) == Ok(Parsed(AB, State(4, [])));
    assert LedLoop(ts, State(2, []), DEFAULT_BP, A) == Ok(Parsed(AB, State(4, [])));
  }

  /** `not @a and @b`: the prefix operator takes the whole conjunction. */
  lemma ExamplePrefixSwallows()
    ensures ParseExpression(NotAAndB, State(0, []), DEFAULT_BP) ==
              Ok(Parsed(PrefixExpression(Token(NOT, "not"),
                                         BinaryExpression(VariableExpression("@a"), Token(AND, "and"), VariableExpression("@b"))),
                        State(4, [])))
  {
    var ts := NotAAndB;
    var AB := BinaryExpression(VariableExpression("@a"), Token(AND, "and"), VariableExpression("@b"));
    ExamplePrefixOperand();
    NudFacts(NOT);
    assert Power(EOF) == DEFAULT_BP;
    assert Prefix(ts, State(0, [])) == Ok(Parsed(PrefixExpression(Token(NOT, "not"), AB), State(4, [])));
  }

  /** Once both bounds are parsed, the token after the upper one decides:
      `)` or `]` closes the range (only `)` sets the upper flag) and is
      consumed, any other kind panics. */
  lemma BetweenBoundsCloses(ts: seq<Token>, st: State, left: Expr, inclusiveLower: bool,
                            lower: Parsed, st1: State, upper: Parsed)
    requires ParseExpression(ts, st, DEFAULT_BP) == Ok(lower)
    requires Expect(ts, lower.st, COMMA).Ok? && Expect(ts, lower.st, COMMA).value.1 == st1
    requires ParseExpression(ts, st1, DEFAULT_BP) == Ok(upper)
    ensures upper.st.pos < |ts|
    ensures var r := BetweenBounds(ts, st, left, inclusiveLower);
      var close := ts[upper.st.pos].Type;
      (r.Ok? <==> close in {RPAREN, RBRACKET})
      && (r.Ok? ==> r.value == Parsed(BetweenExpression(left, lower.expr, upper.expr, inclusiveLower, close == RPAREN),
                                      upper.st.(pos := upper.st.pos + 1)))
      && (!r.Ok? ==> r == Err(ExpectedRangeClose(close)))
  {
  }

  /** The tokens of `@x between [0, 10)`. */
  const XBetween: seq<Token> :=
    [Token(VARIABLE, "@x"), Token(BETWEEN, "between"), Token(LBRACKET, "["), Token(NUMBER, "0"),
     Token(COMMA, ","), Token(NUMBER, "10"), Token(RPAREN, ")"), Token(EOF, "EOF")]

  lemma ExampleLowerBound()
    ensures ParseExpression(XBetween, State(3, []), DEFAULT_BP) == Ok(Parsed(NumberExpression(Float64("0")), State(4, [])))
  {
    assert IsDigit("0"[0]);
    assert ParseFloat("0") == Some(Float64("0"));
    assert Power(COMMA) == DEFAULT_BP;
  }

  lemma ExampleUpperBound()
    ensures ParseExpression(XBetween, State(5, []), DEFAULT_BP) == Ok(Parsed(NumberExpression(Float64("10")), State(6, [])))
  {
    assert IsDigit("10"[0]) && "10"[1] == '0';
    assert ParseFloat("10") == Some(Float64("10"));
    assert Power(RPAREN) == DEFAULT_BP;
  }

  lemma ExampleBetweenBounds()
    ensures BetweenBounds(XBetween, State(3, []), VariableExpression("@x"), false) ==
              Ok(Parsed(BetweenExpression(VariableExpression("@x"), NumberExpression(Float64("0")),
                                          NumberExpression(Float64("10")), false, true),
                        State(7, [])))
  {
    ExampleLowerBound();
    ExampleUpperBound();
  }

  /** `@x between [0, 10)`: `[` leaves the lower flag false and `)` sets the
      upper one. */
  lemma ExampleBetweenFlags()
    ensures ParseExpression(XBetween, State(0, []), DEFAULT_BP) ==
              Ok(Parsed(BetweenExpression(VariableExpression("@x"), NumberExpression(Float64("0")),
                                          NumberExpression(Float64("10")), false, true),
                        State(7, [])))
  {
    var ts := XBetween;
    var X := VariableExpression("@x");
    var range := BetweenExpression(X, NumberExpression(Float64("0")), NumberExpression(Float64("10")), false, true);
    ExampleBetweenBounds();
    assert Power(BETWEEN) == RELATIONAL_BP && Power(EOF) == DEFAULT_BP;
    assert Between(ts, State(1, []), X) == Ok(Parsed(range, State(7, [])));
    assert LedLoop(ts, State(1, []), DEFAULT_BP, X) == Ok(Parsed(range, State(7, [])));
  }
}
