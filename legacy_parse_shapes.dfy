/** How the older parser handles short inputs, whatever their text: what
    Parse builds from the first few tokens when the input ends after them,
    and the single steps those inputs take. */
module LegacyParseShapes {
  import opened Results
  import opened LegacyToken
  import LegacyLexer
  import opened LegacyAst
  import opened LegacyParserSpec

  const Eof := Token(EOF, "")

  lemma EofAt(input: Bytes, p: nat)
    requires p >= |input|
    ensures LegacyLexer.NextTokenAt(input, p) == (Eof, p + 1)
  {
    assert LegacyLexer.Skip(input, p) == p;
  }

  /** Past the end of the input every advance reads EOF. */
  lemma AdvanceAtEnd(input: Bytes, s: PState)
    requires s.lexPos >= |input|
    ensures Advance(input, s) == PState(s.lexPos + 1, s.peek, Eof, s.errors)
  {
    EofAt(input, s.lexPos);
  }

  /** A token that starts no primary gives nil and an error. */
  lemma PrimaryRejects(input: Bytes, st: PState)
    requires st.cur.Type !in {LPAREN, BANG, VARIABLE, NUMBER, STRING, LBRACKET, IDENTIFIER}
    ensures Primary(input, st) == Ok(Parsed(Nil, AddError(st, UnexpectedToken(st.cur.Type))))
  {
  }

  lemma PrimaryNumber(input: Bytes, st: PState)
    requires st.cur.Type == NUMBER
    ensures Primary(input, st) == Ok(Parsed(Literal(st.cur, st.cur.Literal), Advance(input, st)))
  {
  }

  lemma PrimaryVariable(input: Bytes, st: PState)
    requires st.cur.Type == VARIABLE
    ensures Primary(input, st) == Ok(Parsed(Variable(st.cur, st.cur.Literal), Advance(input, st)))
  {
  }

  /** A primary followed by no comparison, IN or NOT is the whole
      comparison. */
  lemma ComparisonOfOperand(input: Bytes, st: PState, n: Node, s: PState)
    requires Primary(input, st) == Ok(Parsed(n, s))
    requires s.cur.Type !in {BANG, IN} && !IsComparisonOperator(s.cur.Type)
    ensures Comparison(input, st) == Ok(Parsed(n, s))
  {
    assert ComparisonLoop(input, s, n) == Ok(Parsed(n, s));
  }

  /** A comparison followed by no AND or OR is the whole expression. */
  lemma ExpressionOfComparison(input: Bytes, st: PState, n: Node, s: PState)
    requires Comparison(input, st) == Ok(Parsed(n, s))
    requires s.cur.Type !in {AND, OR}
    ensures ParseExpression(input, st) == Ok(Parsed(n, s))
  {
    assert AndLoop(input, s, n) == Ok(Parsed(n, s));
    assert And(input, st) == Ok(Parsed(n, s));
    assert OrLoop(input, s, n) == Ok(Parsed(n, s));
    assert Or(input, st) == Ok(Parsed(n, s));
  }

  lemma ExpressionOfFailure(input: Bytes, st: PState)
    requires Comparison(input, st).Err?
    ensures ParseExpression(input, st) == Comparison(input, st)
  {
    assert And(input, st) == Comparison(input, st);
    assert Or(input, st) == Comparison(input, st);
  }

  /** parseComparisonExpression: a primary, then the comparison loop when
      no IN or NOT IN follows. */
  lemma ComparisonOfLoop(input: Bytes, st: PState, left: Node, s1: PState, r: Outcome)
    requires Primary(input, st) == Ok(Parsed(left, s1))
    requires s1.cur.Type !in {BANG, IN}
    requires ComparisonLoop(input, s1, left) == r
    ensures Comparison(input, st) == r
  {
  }

  /** parseAndExpression: a comparison, then the AND loop. */
  lemma AndOfLoop(input: Bytes, st: PState, left: Node, s1: PState, r: Outcome)
    requires Comparison(input, st) == Ok(Parsed(left, s1))
    requires AndLoop(input, s1, left) == r
    ensures And(input, st) == r
  {
  }

  /** An AND-level result followed by no OR is the whole expression. */
  lemma ExpressionOfAnd(input: Bytes, st: PState, n: Node, s: PState)
    requires And(input, st) == Ok(Parsed(n, s))
    requires s.cur.Type != OR
    ensures ParseExpression(input, st) == Ok(Parsed(n, s))
  {
    assert OrLoop(input, s, n) == Ok(Parsed(n, s));
  }

  // ---------------------------------------------------------------------
  // Shapes of short inputs, whatever their text: what Parse builds from
  // the first few tokens when the input ends after them
  // ---------------------------------------------------------------------

  lemma StartFrom(input: Bytes, a: Token, pa: nat, b: Token, pb: nat)
    requires LegacyLexer.NextTokenAt(input, 0) == (a, pa) && LegacyLexer.NextTokenAt(input, pa) == (b, pb)
    ensures Init(input) == PState(pb, a, b, [])
  {
  }

  /** The node parsePrimaryExpression makes of a number or string token. */
  function LiteralNode(t: Token): Node {
    if t.Type == STRING then Literal(t, StripQuotes(t.Literal)) else Literal(t, t.Literal)
  }

  /** `@v op literal`: one binary node, the literal's quotes stripped. */
  lemma VariableComparedToLiteral(input: Bytes, v: Token, pv: nat, op: Token, po: nat, lit: Token, pl: nat, right: Node)
    requires v.Type == VARIABLE && IsComparisonOperator(op.Type)
    requires LegacyLexer.NextTokenAt(input, 0) == (v, pv)
    requires LegacyLexer.NextTokenAt(input, pv) == (op, po)
    requires LegacyLexer.NextTokenAt(input, po) == (lit, pl)
    requires pl >= |input|
    requires Primary(input, PState(pl + 1, lit, Eof, [])) == Ok(Parsed(right, PState(pl + 2, Eof, Eof, [])))
    ensures Parse(input) == Ok(Parsed(BinaryExpression(op, Variable(v, v.Literal), op.Literal, right), PState(pl + 2, Eof, Eof, [])))
  {
    StartFrom(input, v, pv, op, po);
    VariableThenLiteral(input, v, op, po, lit, pl, right);
  }

  /** One turn of the comparison loop. */
  lemma ComparisonLoopStep(input: Bytes, st: PState, left: Node, right: Node, s: PState)
    requires IsComparisonOperator(st.cur.Type)
    requires Primary(input, Advance(input, st)) == Ok(Parsed(right, s))
    ensures ComparisonLoop(input, st, left) == ComparisonLoop(input, s, BinaryExpression(st.cur, left, st.cur.Literal, right))
  {
  }

  /** The comparison loop stops at a token that is no comparison operator. */
  lemma ComparisonLoopStops(input: Bytes, st: PState, left: Node)
    requires !IsComparisonOperator(st.cur.Type)
    ensures ComparisonLoop(input, st, left) == Ok(Parsed(left, st))
  {
  }

  /** One turn of the AND loop. */
  lemma AndLoopStep(input: Bytes, st: PState, left: Node, right: Node, s: PState)
    requires st.cur.Type == AND
    requires Comparison(input, Advance(input, st)) == Ok(Parsed(right, s))
    ensures AndLoop(input, st, left) == AndLoop(input, s, BinaryExpression(st.cur, left, st.cur.Literal, right))
  {
  }

  /** One turn of the OR loop: its right operand is a whole AND-level
      parse, which has taken every AND that followed. */
  lemma OrLoopStep(input: Bytes, st: PState, left: Node, right: Node, s: PState)
    requires st.cur.Type == OR
    requires And(input, Advance(input, st)) == Ok(Parsed(right, s))
    ensures OrLoop(input, st, left) == OrLoop(input, s, BinaryExpression(st.cur, left, st.cur.Literal, right))
    ensures s.cur.Type != AND
  {
  }

  /** The OR loop stops at a token other than OR. */
  lemma OrLoopStops(input: Bytes, st: PState, left: Node)
    requires st.cur.Type != OR
    ensures OrLoop(input, st, left) == Ok(Parsed(left, st))
  {
  }

  /** An expression is its first AND-level operand with the OR loop run
      after it. */
  lemma ExpressionOfLoop(input: Bytes, st: PState, left: Node, s1: PState, r: Outcome)
    requires And(input, st) == Ok(Parsed(left, s1))
    requires OrLoop(input, s1, left) == r
    ensures ParseExpression(input, st) == r
  {
  }

  /** The AND loop stops at a token other than AND. */
  lemma AndLoopStops(input: Bytes, st: PState, left: Node)
    requires st.cur.Type != AND
    ensures AndLoop(input, st, left) == Ok(Parsed(left, st))
  {
  }

  /** The variable, read as a primary, leaves the operator current. */
  lemma VariableBeforeOperator(input: Bytes, v: Token, op: Token, po: nat, lit: Token, pl: nat)
    requires v.Type == VARIABLE && LegacyLexer.NextTokenAt(input, po) == (lit, pl)
    ensures Primary(input, PState(po, v, op, [])) == Ok(Parsed(Variable(v, v.Literal), PState(pl, op, lit, [])))
  {
    PrimaryVariable(input, PState(po, v, op, []));
  }

  /** The comparison loop on an operator followed by the last token, a
      number or a string: one binary node. */
  lemma OperatorThenLastLiteral(input: Bytes, op: Token, lit: Token, pl: nat, left: Node, right: Node)
    requires IsComparisonOperator(op.Type) && pl >= |input|
    requires Primary(input, PState(pl + 1, lit, Eof, [])) == Ok(Parsed(right, PState(pl + 2, Eof, Eof, [])))
    ensures ComparisonLoop(input, PState(pl, op, lit, []), left)
      == Ok(Parsed(BinaryExpression(op, left, op.Literal, right), PState(pl + 2, Eof, Eof, [])))
  {
    var s1 := PState(pl, op, lit, []);
    var s3 := PState(pl + 2, Eof, Eof, []);
    AdvanceAtEnd(input, s1);
    ComparisonLoopStep(input, s1, left, right, s3);
    ComparisonLoopStops(input, s3, BinaryExpression(op, left, op.Literal, right));
  }

  lemma VariableThenLiteral(input: Bytes, v: Token, op: Token, po: nat, lit: Token, pl: nat, right: Node)
    requires v.Type == VARIABLE && IsComparisonOperator(op.Type)
    requires LegacyLexer.NextTokenAt(input, po) == (lit, pl) && pl >= |input|
    requires Primary(input, PState(pl + 1, lit, Eof, [])) == Ok(Parsed(right, PState(pl + 2, Eof, Eof, [])))
    ensures ParseExpression(input, PState(po, v, op, []))
      == Ok(Parsed(BinaryExpression(op, Variable(v, v.Literal), op.Literal, right), PState(pl + 2, Eof, Eof, [])))
  {
    var s0 := PState(po, v, op, []);
    var s1 := PState(pl, op, lit, []);
    var tree := BinaryExpression(op, Variable(v, v.Literal), op.Literal, right);
    VariableBeforeOperator(input, v, op, po, lit, pl);
    OperatorThenLastLiteral(input, op, lit, pl, Variable(v, v.Literal), right);
    ComparisonOfLoop(input, s0, Variable(v, v.Literal), s1, Ok(Parsed(tree, PState(pl + 2, Eof, Eof, []))));
    ExpressionOfComparison(input, s0, tree, PState(pl + 2, Eof, Eof, []));
  }

  /** The last token, a number or a string, as the right operand. */
  lemma LastLiteral(input: Bytes, s: PState)
    requires (s.cur.Type == NUMBER || s.cur.Type == STRING) && s.peek == Eof && s.lexPos >= |input|
    ensures Primary(input, s) == Ok(Parsed(LiteralNode(s.cur), PState(s.lexPos + 1, Eof, Eof, s.errors)))
  {
    AdvanceAtEnd(input, s);
    if s.cur.Type == NUMBER {
      PrimaryNumber(input, s);
    }
  }

  /** `NOT @v` or `!@v`: a negation of the variable. */
  lemma NegatedVariable(input: Bytes, n: Token, pn: nat, v: Token, pv: nat)
    requires n.Type == BANG && v.Type == VARIABLE
    requires LegacyLexer.NextTokenAt(input, 0) == (n, pn)
    requires LegacyLexer.NextTokenAt(input, pn) == (v, pv)
    requires pv >= |input|
    ensures Parse(input) == Ok(Parsed(UnaryExpression(n, n.Literal, Variable(v, v.Literal)), PState(pv + 2, Eof, Eof, [])))
  {
    StartFrom(input, n, pn, v, pv);
    var s0 := PState(pv, n, v, []);
    var s2 := PState(pv + 2, Eof, Eof, []);
    var tree := UnaryExpression(n, n.Literal, Variable(v, v.Literal));
    NegationOfLastVariable(input, n, v, pv);
    ComparisonOfOperand(input, s0, tree, s2);
    ExpressionOfComparison(input, s0, tree, s2);
  }

  lemma NegationOfLastVariable(input: Bytes, n: Token, v: Token, pv: nat)
    requires n.Type == BANG && v.Type == VARIABLE && pv >= |input|
    ensures Primary(input, PState(pv, n, v, [])) == Ok(Parsed(UnaryExpression(n, n.Literal, Variable(v, v.Literal)), PState(pv + 2, Eof, Eof, [])))
  {
    var s1 := PState(pv + 1, v, Eof, []);
    AdvanceAtEnd(input, PState(pv, n, v, []));
    LastVariable(input, s1);
    NegationStep(input, PState(pv, n, v, []), s1, Variable(v, v.Literal), PState(pv + 2, Eof, Eof, []));
  }

  /** parseUnaryExpression: the negation of the primary after the `!` or
      `NOT`. */
  lemma NegationStep(input: Bytes, st: PState, s1: PState, right: Node, s: PState)
    requires st.cur.Type == BANG && Advance(input, st) == s1
    requires Primary(input, s1) == Ok(Parsed(right, s))
    ensures Primary(input, st) == Ok(Parsed(UnaryExpression(st.cur, st.cur.Literal, right), s))
  {
    assert Unary(input, st) == Ok(Parsed(UnaryExpression(st.cur, st.cur.Literal, right), s));
  }

  /** The last token, a variable, as a primary. */
  lemma LastVariable(input: Bytes, s: PState)
    requires s.cur.Type == VARIABLE && s.peek == Eof && s.lexPos >= |input|
    ensures Primary(input, s) == Ok(Parsed(Variable(s.cur, s.cur.Literal), PState(s.lexPos + 1, Eof, Eof, s.errors)))
  {
    AdvanceAtEnd(input, s);
    PrimaryVariable(input, s);
  }

  /** `x AND y` over two numbers, whatever the spelling of AND. */
  lemma NumbersJoined(input: Bytes, x: Token, px: nat, c: Token, pc: nat, y: Token, py: nat)
    requires x.Type == NUMBER && c.Type == AND && y.Type == NUMBER
    requires LegacyLexer.NextTokenAt(input, 0) == (x, px)
    requires LegacyLexer.NextTokenAt(input, px) == (c, pc)
    requires LegacyLexer.NextTokenAt(input, pc) == (y, py)
    requires py >= |input|
    ensures Parse(input) == Ok(Parsed(BinaryExpression(c, Literal(x, x.Literal), c.Literal, Literal(y, y.Literal)), PState(py + 2, Eof, Eof, [])))
  {
    StartFrom(input, x, px, c, pc);
    NumberThenAnd(input, x, c, pc, y, py);
  }

  lemma NumberThenAnd(input: Bytes, x: Token, c: Token, pc: nat, y: Token, py: nat)
    requires x.Type == NUMBER && c.Type == AND && y.Type == NUMBER
    requires LegacyLexer.NextTokenAt(input, pc) == (y, py) && py >= |input|
    ensures ParseExpression(input, PState(pc, x, c, []))
      == Ok(Parsed(BinaryExpression(c, Literal(x, x.Literal), c.Literal, Literal(y, y.Literal)), PState(py + 2, Eof, Eof, [])))
  {
    var s0 := PState(pc, x, c, []);
    var s1 := PState(py, c, y, []);
    var s3 := PState(py + 2, Eof, Eof, []);
    var tree := BinaryExpression(c, Literal(x, x.Literal), c.Literal, Literal(y, y.Literal));
    NumberBeforeAnd(input, x, c, pc, y, py);
    AndThenLastNumber(input, c, y, py, Literal(x, x.Literal));
    AndOfLoop(input, s0, Literal(x, x.Literal), s1, Ok(Parsed(tree, s3)));
    ExpressionOfAnd(input, s0, tree, s3);
  }

  /** A number before AND or OR is a whole comparison. */
  lemma NumberBeforeAnd(input: Bytes, x: Token, c: Token, pc: nat, y: Token, py: nat)
    requires x.Type == NUMBER && c.Type in {AND, OR} && LegacyLexer.NextTokenAt(input, pc) == (y, py)
    ensures Comparison(input, PState(pc, x, c, [])) == Ok(Parsed(Literal(x, x.Literal), PState(py, c, y, [])))
  {
    PrimaryNumber(input, PState(pc, x, c, []));
    ComparisonOfOperand(input, PState(pc, x, c, []), Literal(x, x.Literal), PState(py, c, y, []));
  }

  /** The AND loop on an AND followed by the last token, a number. */
  lemma AndThenLastNumber(input: Bytes, c: Token, y: Token, py: nat, left: Node)
    requires c.Type == AND && y.Type == NUMBER && py >= |input|
    ensures AndLoop(input, PState(py, c, y, []), left)
      == Ok(Parsed(BinaryExpression(c, left, c.Literal, Literal(y, y.Literal)), PState(py + 2, Eof, Eof, [])))
  {
    var s1 := PState(py, c, y, []);
    var s3 := PState(py + 2, Eof, Eof, []);
    AdvanceAtEnd(input, s1);
    LastNumberComparison(input, PState(py + 1, y, Eof, []));
    AndLoopStep(input, s1, left, Literal(y, y.Literal), s3);
    AndLoopStops(input, s3, BinaryExpression(c, left, c.Literal, Literal(y, y.Literal)));
  }

  /** `x OR y AND z` over three numbers: AND binds tighter than OR, so
      `y AND z` is the right operand of OR. */
  lemma NumbersOrAnd(input: Bytes, x: Token, px: nat, o: Token, po: nat, y: Token, py: nat,
                     a: Token, pa: nat, z: Token, pz: nat)
    requires x.Type == NUMBER && o.Type == OR && y.Type == NUMBER && a.Type == AND && z.Type == NUMBER
    requires LegacyLexer.NextTokenAt(input, 0) == (x, px)
    requires LegacyLexer.NextTokenAt(input, px) == (o, po)
    requires LegacyLexer.NextTokenAt(input, po) == (y, py)
    requires LegacyLexer.NextTokenAt(input, py) == (a, pa)
    requires LegacyLexer.NextTokenAt(input, pa) == (z, pz)
    requires pz >= |input|
    ensures Parse(input) == Ok(Parsed(
      BinaryExpression(o, Literal(x, x.Literal), o.Literal,
        BinaryExpression(a, Literal(y, y.Literal), a.Literal, Literal(z, z.Literal))),
      PState(pz + 2, Eof, Eof, [])))
  {
    StartFrom(input, x, px, o, po);
    var s0 := PState(po, x, o, []);
    var s1 := PState(py, o, y, []);
    var s2 := PState(pa, y, a, []);
    var s3 := PState(pz + 2, Eof, Eof, []);
    var first := Literal(x, x.Literal);
    var right := BinaryExpression(a, Literal(y, y.Literal), a.Literal, Literal(z, z.Literal));
    var tree := BinaryExpression(o, first, o.Literal, right);
    NumberBeforeAnd(input, x, o, po, y, py);
    AndLoopStops(input, s1, first);
    AndOfLoop(input, s0, first, s1, Ok(Parsed(first, s1)));
    assert Advance(input, s1) == s2;
    NumberBeforeAnd(input, y, a, pa, z, pz);
    AndThenLastNumber(input, a, z, pz, Literal(y, y.Literal));
    AndOfLoop(input, s2, Literal(y, y.Literal), PState(pz, a, z, []), Ok(Parsed(right, s3)));
    OrLoopStep(input, s1, first, right, s3);
    OrLoopStops(input, s3, tree);
    ExpressionOfLoop(input, s0, first, s1, Ok(Parsed(tree, s3)));
  }

  /** `x AND y AND z` over three numbers: the second AND takes the first
      conjunction as its left operand. */
  lemma NumbersAndAnd(input: Bytes, x: Token, px: nat, a: Token, pa: nat, y: Token, py: nat,
                      b: Token, pb: nat, z: Token, pz: nat)
    requires x.Type == NUMBER && a.Type == AND && y.Type == NUMBER && b.Type == AND && z.Type == NUMBER
    requires LegacyLexer.NextTokenAt(input, 0) == (x, px)
    requires LegacyLexer.NextTokenAt(input, px) == (a, pa)
    requires LegacyLexer.NextTokenAt(input, pa) == (y, py)
    requires LegacyLexer.NextTokenAt(input, py) == (b, pb)
    requires LegacyLexer.NextTokenAt(input, pb) == (z, pz)
    requires pz >= |input|
    ensures Parse(input) == Ok(Parsed(
      BinaryExpression(b,
        BinaryExpression(a, Literal(x, x.Literal), a.Literal, Literal(y, y.Literal)),
        b.Literal, Literal(z, z.Literal)),
      PState(pz + 2, Eof, Eof, [])))
  {
    StartFrom(input, x, px, a, pa);
    var s0 := PState(pa, x, a, []);
    var s1 := PState(py, a, y, []);
    var s2 := PState(pb, y, b, []);
    var s3 := PState(pz, b, z, []);
    var s4 := PState(pz + 2, Eof, Eof, []);
    var first := Literal(x, x.Literal);
    var inner := BinaryExpression(a, first, a.Literal, Literal(y, y.Literal));
    var tree := BinaryExpression(b, inner, b.Literal, Literal(z, z.Literal));
    NumberBeforeAnd(input, x, a, pa, y, py);
    assert Advance(input, s1) == s2;
    NumberBeforeAnd(input, y, b, pb, z, pz);
    AndLoopStep(input, s1, first, Literal(y, y.Literal), s3);
    AndThenLastNumber(input, b, z, pz, inner);
    AndOfLoop(input, s0, first, s1, Ok(Parsed(tree, s4)));
    ExpressionOfAnd(input, s0, tree, s4);
  }

  /** The last token, a number, as a whole comparison. */
  lemma LastNumberComparison(input: Bytes, s: PState)
    requires s.cur.Type == NUMBER && s.peek == Eof && s.lexPos >= |input|
    ensures Comparison(input, s) == Ok(Parsed(Literal(s.cur, s.cur.Literal), PState(s.lexPos + 1, Eof, Eof, s.errors)))
  {
    LastLiteral(input, s);
    ComparisonOfOperand(input, s, Literal(s.cur, s.cur.Literal), PState(s.lexPos + 1, Eof, Eof, s.errors));
  }

  /** At the end of the input an expression is nil and consumes nothing. */
  lemma NothingAtEnd(input: Bytes, s: PState)
    requires s.cur == Eof && s.peek == Eof && s.lexPos >= |input|
    ensures ParseExpression(input, s) == Ok(Parsed(Nil, AddError(s, UnexpectedToken(EOF))))
  {
    var s' := AddError(s, UnexpectedToken(EOF));
    PrimaryRejects(input, s);
    ComparisonOfOperand(input, s, Nil, s');
    ExpressionOfComparison(input, s, Nil, s');
  }

  /** `f(` with nothing after it: the argument loop spins. */
  lemma UnclosedCall(input: Bytes, f: Token, pf: nat, l: Token, pl: nat)
    requires f.Type == IDENTIFIER && l.Type == LPAREN
    requires LegacyLexer.NextTokenAt(input, 0) == (f, pf)
    requires LegacyLexer.NextTokenAt(input, pf) == (l, pl)
    requires pl >= |input|
    ensures Parse(input) == Err(NoProgress(Eof))
  {
    StartFrom(input, f, pf, l, pl);
    CallAtEnd(input, PState(pl, f, l, []));
  }

  lemma CallAtEnd(input: Bytes, s0: PState)
    requires s0.cur.Type == IDENTIFIER && s0.peek.Type == LPAREN && s0.lexPos >= |input|
    ensures ParseExpression(input, s0) == Err(NoProgress(Eof))
  {
    EofAt(input, s0.lexPos);
    EofAt(input, s0.lexPos + 1);
    var s2 := PState(s0.lexPos + 2, Eof, Eof, s0.errors);
    assert Advance(input, Advance(input, s0)) == s2;
    ArgumentsSpin(input, s2, s0.cur);
    assert Call(input, s0) == Err(NoProgress(Eof));
    assert Primary(input, s0) == Err(NoProgress(Eof));
    assert Comparison(input, s0) == Err(NoProgress(Eof));
    ExpressionOfFailure(input, s0);
  }

  lemma ArgumentsSpin(input: Bytes, s: PState, f: Token)
    requires s.cur == Eof && s.peek == Eof && s.lexPos >= |input|
    ensures Arguments(input, s, f, []) == Err(NoProgress(Eof))
  {
    NothingAtEnd(input, s);
  }

  /** A first token that starts no primary and is no operator: nil and one
      error, nothing consumed. */
  lemma RejectedStart(input: Bytes, t: Token, pt: nat, u: Token, pu: nat)
    requires t.Type !in {LPAREN, BANG, VARIABLE, NUMBER, STRING, LBRACKET, IDENTIFIER, IN, AND, OR}
    requires !IsComparisonOperator(t.Type)
    requires LegacyLexer.NextTokenAt(input, 0) == (t, pt)
    requires LegacyLexer.NextTokenAt(input, pt) == (u, pu)
    ensures Parse(input) == Ok(Parsed(Nil, PState(pu, t, u, [UnexpectedToken(t.Type)])))
  {
    StartFrom(input, t, pt, u, pu);
    var s0 := PState(pu, t, u, []);
    var s1 := PState(pu, t, u, [UnexpectedToken(t.Type)]);
    PrimaryRejects(input, s0);
    assert AddError(s0, UnexpectedToken(t.Type)) == s1;
    ComparisonOfOperand(input, s0, Nil, s1);
    ExpressionOfComparison(input, s0, Nil, s1);
  }

  /** A number followed by a token that continues nothing: the number
      alone, the rest left unread. */
  lemma LeadingNumber(input: Bytes, x: Token, px: nat, y: Token, py: nat)
    requires x.Type == NUMBER
    requires y.Type !in {BANG, IN, AND, OR} && !IsComparisonOperator(y.Type)
    requires LegacyLexer.NextTokenAt(input, 0) == (x, px)
    requires LegacyLexer.NextTokenAt(input, px) == (y, py)
    requires py >= |input|
    ensures Parse(input) == Ok(Parsed(Literal(x, x.Literal), PState(py + 1, y, Eof, [])))
  {
    StartFrom(input, x, px, y, py);
    EofAt(input, py);
    var s0 := PState(py, x, y, []);
    var s1 := PState(py + 1, y, Eof, []);
    PrimaryNumber(input, s0);
    assert Advance(input, s0) == s1;
    ComparisonOfOperand(input, s0, Literal(x, x.Literal), s1);
    ExpressionOfComparison(input, s0, Literal(x, x.Literal), s1);
  }
}
