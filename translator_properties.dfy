/** What the primary translator promises, proved about Translator.Translate. */
module TranslatorProperties {
  import opened Results
  import opened Json
  import opened Tokens
  import opened Ast
  import opened Translator

  // ---------------------------------------------------------------------
  // combineConditions
  // ---------------------------------------------------------------------

  /** Combining is done argument by argument. */
  lemma {:induction false} CombineAppend(op: string, a: seq<Value>, b: seq<Value>)
    ensures Combine(op, a + b) == Combine(op, a) + Combine(op, b)
    decreases |b|
  {
    if b == [] {
      assert a + b == a;
    } else {
      var init, last := b[..|b| - 1], b[|b| - 1];
      assert (a + b)[..|a + b| - 1] == a + init;
      assert (a + b)[|a + b| - 1] == last;
      CombineAppend(op, a, init);
      calc {
        Combine(op, a + b);
        Combine(op, a + init) + Contribution(op, last);
        (Combine(op, a) + Combine(op, init)) + Contribution(op, last);
        Combine(op, a) + (Combine(op, init) + Contribution(op, last));
        Combine(op, a) + Combine(op, b);
      }
    }
  }

  /** Arguments that hold no `op` entry are kept as they are, in order. */
  lemma CombineKeepsOrder(op: string, l: Value, r: Value)
    requires !(l.Obj? && op in l.fields) && !(r.Obj? && op in r.fields)
    ensures Combine(op, [l, r]) == [l, r]
  {
    assert [l, r][..1] == [l];
    assert [l][..0] == [];
    assert Combine(op, [l]) == [l];
  }

  /** An argument that is itself an `op` object contributes its list. */
  lemma CombineSplices(op: string, l: Value, r: Value)
    requires l.Obj? && op in l.fields && l.fields[op].Arr?
    requires !(r.Obj? && op in r.fields)
    ensures Combine(op, [l, r]) == l.fields[op].items + [r]
  {
    assert [l, r][..1] == [l];
    assert [l][..0] == [];
    assert Combine(op, [l]) == [] + l.fields[op].items;
    assert [] + l.fields[op].items == l.fields[op].items;
  }

  // ---------------------------------------------------------------------
  // Flattening of `and` / `or`
  // ---------------------------------------------------------------------

  function KeyedBy(v: Value, k: string): bool {
    v.Obj? && k in v.fields
  }

  /** An object's `k` entry, if any, is a list none of whose elements is
      itself keyed `k`. */
  predicate Flat(v: Value, k: string) {
    KeyedBy(v, k) ==> v.fields[k].Arr? && forall x <- v.fields[k].items :: !KeyedBy(x, k)
  }

  /** No comparison node is spelled `and` or `or`, which the lexer
      guarantees since those words lex as keywords. */
  predicate ComparisonsSpelled(e: Expr)
    decreases e
  {
    match e
    case BinaryExpression(left, op, right) =>
      (IsComparison(op.Type) ==> op.Literal != "and" && op.Literal != "or")
      && ComparisonsSpelled(left) && ComparisonsSpelled(right)
    case _ => true
  }

  lemma CombineFlat(k: string, vs: seq<Value>)
    requires forall v <- vs :: Flat(v, k)
    ensures forall x <- Combine(k, vs) :: !KeyedBy(x, k)
  {
    if vs != [] {
      var init, last := vs[..|vs| - 1], vs[|vs| - 1];
      assert forall v <- init :: v in vs;
      CombineFlat(k, init);
      assert last in vs;
      assert forall x <- Contribution(k, last) :: !KeyedBy(x, k);
    }
  }

  /** A translated `and` (or `or`) list never holds an object keyed by the
      same operator: same-operator chains are flattened into one list. */
  lemma {:induction false} TranslationFlat(e: Expr, k: string)
    requires k == "and" || k == "or"
    requires ComparisonsSpelled(e)
    ensures Translate(e).Ok? ==> Flat(Translate(e).value, k)
    decreases e
  {
    match e
    case BinaryExpression(left, op, right) =>
      if (op.Type == AND || op.Type == OR) && Translate(e).Ok? {
        TranslationFlat(left, k);
        TranslationFlat(right, k);
        var l, r := Translate(left).value, Translate(right).value;
        CombineFlat(k, [l, r]);
      }
    case _ =>
  }

  /** One step of Translate on an `and`/`or` node whose operands translate. */
  lemma LogicalStep(left: Expr, op: Token, right: Expr)
    requires op.Type == AND || op.Type == OR
    requires Translate(left).Ok? && Translate(right).Ok?
    ensures Translate(BinaryExpression(left, op, right)) ==
            Ok(Single(op.Literal, Arr(Combine(op.Literal, [Translate(left).value, Translate(right).value]))))
  {
  }

  /** One step of Translate on a comparison whose operands translate. */
  lemma ComparisonStep(left: Expr, op: Token, right: Expr)
    requires IsComparison(op.Type)
    requires Translate(left).Ok? && Translate(right).Ok?
    ensures Translate(BinaryExpression(left, op, right)) ==
            Ok(Single(op.Literal, Arr([Translate(left).value, Translate(right).value])))
  {
  }

  /** `@a and @b` gives a two-element list. */
  lemma ExampleAnd()
    ensures Translate(BinaryExpression(VariableExpression("@a"), Token(AND, "and"), VariableExpression("@b"))) ==
              Ok(Single("and", Arr([Single("var", Str("a")), Single("var", Str("b"))])))
  {
    var a, b := Single("var", Str("a")), Single("var", Str("b"));
    assert "@a"[1..] == "a" && "@b"[1..] == "b";
    assert Translate(VariableExpression("@a")) == Ok(a);
    assert Translate(VariableExpression("@b")) == Ok(b);
    LogicalStep(VariableExpression("@a"), Token(AND, "and"), VariableExpression("@b"));
    CombineKeepsOrder("and", a, b);
  }

  /** `@a and @b and @c` gives one list of three conditions. */
  lemma ExampleAndChain()
    ensures Translate(BinaryExpression(BinaryExpression(VariableExpression("@a"), Token(AND, "and"), VariableExpression("@b")),
                                       Token(AND, "and"), VariableExpression("@c"))) ==
              Ok(Single("and", Arr([Single("var", Str("a")), Single("var", Str("b")), Single("var", Str("c"))])))
  {
    var a, b, c := Single("var", Str("a")), Single("var", Str("b")), Single("var", Str("c"));
    ExampleAnd();
    assert "@c"[1..] == "c";
    assert Translate(VariableExpression("@c")) == Ok(c);
    LogicalStep(BinaryExpression(VariableExpression("@a"), Token(AND, "and"), VariableExpression("@b")),
                Token(AND, "and"), VariableExpression("@c"));
    CombineSplices("and", Single("and", Arr([a, b])), c);
    assert [a, b] + [c] == [a, b, c];
  }

  // ---------------------------------------------------------------------
  // between, variables, arrays
  // ---------------------------------------------------------------------

  function LowerToken(inclusive: bool): Token {
    if inclusive then Token(GTE, ">=") else Token(GT, ">")
  }

  function UpperToken(inclusive: bool): Token {
    if inclusive then Token(LTE, "<=") else Token(LT, "<")
  }

  /** `x between lo, hi` translates exactly as `x >(=) lo and x <(=) hi`
      would, with the inclusive flags choosing `>=` and `<=`. */
  function DesugaredBetween(left: Expr, lower: Expr, upper: Expr, inclusiveLower: bool, inclusiveUpper: bool): Expr {
    BinaryExpression(BinaryExpression(left, LowerToken(inclusiveLower), lower),
                     Token(AND, "and"),
                     BinaryExpression(left, UpperToken(inclusiveUpper), upper))
  }

  lemma BetweenDesugars(left: Expr, lower: Expr, upper: Expr, inclusiveLower: bool, inclusiveUpper: bool)
    ensures Translate(BetweenExpression(left, lower, upper, inclusiveLower, inclusiveUpper)) ==
            Translate(DesugaredBetween(left, lower, upper, inclusiveLower, inclusiveUpper))
  {
    if Translate(left).Ok? && Translate(lower).Ok? && Translate(upper).Ok? {
      BetweenDesugarsOk(left, lower, upper, inclusiveLower, inclusiveUpper);
    } else {
      BetweenDesugarsErr(left, lower, upper, inclusiveLower, inclusiveUpper);
    }
  }

  lemma BetweenDesugarsOk(left: Expr, lower: Expr, upper: Expr, inclusiveLower: bool, inclusiveUpper: bool)
    requires Translate(left).Ok? && Translate(lower).Ok? && Translate(upper).Ok?
    ensures Translate(BetweenExpression(left, lower, upper, inclusiveLower, inclusiveUpper)) ==
            Translate(DesugaredBetween(left, lower, upper, inclusiveLower, inclusiveUpper))
  {
    BetweenValue(left, lower, upper, inclusiveLower, inclusiveUpper);
    DesugaredValue(left, lower, upper, inclusiveLower, inclusiveUpper);
  }

  /** The conjunction both sides of the desugaring translate to. */
  function BetweenConditions(left: Expr, lower: Expr, upper: Expr, inclusiveLower: bool, inclusiveUpper: bool): Value
    requires Translate(left).Ok? && Translate(lower).Ok? && Translate(upper).Ok?
  {
    var l, lo, hi := Translate(left).value, Translate(lower).value, Translate(upper).value;
    Single("and", Arr([Single(LowerToken(inclusiveLower).Literal, Arr([l, lo])),
                       Single(UpperToken(inclusiveUpper).Literal, Arr([l, hi]))]))
  }

  lemma BetweenValue(left: Expr, lower: Expr, upper: Expr, inclusiveLower: bool, inclusiveUpper: bool)
    requires Translate(left).Ok? && Translate(lower).Ok? && Translate(upper).Ok?
    ensures Translate(BetweenExpression(left, lower, upper, inclusiveLower, inclusiveUpper)) ==
            Ok(BetweenConditions(left, lower, upper, inclusiveLower, inclusiveUpper))
  {
  }

  lemma DesugaredValue(left: Expr, lower: Expr, upper: Expr, inclusiveLower: bool, inclusiveUpper: bool)
    requires Translate(left).Ok? && Translate(lower).Ok? && Translate(upper).Ok?
    ensures Translate(DesugaredBetween(left, lower, upper, inclusiveLower, inclusiveUpper)) ==
            Ok(BetweenConditions(left, lower, upper, inclusiveLower, inclusiveUpper))
  {
    var lowerNode := BinaryExpression(left, LowerToken(inclusiveLower), lower);
    var upperNode := BinaryExpression(left, UpperToken(inclusiveUpper), upper);
    var l, lo, hi := Translate(left).value, Translate(lower).value, Translate(upper).value;
    var lowerCondition := Single(LowerToken(inclusiveLower).Literal, Arr([l, lo]));
    var upperCondition := Single(UpperToken(inclusiveUpper).Literal, Arr([l, hi]));
    ComparisonStep(left, LowerToken(inclusiveLower), lower);
    ComparisonStep(left, UpperToken(inclusiveUpper), upper);
    LogicalStep(lowerNode, Token(AND, "and"), upperNode);
    CombineKeepsOrder("and", lowerCondition, upperCondition);
  }

  lemma BetweenDesugarsErr(left: Expr, lower: Expr, upper: Expr, inclusiveLower: bool, inclusiveUpper: bool)
    requires !(Translate(left).Ok? && Translate(lower).Ok? && Translate(upper).Ok?)
    ensures Translate(BetweenExpression(left, lower, upper, inclusiveLower, inclusiveUpper)) ==
            Translate(DesugaredBetween(left, lower, upper, inclusiveLower, inclusiveUpper))
  {
    var lowerNode := BinaryExpression(left, LowerToken(inclusiveLower), lower);
    var upperNode := BinaryExpression(left, UpperToken(inclusiveUpper), upper);
    assert IsComparison(LowerToken(inclusiveLower).Type) && IsComparison(UpperToken(inclusiveUpper).Type);
    if Translate(left).Err? {
      assert Translate(lowerNode) == Err(Translate(left).error);
    } else if Translate(lower).Err? {
      assert Translate(lowerNode) == Err(Translate(lower).error);
    } else {
      assert Translate(lowerNode).Ok?;
      assert Translate(upperNode) == Err(Translate(upper).error);
    }
  }

  /** A variable's key drops the leading `@` the lexer keeps. */
  lemma VariableDropsSigil(name: string)
    ensures Translate(VariableExpression("@" + name)) == Ok(Single("var", Str(name)))
  {
    assert ("@" + name)[1..] == name;
  }

  /** An array translates element by element, in order, and fails exactly
      when one of its elements does. */
  lemma {:induction false} TranslateAllPointwise(es: seq<Expr>)
    ensures TranslateAll(es).Ok? <==> forall i :: 0 <= i < |es| ==> Translate(es[i]).Ok?
    ensures TranslateAll(es).Ok? ==>
              |TranslateAll(es).value| == |es| &&
              forall i :: 0 <= i < |es| ==> Translate(es[i]) == Ok(TranslateAll(es).value[i])
    decreases |es|
  {
    if es != [] {
      var init := es[..|es| - 1];
      TranslateAllPointwise(init);
      assert forall i :: 0 <= i < |init| ==> init[i] == es[i];
    }
  }

  // ---------------------------------------------------------------------
  // TranslateToJSONLogic
  // ---------------------------------------------------------------------

  /** The result is always an object; a body of zero or of several
      expressions gives `{}`, and a single expression that translates to no
      object (a lone literal or array) panics. */
  lemma ToJsonLogicShape(block: BlockStatement)
    ensures ToJsonLogic(block).Ok? ==> ToJsonLogic(block).value.Obj?
    ensures block.body.LineStatement? && |block.body.expressions| != 1 ==> ToJsonLogic(block) == Ok(Obj(map[]))
    ensures block.body.LineStatement? && |block.body.expressions| == 1 ==>
              (ToJsonLogic(block).Ok? <==> Translate(block.body.expressions[0]).Ok? && Translate(block.body.expressions[0]).value.Obj?)
  {
  }

  /** `@age > 18` gives `{">": [{"var": "age"}, 18]}`. */
  lemma ExampleComparison()
    ensures ToJsonLogic(BlockStatement(LineStatement([BinaryExpression(VariableExpression("@age"), Token(GT, ">"),
                                                                       NumberExpression(Float64("18")))]))) ==
            Ok(Single(">", Arr([Single("var", Str("age")), Num(Float64("18"))])))
  {
    assert "@age"[1..] == "age";
  }

  /** A lone number is no object, so the translation panics. */
  lemma ExampleLoneLiteral(n: Float64)
    ensures ToJsonLogic(BlockStatement(LineStatement([NumberExpression(n)]))) == Err(NotAnObject(Num(n)))
  {
  }

  /** `@x between [0, 10)` gives `>` for the lower and `<=` for the upper
      bound. */
  lemma ExampleBetween()
    ensures var x := Single("var", Str("x"));
            Translate(BetweenExpression(VariableExpression("@x"), NumberExpression(Float64("0")),
                                        NumberExpression(Float64("10")), false, true)) ==
            Ok(Single("and", Arr([Single(">", Arr([x, Num(Float64("0"))])), Single("<=", Arr([x, Num(Float64("10"))]))])))
  {
    assert "@x"[1..] == "x";
  }

  /** `not @d` gives `{"!": {"var": "d"}}`, with no array around the operand. */
  lemma ExampleNot()
    ensures Translate(PrefixExpression(Token(NOT, "not"), VariableExpression("@d"))) ==
            Ok(Single("!", Single("var", Str("d"))))
  {
    assert "@d"[1..] == "d";
  }
}
