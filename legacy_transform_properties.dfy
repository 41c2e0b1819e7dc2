/** What the older pipeline's JSONLogic translation promises, stated on
    `JsonLogicOf`, and how the tokens its lexer produces come out. */
module LegacyTransformProperties {
  import opened Results
  import opened Json
  import opened LegacyToken
  import opened LegacyAst
  import opened LegacyTransform
  import LegacyLexer
  import LegacyLexerProperties

  /** No `Nil` anywhere in the tree. */
  predicate NilFree(node: Node) {
    match node
    case Nil => false
    case Variable(_, _) => true
    case Literal(_, _) => true
    case BinaryExpression(_, left, _, right) => NilFree(left) && NilFree(right)
    case UnaryExpression(_, _, right) => NilFree(right)
    case ArrayLiteral(_, elements) => forall i :: 0 <= i < |elements| ==> NilFree(elements[i])
    case FunctionCall(_, _, arguments) => forall i :: 0 <= i < |arguments| ==> NilFree(arguments[i])
  }

  /** A list translates exactly when every element does, into the
      elements' translations in order. */
  lemma {:induction false} AllPointwise(nodes: seq<Node>)
    ensures JsonLogicOfAll(nodes).Ok? <==> forall i :: 0 <= i < |nodes| ==> JsonLogicOf(nodes[i]).Ok?
    ensures JsonLogicOfAll(nodes).Ok? ==>
      |JsonLogicOfAll(nodes).value| == |nodes|
      && forall i :: 0 <= i < |nodes| ==> JsonLogicOfAll(nodes).value[i] == JsonLogicOf(nodes[i]).value
    decreases |nodes|
  {
    if nodes != [] {
      var init := nodes[..|nodes| - 1];
      AllPointwise(init);
      assert forall i :: 0 <= i < |init| ==> init[i] == nodes[i];
    }
  }

  /** A tree with a `Nil` anywhere in it never translates: the nil a failed
      parse leaves inside a tree always surfaces as an error. */
  lemma {:induction false} SuccessMeansNilFree(node: Node)
    ensures JsonLogicOf(node).Ok? ==> NilFree(node)
    decreases node
  {
    match node
    case Nil =>
    case Variable(_, _) =>
    case Literal(_, _) =>
    case BinaryExpression(_, left, _, right) =>
      SuccessMeansNilFree(left);
      SuccessMeansNilFree(right);
    case UnaryExpression(_, _, right) =>
      SuccessMeansNilFree(right);
    case ArrayLiteral(_, elements) =>
      AllPointwise(elements);
      forall i | 0 <= i < |elements|
        ensures JsonLogicOf(node).Ok? ==> NilFree(elements[i])
      {
        SuccessMeansNilFree(elements[i]);
      }
    case FunctionCall(_, _, arguments) =>
      AllPointwise(arguments);
      forall i | 0 <= i < |arguments|
        ensures JsonLogicOf(node).Ok? ==> NilFree(arguments[i])
      {
        SuccessMeansNilFree(arguments[i]);
      }
  }

  /** The operator spellings the translation accepts: the keywords only in
      capitals, all three equality spellings as `==` and both inequality
      spellings as `!=`. */
  lemma BinaryKeySpellings(op: string)
    ensures BinaryKey(op).Ok? <==> op in {"AND", "OR", "=", "==", "===", "!=", "!==", ">", "<", ">=", "<=", "IN"}
    ensures op in {"=", "==", "==="} ==> BinaryKey(op) == Ok("==")
    ensures op in {"!=", "!=="} ==> BinaryKey(op) == Ok("!=")
    ensures op in {">", "<", ">=", "<="} ==> BinaryKey(op) == Ok(op)
    ensures BinaryKey(op).Err? ==> BinaryKey(op).error == UnsupportedOperator(op)
  {
  }

  /** Operands are translated before the operator is checked, so an
      operand's error wins over an unknown operator. */
  lemma OperandErrorFirst(token: Token, left: Node, op: string, right: Node)
    requires JsonLogicOf(left).Err?
    ensures JsonLogicOf(BinaryExpression(token, left, op, right)) == Err(JsonLogicOf(left).error)
  {
  }

  /** `a AND b AND c` stays nested two by two: unlike the newer
      translator, nothing is flattened. */
  lemma AndNotFlattened(t1: Token, t2: Token, a: Node, b: Node, c: Node)
    requires JsonLogicOf(a).Ok? && JsonLogicOf(b).Ok? && JsonLogicOf(c).Ok?
    ensures JsonLogicOf(BinaryExpression(t1, BinaryExpression(t2, a, "AND", b), "AND", c))
      == Ok(Single("and", Arr([Single("and", Arr([JsonLogicOf(a).value, JsonLogicOf(b).value])), JsonLogicOf(c).value])))
  {
  }

  /** Negation, whichever spelling built it, wraps its operand in a
      one-element array. */
  lemma NegationWraps(token: Token, op: string, right: Node)
    requires JsonLogicOf(right).Ok?
    ensures JsonLogicOf(UnaryExpression(token, op, right)) == Ok(Single("!", Arr([JsonLogicOf(right).value])))
  {
  }

  /** Only `LOG`, spelt in capitals, is a function; its arguments are
      translated first, so their errors come before the unknown name. */
  lemma OnlyLog(token: Token, name: string, arguments: seq<Node>)
    ensures JsonLogicOf(FunctionCall(token, name, arguments)).Ok? <==>
      name == "LOG" && forall i :: 0 <= i < |arguments| ==> JsonLogicOf(arguments[i]).Ok?
    ensures JsonLogicOfAll(arguments).Err? ==>
      JsonLogicOf(FunctionCall(token, name, arguments)) == Err(JsonLogicOfAll(arguments).error)
  {
    AllPointwise(arguments);
  }

  /** Text without two dots has at most one. */
  lemma {:induction false} PairwiseDots(s: string)
    requires forall i, j :: 0 <= i < j < |s| ==> !(s[i] == '.' && s[j] == '.')
    ensures CountDots(s) <= 1
    decreases |s|
  {
    if s != [] {
      PairwiseDots(s[1..]);
      if s[0] == '.' {
        NoDots(s[1..]);
      }
    }
  }

  lemma {:induction false} NoDots(s: string)
    requires forall i :: 0 <= i < |s| ==> s[i] != '.'
    ensures CountDots(s) == 0
    decreases |s|
  {
    if s != [] {
      NoDots(s[1..]);
    }
  }

  /** Every number token the lexer produces becomes a JSON number (the
      float range is not modelled). */
  lemma LexedNumberIsNum(input: Bytes, q: nat)
    requires LegacyLexer.IsDigit(LegacyLexer.At(input, q))
    ensures var t := LegacyLexer.TokenAt(input, q).0;
      LiteralValue(t, t.Literal) == Num(Float64(t.Literal))
  {
    LegacyLexerProperties.NumberToken(input, q);
    var t := LegacyLexer.TokenAt(input, q).0;
    PairwiseDots(t.Literal);
    assert IsDigit(t.Literal[0]);
  }

  /** A lexed variable translates to `{"var": name}` with the `@` dropped. */
  lemma LexedVariable(input: Bytes, q: nat)
    requires LegacyLexer.At(input, q) == '@'
    ensures var t := LegacyLexer.TokenAt(input, q).0;
      t.Literal == "@" + t.Literal[1..]
      && JsonLogicOf(Variable(t, t.Literal)) == Ok(Single("var", Str(t.Literal[1..])))
  {
    LegacyLexerProperties.VariableToken(input, q);
  }
}
