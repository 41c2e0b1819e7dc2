/** The primary translator from the syntax tree to a JSONLogic value
    (internal/translator/jsonlogic/jsonlogic.go). The recursive case
    analysis is the function Translate; the Go code's loops (the array case
    and combineConditions) are methods proved to compute it. */
module Translator {
  import opened Results
  import opened Json
  import opened Tokens
  import opened Ast

  /** The panics the translator can raise. */
  datatype TranslateError =
    | CannotTranslate(expr: Expr)   // "cannot translate expression": nil, assignment, if
    | EmptyVariable                 // `e.Value[1:]` on an empty name
    | NotAnObject(value: Value)     // the `.(map[string]any)` assertion on the one expression
    | NotALineStatement             // the `.(*ast.LineStatement)` assertion on the body

  predicate IsComparison(t: TokenType) {
    t in {EQ, NOT_EQ, GT, GTE, LT, LTE, STRICT_EQ, NOT_STRICT_EQ, IN}
  }

  // ---------------------------------------------------------------------
  // combineConditions
  // ---------------------------------------------------------------------

  /** What one argument adds to the list: the array under `op` when it is
      an object holding `op` (or that value itself if it is no array), and
      otherwise the argument itself. */
  function Contribution(op: string, v: Value): seq<Value> {
    if v.Obj? && op in v.fields then
      (if v.fields[op].Arr? then v.fields[op].items else [v.fields[op]])
    else [v]
  }

  /** The contributions of all arguments, in argument order. */
  function Combine(op: string, vs: seq<Value>): seq<Value> {
    if vs == [] then [] else Combine(op, vs[..|vs| - 1]) + Contribution(op, vs[|vs| - 1])
  }

  /** combineConditions */
  method CombineConditions(op: string, expressions: seq<Value>) returns (conditions: seq<Value>)
    ensures conditions == Combine(op, expressions)
  {
    conditions := [];
    for i := 0 to |expressions|
      invariant conditions == Combine(op, expressions[..i])
    {
      assert expressions[..i + 1][..i] == expressions[..i];
      var expr := expressions[i];
      if expr.Obj? && op in expr.fields {
        var logicalConditions := expr.fields[op];
        if logicalConditions.Arr? {
          conditions := conditions + logicalConditions.items;
        } else {
          conditions := conditions + [logicalConditions];
        }
        continue;
      }
      conditions := conditions + [expr];
    }
    assert expressions[..|expressions|] == expressions;
  }

  // ---------------------------------------------------------------------
  // translateExpression
  // ---------------------------------------------------------------------

  /** translateExpression: a panic in an operand ends the translation, and
      operands are translated left to right. */
  function Translate(e: Expr): Result<Value, TranslateError>
    decreases e, 1
  {
    match e
    case BinaryExpression(left, op, right) =>
      if IsComparison(op.Type) then
        var l :- Translate(left);
        var r :- Translate(right);
        Ok(Single(op.Literal, Arr([l, r])))
      else if op.Type == AND || op.Type == OR then
        var l :- Translate(left);
        var r :- Translate(right);
        Ok(Single(op.Literal, Arr(Combine(op.Literal, [l, r]))))
      else Ok(Obj(map[]))
    case PrefixExpression(op, right) =>
      if op.Type == NOT then
        var r :- Translate(right);
        Ok(Single("!", r))
      else if op.Type == NOT_NOT then
        var r :- Translate(right);
        Ok(Single("!!", r))
      else Ok(Obj(map[]))
    case BetweenExpression(left, lower, upper, inclusiveLower, inclusiveUpper) =>
      var lowerOperator := if inclusiveLower then ">=" else ">";
      var upperOperator := if inclusiveUpper then "<=" else "<";
      // Go translates `left` a second time for the upper comparison; the
      // translation is deterministic, so that second call gives `l` again.
      var l :- Translate(left);
      var lo :- Translate(lower);
      var hi :- Translate(upper);
      Ok(Single("and", Arr([Single(lowerOperator, Arr([l, lo])), Single(upperOperator, Arr([l, hi]))])))
    case VariableExpression(name) =>
      if |name| == 0 then Err(EmptyVariable) else Ok(Single("var", Str(name[1..])))
    case NumberExpression(n) => Ok(Num(n))
    case StringExpression(s) => Ok(Str(s))
    case SymbolExpression(s) => Ok(Str(s))
    case BooleanExpression(b) => Ok(Bool(b))
    case ArrayLiteral(elements) =>
      var items :- TranslateAll(elements);
      Ok(Arr(items))
    case _ => Err(CannotTranslate(e))
  }

  /** The translations of `es` in order, or the first panic. */
  function TranslateAll(es: seq<Expr>): Result<seq<Value>, TranslateError>
    decreases es, 0
  {
    if es == [] then Ok([])
    else
      var init :- TranslateAll(es[..|es| - 1]);
      var last :- Translate(es[|es| - 1]);
      Ok(init + [last])
  }

  /** translateExpression, with the array case's loop. */
  method TranslateExpression(e: Expr) returns (r: Result<Value, TranslateError>)
    ensures r == Translate(e)
    decreases e
  {
    match e
    case BinaryExpression(left, op, right) =>
      r := TranslateBinaryExpression(left, op, right);
    case PrefixExpression(op, right) =>
      r := TranslatePrefixExpression(op, right);
    case BetweenExpression(left, lower, upper, inclusiveLower, inclusiveUpper) =>
      r := TranslateBetweenExpression(left, inclusiveLower, inclusiveUpper, lower, upper);
    case VariableExpression(name) =>
      if |name| == 0 {
        return Err(EmptyVariable);
      }
      r := Ok(Single("var", Str(name[1..])));
    case NumberExpression(n) =>
      r := Ok(Num(n));
    case StringExpression(s) =>
      r := Ok(Str(s));
    case SymbolExpression(s) =>
      r := Ok(Str(s));
    case BooleanExpression(b) =>
      r := Ok(Bool(b));
    case ArrayLiteral(es) =>
      var elements: seq<Value> := [];
      for i := 0 to |es|
        invariant TranslateAll(es[..i]) == Ok(elements)
      {
        assert es[..i + 1][..i] == es[..i];
        var element := TranslateExpression(es[i]);
        if element.Err? {
          TranslateAllFailsAt(es, i);
          return Err(element.error);
        }
        elements := elements + [element.value];
      }
      assert es[..|es|] == es;
      r := Ok(Arr(elements));
    case _ =>
      r := Err(CannotTranslate(e));
  }

  /** Once an element fails, the whole list fails with the first failure. */
  lemma {:induction false} TranslateAllFailsAt(es: seq<Expr>, i: nat)
    requires i < |es| && TranslateAll(es[..i]).Ok? && Translate(es[i]).Err?
    ensures TranslateAll(es) == Err(Translate(es[i]).error)
    decreases |es|
  {
    if i + 1 < |es| {
      assert es[..|es| - 1][..i] == es[..i];
      TranslateAllFailsAt(es[..|es| - 1], i);
    } else {
      assert es[..|es| - 1] == es[..i];
    }
  }

  /** translateBinaryExpression */
  method TranslateBinaryExpression(left: Expr, op: Token, right: Expr) returns (r: Result<Value, TranslateError>)
    ensures r == Translate(BinaryExpression(left, op, right))
    decreases BinaryExpression(left, op, right), 0
  {
    if IsComparison(op.Type) {
      var l :- TranslateExpression(left);
      var rr :- TranslateExpression(right);
      r := Ok(Single(op.Literal, Arr([l, rr])));
    } else if op.Type == AND || op.Type == OR {
      var leftExpr :- TranslateExpression(left);
      var rightExpr :- TranslateExpression(right);
      var conditions := CombineConditions(op.Literal, [leftExpr, rightExpr]);
      r := Ok(Single(op.Literal, Arr(conditions)));
    } else {
      r := Ok(Obj(map[]));
    }
  }

  /** translatePrefixExpression */
  method TranslatePrefixExpression(op: Token, right: Expr) returns (r: Result<Value, TranslateError>)
    ensures r == Translate(PrefixExpression(op, right))
    decreases PrefixExpression(op, right), 0
  {
    if op.Type == NOT {
      var rr :- TranslateExpression(right);
      r := Ok(Single("!", rr));
    } else if op.Type == NOT_NOT {
      var rr :- TranslateExpression(right);
      r := Ok(Single("!!", rr));
    } else {
      r := Ok(Obj(map[]));
    }
  }

  /** translateBetweenExpression */
  method TranslateBetweenExpression(left: Expr, inclusiveLower: bool, inclusiveUpper: bool, lower: Expr, upper: Expr)
    returns (r: Result<Value, TranslateError>)
    ensures r == Translate(BetweenExpression(left, lower, upper, inclusiveLower, inclusiveUpper))
    decreases BetweenExpression(left, lower, upper, inclusiveLower, inclusiveUpper), 0
  {
    var lowerOperator := ">";
    if inclusiveLower {
      lowerOperator := ">=";
    }
    var upperOperator := "<";
    if inclusiveUpper {
      upperOperator := "<=";
    }
    var l :- TranslateExpression(left);
    var lo :- TranslateExpression(lower);
    var again := TranslateExpression(left);
    var l' := again.value;
    var hi :- TranslateExpression(upper);
    r := Ok(Single("and", Arr([Single(lowerOperator, Arr([l, lo])), Single(upperOperator, Arr([l', hi]))])));
  }

  // ---------------------------------------------------------------------
  // TranslateToJSONLogic
  // ---------------------------------------------------------------------

  /** TranslateToJSONLogic: `{}` unless the body holds exactly one
      expression, whose translation must then be an object. */
  function ToJsonLogic(block: BlockStatement): Result<Value, TranslateError> {
    if !block.body.LineStatement? then Err(NotALineStatement)
    else if |block.body.expressions| == 1 then
      var v :- Translate(block.body.expressions[0]);
      if v.Obj? then Ok(v) else Err(NotAnObject(v))
    else Ok(Obj(map[]))
  }

  method TranslateToJSONLogic(block: BlockStatement) returns (r: Result<Value, TranslateError>)
    ensures r == ToJsonLogic(block)
  {
    if !block.body.LineStatement? {
      return Err(NotALineStatement);
    }
    var body := block.body;
    if |body.expressions| == 0 {
      return Ok(Obj(map[]));
    }
    if |body.expressions| == 1 {
      var v :- TranslateExpression(body.expressions[0]);
      if !v.Obj? {
        return Err(NotAnObject(v));
      }
      return Ok(v);
    }
    r := Ok(Obj(map[]));
  }
}
