/** The older pipeline's translation of a tree to JSONLogic
    (internal/parser/jsonlogic.go). `JsonLogicOf` is the case analysis;
    the methods are Go's functions, the array and argument loops filling a
    freshly made array by index, and each is proved to compute it. */
module LegacyTransform {
  import opened Results
  import opened Json
  import opened LegacyToken
  import opened LegacyAst

  /** The errors Transform returns, and the panic of `v.Name[1:]` on an
      empty name. */
  datatype TransformError =
    | NilNode                          // "cannot transform nil node"
    | UnsupportedOperator(op: string)  // "unsupported binary operator: %s"
    | UnsupportedFunction(name: string)
    | EmptyVariableName

  /** The JSONLogic key of a binary operator's spelling, as written in the
      source: keywords only in capitals, and `=`, `==` and `===` alike. */
  function BinaryKey(op: string): Result<string, TransformError> {
    match op
    case "AND" => Ok("and")
    case "OR" => Ok("or")
    case "=" => Ok("==")
    case "==" => Ok("==")
    case "===" => Ok("==")
    case "!=" => Ok("!=")
    case "!==" => Ok("!=")
    case ">" => Ok(">")
    case "<" => Ok("<")
    case ">=" => Ok(">=")
    case "<=" => Ok("<=")
    case "IN" => Ok("in")
    case _ => Err(UnsupportedOperator(op))
  }

  /** transformLiteral: a NUMBER token's text as a float when it parses as
      one, and otherwise the literal's value as it is. */
  function LiteralValue(token: Token, value: string): Value {
    if token.Type == NUMBER && ParseFloat(value).Some? then Num(ParseFloat(value).value)
    else Str(value)
  }

  /** Transform: operands before the operator check, elements and
      arguments in order, the first error ending the translation. */
  function JsonLogicOf(node: Node): Result<Value, TransformError>
    decreases node, 1
  {
    match node
    case Nil => Err(NilNode)
    case BinaryExpression(_, left, op, right) =>
      var l :- JsonLogicOf(left);
      var r :- JsonLogicOf(right);
      var key :- BinaryKey(op);
      Ok(Single(key, Arr([l, r])))
    case UnaryExpression(_, _, right) =>
      var r :- JsonLogicOf(right);
      Ok(Single("!", Arr([r])))
    case Variable(_, name) =>
      if |name| == 0 then Err(EmptyVariableName) else Ok(Single("var", Str(name[1..])))
    case Literal(token, value) => Ok(LiteralValue(token, value))
    case ArrayLiteral(_, elements) =>
      var items :- JsonLogicOfAll(elements);
      Ok(Arr(items))
    case FunctionCall(_, name, arguments) =>
      var args :- JsonLogicOfAll(arguments);
      if name == "LOG" then Ok(Single("log", Arr(args))) else Err(UnsupportedFunction(name))
  }

  /** The translations of `nodes` in order, or the first error. */
  function JsonLogicOfAll(nodes: seq<Node>): Result<seq<Value>, TransformError>
    decreases nodes, 0
  {
    if nodes == [] then Ok([])
    else
      var init :- JsonLogicOfAll(nodes[..|nodes| - 1]);
      var last :- JsonLogicOf(nodes[|nodes| - 1]);
      Ok(init + [last])
  }

  /** Once an element fails, the whole list fails with its error. */
  lemma {:induction false} JsonLogicOfAllFailsAt(nodes: seq<Node>, i: nat)
    requires i < |nodes| && JsonLogicOfAll(nodes[..i]).Ok? && JsonLogicOf(nodes[i]).Err?
    ensures JsonLogicOfAll(nodes) == Err(JsonLogicOf(nodes[i]).error)
    decreases |nodes|
  {
    if i + 1 < |nodes| {
      assert nodes[..|nodes| - 1][..i] == nodes[..i];
      JsonLogicOfAllFailsAt(nodes[..|nodes| - 1], i);
    } else {
      assert nodes[..|nodes| - 1] == nodes[..i];
    }
  }

  /** Transform */
  method Transform(node: Node) returns (r: Result<Value, TransformError>)
    ensures r == JsonLogicOf(node)
    decreases node, 1
  {
    match node {
      case Nil => r := Err(NilNode);
      case BinaryExpression(token, left, op, right) => r := transformBinaryExpression(token, left, op, right);
      case UnaryExpression(token, op, right) => r := transformUnaryExpression(token, op, right);
      case Variable(token, name) => r := transformVariable(name);
      case Literal(token, value) =>
        var v := transformLiteral(token, value);
        r := Ok(v);
      case ArrayLiteral(token, elements) => r := transformArrayLiteral(token, elements);
      case FunctionCall(token, name, arguments) => r := transformFunctionCall(token, name, arguments);
    }
  }

  /** transformBinaryExpression */
  method transformBinaryExpression(token: Token, left: Node, op: string, right: Node)
    returns (r: Result<Value, TransformError>)
    ensures r == JsonLogicOf(BinaryExpression(token, left, op, right))
    decreases BinaryExpression(token, left, op, right), 0
  {
    var l :- Transform(left);
    var rr :- Transform(right);
    var key :- BinaryKey(op);
    r := Ok(Single(key, Arr([l, rr])));
  }

  /** transformUnaryExpression: `!` and `NOT` alike, the operand wrapped in
      an array. */
  method transformUnaryExpression(token: Token, op: string, right: Node)
    returns (r: Result<Value, TransformError>)
    ensures r == JsonLogicOf(UnaryExpression(token, op, right))
    decreases UnaryExpression(token, op, right), 0
  {
    var rr :- Transform(right);
    r := Ok(Single("!", Arr([rr])));
  }

  /** transformVariable: the name without its first byte. */
  method transformVariable(name: string) returns (r: Result<Value, TransformError>)
    ensures |name| == 0 ==> r == Err(EmptyVariableName)
    ensures |name| > 0 ==> r == Ok(Single("var", Str(name[1..])))
  {
    if |name| == 0 {
      return Err(EmptyVariableName);
    }
    r := Ok(Single("var", Str(name[1..])));
  }

  /** transformLiteral */
  method transformLiteral(token: Token, value: string) returns (v: Value)
    ensures v == LiteralValue(token, value)
  {
    if token.Type == NUMBER {
      var num := ParseFloat(value);
      if num.Some? {
        return Num(num.value);
      }
    }
    return Str(value);
  }

  /** transformArrayLiteral */
  method transformArrayLiteral(token: Token, elements: seq<Node>) returns (r: Result<Value, TransformError>)
    ensures r == JsonLogicOf(ArrayLiteral(token, elements))
    decreases ArrayLiteral(token, elements), 0
  {
    var out := new Value[|elements|](_ => Null);
    for i := 0 to |elements|
      invariant JsonLogicOfAll(elements[..i]) == Ok(out[..i])
    {
      assert elements[..i + 1][..i] == elements[..i];
      var transformed := Transform(elements[i]);
      if transformed.Err? {
        JsonLogicOfAllFailsAt(elements, i);
        return Err(transformed.error);
      }
      out[i] := transformed.value;
      assert out[..i + 1] == out[..i] + [transformed.value];
    }
    assert elements[..|elements|] == elements;
    assert out[..|elements|] == out[..];
    r := Ok(Arr(out[..]));
  }

  /** transformFunctionCall: the arguments first, then the name, which
      must be `LOG` exactly. */
  method transformFunctionCall(token: Token, name: string, arguments: seq<Node>) returns (r: Result<Value, TransformError>)
    ensures r == JsonLogicOf(FunctionCall(token, name, arguments))
    decreases FunctionCall(token, name, arguments), 0
  {
    var args := new Value[|arguments|](_ => Null);
    for i := 0 to |arguments|
      invariant JsonLogicOfAll(arguments[..i]) == Ok(args[..i])
    {
      assert arguments[..i + 1][..i] == arguments[..i];
      var transformed := Transform(arguments[i]);
      if transformed.Err? {
        JsonLogicOfAllFailsAt(arguments, i);
        return Err(transformed.error);
      }
      args[i] := transformed.value;
      assert args[..i + 1] == args[..i] + [transformed.value];
    }
    assert arguments[..|arguments|] == arguments;
    assert args[..|arguments|] == args[..];
    if name == "LOG" {
      return Ok(Single("log", Arr(args[..])));
    }
    r := Err(UnsupportedFunction(name));
  }
}
