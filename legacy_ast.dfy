/** The syntax tree of the older pipeline (internal/parser/ast.go). Go's
    `Expression` interface is a datatype; `Nil` is the nil interface value a
    failed parse returns, and it can also sit inside a tree (the operand of
    a `!` whose primary failed, say). */
module LegacyAst {
  import opened LegacyToken

  datatype Node =
    | Nil
    | Variable(token: Token, name: string)
      /** `Value interface{}` holds a string for every literal the parser
          builds, so it is a string here. */
    | Literal(token: Token, value: string)
    | BinaryExpression(token: Token, left: Node, op: string, right: Node)
    | UnaryExpression(token: Token, op: string, right: Node)
    | ArrayLiteral(token: Token, elements: seq<Node>)
    | FunctionCall(token: Token, name: string, arguments: seq<Node>)
}
