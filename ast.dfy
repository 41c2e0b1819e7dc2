/** The syntax tree the primary parser builds and the translator reads
    (internal/ast/expressions.go, internal/ast/statements.go). Go's
    `ast.Expression` interface becomes one datatype; a nil interface value
    is the constructor `Nil`. */
module Ast {
  import opened Tokens
  import opened Json

  datatype Expr =
    | Nil
    | NumberExpression(number: Float64)
    | StringExpression(value: string)
    | SymbolExpression(value: string)
    | VariableExpression(value: string)
    | BooleanExpression(truth: bool)
    | BinaryExpression(left: Expr, op: Token, right: Expr)
    | PrefixExpression(op: Token, right: Expr)
    | AssignmentExpression(assignee: Expr, op: Token, assignedValue: Expr)
    | ArrayLiteral(elements: seq<Expr>)
    | IfExpression(branches: seq<IfBranch>, elseBranch: Expr)
      /** `Range` is the pair (lower, upper); `Inclusive` the pair of flags. */
    | BetweenExpression(left: Expr, lower: Expr, upper: Expr, inclusiveLower: bool, inclusiveUpper: bool)

  datatype IfBranch = IfBranch(condition: Expr, consequent: Expr)

  datatype Statement =
    | ExpressionStatement(expression: Expr)
    | VarDeclarationStatement(identifier: string, isConstant: bool, assignedValue: Expr)
    | LineStatement(expressions: seq<Expr>)

  datatype BlockStatement = BlockStatement(body: Statement)
}
