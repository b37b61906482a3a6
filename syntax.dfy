/** The syntax tree the parser builds: one expression type and one statement type
    covering every node the parser constructs. */
module Syntax {

  import opened Wrappers
  import opened Tokens

  datatype Expr =
    | Binary(left: Expr, operator: Token, right: Expr)
    | Unary(operator: Token, right: Expr)
    | Grouping(inner: Expr)
    | Literal(literal: Literal)
    | Variable(name: Token)
    | Assign(name: Token, value: Expr)
    | Logical(left: Expr, operator: Token, right: Expr)
    | Call(callee: Expr, paren: Token, arguments: seq<Expr>)
    /** The initializer the parser supplies for `var x;`. */
    | Null

  datatype Stmt =
    | Expression(expr: Expr)
    | Print(expr: Expr)
    | Var(name: Token, initializer: Expr)
    | Block(statements: seq<Stmt>)
    | If(condition: Expr, thenBranch: Stmt, elseBranch: Option<Stmt>)
    | While(condition: Expr, body: Stmt)
    | Func(name: Token, parameters: seq<Token>, statements: seq<Stmt>)
}
