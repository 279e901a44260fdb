/**
 * The syntax tree shared by the parser and the evaluator. It is the
 * evaluator's tree: besides what the parser builds it has logical
 * operators, postfix `++`/`--`, calls, `if` and `while`.
 */
module Ast {
  import opened Wrappers
  import opened Tokens

  datatype Expr =
    | Literal(lit: Atomic)
    | Grouping(inner: Expr)
    | Variable(name: Token)
    | Assignment(name: Token, value: Expr)
    | Binary(left: Expr, op: TokenKind, right: Expr)
    | Unary(op: TokenKind, right: Expr)
    | Logical(left: Expr, op: TokenKind, right: Expr)
    | Postfix(op: TokenKind, operand: Expr)
    | Call(callee: Expr, args: seq<Expr>)

  datatype Stmt =
    | ExpressionStatement(expr: Expr)
    | PrintStatement(expr: Expr)
    | LetStatement(name: Token, initializer: Expr)
    | BlockStatement(body: seq<Stmt>)
    | IfStatement(condition: Expr, thenBranch: Stmt, elseBranch: Option<Stmt>)
    | WhileStatement(condition: Expr, loopBody: Stmt)
}
