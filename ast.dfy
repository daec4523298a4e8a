/** The syntax tree (my_lang_compiler/ast_nodes.py). The source has one class per
    node kind; here expressions, statements and the program are three closed
    datatypes, since no node of one sort ever stands where another sort is expected. */
module Ast {
  import opened Wrappers
  import Tokens

  /** Expression nodes. Leaves keep the token they were built from and the value
      copied out of it. */
  datatype Expr =
    | BinaryOp(left: Expr, op: Tokens.Token, right: Expr)
    | UnaryOp(op: Tokens.Token, expr: Expr)
    | Num(token: Tokens.Token, n: int)
    | String(token: Tokens.Token, text: string)
    | Bool(token: Tokens.Token, b: bool)
    | Var(token: Tokens.Token, name: string)

  /** Statement nodes. `VarDecl` keeps the name's `Var` node as its token and name;
      the annotation, the initializer and the else branch default to `None`. */
  datatype Stmt =
    | Block(statements: seq<Stmt>)
    | VarDecl(varToken: Tokens.Token, varName: string,
              typeAnnotation: Option<string> := None, initializer: Option<Expr> := None)
    | Assignment(left: Expr, right: Expr)
    | If(condition: Expr, thenBranch: Stmt, elseBranch: Option<Stmt> := None)
    | While(condition: Expr, body: Stmt)
    | Print(expr: Expr)
    | NoOp

  datatype Program = Program(statements: seq<Stmt>)
}
