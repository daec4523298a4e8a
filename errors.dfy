/** The exceptions the stages raise, as values. Message text is not modelled; each
    error keeps the facts its message reports. */
module Errors {
  import opened Wrappers
  import opened Tokens
  import opened Ir

  datatype LexicalErrorKind =
    /** `Lexer.error`: the offending character (`None` at end of input). */
    | InvalidCharacter(c: Option<char>)
    | UnterminatedString

  datatype SemanticErrorKind =
    | AlreadyDeclared
    | NotDeclaredBeforeAssignment
    | NotDeclared
    | InvalidAssignmentTarget

  datatype CompileError =
    /** Raised by the lexer, at the position it reports. */
    | LexicalError(kind: LexicalErrorKind, line: int, column: int)
    /** `Parser.error`: the kind `eat` expected (`None` for "unexpected token") and
        the token found instead. */
    | SyntaxError(expected: Option<TokenType>, actual: Token)
    /** Raised by the semantic analyzer for the name concerned (empty for an
        invalid assignment target). */
    | SemanticError(semantic: SemanticErrorKind, name: string)
    /** `visit_BinaryOp` on an operator token outside `op_map`. */
    | UnknownBinaryOp(opKind: TokenType)
    /** `generate` on an opcode it has no rule for. */
    | UnsupportedOpcode(op: OpCode)
}
