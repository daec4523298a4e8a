/** Token kinds and tokens (my_lang_compiler/tokens.py). */
module Tokens {
  import opened Text

  /** The closed enumeration of the 27 token kinds. */
  datatype TokenType =
    // operators
    | Plus | Minus | Mul | Div | Assign | Eq | Ne | Lt | Gt | Le | Ge
    // delimiters
    | LParen | RParen | LBrace | RBrace | Semicolon | Comma
    // keywords
    | MyIf | MyElse | MyWhile | MyVar | MyPrint
    // literal kinds and names
    | Number | String | Identifier | MyBool
    // end of input
    | Eof
  {
    /** The enum member's `name`, as the token repr shows it. */
    function Name(): string {
      match this
      case Plus => "PLUS"            case Minus => "MINUS"      case Mul => "MUL"
      case Div => "DIV"              case Assign => "ASSIGN"    case Eq => "EQ"
      case Ne => "NE"                case Lt => "LT"            case Gt => "GT"
      case Le => "LE"                case Ge => "GE"            case LParen => "LPAREN"
      case RParen => "RPAREN"        case LBrace => "LBRACE"    case RBrace => "RBRACE"
      case Semicolon => "SEMICOLON"  case Comma => "COMMA"      case MyIf => "MYIF"
      case MyElse => "MYELSE"        case MyWhile => "MYWHILE"  case MyVar => "MYVAR"
      case MyPrint => "MYPRINT"      case Number => "NUMBER"    case String => "STRING"
      case Identifier => "IDENTIFIER" case MyBool => "MYBOOL"   case Eof => "EOF"
    }
  }

  /** The payload a token can carry: nothing (`None`), an integer, a decoded string
      or lexeme, or a boolean. */
  datatype TokenValue = NoValue | IntValue(n: int) | StrValue(s: string) | BoolValue(b: bool)

  /** A token: its kind (`type` in the source), payload and 1-based position.
      Line and column default to 0, as in the source's constructor. */
  datatype Token = Token(kind: TokenType, value: TokenValue, line: int := 0, column: int := 0)

  /** The payload each kind of token carries as the lexer builds it: an integer for a
      number, a string for a string literal or a name, a boolean for a boolean literal. */
  predicate WellFormed(t: Token) {
    (t.kind.Number? ==> t.value.IntValue?) &&
    (t.kind.String? || t.kind.Identifier? ==> t.value.StrValue?) &&
    (t.kind.MyBool? ==> t.value.BoolValue?)
  }

  /** The quote `repr` chooses for a string: a double quote only when the text holds a
      single quote and no double quote. */
  function ReprQuote(s: string): char {
    if '\'' in s && '"' !in s then '"' else '\''
  }

  function HexDigit(d: nat): char
    requires d < 16
  {
    if d < 10 then DigitChar(d) else ('a' as int + d - 10) as char
  }

  /** How `repr` writes one character of a string quoted with `q` (ASCII cases). */
  function ReprChar(c: char, q: char): string {
    if c == q || c == '\\' then ['\\', c]
    else if c == '\t' then "\\t"
    else if c == '\n' then "\\n"
    else if c == '\r' then "\\r"
    else if c < ' ' || c == '\U{7f}' then "\\x" + [HexDigit(c as int / 16), HexDigit(c as int % 16)]
    else [c]
  }

  function ReprBody(s: string, q: char): string {
    if |s| == 0 then "" else ReprChar(s[0], q) + ReprBody(s[1..], q)
  }

  /** Python's `repr` of a string. */
  function StrRepr(s: string): (r: string)
    ensures |r| >= 2 && r[0] == r[|r| - 1] == ReprQuote(s)
  {
    [ReprQuote(s)] + ReprBody(s, ReprQuote(s)) + [ReprQuote(s)]
  }

  /** Python's `repr` of a token payload. */
  function ValueRepr(v: TokenValue): string {
    match v
    case NoValue => "None"
    case IntValue(n) => IntToString(n)
    case StrValue(s) => StrRepr(s)
    case BoolValue(b) => if b then "True" else "False"
  }

  /** `Token.__repr__`: `Token(NAME, repr(value), Line:l, Col:c)`. */
  function TokenRepr(t: Token): (r: string)
    ensures |r| > 6 && r[..6] == "Token(" && r[|r| - 1] == ')'
  {
    "Token(" + t.kind.Name() + ", " + ValueRepr(t.value) + ", Line:" + IntToString(t.line)
      + ", Col:" + IntToString(t.column) + ")"
  }
}
