/** The recursive-descent parser (my_lang_compiler/parser.py): one token of
    lookahead, pulled from the lexer only when a token is eaten.

    The grammar rules are first written as functions over a cursor (the current
    token and the lexer position after it) and an `Input`, the lexer as the parser
    sees it; the `Parser` class then runs the source's loops and mutual recursion
    and is proved to compute exactly those functions. */
module Parsing {
  import opened Wrappers
  import opened Tokens
  import opened Errors
  import opened Ast
  import opened Lexing

  /** The lexer as a token supplier: from a position, the next token and the
      position after it (or the lexical error met there), and the end of the text. */
  datatype Input = Input(next: nat -> Scan, end: nat) {
    /** Every token carries the payload of its kind, and a token other than EOF
        lies strictly after the position it was pulled from and within the text. */
    ghost predicate Valid() {
      forall p: nat :: Fits(p, next(p), end)
    }
  }

  predicate Fits(p: nat, s: Scan, end: nat) {
    s.Ok? ==> WellFormed(s.value.0) && (!s.value.0.kind.Eof? ==> p < s.value.1 <= end)
  }

  /** The lexer over a text: `get_next_token` from each position. */
  function LexerInput(source: string): Input {
    Input((p: nat) => NextToken(source, p), |source|)
  }

  lemma LexerInputValid(source: string)
    ensures LexerInput(source).Valid()
  {
    forall p: nat
      ensures Fits(p, LexerInput(source).next(p), |source|)
    {
      assert LexerInput(source).next(p) == NextToken(source, p);
    }
  }

  /** `input` pulls exactly the tokens the lexer scans from `source`. */
  ghost predicate Feeds(input: Input, source: string) {
    input.end == |source| && forall p: nat {:trigger NextToken(source, p)} :: input.next(p) == NextToken(source, p)
  }

  /** The parser's state: `current_token` and the lexer position just after it. */
  datatype Cursor = Cursor(tok: Token, pos: nat)

  /** What holds of every cursor the parser reaches. */
  predicate At(input: Input, c: Cursor) {
    WellFormed(c.tok) && (!c.tok.kind.Eof? ==> c.pos <= input.end)
  }

  /** Tokens still to be eaten, bounded by the text left plus the current token. */
  function Rank(input: Input, c: Cursor): nat {
    if c.tok.kind.Eof? || c.pos > input.end then 0 else input.end - c.pos + 1
  }

  /** A parsed node and the cursor after it. */
  type Parsed<T> = Result<(T, Cursor), CompileError>

  /** Pulling a token from `pos`, as `get_next_token` does. */
  function Pull(input: Input, pos: nat): (r: Result<Cursor, CompileError>)
    requires input.Valid()
    ensures r.Ok? ==> At(input, r.value) && (!r.value.tok.kind.Eof? ==> pos < r.value.pos)
  {
    assert Fits(pos, input.next(pos), input.end);
    match input.next(pos)
    case Err(e) => Err(e)
    case Ok((t, p)) => Ok(Cursor(t, p))
  }

  /** `eat`: the expected kind moves on by exactly one token; any other kind is a
      syntax error naming the expected kind and the token found. */
  function EatRule(input: Input, c: Cursor, k: TokenType): (r: Result<Cursor, CompileError>)
    requires input.Valid() && At(input, c)
    ensures r.Ok? ==> c.tok.kind == k && At(input, r.value) && (!k.Eof? ==> Rank(input, r.value) < Rank(input, c))
  {
    if c.tok.kind == k then Pull(input, c.pos) else Err(SyntaxError(Some(k), c.tok))
  }

  /** The operators of one tier. */
  predicate MulOp(k: TokenType) { k.Mul? || k.Div? }

  predicate AddOp(k: TokenType) { k.Plus? || k.Minus? || k.Eq? || k.Ne? || k.Lt? || k.Gt? || k.Le? || k.Ge? }

  /** The kinds `factor` accepts. */
  predicate StartsFactor(k: TokenType) {
    k.Plus? || k.Minus? || k.Number? || k.String? || k.MyBool? || k.LParen? || k.Identifier?
  }

  /** What every parsed expression satisfies: each leaf's value is the payload of
      its token, as the node constructors copy it, and each operator token is one the
      grammar accepts in its position. */
  predicate Formed(e: Expr) {
    match e
    case BinaryOp(l, op, r) => (MulOp(op.kind) || AddOp(op.kind)) && Formed(l) && Formed(r)
    case UnaryOp(op, x) => (op.kind.Plus? || op.kind.Minus?) && Formed(x)
    case Num(t, v) => t.value == IntValue(v)
    case String(t, v) => t.value == StrValue(v)
    case Bool(t, v) => t.value == BoolValue(v)
    case Var(t, v) => t.value == StrValue(v)
  }

  /** `factor`: a signed factor, a literal, a name or a parenthesised `expr`. */
  function FactorRule(input: Input, c: Cursor): (r: Parsed<Expr>)
    requires input.Valid() && At(input, c)
    ensures r.Ok? ==> At(input, r.value.1) && Rank(input, r.value.1) < Rank(input, c) && Formed(r.value.0)
    ensures !StartsFactor(c.tok.kind) ==> r == Err(SyntaxError(None, c.tok))
    decreases Rank(input, c), 0
  {
    var t := c.tok;
    if t.kind.Plus? || t.kind.Minus? then
      var c1 :- EatRule(input, c, t.kind);
      var f :- FactorRule(input, c1);
      Ok((UnaryOp(t, f.0), f.1))
    else if t.kind.Number? then
      var c1 :- EatRule(input, c, Number);
      Ok((Num(t, t.value.n), c1))
    else if t.kind.String? then
      var c1 :- EatRule(input, c, TokenType.String);
      Ok((Expr.String(t, t.value.s), c1))
    else if t.kind.MyBool? then
      var c1 :- EatRule(input, c, MyBool);
      Ok((Bool(t, t.value.b), c1))
    else if t.kind.LParen? then
      var c1 :- EatRule(input, c, LParen);
      var e :- ExprRule(input, c1);
      var c2 :- EatRule(input, e.1, RParen);
      Ok((e.0, c2))
    else if t.kind.Identifier? then
      var c1 :- EatRule(input, c, Identifier);
      Ok((Var(t, t.value.s), c1))
    else
      Err(SyntaxError(None, t))
  }

  /** `term`: factors joined by `*` and `/`, grouped to the left. */
  function TermRule(input: Input, c: Cursor): (r: Parsed<Expr>)
    requires input.Valid() && At(input, c)
    ensures r.Ok? ==> At(input, r.value.1) && Rank(input, r.value.1) < Rank(input, c) && Formed(r.value.0)
    decreases Rank(input, c), 1
  {
    var f :- FactorRule(input, c);
    TermTail(input, f.0, f.1)
  }

  /** The loop of `term` once `node` is built: each `*` or `/` makes `node` the
      left operand of the next factor. */
  function TermTail(input: Input, node: Expr, c: Cursor): (r: Parsed<Expr>)
    requires input.Valid() && At(input, c) && Formed(node)
    ensures r.Ok? ==> At(input, r.value.1) && Rank(input, r.value.1) <= Rank(input, c) && Formed(r.value.0)
    ensures r.Ok? ==> !MulOp(r.value.1.tok.kind)
    ensures !MulOp(c.tok.kind) ==> r == Ok((node, c))
    decreases Rank(input, c), 1
  {
    if MulOp(c.tok.kind) then
      var t := c.tok;
      var c1 :- EatRule(input, c, t.kind);
      var f :- FactorRule(input, c1);
      TermTail(input, BinaryOp(node, t, f.0), f.1)
    else
      Ok((node, c))
  }

  /** `expr`: terms joined by `+`, `-` and the six comparisons, all at one tier and
      grouped to the left. */
  function ExprRule(input: Input, c: Cursor): (r: Parsed<Expr>)
    requires input.Valid() && At(input, c)
    ensures r.Ok? ==> At(input, r.value.1) && Rank(input, r.value.1) < Rank(input, c) && Formed(r.value.0)
    decreases Rank(input, c), 2
  {
    var t :- TermRule(input, c);
    ExprTail(input, t.0, t.1)
  }

  function ExprTail(input: Input, node: Expr, c: Cursor): (r: Parsed<Expr>)
    requires input.Valid() && At(input, c) && Formed(node)
    ensures r.Ok? ==> At(input, r.value.1) && Rank(input, r.value.1) <= Rank(input, c) && Formed(r.value.0)
    ensures r.Ok? ==> !AddOp(r.value.1.tok.kind)
    ensures !AddOp(c.tok.kind) ==> r == Ok((node, c))
    decreases Rank(input, c), 2
  {
    if AddOp(c.tok.kind) then
      var t := c.tok;
      var c1 :- EatRule(input, c, t.kind);
      var r :- TermRule(input, c1);
      ExprTail(input, BinaryOp(node, t, r.0), r.1)
    else
      Ok((node, c))
  }

  /** What every parsed statement satisfies: its expressions are `Formed`, a
      declaration's name token carries the name and no type annotation, and an
      assignment's target is a name. */
  predicate Built(s: Stmt) {
    match s
    case Block(ss) => forall k :: 0 <= k < |ss| ==> Built(ss[k])
    case VarDecl(t, x, a, init) => t.value == StrValue(x) && a.None? && (init.Some? ==> Formed(init.value))
    case Assignment(l, r) => l.Var? && Formed(l) && Formed(r)
    case If(c, th, el) => Formed(c) && Built(th) && (el.Some? ==> Built(el.value))
    case While(c, b) => Formed(c) && Built(b)
    case Print(e) => Formed(e)
    case NoOp => true
  }

  /** The kinds `statement` dispatches on. */
  predicate StartsStatement(k: TokenType) {
    k.LBrace? || k.MyVar? || k.Identifier? || k.MyPrint? || k.MyIf? || k.MyWhile? || k.Semicolon?
  }

  /** `statement`: dispatch on the current token. */
  function StatementRule(input: Input, c: Cursor): (r: Parsed<Stmt>)
    requires input.Valid() && At(input, c)
    ensures r.Ok? ==> At(input, r.value.1) && Rank(input, r.value.1) < Rank(input, c) && Built(r.value.0)
    ensures !StartsStatement(c.tok.kind) ==> r == Err(SyntaxError(None, c.tok))
    decreases Rank(input, c), 1
  {
    var k := c.tok.kind;
    if k.LBrace? then BlockRule(input, c)
    else if k.MyVar? then VarDeclRule(input, c)
    else if k.Identifier? then AssignmentRule(input, c)
    else if k.MyPrint? then PrintRule(input, c)
    else if k.MyIf? then IfRule(input, c)
    else if k.MyWhile? then WhileRule(input, c)
    else if k.Semicolon? then
      var c1 :- EatRule(input, c, Semicolon);
      Ok((NoOp, c1))
    else Err(SyntaxError(None, c.tok))
  }

  /** `variable_declaration`: `myvar NAME ;` or `myvar NAME = expr ;`, never with a
      type annotation. */
  function VarDeclRule(input: Input, c: Cursor): (r: Parsed<Stmt>)
    requires input.Valid() && At(input, c)
    ensures r.Ok? ==> At(input, r.value.1) && Rank(input, r.value.1) < Rank(input, c) && Built(r.value.0)
    decreases Rank(input, c), 0
  {
    var c1 :- EatRule(input, c, MyVar);
    var name := c1.tok;
    var c2 :- EatRule(input, c1, Identifier);
    if c2.tok.kind.Assign? then
      var c3 :- EatRule(input, c2, Assign);
      var e :- ExprRule(input, c3);
      var c4 :- EatRule(input, e.1, Semicolon);
      Ok((VarDecl(name, name.value.s, None, Some(e.0)), c4))
    else
      var c3 :- EatRule(input, c2, Semicolon);
      Ok((VarDecl(name, name.value.s, None, None), c3))
  }

  /** `assignment_statement`: exactly `NAME = expr ;`. */
  function AssignmentRule(input: Input, c: Cursor): (r: Parsed<Stmt>)
    requires input.Valid() && At(input, c)
    ensures r.Ok? ==> At(input, r.value.1) && Rank(input, r.value.1) < Rank(input, c) && Built(r.value.0)
    ensures r.Ok? ==> c.tok.kind.Identifier? && r.value.0.Assignment? && r.value.0.left == Var(c.tok, c.tok.value.s)
    decreases Rank(input, c), 0
  {
    var name := c.tok;
    var c1 :- EatRule(input, c, Identifier);
    var c2 :- EatRule(input, c1, Assign);
    var e :- ExprRule(input, c2);
    var c3 :- EatRule(input, e.1, Semicolon);
    Ok((Assignment(Var(name, name.value.s), e.0), c3))
  }

  /** `print_statement`: `myprint ( expr ) ;`. */
  function PrintRule(input: Input, c: Cursor): (r: Parsed<Stmt>)
    requires input.Valid() && At(input, c)
    ensures r.Ok? ==> At(input, r.value.1) && Rank(input, r.value.1) < Rank(input, c) && Built(r.value.0)
    decreases Rank(input, c), 0
  {
    var c1 :- EatRule(input, c, MyPrint);
    var c2 :- EatRule(input, c1, LParen);
    var e :- ExprRule(input, c2);
    var c3 :- EatRule(input, e.1, RParen);
    var c4 :- EatRule(input, c3, Semicolon);
    Ok((Print(e.0), c4))
  }

  /** `block`: `{`, statements up to `}` or EOF, then `}`. */
  function BlockRule(input: Input, c: Cursor): (r: Parsed<Stmt>)
    requires input.Valid() && At(input, c)
    ensures r.Ok? ==> At(input, r.value.1) && Rank(input, r.value.1) < Rank(input, c) && Built(r.value.0)
    decreases Rank(input, c), 0
  {
    var c1 :- EatRule(input, c, LBrace);
    var ss :- StatementsRule(input, c1, true, []);
    var c2 :- EatRule(input, ss.1, RBrace);
    Ok((Block(ss.0), c2))
  }

  /** The loop of `block` (`inBlock`) and of `program`: statements are appended
      to `done` until EOF, or also `}` in a block. */
  function StatementsRule(input: Input, c: Cursor, inBlock: bool, done: seq<Stmt>): (r: Parsed<seq<Stmt>>)
    requires input.Valid() && At(input, c)
    requires forall k :: 0 <= k < |done| ==> Built(done[k])
    ensures r.Ok? ==> At(input, r.value.1) && Rank(input, r.value.1) <= Rank(input, c)
    ensures r.Ok? ==> forall k :: 0 <= k < |r.value.0| ==> Built(r.value.0[k])
    ensures r.Ok? ==> |done| <= |r.value.0| && r.value.0[..|done|] == done
    ensures r.Ok? ==> r.value.1.tok.kind.Eof? || (inBlock && r.value.1.tok.kind.RBrace?)
    decreases Rank(input, c), 2
  {
    if c.tok.kind.Eof? || (inBlock && c.tok.kind.RBrace?) then
      assert done[..|done|] == done;
      Ok((done, c))
    else
      var s :- StatementRule(input, c);
      var r := StatementsRule(input, s.1, inBlock, done + [s.0]);
      if r.Ok? then
        assert r.value.0[..|done|] == (r.value.0[..|done| + 1])[..|done|];
        r
      else r
  }

  /** `if_statement`: the then-branch is a full statement, so a `myelse` after it
      belongs to the innermost `myif` still open. */
  function IfRule(input: Input, c: Cursor): (r: Parsed<Stmt>)
    requires input.Valid() && At(input, c)
    ensures r.Ok? ==> At(input, r.value.1) && Rank(input, r.value.1) < Rank(input, c) && Built(r.value.0)
    decreases Rank(input, c), 0
  {
    var c1 :- EatRule(input, c, MyIf);
    var c2 :- EatRule(input, c1, LParen);
    var cond :- ExprRule(input, c2);
    var c3 :- EatRule(input, cond.1, RParen);
    var th :- StatementRule(input, c3);
    var el :- ElseRule(input, th.1);
    Ok((If(cond.0, th.0, el.0), el.1))
  }

  /** The optional `myelse statement` of `if_statement`: taken exactly when the
      current token is `myelse`. */
  function ElseRule(input: Input, c: Cursor): (r: Parsed<Option<Stmt>>)
    requires input.Valid() && At(input, c)
    ensures r.Ok? ==> At(input, r.value.1) && Rank(input, r.value.1) <= Rank(input, c)
    ensures r.Ok? && r.value.0.Some? ==> Built(r.value.0.value)
    ensures !c.tok.kind.MyElse? ==> r == Ok((None, c))
    decreases Rank(input, c), 0
  {
    if c.tok.kind.MyElse? then
      var c4 :- EatRule(input, c, MyElse);
      var el :- StatementRule(input, c4);
      Ok((Some(el.0), el.1))
    else
      Ok((None, c))
  }

  /** `while_statement`: `mywhile ( expr ) statement`. */
  function WhileRule(input: Input, c: Cursor): (r: Parsed<Stmt>)
    requires input.Valid() && At(input, c)
    ensures r.Ok? ==> At(input, r.value.1) && Rank(input, r.value.1) < Rank(input, c) && Built(r.value.0)
    decreases Rank(input, c), 0
  {
    var c1 :- EatRule(input, c, MyWhile);
    var c2 :- EatRule(input, c1, LParen);
    var cond :- ExprRule(input, c2);
    var c3 :- EatRule(input, cond.1, RParen);
    var body :- StatementRule(input, c3);
    Ok((While(cond.0, body.0), body.1))
  }

  /** `program`: statements until EOF. */
  function ProgramRule(input: Input, c: Cursor): (r: Parsed<Program>)
    requires input.Valid() && At(input, c)
    ensures r.Ok? ==> r.value.1.tok.kind.Eof? && forall k :: 0 <= k < |r.value.0.statements| ==> Built(r.value.0.statements[k])
  {
    var ss :- StatementsRule(input, c, false, []);
    Ok((Program(ss.0), ss.1))
  }

  /** `Parser(lexer).parse()`: pull the first token, then parse a program. */
  function ParseInput(input: Input): (r: Result<Program, CompileError>)
    requires input.Valid()
    ensures r.Ok? ==> forall k :: 0 <= k < |r.value.statements| ==> Built(r.value.statements[k])
  {
    var c :- Pull(input, 0);
    var p :- ProgramRule(input, c);
    Ok(p.0)
  }

  /** Parsing a whole text, the lexer pulled one token at a time. */
  function ParseSource(source: string): (r: Result<Program, CompileError>)
    ensures r.Ok? ==> forall k :: 0 <= k < |r.value.statements| ==> Built(r.value.statements[k])
  {
    LexerInputValid(source);
    ParseInput(LexerInput(source))
  }

  /** A node and the state after it, or the error alone: what a parsing method
      leaves behind, to compare with the rule it follows. */
  function Outcome<T>(r: Result<T, CompileError>, c: Cursor): Parsed<T> {
    match r
    case Ok(v) => Ok((v, c))
    case Err(e) => Err(e)
  }

  /** The parser object: the lexer it pulls from and the current token. */
  class Parser {
    const lexer: Lexer
    ghost const input: Input
    var currentToken: Token

    function Here(): Cursor
      reads this, lexer
    {
      Cursor(currentToken, lexer.pos)
    }

    ghost predicate Valid()
      reads this, lexer
    {
      lexer.Valid() && input.Valid() && Feeds(input, lexer.source) && At(input, Here())
    }

    constructor (source: Lexer, first: Token)
      requires source.Valid() && At(LexerInput(source.source), Cursor(first, source.pos))
      ensures Valid() && lexer == source && input == LexerInput(source.source) && currentToken == first
    {
      lexer := source;
      input := LexerInput(source.source);
      currentToken := first;
      new;
      LexerInputValid(source.source);
    }

    /** `Parser(lexer)`: pulls the first token. */
    static method Open(source: Lexer) returns (r: Result<Parser, CompileError>)
      requires source.Valid()
      modifies source
      ensures r.Ok? ==> fresh(r.value) && r.value.Valid() && r.value.lexer == source
      ensures r.Ok? ==> r.value.input == LexerInput(source.source)
      ensures Pull(LexerInput(source.source), old(source.pos)).Ok? <==> r.Ok?
      ensures r.Ok? ==> r.value.Here() == Pull(LexerInput(source.source), old(source.pos)).value
      ensures r.Err? ==> r.error == Pull(LexerInput(source.source), old(source.pos)).error
    {
      LexerInputValid(source.source);
      var t := source.GetNextToken();
      if t.Err? {
        return Err(t.error);
      }
      var p := new Parser(source, t.value);
      return Ok(p);
    }

    /** `eat`. */
    method Eat(k: TokenType) returns (r: Result<(), CompileError>)
      requires Valid()
      modifies this, lexer
      ensures lexer.Valid()
      ensures r.Ok? <==> EatRule(input, old(Here()), k).Ok?
      ensures r.Ok? ==> Valid() && Here() == EatRule(input, old(Here()), k).value
      ensures r.Err? ==> r.error == EatRule(input, old(Here()), k).error
    {
      if currentToken.kind == k {
        var t := lexer.GetNextToken();
        if t.Err? {
          return Err(t.error);
        }
        currentToken := t.value;
        return Ok(());
      }
      return Err(SyntaxError(Some(k), currentToken));
    }

    /** `factor`. */
    method Factor() returns (r: Result<Expr, CompileError>)
      requires Valid()
      modifies this, lexer
      ensures lexer.Valid() && (r.Ok? ==> Valid())
      ensures Outcome(r, Here()) == FactorRule(input, old(Here()))
      decreases Rank(input, Here()), 0
    {
      var token := currentToken;
      if token.kind.Plus? || token.kind.Minus? {
        var u :- Eat(token.kind);
        var f :- Factor();
        return Ok(UnaryOp(token, f));
      } else if token.kind.Number? {
        var u :- Eat(Number);
        return Ok(Num(token, token.value.n));
      } else if token.kind.String? {
        var u :- Eat(TokenType.String);
        return Ok(Expr.String(token, token.value.s));
      } else if token.kind.MyBool? {
        var u :- Eat(MyBool);
        return Ok(Bool(token, token.value.b));
      } else if token.kind.LParen? {
        var u :- Eat(LParen);
        var node :- Expression();
        u :- Eat(RParen);
        return Ok(node);
      } else if token.kind.Identifier? {
        var u :- Eat(Identifier);
        return Ok(Var(token, token.value.s));
      }
      return Err(SyntaxError(None, token));
    }

    /** `term`. */
    method Term() returns (r: Result<Expr, CompileError>)
      requires Valid()
      modifies this, lexer
      ensures lexer.Valid() && (r.Ok? ==> Valid())
      ensures Outcome(r, Here()) == TermRule(input, old(Here()))
      decreases Rank(input, Here()), 1
    {
      var node :- Factor();
      while MulOp(currentToken.kind)
        invariant Valid() && Formed(node)
        invariant Rank(input, Here()) < Rank(input, old(Here()))
        invariant TermRule(input, old(Here())) == TermTail(input, node, Here())
        decreases Rank(input, Here())
      {
        var token := currentToken;
        var u :- Eat(token.kind);
        var right :- Factor();
        node := BinaryOp(node, token, right);
      }
      return Ok(node);
    }

    /** `expr`. */
    method Expression() returns (r: Result<Expr, CompileError>)
      requires Valid()
      modifies this, lexer
      ensures lexer.Valid() && (r.Ok? ==> Valid())
      ensures Outcome(r, Here()) == ExprRule(input, old(Here()))
      decreases Rank(input, Here()), 2
    {
      var node :- Term();
      while AddOp(currentToken.kind)
        invariant Valid() && Formed(node)
        invariant Rank(input, Here()) < Rank(input, old(Here()))
        invariant ExprRule(input, old(Here())) == ExprTail(input, node, Here())
        decreases Rank(input, Here())
      {
        var token := currentToken;
        var u :- Eat(token.kind);
        var right :- Term();
        node := BinaryOp(node, token, right);
      }
      return Ok(node);
    }

    /** `variable_declaration`. */
    method VariableDeclaration() returns (r: Result<Stmt, CompileError>)
      requires Valid()
      modifies this, lexer
      ensures lexer.Valid() && (r.Ok? ==> Valid())
      ensures Outcome(r, Here()) == VarDeclRule(input, old(Here()))
      decreases Rank(input, Here()), 0
    {
      var u :- Eat(MyVar);
      var name := currentToken;
      u :- Eat(Identifier);
      var initializer := None;
      if currentToken.kind.Assign? {
        u :- Eat(Assign);
        var e :- Expression();
        initializer := Some(e);
      }
      u :- Eat(Semicolon);
      return Ok(VarDecl(name, name.value.s, None, initializer));
    }

    /** `assignment_statement`. */
    method AssignmentStatement() returns (r: Result<Stmt, CompileError>)
      requires Valid()
      modifies this, lexer
      ensures lexer.Valid() && (r.Ok? ==> Valid())
      ensures Outcome(r, Here()) == AssignmentRule(input, old(Here()))
      decreases Rank(input, Here()), 0
    {
      var name := currentToken;
      var u :- Eat(Identifier);
      u :- Eat(Assign);
      var right :- Expression();
      u :- Eat(Semicolon);
      return Ok(Assignment(Var(name, name.value.s), right));
    }

    /** `print_statement`. */
    method PrintStatement() returns (r: Result<Stmt, CompileError>)
      requires Valid()
      modifies this, lexer
      ensures lexer.Valid() && (r.Ok? ==> Valid())
      ensures Outcome(r, Here()) == PrintRule(input, old(Here()))
      decreases Rank(input, Here()), 0
    {
      var u :- Eat(MyPrint);
      u :- Eat(LParen);
      var e :- Expression();
      u :- Eat(RParen);
      u :- Eat(Semicolon);
      return Ok(Print(e));
    }

    /** `block`. */
    method BlockStatement() returns (r: Result<Stmt, CompileError>)
      requires Valid()
      modifies this, lexer
      ensures lexer.Valid() && (r.Ok? ==> Valid())
      ensures Outcome(r, Here()) == BlockRule(input, old(Here()))
      decreases Rank(input, Here()), 0
    {
      var u :- Eat(LBrace);
      ghost var inside := Here();
      var statements := [];
      while !currentToken.kind.RBrace? && !currentToken.kind.Eof?
        invariant Valid() && forall k :: 0 <= k < |statements| ==> Built(statements[k])
        invariant Rank(input, Here()) < Rank(input, old(Here()))
        invariant StatementsRule(input, inside, true, []) == StatementsRule(input, Here(), true, statements)
        decreases Rank(input, Here())
      {
        var s :- Statement();
        statements := statements + [s];
      }
      u :- Eat(RBrace);
      return Ok(Block(statements));
    }

    /** `if_statement`. */
    method IfStatement() returns (r: Result<Stmt, CompileError>)
      requires Valid()
      modifies this, lexer
      ensures lexer.Valid() && (r.Ok? ==> Valid())
      ensures Outcome(r, Here()) == IfRule(input, old(Here()))
      decreases Rank(input, Here()), 0
    {
      var u :- Eat(MyIf);
      u :- Eat(LParen);
      var condition :- Expression();
      u :- Eat(RParen);
      var thenBranch :- Statement();
      var elseBranch :- ElseBranch();
      return Ok(If(condition, thenBranch, elseBranch));
    }

    /** The end of `if_statement`: `myelse` and a statement, when the current token
        is `myelse`. */
    method ElseBranch() returns (r: Result<Option<Stmt>, CompileError>)
      requires Valid()
      modifies this, lexer
      ensures lexer.Valid() && (r.Ok? ==> Valid())
      ensures Outcome(r, Here()) == ElseRule(input, old(Here()))
      decreases Rank(input, Here()), 0
    {
      if currentToken.kind.MyElse? {
        var u :- Eat(MyElse);
        var s :- Statement();
        return Ok(Some(s));
      }
      return Ok(None);
    }

    /** `while_statement`. */
    method WhileStatement() returns (r: Result<Stmt, CompileError>)
      requires Valid()
      modifies this, lexer
      ensures lexer.Valid() && (r.Ok? ==> Valid())
      ensures Outcome(r, Here()) == WhileRule(input, old(Here()))
      decreases Rank(input, Here()), 0
    {
      var u :- Eat(MyWhile);
      u :- Eat(LParen);
      var condition :- Expression();
      u :- Eat(RParen);
      var body :- Statement();
      return Ok(While(condition, body));
    }

    /** `statement`. */
    method Statement() returns (r: Result<Stmt, CompileError>)
      requires Valid()
      modifies this, lexer
      ensures lexer.Valid() && (r.Ok? ==> Valid())
      ensures Outcome(r, Here()) == StatementRule(input, old(Here()))
      decreases Rank(input, Here()), 1
    {
      var k := currentToken.kind;
      if k.LBrace? {
        r := BlockStatement();
      } else if k.MyVar? {
        r := VariableDeclaration();
      } else if k.Identifier? {
        r := AssignmentStatement();
      } else if k.MyPrint? {
        r := PrintStatement();
      } else if k.MyIf? {
        r := IfStatement();
      } else if k.MyWhile? {
        r := WhileStatement();
      } else if k.Semicolon? {
        var u :- Eat(Semicolon);
        r := Ok(NoOp);
      } else {
        r := Err(SyntaxError(None, currentToken));
      }
    }

    /** `program`. */
    method ParseProgram() returns (r: Result<Program, CompileError>)
      requires Valid()
      modifies this, lexer
      ensures lexer.Valid() && (r.Ok? ==> Valid())
      ensures Outcome(r, Here()) == ProgramRule(input, old(Here()))
    {
      ghost var start := Here();
      var statements := [];
      while !currentToken.kind.Eof?
        invariant Valid() && forall k :: 0 <= k < |statements| ==> Built(statements[k])
        invariant StatementsRule(input, start, false, []) == StatementsRule(input, Here(), false, statements)
        decreases Rank(input, Here())
      {
        var s :- Statement();
        statements := statements + [s];
      }
      return Ok(Program(statements));
    }
  }

  /** `Parser(Lexer(source)).parse()`. */
  method Parse(source: string) returns (r: Result<Program, CompileError>)
    ensures r == ParseSource(source)
  {
    var lexer := new Lexer(source);
    var parser :- Parser.Open(lexer);
    r := parser.ParseProgram();
  }
}
