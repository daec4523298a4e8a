/** What the parser guarantees: it reads the lexer's token list one token per
    `eat`, groups operators as the grammar's two tiers dictate, binds `myelse` to
    the nearest `myif`, and fails where the source fails. */
module ParsingProperties {
  import opened Wrappers
  import opened Tokens
  import opened Errors
  import opened Ast
  import opened Lexing
  import opened Parsing

  // ---- eat ----

  /** `eat` of the current kind pulls the next token; of any other kind it is a
      syntax error naming the kind expected and the token found. */
  lemma EatOutcome(input: Input, c: Cursor, k: TokenType)
    requires input.Valid() && At(input, c)
    ensures c.tok.kind != k ==> EatRule(input, c, k) == Err(SyntaxError(Some(k), c.tok))
    ensures c.tok.kind == k ==> EatRule(input, c, k) == Pull(input, c.pos)
    ensures c.tok.kind == k ==> (EatRule(input, c, k).Ok? <==> input.next(c.pos).Ok?)
  {
  }

  /** The tokens the parser has still to see from cursor `c`: the current token,
      then whatever the lexer scans after it. */
  function Remaining(source: string, c: Cursor): Result<seq<Token>, CompileError>
    requires !c.tok.kind.Eof? ==> c.pos <= |source|
  {
    if c.tok.kind.Eof? then Ok([c.tok]) else Prefixed([c.tok], TokenizeFrom(source, c.pos))
  }

  /** The first token pulled starts the list `tokenize` returns (or meets its
      error). */
  lemma FirstTokenStartsTokenize(source: string)
    ensures LexerInput(source).Valid()
    ensures Pull(LexerInput(source), 0).Ok? ==>
              At(LexerInput(source), Pull(LexerInput(source), 0).value) &&
              Remaining(source, Pull(LexerInput(source), 0).value) == Tokenize(source)
    ensures Pull(LexerInput(source), 0).Err? ==> Tokenize(source) == Err(Pull(LexerInput(source), 0).error)
  {
    LexerInputValid(source);
    var input := LexerInput(source);
    assert input.next(0) == NextToken(source, 0);
    if Pull(input, 0).Ok? {
      var c := Pull(input, 0).value;
      assert NextToken(source, 0) == Ok((c.tok, c.pos));
      if !c.tok.kind.Eof? {
        match TokenizeFrom(source, c.pos)
        case Ok(rest) =>
        case Err(_) =>
      }
    }
  }

  /** Eating a token other than EOF moves the parser one token along the list
      `tokenize` returns: the parser reads exactly the lexer's tokens, in order. */
  lemma EatTakesOneToken(source: string, c: Cursor, k: TokenType)
    requires LexerInput(source).Valid() && At(LexerInput(source), c) && !k.Eof?
    requires EatRule(LexerInput(source), c, k).Ok?
    ensures var d := EatRule(LexerInput(source), c, k).value;
            At(LexerInput(source), d) && Remaining(source, c) == Prefixed([c.tok], Remaining(source, d))
  {
    var input := LexerInput(source);
    var d := EatRule(input, c, k).value;
    assert input.next(c.pos) == NextToken(source, c.pos);
    assert NextToken(source, c.pos) == Ok((d.tok, d.pos));
    if d.tok.kind.Eof? {
      assert TokenizeFrom(source, c.pos) == Ok([d.tok]);
    } else {
      match TokenizeFrom(source, d.pos)
      case Ok(rest) =>
        assert TokenizeFrom(source, c.pos) == Ok([d.tok] + rest);
      case Err(_) =>
    }
  }

  // ---- statements ----

  /** A statement that starts with a name is an assignment, and must continue with
      `=`: anything else there is a syntax error expecting ASSIGN. */
  lemma AssignmentShape(input: Input, c: Cursor)
    requires input.Valid() && At(input, c) && c.tok.kind.Identifier?
    ensures StatementRule(input, c) == AssignmentRule(input, c)
    ensures Pull(input, c.pos).Ok? && !Pull(input, c.pos).value.tok.kind.Assign? ==>
              StatementRule(input, c) == Err(SyntaxError(Some(Assign), Pull(input, c.pos).value.tok))
  {
  }

  /** A declaration never has a type annotation, names the identifier after
      `myvar`, and has an initializer exactly when `=` follows the name. */
  lemma DeclarationShape(input: Input, c: Cursor)
    requires input.Valid() && At(input, c) && VarDeclRule(input, c).Ok?
    ensures EatRule(input, c, MyVar).Ok? &&
            var name := EatRule(input, c, MyVar).value;
            EatRule(input, name, Identifier).Ok? &&
            var after := EatRule(input, name, Identifier).value;
            var d := VarDeclRule(input, c).value.0;
            d.VarDecl? && d.varToken == name.tok && d.varName == name.tok.value.s && d.typeAnnotation.None? &&
            (d.initializer.Some? <==> after.tok.kind.Assign?)
  {
  }

  /** An `myif` without a `myelse` branch is never followed by `myelse`: the then
      branch is a whole statement, so an `myelse` is taken by the innermost `myif`
      still open. */
  lemma ElseBindsNearest(input: Input, c: Cursor)
    requires input.Valid() && At(input, c) && IfRule(input, c).Ok?
    ensures var (s, after) := IfRule(input, c).value;
            s.If? && (s.elseBranch.None? ==> !after.tok.kind.MyElse?)
  {
  }

  /** A block needs its `}`: if its statements run into EOF, the block is a syntax
      error expecting RBRACE at the EOF token. */
  lemma {:induction false} EofInBlock(input: Input, c: Cursor)
    requires input.Valid() && At(input, c) && EatRule(input, c, LBrace).Ok?
    requires var ss := StatementsRule(input, EatRule(input, c, LBrace).value, true, []);
             ss.Ok? && ss.value.1.tok.kind.Eof?
    ensures BlockRule(input, c) ==
              Err(SyntaxError(Some(RBrace), StatementsRule(input, EatRule(input, c, LBrace).value, true, []).value.1.tok))
  {
    var c1 := EatRule(input, c, LBrace).value;
    var ss := StatementsRule(input, c1, true, []).value;
    assert EatRule(input, ss.1, RBrace) == Err(SyntaxError(Some(RBrace), ss.1.tok));
  }

  /** A program is read to EOF; a `}` at the top level is a syntax error, not the
      end of the program. */
  lemma StrayBrace(input: Input, c: Cursor)
    requires input.Valid() && At(input, c) && c.tok.kind.RBrace?
    ensures ProgramRule(input, c) == Err(SyntaxError(None, c.tok))
  {
    assert StatementRule(input, c) == Err(SyntaxError(None, c.tok));
  }

  // ---- scenarios over a token list ----

  /** A fixed token list as the parser's input: EOF once it is used up. */
  function FromList(ts: seq<Token>): Input {
    Input((p: nat) => if p < |ts| then Ok((ts[p], p + 1)) else Ok((Token(Eof, NoValue), p)), |ts|)
  }

  lemma FromListValid(ts: seq<Token>)
    requires forall k :: 0 <= k < |ts| ==> WellFormed(ts[k])
    ensures FromList(ts).Valid()
  {
    forall p: nat
      ensures Fits(p, FromList(ts).next(p), |ts|)
    {
      if p < |ts| {
        var q: nat := p + 1;
        assert FromList(ts).next(p) == Ok((ts[p], q));
      }
    }
  }

  function Kw(k: TokenType): Token { Token(k, NoValue) }

  function N(n: int): Token { Token(Number, IntValue(n)) }

  function Name(x: string): Token { Token(Identifier, StrValue(x)) }

  const Eot := Token(Eof, NoValue)

  function Lit(n: int): Expr { Num(N(n), n) }

  /** `1 < 2 + 3` is `(1 < 2) + 3`: comparisons share the additive tier. */
  lemma SharedTier()
    ensures var ts := [N(1), Kw(Lt), N(2), Kw(Plus), N(3)];
            FromList(ts).Valid() &&
            ExprRule(FromList(ts), Cursor(N(1), 1)) ==
              Ok((BinaryOp(BinaryOp(Lit(1), Kw(Lt), Lit(2)), Kw(Plus), Lit(3)), Cursor(Eot, 5)))
  {
    var ts := [N(1), Kw(Lt), N(2), Kw(Plus), N(3)];
    FromListValid(ts);
    var input := FromList(ts);
    assert input.next(1) == Ok((Kw(Lt), 2));
    assert input.next(2) == Ok((N(2), 3));
    assert input.next(3) == Ok((Kw(Plus), 4));
    assert input.next(4) == Ok((N(3), 5));
    assert input.next(5) == Ok((Eot, 5));
    assert TermRule(input, Cursor(N(1), 1)) == Ok((Lit(1), Cursor(Kw(Lt), 2)));
    assert TermRule(input, Cursor(N(2), 3)) == Ok((Lit(2), Cursor(Kw(Plus), 4)));
    assert TermRule(input, Cursor(N(3), 5)) == Ok((Lit(3), Cursor(Eot, 5)));
    var lt := BinaryOp(Lit(1), Kw(Lt), Lit(2));
    assert ExprTail(input, lt, Cursor(Kw(Plus), 4)) == Ok((BinaryOp(lt, Kw(Plus), Lit(3)), Cursor(Eot, 5)));
  }

  /** `8 - 4 - 2` is `(8 - 4) - 2`: a tier groups to the left. */
  lemma LeftAssociative()
    ensures var ts := [N(8), Kw(Minus), N(4), Kw(Minus), N(2)];
            FromList(ts).Valid() &&
            ExprRule(FromList(ts), Cursor(N(8), 1)) ==
              Ok((BinaryOp(BinaryOp(Lit(8), Kw(Minus), Lit(4)), Kw(Minus), Lit(2)), Cursor(Eot, 5)))
  {
    var ts := [N(8), Kw(Minus), N(4), Kw(Minus), N(2)];
    FromListValid(ts);
    var input := FromList(ts);
    assert input.next(1) == Ok((Kw(Minus), 2));
    assert input.next(2) == Ok((N(4), 3));
    assert input.next(3) == Ok((Kw(Minus), 4));
    assert input.next(4) == Ok((N(2), 5));
    assert input.next(5) == Ok((Eot, 5));
    assert TermRule(input, Cursor(N(8), 1)) == Ok((Lit(8), Cursor(Kw(Minus), 2)));
    assert TermRule(input, Cursor(N(4), 3)) == Ok((Lit(4), Cursor(Kw(Minus), 4)));
    assert TermRule(input, Cursor(N(2), 5)) == Ok((Lit(2), Cursor(Eot, 5)));
    var first := BinaryOp(Lit(8), Kw(Minus), Lit(4));
    assert ExprTail(input, first, Cursor(Kw(Minus), 4)) == Ok((BinaryOp(first, Kw(Minus), Lit(2)), Cursor(Eot, 5)));
  }

  /** `1 + 2 * 3` is `1 + (2 * 3)`: `*` and `/` bind tighter. */
  lemma ProductsBindTighter()
    ensures var ts := [N(1), Kw(Plus), N(2), Kw(Mul), N(3)];
            FromList(ts).Valid() &&
            ExprRule(FromList(ts), Cursor(N(1), 1)) ==
              Ok((BinaryOp(Lit(1), Kw(Plus), BinaryOp(Lit(2), Kw(Mul), Lit(3))), Cursor(Eot, 5)))
  {
    var ts := [N(1), Kw(Plus), N(2), Kw(Mul), N(3)];
    FromListValid(ts);
    var input := FromList(ts);
    assert input.next(1) == Ok((Kw(Plus), 2));
    assert input.next(2) == Ok((N(2), 3));
    assert input.next(3) == Ok((Kw(Mul), 4));
    assert input.next(4) == Ok((N(3), 5));
    assert input.next(5) == Ok((Eot, 5));
    assert TermRule(input, Cursor(N(1), 1)) == Ok((Lit(1), Cursor(Kw(Plus), 2)));
    assert FactorRule(input, Cursor(N(2), 3)) == Ok((Lit(2), Cursor(Kw(Mul), 4)));
    assert FactorRule(input, Cursor(N(3), 5)) == Ok((Lit(3), Cursor(Eot, 5)));
    var product := BinaryOp(Lit(2), Kw(Mul), Lit(3));
    assert TermTail(input, Lit(2), Cursor(Kw(Mul), 4)) == Ok((product, Cursor(Eot, 5)));
    assert TermRule(input, Cursor(N(2), 3)) == Ok((product, Cursor(Eot, 5)));
  }

  // ---- grouping, for every token list ----

  /** Every token of the list carries the value its kind calls for, as the lexer
      makes them. */
  predicate AllWellFormed(ts: seq<Token>) {
    forall k :: 0 <= k < |ts| ==> WellFormed(ts[k])
  }

  /** The cursor on token `j` of a list: the token (EOF past the end) and the
      position after it, as `FromList` pulls them. */
  function CursorAt(ts: seq<Token>, j: nat): Cursor {
    if j < |ts| then Cursor(ts[j], j + 1) else Cursor(Eot, j)
  }

  /** The tokens `factor` turns into a leaf without reading further. */
  predicate Atom(t: Token) {
    WellFormed(t) && (t.kind.Number? || t.kind.String? || t.kind.MyBool? || t.kind.Identifier?)
  }

  /** The node `factor` makes of a literal or a name. */
  function Leaf(t: Token): Expr
    requires Atom(t)
  {
    match t.kind
    case Number => Num(t, t.value.n)
    case String => Expr.String(t, t.value.s)
    case MyBool => Bool(t, t.value.b)
    case _ => Var(t, t.value.s)
  }

  /** `first op1 e1 op2 e2 …` grouped to the left: the last operator is the root,
      with everything before it as its left operand. */
  function FoldLeft(first: Expr, steps: seq<(Token, Expr)>): Expr
    decreases |steps|
  {
    if |steps| == 0 then first
    else BinaryOp(FoldLeft(first, steps[..|steps| - 1]), steps[|steps| - 1].0, steps[|steps| - 1].1)
  }

  /** A chain of operands as a list spells it: a first leaf, then operator and leaf
      pairs. */
  datatype Chain = Chain(first: Token, steps: seq<(Token, Token)>)

  /** The operator and leaf pairs `steps` lie at index `j` of the list. */
  predicate StepsAt(ts: seq<Token>, j: nat, steps: seq<(Token, Token)>) {
    j + 2 * |steps| <= |ts| &&
    forall i :: 0 <= i < |steps| ==> ts[j + 2 * i] == steps[i].0 && ts[j + 2 * i + 1] == steps[i].1
  }

  /** The number of tokens a chain spans. */
  function Width(p: Chain): nat {
    1 + 2 * |p.steps|
  }

  /** The chain `p` is spelled from index `j` of the list. */
  predicate ChainAt(ts: seq<Token>, j: nat, p: Chain) {
    j < |ts| && ts[j] == p.first && StepsAt(ts, j + 1, p.steps)
  }

  /** Operator and leaf pairs whose operators all lie in the tier `mul` names. */
  predicate TierSteps(steps: seq<(Token, Token)>, mul: bool) {
    forall k :: 0 <= k < |steps| ==> (if mul then MulOp(steps[k].0.kind) else AddOp(steps[k].0.kind)) && Atom(steps[k].1)
  }

  /** Each operator with the leaf of the token after it. */
  function Leaves(steps: seq<(Token, Token)>): seq<(Token, Expr)>
    requires forall k :: 0 <= k < |steps| ==> Atom(steps[k].1)
  {
    seq(|steps|, i requires 0 <= i < |steps| => (steps[i].0, Leaf(steps[i].1)))
  }

  /** A product: leaves joined by `*` and `/`. */
  predicate Product(p: Chain) {
    Atom(p.first) && TierSteps(p.steps, true)
  }

  /** The tree a product denotes: its leaves folded to the left. */
  function ChainTree(p: Chain): Expr
    requires Product(p)
  {
    FoldLeft(Leaf(p.first), Leaves(p.steps))
  }

  /** Products joined by operators of the additive tier. */
  predicate SumSteps(rest: seq<(Token, Chain)>) {
    forall k :: 0 <= k < |rest| ==> AddOp(rest[k].0.kind) && Product(rest[k].1)
  }

  /** Each operator with the tree of the product after it. */
  function Products(rest: seq<(Token, Chain)>): seq<(Token, Expr)>
    requires SumSteps(rest)
  {
    seq(|rest|, i requires 0 <= i < |rest| => (rest[i].0, ChainTree(rest[i].1)))
  }

  /** The number of tokens the operators and products of `rest` span. */
  function SumWidth(rest: seq<(Token, Chain)>): nat
    decreases |rest|
  {
    if |rest| == 0 then 0 else 1 + Width(rest[0].1) + SumWidth(rest[1..])
  }

  /** The operators and products `rest` lie at index `j` of the list, one after the
      other. */
  predicate SumAt(ts: seq<Token>, j: nat, rest: seq<(Token, Chain)>)
    decreases |rest|
  {
    |rest| == 0 ||
    (j < |ts| && ts[j] == rest[0].0 && ChainAt(ts, j + 1, rest[0].1) && SumAt(ts, j + 1 + Width(rest[0].1), rest[1..]))
  }

  /** Putting a step in front of a fold is folding from the combined first node. */
  lemma {:induction false} FoldLeftShift(first: Expr, op: Token, e: Expr, steps: seq<(Token, Expr)>)
    ensures FoldLeft(BinaryOp(first, op, e), steps) == FoldLeft(first, [(op, e)] + steps)
    decreases |steps|
  {
    var all := [(op, e)] + steps;
    if |steps| == 0 {
      assert all[..0] == [];
    } else {
      assert all[..|all| - 1] == [(op, e)] + steps[..|steps| - 1];
      FoldLeftShift(first, op, e, steps[..|steps| - 1]);
    }
  }

  lemma StepsAtTail(ts: seq<Token>, j: nat, steps: seq<(Token, Token)>)
    requires StepsAt(ts, j, steps) && |steps| > 0
    ensures ts[j] == steps[0].0 && ts[j + 1] == steps[0].1 && StepsAt(ts, j + 2, steps[1..])
  {
    forall i | 0 <= i < |steps| - 1
      ensures ts[j + 2 + 2 * i] == steps[1..][i].0 && ts[j + 2 + 2 * i + 1] == steps[1..][i].1
    {
      assert steps[1..][i] == steps[i + 1];
      assert j + 2 + 2 * i == j + 2 * (i + 1);
    }
  }

  /** Every cursor on a list of well-formed tokens is one the parser can reach, and
      eating its token moves to the next index. */
  lemma EatAt(ts: seq<Token>, j: nat)
    requires AllWellFormed(ts)
    ensures FromList(ts).Valid() && At(FromList(ts), CursorAt(ts, j))
    ensures j < |ts| ==> EatRule(FromList(ts), CursorAt(ts, j), ts[j].kind) == Ok(CursorAt(ts, j + 1))
  {
    FromListValid(ts);
    var input := FromList(ts);
    if j < |ts| {
      assert input.next(j + 1) == if j + 1 < |ts| then Ok((ts[j + 1], j + 2)) else Ok((Eot, j + 1));
    }
  }

  /** `factor` on a literal or a name gives its leaf and moves one token on. */
  lemma FactorAtom(ts: seq<Token>, j: nat)
    requires AllWellFormed(ts) && j < |ts| && Atom(ts[j])
    ensures FromList(ts).Valid() && At(FromList(ts), CursorAt(ts, j))
    ensures FactorRule(FromList(ts), CursorAt(ts, j)) == Ok((Leaf(ts[j]), CursorAt(ts, j + 1)))
  {
    EatAt(ts, j);
  }

  /** One turn of the loop of `term` over the first operator and leaf of `steps`. */
  lemma TermTailTurn(ts: seq<Token>, node: Expr, j: nat, steps: seq<(Token, Token)>)
    requires AllWellFormed(ts) && Formed(node) && TierSteps(steps, true) && StepsAt(ts, j, steps) && |steps| > 0
    ensures FromList(ts).Valid() && At(FromList(ts), CursorAt(ts, j))
    ensures Formed(BinaryOp(node, steps[0].0, Leaf(steps[0].1)))
    ensures TierSteps(steps[1..], true) && StepsAt(ts, j + 2, steps[1..])
    ensures Leaves(steps) == [(steps[0].0, Leaf(steps[0].1))] + Leaves(steps[1..])
    ensures TermTail(FromList(ts), node, CursorAt(ts, j)) ==
            TermTail(FromList(ts), BinaryOp(node, steps[0].0, Leaf(steps[0].1)), CursorAt(ts, j + 2))
  {
    EatAt(ts, j);
    StepsAtTail(ts, j, steps);
    FactorAtom(ts, j + 1);
    forall k | 0 <= k < |steps| - 1
      ensures MulOp(steps[1..][k].0.kind) && Atom(steps[1..][k].1)
    {
      assert steps[1..][k] == steps[k + 1];
    }
    assert Leaves(steps) == [(steps[0].0, Leaf(steps[0].1))] + Leaves(steps[1..]);
  }

  /** The loop of `term`, for every list: each `*` or `/` makes the node built so
      far the left operand of the next factor, so the result is the left fold, and
      the loop ends on the token after the last factor. */
  lemma {:induction false} TermTailFolds(ts: seq<Token>, node: Expr, j: nat, steps: seq<(Token, Token)>, end: nat)
    requires AllWellFormed(ts) && Formed(node) && TierSteps(steps, true) && StepsAt(ts, j, steps)
    requires end == j + 2 * |steps| && !MulOp(CursorAt(ts, end).tok.kind)
    ensures FromList(ts).Valid() && At(FromList(ts), CursorAt(ts, j))
    ensures TermTail(FromList(ts), node, CursorAt(ts, j)) == Ok((FoldLeft(node, Leaves(steps)), CursorAt(ts, end)))
    decreases |steps|
  {
    EatAt(ts, j);
    if |steps| > 0 {
      var op, e := steps[0].0, Leaf(steps[0].1);
      TermTailTurn(ts, node, j, steps);
      TermTailFolds(ts, BinaryOp(node, op, e), j + 2, steps[1..], end);
      FoldLeftShift(node, op, e, Leaves(steps[1..]));
    }
  }

  /** `term`, for every list: a product of leaves parses to their left fold and
      ends on the token after it. */
  lemma TermFolds(ts: seq<Token>, j: nat, p: Chain)
    requires AllWellFormed(ts) && Product(p) && ChainAt(ts, j, p)
    requires !MulOp(CursorAt(ts, j + Width(p)).tok.kind)
    ensures FromList(ts).Valid() && At(FromList(ts), CursorAt(ts, j))
    ensures TermRule(FromList(ts), CursorAt(ts, j)) == Ok((ChainTree(p), CursorAt(ts, j + Width(p))))
  {
    FactorAtom(ts, j);
    TermTailFolds(ts, Leaf(p.first), j + 1, p.steps, j + Width(p));
  }

  /** One turn of the loop of `expr` on a list. */
  lemma ExprTailStep(ts: seq<Token>, node: Expr, j: nat, e: Expr, after: nat)
    requires AllWellFormed(ts) && Formed(node) && j < |ts| && AddOp(ts[j].kind)
    requires FromList(ts).Valid() && At(FromList(ts), CursorAt(ts, j + 1))
    requires TermRule(FromList(ts), CursorAt(ts, j + 1)) == Ok((e, CursorAt(ts, after)))
    ensures At(FromList(ts), CursorAt(ts, j)) && At(FromList(ts), CursorAt(ts, after)) && Formed(BinaryOp(node, ts[j], e))
    ensures ExprTail(FromList(ts), node, CursorAt(ts, j)) ==
            ExprTail(FromList(ts), BinaryOp(node, ts[j], e), CursorAt(ts, after))
  {
    EatAt(ts, j);
  }

  /** The first operator and product of `rest`, and what follows them. */
  lemma SumAtTail(ts: seq<Token>, j: nat, rest: seq<(Token, Chain)>)
    requires SumSteps(rest) && SumAt(ts, j, rest) && |rest| > 0
    ensures j < |ts| && ts[j] == rest[0].0 && AddOp(rest[0].0.kind) && Product(rest[0].1)
    ensures ChainAt(ts, j + 1, rest[0].1) && SumSteps(rest[1..])
    ensures SumAt(ts, j + 1 + Width(rest[0].1), rest[1..])
    ensures SumWidth(rest) == 1 + Width(rest[0].1) + SumWidth(rest[1..])
    ensures Products(rest) == [(rest[0].0, ChainTree(rest[0].1))] + Products(rest[1..])
    ensures |rest| > 1 ==> j + 1 + Width(rest[0].1) < |ts| && AddOp(ts[j + 1 + Width(rest[0].1)].kind)
  {
    forall k | 0 <= k < |rest| - 1
      ensures AddOp(rest[1..][k].0.kind) && Product(rest[1..][k].1)
    {
      assert rest[1..][k] == rest[k + 1];
    }
    assert Products(rest) == [(rest[0].0, ChainTree(rest[0].1))] + Products(rest[1..]);
  }

  /** The operators and products `rest` lie from index `j` up to `end`, and the
      token at `end` is in neither tier, so the loop of `expr` stops there. */
  predicate SumSpan(ts: seq<Token>, j: nat, rest: seq<(Token, Chain)>, end: nat) {
    SumSteps(rest) && SumAt(ts, j, rest) && end == j + SumWidth(rest) &&
    !AddOp(CursorAt(ts, end).tok.kind) && !MulOp(CursorAt(ts, end).tok.kind)
  }

  /** One turn of the loop of `expr` over the first operator and product of
      `rest`: `next` is the node it builds, with the node so far on the left and
      that operator at the root. The precondition is bound to one name so that a
      caller discharges it as one fact. */
  lemma ExprTailTurn(ts: seq<Token>, node: Expr, j: nat, rest: seq<(Token, Chain)>, end: nat) returns (next: Expr)
    requires var ready := AllWellFormed(ts) && Formed(node) && SumSpan(ts, j, rest, end) && |rest| > 0; ready
    ensures next.BinaryOp? && next.left == node && next.op == rest[0].0
    ensures var after := j + 1 + Width(rest[0].1);
            FromList(ts).Valid() && At(FromList(ts), CursorAt(ts, j)) && At(FromList(ts), CursorAt(ts, after)) &&
            Formed(next) && SumSpan(ts, after, rest[1..], end) &&
            FoldLeft(node, Products(rest)) == FoldLeft(next, Products(rest[1..])) &&
            ExprTail(FromList(ts), node, CursorAt(ts, j)) == ExprTail(FromList(ts), next, CursorAt(ts, after))
  {
    SumAtTail(ts, j, rest);
    TermFolds(ts, j + 1, rest[0].1);
    ExprTailStep(ts, node, j, ChainTree(rest[0].1), j + 1 + Width(rest[0].1));
    FoldLeftShift(node, rest[0].0, ChainTree(rest[0].1), Products(rest[1..]));
    next := BinaryOp(node, rest[0].0, ChainTree(rest[0].1));
  }

  /** The loop of `expr`, for every list: each operator of the additive tier makes
      the node built so far the left operand of the next product. */
  lemma {:induction false} ExprTailFolds(ts: seq<Token>, node: Expr, j: nat, rest: seq<(Token, Chain)>, end: nat)
    requires AllWellFormed(ts) && Formed(node) && SumSpan(ts, j, rest, end)
    ensures FromList(ts).Valid() && At(FromList(ts), CursorAt(ts, j))
    ensures ExprTail(FromList(ts), node, CursorAt(ts, j)) == Ok((FoldLeft(node, Products(rest)), CursorAt(ts, end)))
    decreases |rest|
  {
    if |rest| == 0 {
      EatAt(ts, j);
    } else {
      var next := ExprTailTurn(ts, node, j, rest, end);
      ExprTailFolds(ts, next, j + 1 + Width(rest[0].1), rest[1..], end);
    }
  }

  /** `expr`, for every list without parentheses or signs: products are grouped
      first, and the products are then folded to the left over `+`, `-` and the six
      comparisons, all at one tier; the parse ends on the token after them. */
  lemma ExprFolds(ts: seq<Token>, j: nat, head: Chain, rest: seq<(Token, Chain)>)
    requires AllWellFormed(ts) && Product(head) && SumSteps(rest)
    requires ChainAt(ts, j, head) && SumAt(ts, j + Width(head), rest)
    requires var f := CursorAt(ts, j + Width(head) + SumWidth(rest)).tok.kind; !AddOp(f) && !MulOp(f)
    ensures FromList(ts).Valid() && At(FromList(ts), CursorAt(ts, j))
    ensures ExprRule(FromList(ts), CursorAt(ts, j)) ==
            Ok((FoldLeft(ChainTree(head), Products(rest)), CursorAt(ts, j + Width(head) + SumWidth(rest))))
  {
    var after := j + Width(head);
    if |rest| > 0 {
      assert after < |ts| && ts[after] == rest[0].0 && AddOp(rest[0].0.kind);
    }
    TermFolds(ts, j, head);
    ExprTailFolds(ts, ChainTree(head), after, rest, after + SumWidth(rest));
  }

  /** Leaves as one-leaf products. */
  function Singles(steps: seq<(Token, Token)>): seq<(Token, Chain)> {
    seq(|steps|, i requires 0 <= i < |steps| => (steps[i].0, Chain(steps[i].1, [])))
  }

  lemma {:induction false} SinglesAt(ts: seq<Token>, j: nat, steps: seq<(Token, Token)>)
    requires TierSteps(steps, false) && StepsAt(ts, j, steps)
    ensures SumSteps(Singles(steps)) && SumAt(ts, j, Singles(steps)) && SumWidth(Singles(steps)) == 2 * |steps|
    ensures Products(Singles(steps)) == Leaves(steps)
    decreases |steps|
  {
    var s := Singles(steps);
    assert SumSteps(s) by {
      forall k | 0 <= k < |s|
        ensures AddOp(s[k].0.kind) && Product(s[k].1)
      {
        assert ChainTree(s[k].1) == Leaf(steps[k].1);
      }
    }
    forall k | 0 <= k < |s|
      ensures Products(s)[k] == Leaves(steps)[k]
    {
      assert ChainTree(s[k].1) == Leaf(steps[k].1);
    }
    if |steps| > 0 {
      StepsAtTail(ts, j, steps);
      assert TierSteps(steps[1..], false) by {
        forall k | 0 <= k < |steps| - 1
          ensures AddOp(steps[1..][k].0.kind) && Atom(steps[1..][k].1)
        {
          assert steps[1..][k] == steps[k + 1];
        }
      }
      SinglesAt(ts, j + 2, steps[1..]);
      assert s[1..] == Singles(steps[1..]);
      assert ChainAt(ts, j + 1, s[0].1);
    }
  }

  /** `expr` over leaves joined by the additive tier alone: the left fold of the
      leaves, whatever mix of `+`, `-` and comparisons joins them. */
  lemma SumFolds(ts: seq<Token>, j: nat, first: Token, steps: seq<(Token, Token)>)
    requires AllWellFormed(ts) && Atom(first) && TierSteps(steps, false)
    requires j < |ts| && ts[j] == first && StepsAt(ts, j + 1, steps)
    requires var f := CursorAt(ts, j + 1 + 2 * |steps|).tok.kind; !AddOp(f) && !MulOp(f)
    ensures FromList(ts).Valid() && At(FromList(ts), CursorAt(ts, j))
    ensures ExprRule(FromList(ts), CursorAt(ts, j)) ==
            Ok((FoldLeft(Leaf(first), Leaves(steps)), CursorAt(ts, j + 1 + 2 * |steps|)))
  {
    SinglesAt(ts, j + 1, steps);
    var head := Chain(first, []);
    assert ChainAt(ts, j, head) && ChainTree(head) == Leaf(first);
    ExprFolds(ts, j, head, Singles(steps));
  }

  /** `myif (a) myif (b) ; myelse ;` gives the `myelse` to the inner `myif`. */
  lemma DanglingElse()
    ensures var ts := [Kw(MyIf), Kw(LParen), Name("a"), Kw(RParen), Kw(MyIf), Kw(LParen), Name("b"), Kw(RParen),
                       Kw(Semicolon), Kw(MyElse), Kw(Semicolon)];
            FromList(ts).Valid() &&
            StatementRule(FromList(ts), Cursor(Kw(MyIf), 1)) ==
              Ok((If(Var(Name("a"), "a"), If(Var(Name("b"), "b"), NoOp, Some(NoOp)), None), Cursor(Eot, 11)))
  {
    var input := FromList(DanglingTokens());
    DanglingSteps();
    DanglingInner();
    var inner := If(Var(Name("b"), "b"), NoOp, Some(NoOp));
    assert ExprRule(input, Cursor(Name("a"), 3)) == Ok((Var(Name("a"), "a"), Cursor(Kw(RParen), 4))) by {
      assert TermRule(input, Cursor(Name("a"), 3)) == Ok((Var(Name("a"), "a"), Cursor(Kw(RParen), 4)));
    }
    IfThenRule(input, Cursor(Kw(MyIf), 1), Cursor(Kw(LParen), 2), Cursor(Name("a"), 3),
               (Var(Name("a"), "a"), Cursor(Kw(RParen), 4)), Cursor(Kw(MyIf), 5), (inner, Cursor(Eot, 11)));
    StatementIsIf(input, Cursor(Kw(MyIf), 1));
  }

  function DanglingTokens(): seq<Token> {
    [Kw(MyIf), Kw(LParen), Name("a"), Kw(RParen), Kw(MyIf), Kw(LParen), Name("b"), Kw(RParen),
     Kw(Semicolon), Kw(MyElse), Kw(Semicolon)]
  }

  lemma DanglingSteps()
    ensures var input := FromList(DanglingTokens());
            input.Valid() &&
            input.next(1) == Ok((Kw(LParen), 2)) && input.next(2) == Ok((Name("a"), 3)) &&
            input.next(3) == Ok((Kw(RParen), 4)) && input.next(4) == Ok((Kw(MyIf), 5)) &&
            input.next(5) == Ok((Kw(LParen), 6)) && input.next(6) == Ok((Name("b"), 7)) &&
            input.next(7) == Ok((Kw(RParen), 8)) && input.next(8) == Ok((Kw(Semicolon), 9)) &&
            input.next(9) == Ok((Kw(MyElse), 10)) && input.next(10) == Ok((Kw(Semicolon), 11)) &&
            input.next(11) == Ok((Eot, 11))
  {
    FromListValid(DanglingTokens());
  }

  /** The inner `myif (b) ; myelse ;`, from its `myif` on. */
  lemma DanglingInner()
    ensures var input := FromList(DanglingTokens());
            input.Valid() &&
            StatementRule(input, Cursor(Kw(MyIf), 5)) == Ok((If(Var(Name("b"), "b"), NoOp, Some(NoOp)), Cursor(Eot, 11)))
  {
    var input := FromList(DanglingTokens());
    DanglingSteps();
    assert ExprRule(input, Cursor(Name("b"), 7)) == Ok((Var(Name("b"), "b"), Cursor(Kw(RParen), 8))) by {
      assert TermRule(input, Cursor(Name("b"), 7)) == Ok((Var(Name("b"), "b"), Cursor(Kw(RParen), 8)));
    }
    SemicolonStatement(input, Cursor(Kw(Semicolon), 9));
    SemicolonStatement(input, Cursor(Kw(Semicolon), 11));
    IfElseRule(input, Cursor(Kw(MyIf), 5), Cursor(Kw(LParen), 6), Cursor(Name("b"), 7),
               (Var(Name("b"), "b"), Cursor(Kw(RParen), 8)), Cursor(Kw(Semicolon), 9),
               (NoOp, Cursor(Kw(MyElse), 10)), Cursor(Kw(Semicolon), 11), (NoOp, Cursor(Eot, 11)));
    StatementIsIf(input, Cursor(Kw(MyIf), 5));
  }

  lemma StatementIsIf(input: Input, c: Cursor)
    requires input.Valid() && At(input, c) && c.tok.kind.MyIf?
    ensures StatementRule(input, c) == IfRule(input, c)
  {
  }

  /** `IfRule` with an else branch, given the outcome of each of its steps. */
  lemma IfElseRule(input: Input, c: Cursor, c1: Cursor, c2: Cursor, cond: (Expr, Cursor), c3: Cursor,
                   th: (Stmt, Cursor), c4: Cursor, el: (Stmt, Cursor))
    requires input.Valid() && At(input, c) && c.tok.kind.MyIf? && Pull(input, c.pos) == Ok(c1)
    requires c1.tok.kind.LParen? && Pull(input, c1.pos) == Ok(c2) && ExprRule(input, c2) == Ok(cond)
    requires cond.1.tok.kind.RParen? && Pull(input, cond.1.pos) == Ok(c3) && StatementRule(input, c3) == Ok(th)
    requires th.1.tok.kind.MyElse? && Pull(input, th.1.pos) == Ok(c4) && StatementRule(input, c4) == Ok(el)
    ensures IfRule(input, c) == Ok((If(cond.0, th.0, Some(el.0)), el.1))
  {
  }

  /** `IfRule` without an else branch, given the outcome of each of its steps. */
  lemma IfThenRule(input: Input, c: Cursor, c1: Cursor, c2: Cursor, cond: (Expr, Cursor), c3: Cursor,
                   th: (Stmt, Cursor))
    requires input.Valid() && At(input, c) && c.tok.kind.MyIf? && Pull(input, c.pos) == Ok(c1)
    requires c1.tok.kind.LParen? && Pull(input, c1.pos) == Ok(c2) && ExprRule(input, c2) == Ok(cond)
    requires cond.1.tok.kind.RParen? && Pull(input, cond.1.pos) == Ok(c3) && StatementRule(input, c3) == Ok(th)
    requires !th.1.tok.kind.MyElse?
    ensures IfRule(input, c) == Ok((If(cond.0, th.0, None), th.1))
  {
  }

  /** An empty statement is its `;` alone. */
  lemma SemicolonStatement(input: Input, c: Cursor)
    requires input.Valid() && At(input, c) && c.tok.kind.Semicolon? && Pull(input, c.pos).Ok?
    ensures StatementRule(input, c) == Ok((NoOp, Pull(input, c.pos).value))
  {
  }

  /** `{ ;` with nothing after it: EOF inside a block is a syntax error. */
  lemma UnclosedBlock()
    ensures var ts := [Kw(LBrace), Kw(Semicolon)];
            FromList(ts).Valid() &&
            ProgramRule(FromList(ts), Cursor(Kw(LBrace), 1)) == Err(SyntaxError(Some(RBrace), Eot))
  {
    var ts := [Kw(LBrace), Kw(Semicolon)];
    FromListValid(ts);
    var input := FromList(ts);
    assert input.next(1) == Ok((Kw(Semicolon), 2));
    assert input.next(2) == Ok((Eot, 2));
    assert StatementRule(input, Cursor(Kw(Semicolon), 2)) == Ok((NoOp, Cursor(Eot, 2)));
    assert StatementsRule(input, Cursor(Kw(Semicolon), 2), true, []) == Ok(([NoOp], Cursor(Eot, 2)));
    EofInBlock(input, Cursor(Kw(LBrace), 1));
  }
}
