/** What the scope checker accepts and rejects: lookups find the innermost
    declaration, uses of undeclared names are rejected, redeclaration in one scope is
    rejected while shadowing is accepted, and only a block opens a scope. */
module SemanticAnalysisProperties {
  import opened Wrappers
  import Tokens
  import opened Ast
  import opened Errors
  import opened SemanticAnalysis

  /** `lookup` returns the entry of the innermost scope that declares the name, and
      `None` exactly when no scope does; with `localOnly` the enclosing scopes are not
      consulted. */
  lemma {:induction false} LookupInnermost(frames: Frames, name: string)
    ensures LookupFrames(frames, name, false).Some? <==> exists k :: 0 <= k < |frames| && name in frames[k]
    ensures forall k :: 0 <= k < |frames| && name in frames[k] && (forall j :: 0 <= j < k ==> name !in frames[j]) ==>
              LookupFrames(frames, name, false) == Some(frames[k][name])
    ensures LookupFrames(frames, name, true) == if |frames| > 0 && name in frames[0] then Some(frames[0][name]) else None
    decreases |frames|
  {
    if |frames| > 0 {
      LookupInnermost(frames[1..], name);
      if name !in frames[0] {
        forall k | 0 < k < |frames| && name in frames[k]
          ensures name in frames[1..][k - 1]
        {
        }
        forall k | 0 <= k < |frames[1..]| && name in frames[1..][k]
          ensures name in frames[k + 1]
        {
        }
      }
    }
  }

  /** An expression passes exactly when every name it uses is declared in some
      enclosing scope; otherwise the error names one of the undeclared ones. */
  lemma {:induction false} CheckExprDeclared(e: Expr, frames: Frames)
    ensures CheckExpr(e, frames).Ok? <==> forall x :: x in Names(e) ==> LookupFrames(frames, x, false).Some?
    ensures CheckExpr(e, frames).Err? ==>
      exists x :: x in Names(e) && LookupFrames(frames, x, false).None? &&
                  CheckExpr(e, frames).error == SemanticError(NotDeclared, x)
  {
    match e
    case BinaryOp(l, _, r) =>
      CheckExprDeclared(l, frames);
      CheckExprDeclared(r, frames);
    case UnaryOp(_, x) =>
      CheckExprDeclared(x, frames);
    case Var(_, x) =>
      assert Names(e) == {x};
      if CheckExpr(e, frames).Err? {
        assert x in Names(e) && LookupFrames(frames, x, false).None?;
      }
    case _ =>
      assert Names(e) == {};
  }

  /** A name already in the current scope cannot be declared again there, whatever
      its annotation or initializer. */
  lemma RedeclarationRejected(frames: Frames, tok: Tokens.Token, x: string, annotation: Option<string>, init: Option<Expr>)
    requires |frames| > 0 && x in frames[0]
    ensures CheckStmt(VarDecl(tok, x, annotation, init), frames) == Err(SemanticError(AlreadyDeclared, x))
  {
  }

  /** A name not in the current scope can be declared, even when an enclosing scope
      declares it; the initializer is checked in the chain before the declaration, so
      it sees the enclosing declaration and not the new one. */
  lemma ShadowingAccepted(frames: Frames, tok: Tokens.Token, x: string, annotation: Option<string>, init: Option<Expr>)
    requires |frames| > 0 && x !in frames[0]
    ensures CheckStmt(VarDecl(tok, x, annotation, init), frames).Ok? <==>
              (init.Some? ==> CheckExpr(init.value, frames).Ok?)
    ensures CheckStmt(VarDecl(tok, x, annotation, init), frames).Ok? ==>
              CheckStmt(VarDecl(tok, x, annotation, init), frames).value == DefineFrames(frames, x, annotation)
  {
  }

  /** `myvar x = x;` passes exactly when an enclosing scope already declares `x`. */
  lemma SelfInitializer(frames: Frames, tok: Tokens.Token, use: Tokens.Token, x: string)
    requires |frames| > 0 && x !in frames[0]
    ensures CheckStmt(VarDecl(tok, x, None, Some(Var(use, x))), frames).Ok? <==>
              exists k :: 1 <= k < |frames| && x in frames[k]
  {
    LookupInnermost(frames, x);
    if exists k :: 1 <= k < |frames| && x in frames[k] {
      var k :| 1 <= k < |frames| && x in frames[k];
      assert 0 <= k < |frames| && x in frames[k];
    }
  }

  /** An assignment checks its target before its value: a target that is not a
      variable is rejected first, then an undeclared one, and only then the
      right-hand side, which must use declared names only. It declares nothing. */
  lemma AssignmentOrder(frames: Frames, target: Expr, value: Expr)
    requires |frames| > 0
    ensures !target.Var? ==> CheckStmt(Assignment(target, value), frames) == Err(SemanticError(InvalidAssignmentTarget, ""))
    ensures target.Var? && LookupFrames(frames, target.name, false).None? ==>
              CheckStmt(Assignment(target, value), frames) == Err(SemanticError(NotDeclaredBeforeAssignment, target.name))
    ensures target.Var? && LookupFrames(frames, target.name, false).Some? ==>
              (CheckStmt(Assignment(target, value), frames).Ok? <==>
                 forall x :: x in Names(value) ==> LookupFrames(frames, x, false).Some?)
    ensures CheckStmt(Assignment(target, value), frames).Ok? ==> CheckStmt(Assignment(target, value), frames).value == frames
  {
    CheckExprDeclared(value, frames);
  }

  /** A block's declarations end with it: afterwards the chain is as before, and its
      statements ran in a fresh innermost scope. */
  lemma BlockScoped(frames: Frames, ss: seq<Stmt>)
    requires |frames| > 0
    ensures CheckStmt(Block(ss), frames).Ok? <==> CheckStmts(ss, [map[]] + frames).Ok?
    ensures CheckStmt(Block(ss), frames).Ok? ==> CheckStmt(Block(ss), frames).value == frames
  {
  }

  /** The statements of a program or block run one after another in the same
      scope, each seeing the declarations of those before it. */
  lemma {:induction false} CheckStmtsAppend(ss: seq<Stmt>, tt: seq<Stmt>, frames: Frames)
    requires |frames| > 0
    ensures CheckStmts(ss + tt, frames) ==
      (match CheckStmts(ss, frames)
       case Err(e) => Err(e)
       case Ok(f) => CheckStmts(tt, f))
    decreases |ss|
  {
    if |ss| == 0 {
      assert ss + tt == tt;
    } else {
      assert (ss + tt)[0] == ss[0] && (ss + tt)[1..] == ss[1..] + tt;
      match CheckStmt(ss[0], frames)
      case Err(_) =>
      case Ok(next) => CheckStmtsAppend(ss[1..], tt, next);
    }
  }

  // ---- Scenarios ----

  function Name(x: string): Tokens.Token { Tokens.Token(Tokens.Identifier, Tokens.StrValue(x)) }

  function Declare(x: string): Stmt { VarDecl(Name(x), x) }

  function Use(x: string): Stmt { Print(Var(Name(x), x)) }

  /** `myvar x; myvar x;` is rejected, while `myvar x; { myvar x; }` is accepted. */
  lemma RedeclarationScenarios()
    ensures CheckProgram(Program([Declare("x"), Declare("x")])) == Err(SemanticError(AlreadyDeclared, "x"))
    ensures CheckProgram(Program([Declare("x"), Block([Declare("x")])])).Ok?
  {
    var f1 := DefineFrames([map[]], "x", None);
    assert CheckStmt(Declare("x"), [map[]]) == Ok(f1);
    assert [Declare("x"), Declare("x")][1..] == [Declare("x")];
    assert [Declare("x"), Block([Declare("x")])][1..] == [Block([Declare("x")])];
    assert CheckStmts([Declare("x")], [map[]] + f1).Ok?;
  }

  /** `{ myvar y; } myprint(y);` is rejected: the block's scope is gone. But
      `myif (mytrue) myvar y; myprint(y);` is accepted: a branch that is not a block
      declares into the current scope. */
  lemma OnlyBlockOpensScope(c: Tokens.Token)
    ensures CheckProgram(Program([Block([Declare("y")]), Use("y")])) == Err(SemanticError(NotDeclared, "y"))
    ensures CheckProgram(Program([If(Bool(c, true), Declare("y")), Use("y")])).Ok?
  {
    assert CheckStmts([Declare("y")], [map[], map[]]).Ok?;
    assert [Block([Declare("y")]), Use("y")][1..] == [Use("y")];
    var f := DefineFrames([map[]], "y", None);
    assert CheckStmt(If(Bool(c, true), Declare("y")), [map[]]) == Ok(f);
    assert [If(Bool(c, true), Declare("y")), Use("y")][1..] == [Use("y")];
    assert CheckStmt(Use("y"), f) == Ok(f);
    assert [Use("y")][1..] == [];
    assert CheckStmts([Use("y")], f) == Ok(f);
    assert CheckStmts([If(Bool(c, true), Declare("y")), Use("y")], [map[]]) == Ok(f);
  }
}
