/** Scope checking (my_lang_compiler/semantic_analyzer.py). `SymbolTable` is a scope
    whose parent link leads to the enclosing scopes; `SemanticAnalyzer` walks the tree
    with a current scope that a block replaces by a child for its duration. The
    functions `CheckExpr` and `CheckStmt` give the same checks on the scope chain as a
    value, and the visitors are proved to follow them. */
module SemanticAnalysis {
  import opened Wrappers
  import opened Ast
  import opened Errors

  /** A scope chain as a value: the innermost scope's symbols first, then those of
      each enclosing scope. */
  type Frames = seq<map<string, string>>

  /** What `define` stores for an annotation: the annotation itself, or `"auto"`, so
      that a declared name never looks up as `None`. */
  function Marker(annotation: Option<string>): string {
    if annotation.Some? then annotation.value else "auto"
  }

  /** `lookup` on a chain: the innermost scope that holds the name decides; with
      `localOnly` only the innermost scope is consulted. */
  function LookupFrames(frames: Frames, name: string, localOnly: bool): Option<string>
    decreases |frames|
  {
    if |frames| == 0 then None
    else if name in frames[0] then Some(frames[0][name])
    else if localOnly then None
    else LookupFrames(frames[1..], name, false)
  }

  /** `define` on a chain: the innermost scope records the name. */
  function DefineFrames(frames: Frames, name: string, annotation: Option<string>): (r: Frames)
    requires |frames| > 0
    ensures |r| == |frames| && r[1..] == frames[1..]
    ensures LookupFrames(r, name, true) == Some(Marker(annotation))
    ensures LookupFrames(r, name, false) == Some(Marker(annotation))
  {
    [frames[0][name := Marker(annotation)]] + frames[1..]
  }

  /** The names the `Var` nodes of an expression refer to. */
  function Names(e: Expr): set<string> {
    match e
    case Var(_, x) => {x}
    case BinaryOp(l, _, r) => Names(l) + Names(r)
    case UnaryOp(_, x) => Names(x)
    case _ => {}
  }

  /** The expression visitors: every `Var` must be declared in some enclosing
      scope; operands are checked left to right. `Bool` falls to `generic_visit`,
      which finds no child node and does nothing. */
  function CheckExpr(e: Expr, frames: Frames): Result<(), CompileError> {
    match e
    case BinaryOp(l, _, r) =>
      var _ :- CheckExpr(l, frames);
      CheckExpr(r, frames)
    case UnaryOp(_, x) => CheckExpr(x, frames)
    case Var(_, x) =>
      if LookupFrames(frames, x, false).None? then Err(SemanticError(NotDeclared, x)) else Ok(())
    case _ => Ok(())
  }

  /** The statement visitors, from the chain `frames`; on success, the chain
      afterwards. Only the innermost scope can change: a block's own scope is gone
      once it ends. */
  function CheckStmt(s: Stmt, frames: Frames): (r: Result<Frames, CompileError>)
    requires |frames| > 0
    ensures r.Ok? ==> |r.value| == |frames| && r.value[1..] == frames[1..]
    decreases s, 1
  {
    match s
    case Block(ss) =>
      var _ :- CheckStmts(ss, [map[]] + frames);
      Ok(frames)
    case VarDecl(_, x, annotation, init) =>
      if LookupFrames(frames, x, true).Some? then Err(SemanticError(AlreadyDeclared, x))
      else if init.Some? then
        var _ :- CheckExpr(init.value, frames);
        Ok(DefineFrames(frames, x, annotation))
      else Ok(DefineFrames(frames, x, annotation))
    case Assignment(target, value) =>
      if !target.Var? then Err(SemanticError(InvalidAssignmentTarget, ""))
      else if LookupFrames(frames, target.name, false).None? then
        Err(SemanticError(NotDeclaredBeforeAssignment, target.name))
      else
        var _ :- CheckExpr(value, frames);
        Ok(frames)
    case If(c, th, el) =>
      var _ :- CheckExpr(c, frames);
      var afterThen :- CheckStmt(th, frames);
      if el.Some? then CheckStmt(el.value, afterThen) else Ok(afterThen)
    case While(c, body) =>
      var _ :- CheckExpr(c, frames);
      CheckStmt(body, frames)
    case Print(e) =>
      var _ :- CheckExpr(e, frames);
      Ok(frames)
    case NoOp => Ok(frames)
  }

  /** Statements in order, each in the chain the previous one left. */
  function CheckStmts(ss: seq<Stmt>, frames: Frames): (r: Result<Frames, CompileError>)
    requires |frames| > 0
    ensures r.Ok? ==> |r.value| == |frames| && r.value[1..] == frames[1..]
    decreases ss, 2
  {
    if |ss| == 0 then Ok(frames)
    else
      var next :- CheckStmt(ss[0], frames);
      CheckStmts(ss[1..], next)
  }

  /** `visit_Program` from a fresh analyzer: the program's statements in the global
      scope. */
  function CheckProgram(p: Program): Result<Frames, CompileError> {
    CheckStmts(p.statements, [map[]])
  }

  /** A scope. `parent` is fixed at construction; `chain` lists the enclosing
      scopes, nearest first. */
  class SymbolTable {
    var symbols: map<string, string>
    const parent: SymbolTable?
    ghost const chain: seq<SymbolTable>

    /** The parent links end, and never lead back to a scope already passed. */
    ghost predicate Valid()
      decreases |chain|
    {
      this !in chain &&
      if parent == null then chain == [] else chain == [parent] + parent.chain && parent.Valid()
    }

    /** The symbols of this scope and of every enclosing one. */
    ghost function Frames(): (r: Frames)
      reads this, set t | t in chain
      requires Valid()
      ensures |r| == |chain| + 1 && r[0] == symbols
      decreases |chain|
    {
      [symbols] + (if parent == null then [] else parent.Frames())
    }

    constructor (parent: SymbolTable?)
      requires parent != null ==> parent.Valid()
      ensures Valid() && this.parent == parent && symbols == map[]
      ensures Frames() == [map[]] + (if parent == null then [] else parent.Frames())
    {
      symbols := map[];
      this.parent := parent;
      chain := if parent == null then [] else [parent] + parent.chain;
    }

    /** `define`: records the name with its annotation, or `"auto"` without one. */
    method Define(name: string, annotation: Option<string>)
      modifies this
      ensures symbols == old(symbols)[name := Marker(annotation)]
    {
      symbols := symbols[name := Marker(annotation)];
    }

    /** `lookup`: this scope first and then, unless `localOnly`, the parent's
      `lookup`. */
    function Lookup(name: string, localOnly: bool): (r: Option<string>)
      reads this, set t | t in chain
      requires Valid()
      ensures r == LookupFrames(Frames(), name, localOnly)
      decreases |chain|
    {
      if name in symbols then Some(symbols[name])
      else if localOnly then None
      else if parent != null then parent.Lookup(name, false)
      else None
    }
  }

  class SemanticAnalyzer {
    var currentScope: SymbolTable

    ghost predicate Valid()
      reads this
    {
      currentScope.Valid()
    }

    /** The chain the analyzer currently checks in. */
    ghost function Frames(): Frames
      reads this, currentScope, set t | t in currentScope.chain
      requires Valid()
    {
      currentScope.Frames()
    }

    /** The visitor produced `r` where the checker gives `spec`, and on success left
        the chain the checker gives. */
    ghost predicate Follows(r: Result<(), CompileError>, spec: Result<Frames, CompileError>)
      reads this, currentScope, set t | t in currentScope.chain
      requires Valid()
    {
      match spec
      case Ok(f) => r.Ok? && Frames() == f
      case Err(err) => r == Err(err)
    }

    /** A new analyzer starts in one empty global scope. */
    constructor ()
      ensures Valid() && Frames() == [map[]] && fresh(currentScope)
    {
      currentScope := new SymbolTable(null);
    }

    method VisitExpr(e: Expr) returns (r: Result<(), CompileError>)
      requires Valid()
      ensures r == CheckExpr(e, Frames())
      decreases e
    {
      match e
      case BinaryOp(left, _, right) =>
        var _ :- VisitExpr(left);
        r := VisitExpr(right);
      case UnaryOp(_, x) =>
        r := VisitExpr(x);
      case Var(_, x) =>
        if currentScope.Lookup(x, false).None? {
          return Err(SemanticError(NotDeclared, x));
        }
        r := Ok(());
      case _ =>
        r := Ok(());
    }

    method VisitStmt(s: Stmt) returns (r: Result<(), CompileError>)
      requires Valid()
      modifies this, currentScope
      ensures Valid() && currentScope == old(currentScope)
      ensures Follows(r, CheckStmt(s, old(Frames())))
      decreases s, 1
    {
      match s
      case Block(_) => r := VisitBlock(s);
      case VarDecl(_, _, _, _) => r := VisitVarDecl(s);
      case Assignment(_, _) => r := VisitAssignment(s);
      case If(_, _, _) => r := VisitIf(s);
      case While(_, _) => r := VisitWhile(s);
      case Print(e) => r := VisitExpr(e);
      case NoOp => r := Ok(());
    }

    /** `visit_Block`: a child of the current scope for the statements; the previous
        scope is current again afterwards, whether or not a statement failed. */
    method VisitBlock(s: Stmt) returns (r: Result<(), CompileError>)
      requires s.Block? && Valid()
      modifies this, currentScope
      ensures Valid() && currentScope == old(currentScope)
      ensures Follows(r, CheckStmt(s, old(Frames())))
      decreases s, 0
    {
      ghost var frames := Frames();
      var previous := currentScope;
      var child := new SymbolTable(previous);
      currentScope := child;
      assert Frames() == [map[]] + frames;
      r := VisitStmts(s.statements);
      currentScope := previous;
      assert Frames() == frames;
    }

    /** `visit_VarDecl`: no redeclaration in the current scope; the initializer is
        checked before the name is defined. */
    method VisitVarDecl(s: Stmt) returns (r: Result<(), CompileError>)
      requires s.VarDecl? && Valid()
      modifies this, currentScope
      ensures Valid() && currentScope == old(currentScope)
      ensures Follows(r, CheckStmt(s, old(Frames())))
      decreases s, 0
    {
      if currentScope.Lookup(s.varName, true).Some? {
        return Err(SemanticError(AlreadyDeclared, s.varName));
      }
      if s.initializer.Some? {
        var _ :- VisitExpr(s.initializer.value);
      }
      currentScope.Define(s.varName, s.typeAnnotation);
      r := Ok(());
    }

    /** `visit_Assignment`: the target must be a `Var`, then declared, and only then
        is the right-hand side checked. */
    method VisitAssignment(s: Stmt) returns (r: Result<(), CompileError>)
      requires s.Assignment? && Valid()
      modifies this, currentScope
      ensures Valid() && currentScope == old(currentScope)
      ensures Follows(r, CheckStmt(s, old(Frames())))
      decreases s, 0
    {
      if !s.left.Var? {
        return Err(SemanticError(InvalidAssignmentTarget, ""));
      }
      if currentScope.Lookup(s.left.name, false).None? {
        return Err(SemanticError(NotDeclaredBeforeAssignment, s.left.name));
      }
      r := VisitExpr(s.right);

    }

    method VisitIf(s: Stmt) returns (r: Result<(), CompileError>)
      requires s.If? && Valid()
      modifies this, currentScope
      ensures Valid() && currentScope == old(currentScope)
      ensures Follows(r, CheckStmt(s, old(Frames())))
      decreases s, 0
    {
      var _ :- VisitExpr(s.condition);
      var _ :- VisitStmt(s.thenBranch);
      if s.elseBranch.Some? {
        r := VisitStmt(s.elseBranch.value);
      } else {
        r := Ok(());
      }
    }

    method VisitWhile(s: Stmt) returns (r: Result<(), CompileError>)
      requires s.While? && Valid()
      modifies this, currentScope
      ensures Valid() && currentScope == old(currentScope)
      ensures Follows(r, CheckStmt(s, old(Frames())))
      decreases s, 0
    {
      var _ :- VisitExpr(s.condition);
      r := VisitStmt(s.body);
    }

    /** The loop of `visit_Program` and `visit_Block`: each statement in turn, in the
        current scope, stopping at the first failure. */
    method VisitStmts(ss: seq<Stmt>) returns (r: Result<(), CompileError>)
      requires Valid()
      modifies this, currentScope
      ensures Valid() && currentScope == old(currentScope)
      ensures Follows(r, CheckStmts(ss, old(Frames())))
      decreases ss, 2
    {
      var i := 0;
      while i < |ss|
        invariant i <= |ss| && Valid() && currentScope == old(currentScope)
        invariant CheckStmts(ss, old(Frames())) == CheckStmts(ss[i..], Frames())
      {
        assert ss[i..][0] == ss[i] && ss[i..][1..] == ss[i + 1..];
        var _ :- VisitStmt(ss[i]);
        i := i + 1;
      }
      r := Ok(());
    }

    method VisitProgram(p: Program) returns (r: Result<(), CompileError>)
      requires Valid()
      modifies this, currentScope
      ensures Valid() && currentScope == old(currentScope)
      ensures Follows(r, CheckStmts(p.statements, old(Frames())))
    {
      r := VisitStmts(p.statements);
    }
  }

  /** `SemanticAnalyzer().visit(ast)`: the program is accepted exactly when the
      checker accepts it, with the same error otherwise. */
  method Analyze(p: Program) returns (r: Result<(), CompileError>)
    ensures r.Ok? <==> CheckProgram(p).Ok?
    ensures r.Err? ==> r.error == CheckProgram(p).error
  {
    var analyzer := new SemanticAnalyzer();
    r := analyzer.VisitProgram(p);
  }
}
