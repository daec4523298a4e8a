/** The driver (my_lang_compiler/main.py, `compile_source`): lexing and parsing,
    semantic analysis, IR generation, optimization and C generation, in that order,
    the first failing stage ending the compilation with its error. */
module Compiler {
  import opened Wrappers
  import opened Errors
  import opened Ast
  import opened Ir
  import opened Parsing
  import opened SemanticAnalysis
  import opened IrGeneration
  import opened Optimization
  import opened CodeGeneration

  /** An instruction the C generator has a rule for, with a string to print when it
      is a PRINTS. */
  predicate Generatable(q: Quadruple) {
    Supported(q.op) && PrintsHasText(q)
  }

  predicate AllGeneratable(qs: seq<Quadruple>) {
    forall k :: 0 <= k < |qs| ==> Generatable(qs[k])
  }

  lemma GeneratableAppend(a: seq<Quadruple>, b: seq<Quadruple>)
    requires AllGeneratable(a) && AllGeneratable(b)
    ensures AllGeneratable(a + b)
  {
  }

  /** An expression the parser built lowers without error, and its code holds no
      JIF or RETURN. */
  lemma {:induction false} LowerExprGeneratable(e: Expr, t: nat)
    ensures Formed(e) ==> LowerExpr(e, t).Ok?
    ensures LowerExpr(e, t).Ok? ==> AllGeneratable(LowerExpr(e, t).value.code)
    decreases e, 1
  {
    match e
    case BinaryOp(_, _, _) => LowerBinaryOpGeneratable(e, t);
    case UnaryOp(_, _) => LowerUnaryOpGeneratable(e, t);
    case _ =>
  }

  lemma {:induction false} LowerBinaryOpGeneratable(e: Expr, t: nat)
    requires e.BinaryOp?
    ensures Formed(e) ==> LowerBinaryOp(e, t).Ok?
    ensures LowerBinaryOp(e, t).Ok? ==> AllGeneratable(LowerBinaryOp(e, t).value.code)
    decreases e, 0
  {
    LowerExprGeneratable(e.left, t);
    if LowerExpr(e.left, t).Ok? {
      var lhs := LowerExpr(e.left, t).value;
      LowerExprGeneratable(e.right, lhs.temps);
      if LowerExpr(e.right, lhs.temps).Ok? {
        var rhs := LowerExpr(e.right, lhs.temps).value;
        if BinaryOpCode(e.op.kind).Some? {
          var oc := BinaryOpCode(e.op.kind).value;
          var q := Quadruple(oc, Some(lhs.value), Some(rhs.value), IrGeneration.Temp(rhs.temps + 1));
          assert Supported(oc);
          GeneratableAppend(lhs.code, rhs.code);
          GeneratableAppend(lhs.code + rhs.code, [q]);
        }
      }
    }
  }

  lemma {:induction false} LowerUnaryOpGeneratable(e: Expr, t: nat)
    requires e.UnaryOp?
    ensures Formed(e) ==> LowerUnaryOp(e, t).Ok?
    ensures LowerUnaryOp(e, t).Ok? ==> AllGeneratable(LowerUnaryOp(e, t).value.code)
    decreases e, 0
  {
    LowerExprGeneratable(e.expr, t);
  }

  /** A statement the parser built lowers without error, and its code is code the C
      generator accepts: the one PRINTS it can hold prints a string literal's text. */
  lemma {:induction false} LowerStmtGeneratable(s: Stmt, t: nat, l: nat)
    ensures Built(s) ==> LowerStmt(s, t, l).Ok?
    ensures LowerStmt(s, t, l).Ok? ==> AllGeneratable(LowerStmt(s, t, l).value.code)
    decreases s, 1
  {
    match s
    case Block(ss) =>
      LowerStmtsGeneratable(ss, t, l);
    case VarDecl(_, _, _, init) =>
      if init.Some? {
        LowerExprGeneratable(init.value, t);
      }
    case Assignment(_, value) =>
      LowerExprGeneratable(value, t);
    case If(_, _, _) =>
      LowerIfGeneratable(s, t, l);
    case While(_, _) =>
      LowerWhileGeneratable(s, t, l);
    case Print(e) =>
      if !e.String? {
        LowerExprGeneratable(e, t);
      }
    case NoOp =>
  }

  lemma {:induction false} LowerIfGeneratable(s: Stmt, t: nat, l: nat)
    requires s.If?
    ensures Built(s) ==> LowerIf(s, t, l).Ok?
    ensures LowerIf(s, t, l).Ok? ==> AllGeneratable(LowerIf(s, t, l).value.code)
    decreases s, 0
  {
    LowerExprGeneratable(s.condition, t);
    if LowerExpr(s.condition, t).Ok? {
      var cond := LowerExpr(s.condition, t).value;
      LowerStmtGeneratable(s.thenBranch, cond.temps, l + 2);
      if LowerStmt(s.thenBranch, cond.temps, l + 2).Ok? {
        var thenPart := LowerStmt(s.thenBranch, cond.temps, l + 2).value;
        var jump := [Quadruple(Jfalse, arg1 := Some(cond.value), result := LabelRef(l + 1))];
        var skip := [Quadruple(Jmp, result := LabelRef(l + 2)), Quadruple(Label, result := LabelRef(l + 1))];
        var close := [Quadruple(Label, result := LabelRef(l + 2))];
        GeneratableAppend(cond.code, jump);
        GeneratableAppend(cond.code + jump, thenPart.code);
        GeneratableAppend(cond.code + jump + thenPart.code, skip);
        var head := cond.code + jump + thenPart.code + skip;
        if s.elseBranch.None? {
          GeneratableAppend(head, close);
        } else {
          LowerStmtGeneratable(s.elseBranch.value, thenPart.temps, thenPart.labels);
          if LowerStmt(s.elseBranch.value, thenPart.temps, thenPart.labels).Ok? {
            var elsePart := LowerStmt(s.elseBranch.value, thenPart.temps, thenPart.labels).value;
            GeneratableAppend(head, elsePart.code);
            GeneratableAppend(head + elsePart.code, close);
          }
        }
      }
    }
  }

  lemma {:induction false} LowerWhileGeneratable(s: Stmt, t: nat, l: nat)
    requires s.While?
    ensures Built(s) ==> LowerWhile(s, t, l).Ok?
    ensures LowerWhile(s, t, l).Ok? ==> AllGeneratable(LowerWhile(s, t, l).value.code)
    decreases s, 0
  {
    LowerExprGeneratable(s.condition, t);
    if LowerExpr(s.condition, t).Ok? {
      var cond := LowerExpr(s.condition, t).value;
      LowerStmtGeneratable(s.body, cond.temps, l + 2);
      if LowerStmt(s.body, cond.temps, l + 2).Ok? {
        var bodyPart := LowerStmt(s.body, cond.temps, l + 2).value;
        var start := [Quadruple(Label, result := LabelRef(l + 1))];
        var jump := [Quadruple(Jfalse, arg1 := Some(cond.value), result := LabelRef(l + 2))];
        var back := [Quadruple(Jmp, result := LabelRef(l + 1)), Quadruple(Label, result := LabelRef(l + 2))];
        GeneratableAppend(start, cond.code);
        GeneratableAppend(start + cond.code, jump);
        GeneratableAppend(start + cond.code + jump, bodyPart.code);
        GeneratableAppend(start + cond.code + jump + bodyPart.code, back);
      }
    }
  }

  lemma {:induction false} LowerStmtsGeneratable(ss: seq<Stmt>, t: nat, l: nat)
    ensures (forall k :: 0 <= k < |ss| ==> Built(ss[k])) ==> LowerStmts(ss, t, l).Ok?
    ensures LowerStmts(ss, t, l).Ok? ==> AllGeneratable(LowerStmts(ss, t, l).value.code)
    decreases ss, 2
  {
    if |ss| > 0 {
      LowerStmtGeneratable(ss[0], t, l);
      if LowerStmt(ss[0], t, l).Ok? {
        var first := LowerStmt(ss[0], t, l).value;
        LowerStmtsGeneratable(ss[1..], first.temps, first.labels);
      }
    }
  }

  /** Folding turns instructions into CONSTs only, so it keeps code generatable. */
  lemma OptimizedGeneratable(qs: seq<Quadruple>)
    requires AllGeneratable(qs)
    ensures AllGeneratable(Optimized(qs))
  {
    var r := Optimized(qs);
    forall k | 0 <= k < |r|
      ensures Generatable(r[k])
    {
      assert r[k] == qs[k] || r[k].op == Const;
    }
  }

  /** Optimization and C generation of lowered code. */
  ghost function Backend(code: seq<Quadruple>): Result<string, CompileError>
    requires AllGeneratable(code)
  {
    OptimizedGeneratable(code);
    var optimized := Optimized(code);
    Emit(optimized, TempsOf(optimized) + VarsOf(optimized))
  }

  /** Semantic analysis, IR generation and the back end, for a parsed program. */
  ghost function Translation(ast: Program): Result<string, CompileError> {
    var _ :- CheckProgram(ast);
    var low :- LowerProgram(ast);
    LowerStmtsGeneratable(ast.statements, 0, 0);
    Backend(low.code)
  }

  /** `compile_source` without its progress output: the C text, or the error of the
      first stage that fails. */
  ghost function CompileSource(source: string): Result<string, CompileError> {
    var ast :- ParseSource(source);
    Translation(ast)
  }

  /** Once parsing and semantic analysis accept a program, the later stages cannot
      fail: every operator the parser builds has an opcode, and the generated code
      holds only opcodes the C generator has a rule for. */
  lemma BackEndTotal(source: string)
    ensures CompileSource(source).Ok? <==> ParseSource(source).Ok? && CheckProgram(ParseSource(source).value).Ok?
    ensures ParseSource(source).Err? ==> CompileSource(source) == Err(ParseSource(source).error)
    ensures ParseSource(source).Ok? && CheckProgram(ParseSource(source).value).Err? ==>
              CompileSource(source) == Err(CheckProgram(ParseSource(source).value).error)
  {
    if ParseSource(source).Ok? {
      TranslationTotal(ParseSource(source).value);
    }
  }

  lemma TranslationTotal(ast: Program)
    requires forall k :: 0 <= k < |ast.statements| ==> Built(ast.statements[k])
    ensures Translation(ast).Ok? <==> CheckProgram(ast).Ok?
    ensures CheckProgram(ast).Err? ==> Translation(ast) == Err(CheckProgram(ast).error)
  {
    LowerStmtsGeneratable(ast.statements, 0, 0);
    if CheckProgram(ast).Ok? {
      var code := LowerProgram(ast).value.code;
      OptimizedGeneratable(code);
      assert BodyLines(Optimized(code)).Ok?;
    }
  }

  /** `compile_source`: the stage objects run one after the other. */
  method Compile(source: string) returns (r: Result<string, CompileError>)
    ensures r == CompileSource(source)
  {
    var ast :- Parse(source);
    r := Translate(ast);
  }

  /** The stages after parsing. */
  method Translate(ast: Program) returns (r: Result<string, CompileError>)
    ensures r == Translation(ast)
  {
    var checked :- Analyze(ast);
    var ir :- GenerateIR(ast);
    LowerStmtsGeneratable(ast.statements, 0, 0);
    r := RunBackend(ir);
  }

  /** The optimizer, then the C generator, on the generated IR. */
  method RunBackend(ir: IRProgram) returns (r: Result<string, CompileError>)
    requires AllGeneratable(ir.instructions)
    ensures r == Backend(ir.instructions)
  {
    ghost var code := ir.instructions;
    var optimized := Optimize(ir);
    OptimizedGeneratable(code);
    assert optimized.instructions == Optimized(code);
    var codegen := new CodeGenerator(optimized);
    r := codegen.Generate();
    assert codegen.temps + codegen.vars == TempsOf(Optimized(code)) + VarsOf(Optimized(code));
  }
}
