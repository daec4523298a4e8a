/** Lowering of the syntax tree to quadruples (my_lang_compiler/ir_generator.py).
    `LowerExpr` and `LowerStmt` say what each visitor appends, given the counters it
    starts from; the `IRGenerator` class does it in place and is proved to follow
    them. */
module IrGeneration {
  import opened Wrappers
  import opened Text
  import Tokens
  import opened Ir
  import opened Ast
  import opened Errors

  /** `f"t{n}"`, the name of the `n`-th temporary. */
  function TempName(n: nat): string { "t" + NatToString(n) }

  /** `f"L{n}"`, the name of the `n`-th label. */
  function LabelName(n: nat): string { "L" + NatToString(n) }

  /** Distinct counters give distinct names, and no temporary is named like a label. */
  lemma NamesDistinct(a: nat, b: nat)
    ensures TempName(a) == TempName(b) <==> a == b
    ensures LabelName(a) == LabelName(b) <==> a == b
    ensures TempName(a) != LabelName(b)
  {
    if a != b {
      NatToStringInjective(a, b);
      assert TempName(a)[1..] == NatToString(a);
      assert TempName(b)[1..] == NatToString(b);
      assert LabelName(a)[1..] == NatToString(a);
      assert LabelName(b)[1..] == NatToString(b);
    }
    assert TempName(a)[0] == 't' && LabelName(b)[0] == 'L';
  }

  /** `op_map`: the opcode of a binary operator token. */
  function BinaryOpCode(k: Tokens.TokenType): Option<OpCode> {
    match k
    case Plus => Some(Add)
    case Minus => Some(Sub)
    case Mul => Some(Mul)
    case Div => Some(Div)
    case Eq => Some(Seq)
    case Ne => Some(Sne)
    case Lt => Some(Slt)
    case Le => Some(Sle)
    case Gt => Some(Sgt)
    case Ge => Some(Sge)
    case _ => None
  }

  /** What lowering an expression leaves: the instructions appended, the operand the
      visitor returns, and the temporary counter afterwards. */
  datatype LoweredExpr = LoweredExpr(code: seq<Quadruple>, value: Operand, temps: nat)

  /** What lowering a statement leaves: the instructions appended and both counters
      afterwards. */
  datatype LoweredStmt = LoweredStmt(code: seq<Quadruple>, temps: nat, labels: nat)

  function Temp(n: nat): Option<Operand> { Some(Str(TempName(n))) }

  function LabelRef(n: nat): Option<Operand> { Some(Str(LabelName(n))) }

  /** The `visit_*` methods for expressions, run with the temporary counter at `t`. */
  function LowerExpr(e: Expr, t: nat): Result<LoweredExpr, CompileError>
    decreases e, 1
  {
    match e
    case Num(_, n) =>
      Ok(LoweredExpr([Quadruple(Const, arg1 := Some(Int(n)), result := Temp(t + 1))], Str(TempName(t + 1)), t + 1))
    case String(_, s) =>
      Ok(LoweredExpr([], Str(s), t))
    case Bool(_, b) =>
      Ok(LoweredExpr([Quadruple(Const, arg1 := Some(Int(if b then 1 else 0)), result := Temp(t + 1))],
                     Str(TempName(t + 1)), t + 1))
    case Var(_, x) =>
      Ok(LoweredExpr([Quadruple(Load, arg1 := Some(Str(x)), result := Temp(t + 1))], Str(TempName(t + 1)), t + 1))
    case BinaryOp(_, _, _) => LowerBinaryOp(e, t)
    case UnaryOp(_, _) => LowerUnaryOp(e, t)
  }

  /** `visit_BinaryOp`: the left operand's code, then the right's, then one
      instruction into a temporary drawn after both; an operator outside `op_map` is an
      error. */
  function LowerBinaryOp(e: Expr, t: nat): Result<LoweredExpr, CompileError>
    requires e.BinaryOp?
    decreases e, 0
  {
    var lhs :- LowerExpr(e.left, t);
    var rhs :- LowerExpr(e.right, lhs.temps);
    var res := rhs.temps + 1;
    match BinaryOpCode(e.op.kind)
    case None => Err(UnknownBinaryOp(e.op.kind))
    case Some(oc) =>
      Ok(LoweredExpr(lhs.code + rhs.code + [Quadruple(oc, Some(lhs.value), Some(rhs.value), Temp(res))],
                     Str(TempName(res)), res))
  }

  /** `visit_UnaryOp`: the operand's code, then a result temporary is drawn. Unary
      minus draws a second temporary for the zero and subtracts; unary plus returns the
      operand itself; any other operator returns the unused result temporary. */
  function LowerUnaryOp(e: Expr, t: nat): Result<LoweredExpr, CompileError>
    requires e.UnaryOp?
    decreases e, 0
  {
    var sub :- LowerExpr(e.expr, t);
    var res := sub.temps + 1;
    if e.op.kind == Tokens.Minus then
      Ok(LoweredExpr(sub.code + [Quadruple(Const, arg1 := Some(Int(0)), result := Temp(res + 1)),
                                 Quadruple(Sub, Temp(res + 1), Some(sub.value), Temp(res))],
                     Str(TempName(res)), res + 1))
    else if e.op.kind == Tokens.Plus then
      Ok(LoweredExpr(sub.code, sub.value, res))
    else
      Ok(LoweredExpr(sub.code, Str(TempName(res)), res))
  }

  /** The `visit_*` methods for statements, run with the counters at `t` and `l`. An
      assignment whose target is not a `Var` is refused (see README). */
  function LowerStmt(s: Stmt, t: nat, l: nat): Result<LoweredStmt, CompileError>
    decreases s, 1
  {
    match s
    case Block(ss) => LowerStmts(ss, t, l)
    case VarDecl(_, x, _, init) =>
      if init.None? then Ok(LoweredStmt([], t, l))
      else
        var rhs :- LowerExpr(init.value, t);
        Ok(LoweredStmt(rhs.code + [Quadruple(Store, arg1 := Some(rhs.value), result := Some(Str(x)))], rhs.temps, l))
    case Assignment(target, value) =>
      var rhs :- LowerExpr(value, t);
      if !target.Var? then Err(SemanticError(InvalidAssignmentTarget, ""))
      else Ok(LoweredStmt(rhs.code + [Quadruple(Store, arg1 := Some(rhs.value), result := Some(Str(target.name)))],
                          rhs.temps, l))
    case If(_, _, _) => LowerIf(s, t, l)
    case While(_, _) => LowerWhile(s, t, l)
    case Print(e) =>
      if e.String? then Ok(LoweredStmt([Quadruple(Prints, arg1 := Some(Str(e.text)))], t, l))
      else
        var v :- LowerExpr(e, t);
        Ok(LoweredStmt(v.code + [Quadruple(OpCode.Print, arg1 := Some(v.value))], v.temps, l))
    case NoOp => Ok(LoweredStmt([], t, l))
  }

  /** `visit_If`: condition code; JFALSE to the else label; the then branch; JMP to
      the end label; the else label; the else branch if any; the end label. Both labels
      are drawn before the then branch is lowered. */
  function LowerIf(s: Stmt, t: nat, l: nat): Result<LoweredStmt, CompileError>
    requires s.If?
    decreases s, 0
  {
    var cond :- LowerExpr(s.condition, t);
    var thenPart :- LowerStmt(s.thenBranch, cond.temps, l + 2);
    var head := cond.code + [Quadruple(Jfalse, arg1 := Some(cond.value), result := LabelRef(l + 1))]
                + thenPart.code + [Quadruple(Jmp, result := LabelRef(l + 2)), Quadruple(Label, result := LabelRef(l + 1))];
    if s.elseBranch.None? then
      Ok(LoweredStmt(head + [Quadruple(Label, result := LabelRef(l + 2))], thenPart.temps, thenPart.labels))
    else
      var elsePart :- LowerStmt(s.elseBranch.value, thenPart.temps, thenPart.labels);
      Ok(LoweredStmt(head + elsePart.code + [Quadruple(Label, result := LabelRef(l + 2))],
                     elsePart.temps, elsePart.labels))
  }

  /** The code `visit_If` appends one instruction or piece at a time, grouped as
      `LowerIf` builds it. */
  lemma IfShape(before: seq<Quadruple>, c: seq<Quadruple>, jf: Quadruple, th: seq<Quadruple>, jmp: Quadruple,
                elseMark: Quadruple, e: seq<Quadruple>, endMark: Quadruple)
    ensures before + c + [jf] + th + [jmp] + [elseMark] + e + [endMark]
            == before + (c + [jf] + th + [jmp, elseMark] + e + [endMark])
    ensures before + c + [jf] + th + [jmp] + [elseMark] + [endMark]
            == before + (c + [jf] + th + [jmp, elseMark] + [endMark])
  {
  }

  /** The same for `visit_While`. */
  lemma WhileShape(before: seq<Quadruple>, startMark: Quadruple, c: seq<Quadruple>, jf: Quadruple,
                   body: seq<Quadruple>, jmp: Quadruple, endMark: Quadruple)
    ensures before + [startMark] + c + [jf] + body + [jmp] + [endMark]
            == before + ([startMark] + c + [jf] + body + [jmp, endMark])
  {
  }

  /** `visit_While`: the start label (drawn first, then the end label); condition code;
      JFALSE to the end label; the body; JMP to the start label; the end label. */
  function LowerWhile(s: Stmt, t: nat, l: nat): Result<LoweredStmt, CompileError>
    requires s.While?
    decreases s, 0
  {
    var cond :- LowerExpr(s.condition, t);
    var bodyPart :- LowerStmt(s.body, cond.temps, l + 2);
    Ok(LoweredStmt([Quadruple(Label, result := LabelRef(l + 1))] + cond.code
                   + [Quadruple(Jfalse, arg1 := Some(cond.value), result := LabelRef(l + 2))]
                   + bodyPart.code
                   + [Quadruple(Jmp, result := LabelRef(l + 1)), Quadruple(Label, result := LabelRef(l + 2))],
                   bodyPart.temps, bodyPart.labels))
  }

  /** The statements of a block or program, in order, each starting from the
      counters the previous one left. */
  function LowerStmts(ss: seq<Stmt>, t: nat, l: nat): Result<LoweredStmt, CompileError>
    decreases ss, 2
  {
    if |ss| == 0 then Ok(LoweredStmt([], t, l))
    else
      var first :- LowerStmt(ss[0], t, l);
      var rest :- LowerStmts(ss[1..], first.temps, first.labels);
      Ok(LoweredStmt(first.code + rest.code, rest.temps, rest.labels))
  }

  /** `code` followed by what `r` appends; an error stays an error. */
  function Then(code: seq<Quadruple>, r: Result<LoweredStmt, CompileError>): Result<LoweredStmt, CompileError> {
    match r
    case Ok(low) => Ok(LoweredStmt(code + low.code, low.temps, low.labels))
    case Err(e) => Err(e)
  }

  lemma ThenNil(r: Result<LoweredStmt, CompileError>)
    ensures Then([], r) == r
  {
    if r.Ok? {
      assert [] + r.value.code == r.value.code;
    }
  }

  lemma ThenThen(a: seq<Quadruple>, b: seq<Quadruple>, r: Result<LoweredStmt, CompileError>)
    ensures Then(a, Then(b, r)) == Then(a + b, r)
  {
    if r.Ok? {
      assert a + (b + r.value.code) == (a + b) + r.value.code;
    }
  }

  /** `IRGenerator`: the program being built and the two name counters. */
  class IRGenerator {
    const program: IRProgram
    var tempCounter: nat
    var labelCounter: nat

    /** A new generator: an empty program and both counters at 0. */
    constructor ()
      ensures fresh(program) && program.instructions == []
      ensures tempCounter == 0 && labelCounter == 0
    {
      program := new IRProgram();
      tempCounter := 0;
      labelCounter := 0;
    }

    /** `fresh_temp`: bumps the counter and names the new temporary. */
    method FreshTemp() returns (name: string)
      modifies this
      ensures tempCounter == old(tempCounter) + 1 && labelCounter == old(labelCounter)
      ensures name == TempName(tempCounter)
    {
      tempCounter := tempCounter + 1;
      name := "t" + NatToString(tempCounter);
    }

    /** `fresh_label`: bumps the counter and names the new label. */
    method FreshLabel() returns (name: string)
      modifies this
      ensures labelCounter == old(labelCounter) + 1 && tempCounter == old(tempCounter)
      ensures name == LabelName(labelCounter)
    {
      labelCounter := labelCounter + 1;
      name := "L" + NatToString(labelCounter);
    }

    /** The generator's state is what `low` says the expression's code appended to
        `before` and the temporary counter afterwards are, with `r` the operand it
        returns, or `r` is the same error as `low`. */
    predicate FollowsExpr(r: Result<Operand, CompileError>, low: Result<LoweredExpr, CompileError>,
                          before: seq<Quadruple>)
      reads this, program
    {
      (r.Ok? <==> low.Ok?) &&
      (r.Ok? ==> r.value == low.value.value && tempCounter == low.value.temps &&
                 program.instructions == before + low.value.code) &&
      (r.Err? ==> r.error == low.error)
    }

    /** `visit`, on an expression: dispatches to the visitor for its kind. No
        expression visitor draws a label. */
    method VisitExpr(e: Expr) returns (r: Result<Operand, CompileError>)
      modifies this, program
      decreases e, 1
      ensures labelCounter == old(labelCounter)
      ensures FollowsExpr(r, LowerExpr(e, old(tempCounter)), old(program.instructions))
    {
      match e
      case Num(_, _) =>
        r := VisitNum(e);
      case String(_, _) =>
        r := VisitString(e);
      case Bool(_, _) =>
        r := VisitBool(e);
      case Var(_, _) =>
        r := VisitVar(e);
      case BinaryOp(_, _, _) =>
        r := VisitBinaryOp(e);
      case UnaryOp(_, _) =>
        r := VisitUnaryOp(e);
    }

    /** `visit_Num`: CONST of the value into a fresh temporary. */
    method VisitNum(e: Expr) returns (r: Result<Operand, CompileError>)
      requires e.Num?
      modifies this, program
      ensures labelCounter == old(labelCounter)
      ensures FollowsExpr(r, LowerExpr(e, old(tempCounter)), old(program.instructions))
    {
      var temp := FreshTemp();
      program.Add(Quadruple(Const, arg1 := Some(Int(e.n)), result := Some(Str(temp))));
      r := Ok(Str(temp));
    }

    /** `visit_String`: emits nothing and returns the literal's text. */
    method VisitString(e: Expr) returns (r: Result<Operand, CompileError>)
      requires e.String?
      ensures r == Ok(Str(e.text))
    {
      r := Ok(Str(e.text));
    }

    /** `visit_Bool`: CONST of 1 or 0 into a fresh temporary. */
    method VisitBool(e: Expr) returns (r: Result<Operand, CompileError>)
      requires e.Bool?
      modifies this, program
      ensures labelCounter == old(labelCounter)
      ensures FollowsExpr(r, LowerExpr(e, old(tempCounter)), old(program.instructions))
    {
      var temp := FreshTemp();
      program.Add(Quadruple(Const, arg1 := Some(Int(if e.b then 1 else 0)), result := Some(Str(temp))));
      r := Ok(Str(temp));
    }

    /** `visit_Var`: LOAD of the name into a fresh temporary. */
    method VisitVar(e: Expr) returns (r: Result<Operand, CompileError>)
      requires e.Var?
      modifies this, program
      ensures labelCounter == old(labelCounter)
      ensures FollowsExpr(r, LowerExpr(e, old(tempCounter)), old(program.instructions))
    {
      var temp := FreshTemp();
      program.Add(Quadruple(Load, arg1 := Some(Str(e.name)), result := Some(Str(temp))));
      r := Ok(Str(temp));
    }

    /** `visit_BinaryOp`. */
    method VisitBinaryOp(e: Expr) returns (r: Result<Operand, CompileError>)
      requires e.BinaryOp?
      modifies this, program
      decreases e, 0
      ensures labelCounter == old(labelCounter)
      ensures FollowsExpr(r, LowerBinaryOp(e, old(tempCounter)), old(program.instructions))
    {
      var leftTemp :- VisitExpr(e.left);
      var rightTemp :- VisitExpr(e.right);
      var resultTemp := FreshTemp();
      var opCode := BinaryOpCode(e.op.kind);
      if opCode.Some? {
        program.Add(Quadruple(opCode.value, Some(leftTemp), Some(rightTemp), Some(Str(resultTemp))));
        r := Ok(Str(resultTemp));
      } else {
        r := Err(UnknownBinaryOp(e.op.kind));
      }
    }

    /** `visit_UnaryOp`. */
    method VisitUnaryOp(e: Expr) returns (r: Result<Operand, CompileError>)
      requires e.UnaryOp?
      modifies this, program
      decreases e, 0
      ensures labelCounter == old(labelCounter)
      ensures FollowsExpr(r, LowerUnaryOp(e, old(tempCounter)), old(program.instructions))
    {
      var exprTemp :- VisitExpr(e.expr);
      var resultTemp := FreshTemp();
      if e.op.kind == Tokens.Minus {
        var zero := FreshTemp();
        program.Add(Quadruple(Const, arg1 := Some(Int(0)), result := Some(Str(zero))));
        program.Add(Quadruple(Sub, Some(Str(zero)), Some(exprTemp), Some(Str(resultTemp))));
      } else if e.op.kind == Tokens.Plus {
        return Ok(exprTemp);
      }
      r := Ok(Str(resultTemp));
    }

    /** The generator's state is what `low` says the code appended to `before` and
        the counters afterwards are, or `r` is the same error as `low`. */
    predicate Follows(r: Result<(), CompileError>, low: Result<LoweredStmt, CompileError>, before: seq<Quadruple>)
      reads this, program
    {
      (r.Ok? <==> low.Ok?) &&
      (r.Ok? ==> tempCounter == low.value.temps && labelCounter == low.value.labels &&
                 program.instructions == before + low.value.code) &&
      (r.Err? ==> r.error == low.error)
    }

    /** `visit`, on a statement: dispatches to the visitor for its kind. */
    method VisitStmt(s: Stmt) returns (r: Result<(), CompileError>)
      modifies this, program
      decreases s, 2
      ensures Follows(r, LowerStmt(s, old(tempCounter), old(labelCounter)), old(program.instructions))
    {
      match s
      case Block(ss) => r := VisitStmts(ss);
      case VarDecl(_, _, _, _) => r := VisitVarDecl(s);
      case Assignment(_, _) => r := VisitAssignment(s);
      case If(_, _, _) => r := VisitIf(s);
      case While(_, _) => r := VisitWhile(s);
      case Print(_) => r := VisitPrint(s);
      case NoOp => r := Ok(());
    }

    /** `visit_VarDecl`: nothing without an initializer; otherwise its code and a STORE
        into the declared name. */
    method VisitVarDecl(s: Stmt) returns (r: Result<(), CompileError>)
      requires s.VarDecl?
      modifies this, program
      decreases s, 1
      ensures Follows(r, LowerStmt(s, old(tempCounter), old(labelCounter)), old(program.instructions))
    {
      if s.initializer.Some? {
        var resultTemp :- VisitExpr(s.initializer.value);
        program.Add(Quadruple(Store, arg1 := Some(resultTemp), result := Some(Str(s.varName))));
      }
      r := Ok(());
    }

    /** `visit_Assignment`: the right-hand side's code and a STORE into the target. */
    method VisitAssignment(s: Stmt) returns (r: Result<(), CompileError>)
      requires s.Assignment?
      modifies this, program
      decreases s, 1
      ensures Follows(r, LowerStmt(s, old(tempCounter), old(labelCounter)), old(program.instructions))
    {
      var resultTemp :- VisitExpr(s.right);
      if !s.left.Var? {
        return Err(SemanticError(InvalidAssignmentTarget, ""));
      }
      program.Add(Quadruple(Store, arg1 := Some(resultTemp), result := Some(Str(s.left.name))));
      r := Ok(());
    }

    /** `visit_If`. */
    method VisitIf(s: Stmt) returns (r: Result<(), CompileError>)
      requires s.If?
      modifies this, program
      decreases s, 1
      ensures Follows(r, LowerIf(s, old(tempCounter), old(labelCounter)), old(program.instructions))
    {
      ghost var before, l := program.instructions, labelCounter;
      var conditionTemp :- VisitExpr(s.condition);
      ghost var cond := LowerExpr(s.condition, old(tempCounter)).value;
      var elseLabel := FreshLabel();
      var endLabel := FreshLabel();
      program.Add(Quadruple(Jfalse, arg1 := Some(conditionTemp), result := Some(Str(elseLabel))));
      ghost var jf := Quadruple(Jfalse, arg1 := Some(cond.value), result := LabelRef(l + 1));
      var _ :- VisitStmt(s.thenBranch);
      ghost var thenPart := LowerStmt(s.thenBranch, cond.temps, l + 2).value;
      program.Add(Quadruple(Jmp, result := Some(Str(endLabel))));
      program.Add(Quadruple(Label, result := Some(Str(elseLabel))));
      ghost var jmp, elseMark := Quadruple(Jmp, result := LabelRef(l + 2)), Quadruple(Label, result := LabelRef(l + 1));
      ghost var endMark := Quadruple(Label, result := LabelRef(l + 2));
      assert program.instructions == before + cond.code + [jf] + thenPart.code + [jmp] + [elseMark];
      r := VisitIfTail(s, endLabel, l + 2);
      if s.elseBranch.None? {
        IfShape(before, cond.code, jf, thenPart.code, jmp, elseMark, [], endMark);
      } else if r.Ok? {
        ghost var elsePart := LowerStmt(s.elseBranch.value, thenPart.temps, thenPart.labels).value;
        IfShape(before, cond.code, jf, thenPart.code, jmp, elseMark, elsePart.code, endMark);
      }
    }

    /** The end of `visit_If`: the else branch, when there is one, then the end
        label. */
    method VisitIfTail(s: Stmt, endLabel: string, ghost n: nat) returns (r: Result<(), CompileError>)
      requires s.If? && endLabel == LabelName(n)
      modifies this, program
      decreases s, 0
      ensures s.elseBranch.None? ==>
                r.Ok? && tempCounter == old(tempCounter) && labelCounter == old(labelCounter) &&
                program.instructions == old(program.instructions) + [Quadruple(Label, result := LabelRef(n))]
      ensures s.elseBranch.Some? ==>
                var low := LowerStmt(s.elseBranch.value, old(tempCounter), old(labelCounter));
                (r.Ok? <==> low.Ok?) &&
                (r.Ok? ==> tempCounter == low.value.temps && labelCounter == low.value.labels &&
                           program.instructions == old(program.instructions) + low.value.code
                                                   + [Quadruple(Label, result := LabelRef(n))]) &&
                (r.Err? ==> r.error == low.error)
    {
      if s.elseBranch.Some? {
        var _ :- VisitStmt(s.elseBranch.value);
      }
      program.Add(Quadruple(Label, result := Some(Str(endLabel))));
      r := Ok(());
    }

    /** `visit_While`. */
    method VisitWhile(s: Stmt) returns (r: Result<(), CompileError>)
      requires s.While?
      modifies this, program
      decreases s, 1
      ensures Follows(r, LowerWhile(s, old(tempCounter), old(labelCounter)), old(program.instructions))
    {
      ghost var before, t, l := program.instructions, tempCounter, labelCounter;
      var startLabel := FreshLabel();
      var endLabel := FreshLabel();
      program.Add(Quadruple(Label, result := Some(Str(startLabel))));
      var conditionTemp :- VisitExpr(s.condition);
      ghost var cond := LowerExpr(s.condition, t).value;
      program.Add(Quadruple(Jfalse, arg1 := Some(conditionTemp), result := Some(Str(endLabel))));
      var _ :- VisitStmt(s.body);
      ghost var bodyPart := LowerStmt(s.body, cond.temps, l + 2).value;
      program.Add(Quadruple(Jmp, result := Some(Str(startLabel))));
      program.Add(Quadruple(Label, result := Some(Str(endLabel))));
      WhileShape(before, Quadruple(Label, result := LabelRef(l + 1)), cond.code,
                 Quadruple(Jfalse, arg1 := Some(cond.value), result := LabelRef(l + 2)), bodyPart.code,
                 Quadruple(Jmp, result := LabelRef(l + 1)), Quadruple(Label, result := LabelRef(l + 2)));
      r := Ok(());
    }

    /** `visit_Print`: a string literal is printed by one PRINTS of its text; anything
        else by its code and a PRINT of its operand. */
    method VisitPrint(s: Stmt) returns (r: Result<(), CompileError>)
      requires s.Print?
      modifies this, program
      decreases s, 1
      ensures Follows(r, LowerStmt(s, old(tempCounter), old(labelCounter)), old(program.instructions))
    {
      if s.expr.String? {
        program.Add(Quadruple(Prints, arg1 := Some(Str(s.expr.text))));
      } else {
        var exprTemp :- VisitExpr(s.expr);
        program.Add(Quadruple(OpCode.Print, arg1 := Some(exprTemp)));
      }
      r := Ok(());
    }

    /** The loop of `visit_Block` and `visit_Program`: visits each statement in turn. */
    method VisitStmts(ss: seq<Stmt>) returns (r: Result<(), CompileError>)
      modifies this, program
      decreases ss, 3
      ensures Follows(r, LowerStmts(ss, old(tempCounter), old(labelCounter)), old(program.instructions))
    {
      ghost var before := program.instructions;
      assert program.instructions[|before|..] == [] && ss[0..] == ss;
      ThenNil(LowerStmts(ss, tempCounter, labelCounter));
      var i := 0;
      while i < |ss|
        invariant 0 <= i <= |ss|
        invariant |before| <= |program.instructions| && program.instructions[..|before|] == before
        invariant LowerStmts(ss, old(tempCounter), old(labelCounter))
               == Then(program.instructions[|before|..], LowerStmts(ss[i..], tempCounter, labelCounter))
      {
        ghost var done := program.instructions[|before|..];
        ghost var t, l := tempCounter, labelCounter;
        assert ss[i..][0] == ss[i] && ss[i..][1..] == ss[i + 1..];
        var _ :- VisitStmt(ss[i]);
        ghost var low := LowerStmt(ss[i], t, l).value;
        assert program.instructions == before + (done + low.code);
        assert program.instructions[|before|..] == done + low.code;
        ThenThen(done, low.code, LowerStmts(ss[i + 1..], tempCounter, labelCounter));
        i := i + 1;
      }
      r := Ok(());
    }

    /** `visit_Program`: visits the statements in order and returns the program. */
    method VisitProgram(p: Program) returns (r: Result<IRProgram, CompileError>)
      modifies this, program
      ensures Follows(if r.Ok? then Ok(()) else Err(r.error),
                      LowerStmts(p.statements, old(tempCounter), old(labelCounter)), old(program.instructions))
      ensures r.Ok? ==> r.value == program
    {
      var _ :- VisitStmts(p.statements);
      r := Ok(program);
    }
  }

  /** The code a fresh generator produces for a whole program. */
  function LowerProgram(p: Program): Result<LoweredStmt, CompileError> {
    LowerStmts(p.statements, 0, 0)
  }

  /** `IRGenerator().visit(ast)`: a new program holding the lowered code. */
  method GenerateIR(p: Program) returns (r: Result<IRProgram, CompileError>)
    ensures r.Ok? <==> LowerProgram(p).Ok?
    ensures r.Ok? ==> fresh(r.value) && r.value.instructions == LowerProgram(p).value.code
    ensures r.Err? ==> r.error == LowerProgram(p).error
  {
    var generator := new IRGenerator();
    r := generator.VisitProgram(p);
  }
}
