/** The code the generator produces for an expression computes the expression's
    value: run under the meaning of `IrSemantics`, it leaves that value in the operand
    the visitor returns, and it changes no name except the temporaries it drew. */
module IrGenerationCorrectness {
  import opened Wrappers
  import Tokens
  import opened Ir
  import opened IrSemantics
  import opened Ast
  import opened IrGeneration
  import opened IrGenerationProperties

  /** The value of a binary operator, with the IR's reading of each: floor division
      for `/` (none for a zero divisor), and 1 or 0 for a comparison. */
  function Apply(k: Tokens.TokenType, a: int, b: int): Option<int> {
    match k
    case Plus => Some(a + b)
    case Minus => Some(a - b)
    case Mul => Some(a * b)
    case Div => if b == 0 then None else Some(FloorDiv(a, b))
    case Eq => Some(BoolToInt(a == b))
    case Ne => Some(BoolToInt(a != b))
    case Lt => Some(BoolToInt(a < b))
    case Le => Some(BoolToInt(a <= b))
    case Gt => Some(BoolToInt(a > b))
    case Ge => Some(BoolToInt(a >= b))
    case _ => None
  }

  /** The integer value of an expression when its variables have the values in
      `env`; `None` for a string, an unbound variable, a division by zero or an
      operator without a value. A boolean is 1 or 0, as the generator loads it. */
  function Eval(e: Expr, env: map<string, int>): Option<int> {
    match e
    case Num(_, n) => Some(n)
    case Bool(_, b) => Some(BoolToInt(b))
    case Var(_, x) => if x in env then Some(env[x]) else None
    case String(_, _) => None
    case UnaryOp(op, x) =>
      if op.kind == Tokens.Minus then
        (match Eval(x, env)
         case Some(v) => Some(-v)
         case None => None)
      else if op.kind == Tokens.Plus then Eval(x, env)
      else None
    case BinaryOp(l, op, r) =>
      match (Eval(l, env), Eval(r, env))
      case (Some(a), Some(b)) => Apply(op.kind, a, b)
      case _ => None
  }

  /** No variable of `e` is named like a temporary (`t` and a counter), so the
      temporaries the code writes cannot overwrite it. */
  predicate UserNames(e: Expr) {
    match e
    case Var(_, x) => TempNumber(Some(Str(x))).None?
    case BinaryOp(l, _, r) => UserNames(l) && UserNames(r)
    case UnaryOp(_, x) => UserNames(x)
    case _ => true
  }

  /** `env2` differs from `env1` at most in temporaries drawn in `(lo, hi]`. */
  ghost predicate Agree(env1: map<string, int>, env2: map<string, int>, lo: nat, hi: nat) {
    forall x :: !TempIn(Some(Str(x)), lo, hi) ==> (x in env1 <==> x in env2) && (x in env1 ==> env2[x] == env1[x])
  }

  /** Runs straight-line code from its first instruction to its last; `None` if one
      of them cannot run. */
  function RunStraight(code: seq<Quadruple>, env: map<string, int>): Option<map<string, int>>
    decreases |code|
  {
    if |code| == 0 then Some(env)
    else
      match ExecAt([], code[0], State(0, env, []))
      case None => None
      case Some(st) => RunStraight(code[1..], st.env)
  }

  /** Every instruction writes a temporary: CONST, LOAD and binary opcodes only. */
  predicate OnlyWrites(code: seq<Quadruple>) {
    forall i :: 0 <= i < |code| ==> WritesTemp(code[i].op)
  }

  // ---- Facts about the pieces ----

  /** `Apply` is what the generator's opcode for the operator computes. */
  lemma ApplyOpCode(k: Tokens.TokenType, a: int, b: int)
    ensures BinaryOpCode(k).Some? ==> IsBinary(BinaryOpCode(k).value) && WritesTemp(BinaryOpCode(k).value) &&
                                      Arith(BinaryOpCode(k).value, a, b) == Apply(k, a, b)
    ensures BinaryOpCode(k).None? ==> Apply(k, a, b).None?
  {
  }

  /** An expression with a value is one whose operand is a temporary its code writes. */
  lemma {:induction false} EvalComputes(e: Expr, env: map<string, int>)
    requires Eval(e, env).Some?
    ensures Computes(e)
  {
    if e.UnaryOp? && e.op.kind == Tokens.Plus {
      EvalComputes(e.expr, env);
    }
  }

  /** Changing only temporaries does not change the value of an expression over user
      names. */
  lemma {:induction false} EvalAgree(e: Expr, env1: map<string, int>, env2: map<string, int>, lo: nat, hi: nat)
    requires UserNames(e) && Agree(env1, env2, lo, hi)
    ensures Eval(e, env2) == Eval(e, env1)
  {
    match e
    case Var(_, x) =>
      VarAgree(e, env1, env2, lo, hi);
    case BinaryOp(l, _, r) =>
      EvalAgree(l, env1, env2, lo, hi);
      EvalAgree(r, env1, env2, lo, hi);
      BinaryAgree(e, env1, env2);
    case UnaryOp(_, x) =>
      EvalAgree(x, env1, env2, lo, hi);
      UnaryAgree(e, env1, env2);
    case _ =>
  }

  lemma VarAgree(e: Expr, env1: map<string, int>, env2: map<string, int>, lo: nat, hi: nat)
    requires e.Var? && TempNumber(Some(Str(e.name))).None? && Agree(env1, env2, lo, hi)
    ensures Eval(e, env2) == Eval(e, env1)
  {
    assert !TempIn(Some(Str(e.name)), lo, hi);
  }

  lemma BinaryAgree(e: Expr, env1: map<string, int>, env2: map<string, int>)
    requires e.BinaryOp? && Eval(e.left, env2) == Eval(e.left, env1) && Eval(e.right, env2) == Eval(e.right, env1)
    ensures Eval(e, env2) == Eval(e, env1)
  {
  }

  lemma UnaryAgree(e: Expr, env1: map<string, int>, env2: map<string, int>)
    requires e.UnaryOp? && Eval(e.expr, env2) == Eval(e.expr, env1)
    ensures Eval(e, env2) == Eval(e, env1)
  {
  }

  lemma AgreeTrans(env1: map<string, int>, env2: map<string, int>, env3: map<string, int>, a: nat, b: nat, c: nat)
    requires a <= b <= c && Agree(env1, env2, a, b) && Agree(env2, env3, b, c)
    ensures Agree(env1, env3, a, c)
  {
  }

  lemma AgreeWiden(env1: map<string, int>, env2: map<string, int>, a: nat, b: nat, c: nat)
    requires b <= c && Agree(env1, env2, a, b)
    ensures Agree(env1, env2, a, c)
  {
  }

  /** Writing the `n`-th temporary changes nothing else. */
  lemma AgreeWrite(env: map<string, int>, n: nat, v: int, lo: nat, hi: nat)
    requires lo < n <= hi
    ensures Agree(env, env[TempName(n) := v], lo, hi)
  {
    TempNumberOfTemp(n);
  }

  lemma {:induction false} RunStraightAppend(c1: seq<Quadruple>, c2: seq<Quadruple>, env: map<string, int>)
    ensures RunStraight(c1 + c2, env) ==
      (match RunStraight(c1, env)
       case None => None
       case Some(m) => RunStraight(c2, m))
    decreases |c1|
  {
    if |c1| == 0 {
      assert c1 + c2 == c2;
    } else {
      assert (c1 + c2)[0] == c1[0];
      assert (c1 + c2)[1..] == c1[1..] + c2;
      match ExecAt([], c1[0], State(0, env, []))
      case None =>
      case Some(st) => RunStraightAppend(c1[1..], c2, st.env);
    }
  }

  lemma OnlyWritesAppend(c1: seq<Quadruple>, c2: seq<Quadruple>)
    requires OnlyWrites(c1) && OnlyWrites(c2)
    ensures OnlyWrites(c1 + c2)
  {
    var code := c1 + c2;
    forall i | 0 <= i < |code| ensures WritesTemp(code[i].op) {
      if i >= |c1| {
        assert code[i] == c2[i - |c1|];
      }
    }
  }

  /** The code of an expression holds only CONST, LOAD and binary opcodes. */
  lemma {:induction false} LowerExprOnlyWrites(e: Expr, t: nat)
    requires LowerExpr(e, t).Ok?
    ensures OnlyWrites(LowerExpr(e, t).value.code)
    decreases e
  {
    match e
    case BinaryOp(l, op, r) =>
      var lhs := LowerExpr(l, t).value;
      var rhs := LowerExpr(r, lhs.temps).value;
      var code := LowerExpr(e, t).value.code;
      LowerExprOnlyWrites(l, t);
      LowerExprOnlyWrites(r, lhs.temps);
      ApplyOpCode(op.kind, 0, 0);
      OnlyWritesAppend(lhs.code, rhs.code);
      OnlyWritesAppend(lhs.code + rhs.code, [code[|code| - 1]]);
      assert code == lhs.code + rhs.code + [code[|code| - 1]];
    case UnaryOp(_, x) =>
      var sub := LowerExpr(x, t).value;
      var code := LowerExpr(e, t).value.code;
      LowerExprOnlyWrites(x, t);
      if |code| > |sub.code| {
        OnlyWritesAppend(sub.code, code[|sub.code|..]);
        assert code == sub.code + code[|sub.code|..];
      }
    case _ =>
  }

  // ---- Expressions compute their value ----

  /** What `LowerExprComputes` promises: the code runs, the returned operand holds the
      value, and only the drawn temporaries changed. */
  ghost predicate ExprRuns(e: Expr, t: nat, env: map<string, int>, low: LoweredExpr) {
    var r := RunStraight(low.code, env);
    r.Some? && Value(r.value, Some(low.value)) == Eval(e, env) && Agree(env, r.value, t, low.temps)
  }

  lemma {:induction false} LowerExprComputes(e: Expr, t: nat, env: map<string, int>)
    requires LowerExpr(e, t).Ok? && UserNames(e) && Eval(e, env).Some?
    ensures ExprRuns(e, t, env, LowerExpr(e, t).value)
    decreases e, 1
  {
    match e
    case Num(_, _) =>
      LeafComputes(e, t, env);
    case Bool(_, _) =>
      LeafComputes(e, t, env);
    case Var(_, _) =>
      LeafComputes(e, t, env);
    case BinaryOp(_, _, _) =>
      BinaryOpComputes(e, t, env);
    case UnaryOp(_, _) =>
      UnaryOpComputes(e, t, env);
  }

  /** A literal or a variable: its one instruction writes its value to the next
      temporary. */
  lemma LeafComputes(e: Expr, t: nat, env: map<string, int>)
    requires e.Num? || e.Bool? || e.Var?
    requires LowerExpr(e, t).Ok? && UserNames(e) && Eval(e, env).Some?
    ensures ExprRuns(e, t, env, LowerExpr(e, t).value)
  {
    var k := Eval(e, env).value;
    var dest := TempName(t + 1);
    match e {
      case Num(_, n) =>
        RunConst(n, dest, env);
      case Bool(_, b) =>
        RunConst(BoolToInt(b), dest, env);
      case Var(_, x) =>
        RunLoad(x, dest, env, k);
    }
    AgreeWrite(env, t + 1, k, t, t + 1);
  }

  /** A CONST alone writes its literal into its destination. */
  lemma RunConst(k: int, dest: string, env: map<string, int>)
    ensures RunStraight([Quadruple(Const, arg1 := Some(Int(k)), result := Some(Str(dest)))], env) == Some(env[dest := k])
  {
    var q := Quadruple(Const, arg1 := Some(Int(k)), result := Some(Str(dest)));
    assert ExecAt([], q, State(0, env, [])) == Some(State(1, env[dest := k], []));
    assert [q][1..] == [];
  }

  /** A LOAD alone copies the variable's value into its destination. */
  lemma RunLoad(x: string, dest: string, env: map<string, int>, k: int)
    requires Value(env, Some(Str(x))) == Some(k)
    ensures RunStraight([Quadruple(Load, arg1 := Some(Str(x)), result := Some(Str(dest)))], env) == Some(env[dest := k])
  {
    var q := Quadruple(Load, arg1 := Some(Str(x)), result := Some(Str(dest)));
    assert ExecAt([], q, State(0, env, [])) == Some(State(1, env[dest := k], []));
    assert [q][1..] == [];
  }

  lemma {:induction false} BinaryOpComputes(e: Expr, t: nat, env: map<string, int>)
    requires e.BinaryOp? && LowerBinaryOp(e, t).Ok? && UserNames(e) && Eval(e, env).Some?
    ensures ExprRuns(e, t, env, LowerBinaryOp(e, t).value)
    decreases e, 0
  {
    var low := LowerBinaryOp(e, t).value;
    var lhs := LowerExpr(e.left, t).value;
    var rhs := LowerExpr(e.right, lhs.temps).value;
    var a, b := Eval(e.left, env).value, Eval(e.right, env).value;
    var res := rhs.temps + 1;
    var oc := BinaryOpCode(e.op.kind).value;
    assert Eval(e, env) == Apply(e.op.kind, a, b);
    assert low == LoweredExpr(lhs.code + rhs.code + [Quadruple(oc, Some(lhs.value), Some(rhs.value), Temp(res))],
                              Str(TempName(res)), res);
    ApplyOpCode(e.op.kind, a, b);
    // The left operand runs first; the right operand has the same value afterwards.
    LowerExprComputes(e.left, t, env);
    var env1 := RunStraight(lhs.code, env).value;
    LowerExprFresh(e.left, t);
    EvalComputes(e.left, env);
    EvalAgree(e.right, env, env1, t, lhs.temps);
    LowerExprComputes(e.right, lhs.temps, env1);
    LowerExprFresh(e.right, lhs.temps);
    BinaryRuns(lhs, rhs, oc, env, env1, t, a, b);
  }

  /** A binary instruction alone writes its value into its destination. */
  lemma RunBinary(oc: OpCode, x: Option<Operand>, y: Option<Operand>, dest: string, env: map<string, int>, a: int, b: int)
    requires IsBinary(oc) && Value(env, x) == Some(a) && Value(env, y) == Some(b) && Arith(oc, a, b).Some?
    ensures RunStraight([Quadruple(oc, x, y, Some(Str(dest)))], env) == Some(env[dest := Arith(oc, a, b).value])
  {
    var q := Quadruple(oc, x, y, Some(Str(dest)));
    assert ExecAt([], q, State(0, env, [])) == Some(State(1, env[dest := Arith(oc, a, b).value], []));
    assert [q][1..] == [];
  }

  /** The code of a binary operation, once both operands' code has run. */
  lemma BinaryRuns(lhs: LoweredExpr, rhs: LoweredExpr, oc: OpCode, env: map<string, int>, env1: map<string, int>,
                   t: nat, a: int, b: int)
    requires t <= lhs.temps <= rhs.temps && IsBinary(oc) && Arith(oc, a, b).Some?
    requires TempIn(Some(lhs.value), t, lhs.temps)
    requires RunStraight(lhs.code, env) == Some(env1) && Value(env1, Some(lhs.value)) == Some(a) &&
             Agree(env, env1, t, lhs.temps)
    requires var r := RunStraight(rhs.code, env1);
      r.Some? && Value(r.value, Some(rhs.value)) == Some(b) && Agree(env1, r.value, lhs.temps, rhs.temps)
    ensures var code := lhs.code + rhs.code + [Quadruple(oc, Some(lhs.value), Some(rhs.value), Temp(rhs.temps + 1))];
      var r := RunStraight(code, env);
      r.Some? && Value(r.value, Temp(rhs.temps + 1)) == Arith(oc, a, b) && Agree(env, r.value, t, rhs.temps + 1)
  {
    var env2 := RunStraight(rhs.code, env1).value;
    var res := rhs.temps + 1;
    var q := Quadruple(oc, Some(lhs.value), Some(rhs.value), Temp(res));
    var v := Arith(oc, a, b).value;
    assert !TempIn(Some(lhs.value), lhs.temps, rhs.temps);
    assert Value(env2, Some(lhs.value)) == Some(a);
    RunBinary(oc, Some(lhs.value), Some(rhs.value), TempName(res), env2, a, b);
    RunStraightAppend(lhs.code, rhs.code, env);
    RunStraightAppend(lhs.code + rhs.code, [q], env);
    AgreeWrite(env2, res, v, rhs.temps, res);
    AgreeTrans(env, env1, env2, t, lhs.temps, rhs.temps);
    AgreeTrans(env, env2, env2[TempName(res) := v], t, rhs.temps, res);
  }

  lemma {:induction false} UnaryOpComputes(e: Expr, t: nat, env: map<string, int>)
    requires e.UnaryOp? && LowerUnaryOp(e, t).Ok? && UserNames(e) && Eval(e, env).Some?
    ensures ExprRuns(e, t, env, LowerUnaryOp(e, t).value)
    decreases e, 0
  {
    var low := LowerUnaryOp(e, t).value;
    var sub := LowerExpr(e.expr, t).value;
    var res := sub.temps + 1;
    if e.op.kind == Tokens.Minus {
      var n := Eval(e.expr, env).value;
      assert Eval(e, env) == Some(-n);
      assert low == LoweredExpr(sub.code + [Quadruple(Const, arg1 := Some(Int(0)), result := Temp(res + 1)),
                                            Quadruple(Sub, Temp(res + 1), Some(sub.value), Temp(res))],
                                Str(TempName(res)), res + 1);
      LowerExprComputes(e.expr, t, env);
      LowerExprFresh(e.expr, t);
      EvalComputes(e.expr, env);
      NegationComputes(sub, env, t, n);
    } else if e.op.kind == Tokens.Plus {
      assert low == LoweredExpr(sub.code, sub.value, res);
      LowerExprComputes(e.expr, t, env);
      AgreeWiden(env, RunStraight(sub.code, env).value, t, sub.temps, res);
    } else {
      assert false;
    }
  }

  /** The code of a negation, after the operand's code has run. */
  lemma NegationComputes(sub: LoweredExpr, env: map<string, int>, t: nat, n: int)
    requires t <= sub.temps && TempIn(Some(sub.value), t, sub.temps)
    requires var r := RunStraight(sub.code, env);
      r.Some? && Value(r.value, Some(sub.value)) == Some(n) && Agree(env, r.value, t, sub.temps)
    ensures var code := sub.code + [Quadruple(Const, arg1 := Some(Int(0)), result := Temp(sub.temps + 2)),
                                    Quadruple(Sub, Temp(sub.temps + 2), Some(sub.value), Temp(sub.temps + 1))];
      var r := RunStraight(code, env);
      r.Some? && Value(r.value, Temp(sub.temps + 1)) == Some(-n) && Agree(env, r.value, t, sub.temps + 2)
  {
    var env1 := RunStraight(sub.code, env).value;
    var tail := [Quadruple(Const, arg1 := Some(Int(0)), result := Temp(sub.temps + 2)),
                 Quadruple(Sub, Temp(sub.temps + 2), Some(sub.value), Temp(sub.temps + 1))];
    assert !TempIn(Some(sub.value), sub.temps, sub.temps + 2);
    NegationRuns(sub.code, sub.value, env1, sub.temps, n);
    RunThen(sub.code, tail, env, env1, RunStraight(tail, env1).value, t, sub.temps, sub.temps + 2);
  }

  /** Two pieces of straight code run one after the other, each changing only its
      own temporaries. */
  lemma RunThen(c1: seq<Quadruple>, c2: seq<Quadruple>, env: map<string, int>, env1: map<string, int>,
                env2: map<string, int>, lo: nat, mid: nat, hi: nat)
    requires lo <= mid <= hi
    requires RunStraight(c1, env) == Some(env1) && Agree(env, env1, lo, mid)
    requires RunStraight(c2, env1) == Some(env2) && Agree(env1, env2, mid, hi)
    ensures RunStraight(c1 + c2, env) == Some(env2) && Agree(env, env2, lo, hi)
  {
    RunStraightAppend(c1, c2, env);
    AgreeTrans(env, env1, env2, lo, mid, hi);
  }

  /** The two instructions of a negation: zero into the second temporary drawn, then
      the difference into the first. */
  lemma NegationRuns(c: seq<Quadruple>, v: Operand, env: map<string, int>, st: nat, n: int)
    requires Value(env, Some(v)) == Some(n) && !TempIn(Some(v), st, st + 2)
    ensures var tail := [Quadruple(Const, arg1 := Some(Int(0)), result := Temp(st + 2)),
                         Quadruple(Sub, Temp(st + 2), Some(v), Temp(st + 1))];
      var r := RunStraight(tail, env);
      r.Some? && Value(r.value, Temp(st + 1)) == Some(-n) && Agree(env, r.value, st, st + 2)
  {
    var q1 := Quadruple(Const, arg1 := Some(Int(0)), result := Temp(st + 2));
    var q2 := Quadruple(Sub, Temp(st + 2), Some(v), Temp(st + 1));
    var env1 := env[TempName(st + 2) := 0];
    TempNumberOfTemp(st + 2);
    RunConst(0, TempName(st + 2), env);
    assert Value(env1, Some(v)) == Some(n) && Value(env1, Temp(st + 2)) == Some(0);
    assert Arith(Sub, 0, n) == Some(-n);
    RunBinary(Sub, Temp(st + 2), Some(v), TempName(st + 1), env1, 0, n);
    assert [q1, q2] == [q1] + [q2];
    RunStraightAppend([q1], [q2], env);
    AgreeWrite(env, st + 2, 0, st, st + 2);
    AgreeWrite(env1, st + 1, -n, st, st + 2);
  }

  // ---- Inside a whole program ----

  /** An instruction that neither jumps nor prints runs the same wherever it sits. */
  lemma ExecAnywhere(p: seq<Quadruple>, q: Quadruple, i: nat, env: map<string, int>, out: seq<Output>)
    requires WritesTemp(q.op)
    ensures ExecAt(p, q, State(i, env, out)) ==
      (match ExecAt([], q, State(0, env, []))
       case None => None
       case Some(s) => Some(State(i + 1, s.env, out)))
  {
  }

  /** Straight code of CONST, LOAD and binary opcodes, placed at `i` in any program,
      runs in `|code|` steps to the end of the placement, writing what `RunStraight`
      says and printing nothing. */
  lemma {:induction false} RunPlaced(p: seq<Quadruple>, i: nat, code: seq<Quadruple>, env: map<string, int>, out: seq<Output>)
    requires i + |code| <= |p| && p[i..i + |code|] == code && OnlyWrites(code)
    requires RunStraight(code, env).Some?
    ensures Run(p, State(i, env, out), |code|) == Some(State(i + |code|, RunStraight(code, env).value, out))
    decreases |code|
  {
    if |code| > 0 {
      assert p[i] == code[0];
      ExecAnywhere(p, code[0], i, env, out);
      var s := ExecAt([], code[0], State(0, env, [])).value;
      assert p[i + 1..i + 1 + |code[1..]|] == code[1..];
      RunPlaced(p, i + 1, code[1..], s.env, out);
    }
  }

  /** `visit_*` for expressions is correct: the code run on its own, from any
      environment in which the expression has a value, ends after its last
      instruction having printed nothing, with the value in the returned operand and
      only the temporaries it drew changed. */
  lemma ExprCodeComputes(e: Expr, t: nat, env: map<string, int>, out: seq<Output>)
    requires LowerExpr(e, t).Ok? && UserNames(e) && Eval(e, env).Some?
    ensures var low := LowerExpr(e, t).value;
      var r := Run(low.code, State(0, env, out), |low.code|);
      r.Some? && r.value.pc == |low.code| && r.value.out == out &&
      Value(r.value.env, Some(low.value)) == Eval(e, env) && Agree(env, r.value.env, t, low.temps)
  {
    var low := LowerExpr(e, t).value;
    LowerExprComputes(e, t, env);
    LowerExprOnlyWrites(e, t);
    assert low.code[0..|low.code|] == low.code;
    RunPlaced(low.code, 0, low.code, env, out);
  }
}
