/** What the lowering guarantees about the code it produces: every temporary is
    drawn fresh and written once, every label is drawn fresh and placed once, and every
    jump lands on a label of the same code. */
module IrGenerationProperties {
  import opened Wrappers
  import opened Text
  import opened Ir
  import opened Ast
  import opened Errors
  import opened IrGeneration

  /** The counter a temporary's name was drawn with, read back from the name. */
  function TempNumber(o: Option<Operand>): Option<nat> {
    match o
    case Some(Str(s)) =>
      if |s| >= 2 && s[0] == 't' && AllDigits(s[1..]) && s == TempName(DigitsValue(s[1..]))
      then Some(DigitsValue(s[1..])) else None
    case _ => None
  }

  /** The counter a label's name was drawn with, read back from the name. */
  function LabelNumber(o: Option<Operand>): Option<nat> {
    match o
    case Some(Str(s)) =>
      if |s| >= 2 && s[0] == 'L' && AllDigits(s[1..]) && s == LabelName(DigitsValue(s[1..]))
      then Some(DigitsValue(s[1..])) else None
    case _ => None
  }

  lemma TempNumberOfTemp(n: nat)
    ensures TempNumber(Temp(n)) == Some(n)
    ensures LabelNumber(Temp(n)) == None
  {
    var s := TempName(n);
    assert s[1..] == NatToString(n);
    DigitsValueOfNatToString(n);
  }

  lemma LabelNumberOfLabel(n: nat)
    ensures LabelNumber(LabelRef(n)) == Some(n)
    ensures TempNumber(LabelRef(n)) == None
  {
    var s := LabelName(n);
    assert s[1..] == NatToString(n);
    DigitsValueOfNatToString(n);
  }

  /** `o` is a temporary drawn after counter value `lo` and no later than `hi`. */
  predicate TempIn(o: Option<Operand>, lo: nat, hi: nat) {
    TempNumber(o).Some? && lo < TempNumber(o).value <= hi
  }

  predicate LabelIn(o: Option<Operand>, lo: nat, hi: nat) {
    LabelNumber(o).Some? && lo < LabelNumber(o).value <= hi
  }

  /** The opcodes that write a temporary: CONST, LOAD and the binary opcodes. */
  predicate WritesTemp(op: OpCode) {
    op == Const || op == Load || op == Add || op == Sub || op == Mul || op == Div ||
    op == Seq || op == Sne || op == Slt || op == Sle || op == Sgt || op == Sge
  }

  /** Each instruction that writes a temporary writes one drawn in `(lo, hi]`, and no
      two of them write the same one. */
  predicate FreshTemps(code: seq<Quadruple>, lo: nat, hi: nat) {
    (forall i :: 0 <= i < |code| && WritesTemp(code[i].op) ==> TempIn(code[i].result, lo, hi)) &&
    (forall i, j :: 0 <= i < j < |code| && WritesTemp(code[i].op) && WritesTemp(code[j].op) ==>
       code[i].result != code[j].result)
  }

  /** Every LABEL names a drawn label, and no two LABELs have the same name. */
  predicate LabelsDistinct(code: seq<Quadruple>) {
    (forall i :: 0 <= i < |code| && code[i].op == Label ==> LabelNumber(code[i].result).Some?) &&
    (forall i, j :: 0 <= i < j < |code| && code[i].op == Label && code[j].op == Label ==>
       code[i].result != code[j].result)
  }

  /** The counters of the labels the LABEL instructions of `code` place. */
  function LabelNums(code: seq<Quadruple>): set<nat> {
    set i | 0 <= i < |code| && code[i].op == Label && LabelNumber(code[i].result).Some? ::
      LabelNumber(code[i].result).value
  }

  /** Each LABEL names a label drawn in `(lo, hi]`, and no two LABELs have the same name. */
  predicate FreshLabels(code: seq<Quadruple>, lo: nat, hi: nat) {
    LabelsDistinct(code) && forall n :: n in LabelNums(code) ==> lo < n <= hi
  }

  /** The names the LABEL instructions of `code` place. */
  function Labels(code: seq<Quadruple>): set<Option<Operand>> {
    set i | 0 <= i < |code| && code[i].op == Label :: code[i].result
  }

  /** Every JMP and JFALSE of `code` targets a name in `targets`. */
  predicate JumpsInto(code: seq<Quadruple>, targets: set<Option<Operand>>) {
    forall i :: 0 <= i < |code| && (code[i].op == Jmp || code[i].op == Jfalse) ==> code[i].result in targets
  }

  /** Every JMP and JFALSE targets a label placed in `code`. */
  predicate JumpsClosed(code: seq<Quadruple>) {
    JumpsInto(code, Labels(code))
  }

  /** Code with no LABEL, JMP or JFALSE: it runs straight through. */
  predicate Straight(code: seq<Quadruple>) {
    forall i :: 0 <= i < |code| ==> code[i].op != Label && code[i].op != Jmp && code[i].op != Jfalse
  }

  /** An expression whose operand is a temporary its own code writes: anything but a
      string literal, a unary plus of one, or a unary operator the generator has no
      rule for. */
  predicate Computes(e: Expr) {
    match e
    case String(_, _) => false
    case UnaryOp(op, x) =>
      if op.kind == Tokens.Minus then true
      else if op.kind == Tokens.Plus then Computes(x)
      else false
    case _ => true
  }

  // ---- Composition ----

  lemma FreshTempsAppend(c1: seq<Quadruple>, c2: seq<Quadruple>, a: nat, b: nat, c: nat)
    requires a <= b <= c && FreshTemps(c1, a, b) && FreshTemps(c2, b, c)
    ensures FreshTemps(c1 + c2, a, c)
  {
    var code := c1 + c2;
    forall i, j | 0 <= i < j < |code| && WritesTemp(code[i].op) && WritesTemp(code[j].op)
      ensures code[i].result != code[j].result
    {
      if i < |c1| && j >= |c1| {
        assert code[j] == c2[j - |c1|];
        assert TempNumber(code[i].result).value <= b < TempNumber(code[j].result).value;
      } else if i >= |c1| {
        assert code[i] == c2[i - |c1|] && code[j] == c2[j - |c1|];
      }
    }
    forall i | 0 <= i < |code| && WritesTemp(code[i].op)
      ensures TempIn(code[i].result, a, c)
    {
      if i >= |c1| {
        assert code[i] == c2[i - |c1|];
      }
    }
  }

  lemma LabelNumsAppend(c1: seq<Quadruple>, c2: seq<Quadruple>)
    ensures LabelNums(c1 + c2) == LabelNums(c1) + LabelNums(c2)
  {
    var code := c1 + c2;
    forall n | n in LabelNums(code) ensures n in LabelNums(c1) + LabelNums(c2) {
      var i :| 0 <= i < |code| && code[i].op == Label && LabelNumber(code[i].result) == Some(n);
      if i >= |c1| {
        assert c2[i - |c1|] == code[i];
      }
    }
    forall n | n in LabelNums(c1) + LabelNums(c2) ensures n in LabelNums(code) {
      if n in LabelNums(c1) {
        var i :| 0 <= i < |c1| && c1[i].op == Label && LabelNumber(c1[i].result) == Some(n);
        assert code[i] == c1[i];
      } else {
        var i :| 0 <= i < |c2| && c2[i].op == Label && LabelNumber(c2[i].result) == Some(n);
        assert code[i + |c1|] == c2[i];
      }
    }
  }

  /** Two pieces that place labels with disjoint counters can be concatenated. */
  lemma LabelsDistinctAppend(c1: seq<Quadruple>, c2: seq<Quadruple>)
    requires LabelsDistinct(c1) && LabelsDistinct(c2) && LabelNums(c1) !! LabelNums(c2)
    ensures LabelsDistinct(c1 + c2)
    ensures LabelNums(c1 + c2) == LabelNums(c1) + LabelNums(c2)
  {
    LabelNumsAppend(c1, c2);
    var code := c1 + c2;
    forall i, j | 0 <= i < j < |code| && code[i].op == Label && code[j].op == Label
      ensures code[i].result != code[j].result
    {
      if i < |c1| && j >= |c1| {
        assert code[j] == c2[j - |c1|];
        assert LabelNumber(code[i].result).value in LabelNums(c1);
        assert LabelNumber(code[j].result).value in LabelNums(c2);
      } else if i >= |c1| {
        assert code[i] == c2[i - |c1|] && code[j] == c2[j - |c1|];
      }
    }
    forall i | 0 <= i < |code| && code[i].op == Label
      ensures LabelNumber(code[i].result).Some?
    {
      if i >= |c1| {
        assert code[i] == c2[i - |c1|];
      }
    }
  }

  /** Two pieces placing labels with disjoint counters, all in `(lo, hi]`. */
  lemma FreshLabelsJoin(c1: seq<Quadruple>, c2: seq<Quadruple>, lo: nat, hi: nat)
    requires LabelsDistinct(c1) && LabelsDistinct(c2) && LabelNums(c1) !! LabelNums(c2)
    requires forall n :: n in LabelNums(c1) ==> lo < n <= hi
    requires forall n :: n in LabelNums(c2) ==> lo < n <= hi
    ensures FreshLabels(c1 + c2, lo, hi)
    ensures LabelNums(c1 + c2) == LabelNums(c1) + LabelNums(c2)
  {
    LabelsDistinctAppend(c1, c2);
  }

  lemma LabelsAppend(c1: seq<Quadruple>, c2: seq<Quadruple>)
    ensures Labels(c1 + c2) == Labels(c1) + Labels(c2)
  {
    var code := c1 + c2;
    forall o | o in Labels(code) ensures o in Labels(c1) + Labels(c2) {
      var i :| 0 <= i < |code| && code[i].op == Label && code[i].result == o;
      if i >= |c1| {
        assert c2[i - |c1|] == code[i];
      }
    }
    forall o | o in Labels(c1) + Labels(c2) ensures o in Labels(code) {
      if o in Labels(c1) {
        var i :| 0 <= i < |c1| && c1[i].op == Label && c1[i].result == o;
        assert code[i] == c1[i];
      } else {
        var i :| 0 <= i < |c2| && c2[i].op == Label && c2[i].result == o;
        assert code[i + |c1|] == c2[i];
      }
    }
  }

  /** Jumps that land inside their own part still do after concatenation. */
  lemma JumpsClosedAppend(c1: seq<Quadruple>, c2: seq<Quadruple>)
    requires JumpsClosed(c1) && JumpsClosed(c2)
    ensures JumpsClosed(c1 + c2)
  {
    LabelsAppend(c1, c2);
    var code := c1 + c2;
    forall i | 0 <= i < |code| && (code[i].op == Jmp || code[i].op == Jfalse)
      ensures code[i].result in Labels(code)
    {
      if i >= |c1| {
        assert code[i] == c2[i - |c1|];
      }
    }
  }

  lemma StraightAppend(c1: seq<Quadruple>, c2: seq<Quadruple>)
    requires Straight(c1) && Straight(c2)
    ensures Straight(c1 + c2)
  {
    var code := c1 + c2;
    forall i | 0 <= i < |code| ensures code[i].op != Label && code[i].op != Jmp && code[i].op != Jfalse {
      if i >= |c1| {
        assert code[i] == c2[i - |c1|];
      }
    }
  }

  /** Straight code places no labels. */
  lemma StraightNoLabels(code: seq<Quadruple>)
    requires Straight(code)
    ensures Labels(code) == {} && LabelNums(code) == {} && LabelsDistinct(code) && JumpsClosed(code)
  {
    assert forall o :: o !in Labels(code);
    assert forall n :: n !in LabelNums(code);
  }

  // ---- Expressions ----

  /** What `LowerExprFresh` promises of the lowering of `e` from counter `t`. */
  predicate FreshExprCode(e: Expr, t: nat, low: LoweredExpr) {
    t <= low.temps && Straight(low.code) && FreshTemps(low.code, t, low.temps) &&
    (Computes(e) ==> TempIn(Some(low.value), t, low.temps) &&
                     exists i :: 0 <= i < |low.code| && WritesTemp(low.code[i].op) && low.code[i].result == Some(low.value))
  }

  /** A literal or variable: one instruction writing the next temporary. */
  lemma LeafFresh(e: Expr, q: Quadruple, t: nat)
    requires WritesTemp(q.op) && q.result == Temp(t + 1)
    ensures FreshExprCode(e, t, LoweredExpr([q], Str(TempName(t + 1)), t + 1))
  {
    TempNumberOfTemp(t + 1);
    assert [q][0].result == Some(Str(TempName(t + 1)));
  }

  /** The code of an expression runs straight through, draws temporaries only after
      `t`, writes each of them once, and leaves the operand in a temporary it wrote
      whenever the expression computes one. */
  lemma {:induction false} LowerExprFresh(e: Expr, t: nat)
    requires LowerExpr(e, t).Ok?
    ensures FreshExprCode(e, t, LowerExpr(e, t).value)
    decreases e, 1
  {
    var low := LowerExpr(e, t).value;
    match e
    case Num(_, _) =>
      LeafFresh(e, low.code[0], t);
    case Bool(_, _) =>
      LeafFresh(e, low.code[0], t);
    case Var(_, _) =>
      LeafFresh(e, low.code[0], t);
    case String(_, _) =>
    case BinaryOp(_, _, _) =>
      LowerBinaryOpFresh(e, t);
    case UnaryOp(_, _) =>
      LowerUnaryOpFresh(e, t);
  }

  lemma {:induction false} LowerBinaryOpFresh(e: Expr, t: nat)
    requires e.BinaryOp? && LowerBinaryOp(e, t).Ok?
    ensures FreshExprCode(e, t, LowerBinaryOp(e, t).value)
    decreases e, 0
  {
    var lhs := LowerExpr(e.left, t).value;
    var rhs := LowerExpr(e.right, lhs.temps).value;
    var oc := BinaryOpCode(e.op.kind).value;
    var q := Quadruple(oc, Some(lhs.value), Some(rhs.value), Temp(rhs.temps + 1));
    assert LowerBinaryOp(e, t).value ==
      LoweredExpr(lhs.code + rhs.code + [q], Str(TempName(rhs.temps + 1)), rhs.temps + 1);
    LowerExprFresh(e.left, t);
    LowerExprFresh(e.right, lhs.temps);
    BinaryPiecesFresh(e, t, lhs, rhs, q);
  }

  /** The left operand's code, the right's, and one instruction writing the temporary
      drawn after both. */
  lemma BinaryPiecesFresh(e: Expr, t: nat, lhs: LoweredExpr, rhs: LoweredExpr, q: Quadruple)
    requires e.BinaryOp? && FreshExprCode(e.left, t, lhs) && FreshExprCode(e.right, lhs.temps, rhs)
    requires WritesTemp(q.op) && q.result == Temp(rhs.temps + 1)
    ensures FreshExprCode(e, t, LoweredExpr(lhs.code + rhs.code + [q], Str(TempName(rhs.temps + 1)), rhs.temps + 1))
  {
    var code := lhs.code + rhs.code + [q];
    FreshTempsAppend(lhs.code, rhs.code, t, lhs.temps, rhs.temps);
    StraightAppend(lhs.code, rhs.code);
    WriteNext(lhs.code + rhs.code, q, t, rhs.temps);
    assert code[|code| - 1] == q;
  }

  /** Straight code followed by one instruction writing the next temporary. */
  lemma WriteNext(c: seq<Quadruple>, q: Quadruple, t: nat, st: nat)
    requires t <= st && Straight(c) && FreshTemps(c, t, st)
    requires WritesTemp(q.op) && q.result == Temp(st + 1)
    ensures Straight(c + [q]) && FreshTemps(c + [q], t, st + 1) && TempIn(q.result, t, st + 1)
  {
    TempNumberOfTemp(st + 1);
    assert FreshTemps([q], st, st + 1);
    FreshTempsAppend(c, [q], t, st, st + 1);
    StraightAppend(c, [q]);
  }

  /** The code `visit_UnaryOp` gives a negation: CONST 0 into the second temporary
      drawn, then SUB into the first. */
  lemma NegationFresh(c: seq<Quadruple>, v: Operand, t: nat, st: nat)
    requires t <= st && Straight(c) && FreshTemps(c, t, st)
    ensures var code := c + [Quadruple(Const, arg1 := Some(Int(0)), result := Temp(st + 2)),
                             Quadruple(Sub, Temp(st + 2), Some(v), Temp(st + 1))];
      Straight(code) && FreshTemps(code, t, st + 2) &&
      WritesTemp(code[|code| - 1].op) && code[|code| - 1].result == Some(Str(TempName(st + 1))) &&
      TempIn(Some(Str(TempName(st + 1))), t, st + 2)
  {
    var tail := [Quadruple(Const, arg1 := Some(Int(0)), result := Temp(st + 2)),
                 Quadruple(Sub, Temp(st + 2), Some(v), Temp(st + 1))];
    TempNumberOfTemp(st + 1);
    TempNumberOfTemp(st + 2);
    assert FreshTemps(tail, st, st + 2);
    FreshTempsAppend(c, tail, t, st, st + 2);
    StraightAppend(c, tail);
  }

  lemma {:induction false} LowerUnaryOpFresh(e: Expr, t: nat)
    requires e.UnaryOp? && LowerUnaryOp(e, t).Ok?
    ensures FreshExprCode(e, t, LowerUnaryOp(e, t).value)
    decreases e, 0
  {
    var low := LowerUnaryOp(e, t).value;
    var sub := LowerExpr(e.expr, t).value;
    LowerExprFresh(e.expr, t);
    var res := sub.temps + 1;
    if e.op.kind == Tokens.Minus {
      NegationFresh(sub.code, sub.value, t, sub.temps);
    } else if e.op.kind == Tokens.Plus {
      if Computes(e.expr) {
        var i :| 0 <= i < |sub.code| && WritesTemp(sub.code[i].op) && sub.code[i].result == Some(sub.value);
        assert low.code[i] == sub.code[i];
      }
    }
  }

  // ---- Statements ----

  /** What `LowerStmtFresh` promises of the lowering of a statement from counters `t`
      and `l`. */
  predicate FreshStmtCode(t: nat, l: nat, low: LoweredStmt) {
    t <= low.temps && l <= low.labels && FreshTemps(low.code, t, low.temps) &&
    FreshLabels(low.code, l, low.labels) && JumpsClosed(low.code)
  }

  /** Concatenation keeps temporaries fresh, labels distinct and jumps inside
      `targets`, when the pieces draw from disjoint counters. */
  lemma Combine(c1: seq<Quadruple>, c2: seq<Quadruple>, ta: nat, tb: nat, tc: nat, targets: set<Option<Operand>>)
    requires ta <= tb <= tc && FreshTemps(c1, ta, tb) && FreshTemps(c2, tb, tc)
    requires LabelsDistinct(c1) && LabelsDistinct(c2) && LabelNums(c1) !! LabelNums(c2)
    requires JumpsInto(c1, targets) && JumpsInto(c2, targets)
    ensures FreshTemps(c1 + c2, ta, tc) && LabelsDistinct(c1 + c2)
    ensures LabelNums(c1 + c2) == LabelNums(c1) + LabelNums(c2)
    ensures Labels(c1 + c2) == Labels(c1) + Labels(c2)
    ensures JumpsInto(c1 + c2, targets)
  {
    FreshTempsAppend(c1, c2, ta, tb, tc);
    LabelsDistinctAppend(c1, c2);
    LabelsAppend(c1, c2);
    var code := c1 + c2;
    forall i | 0 <= i < |code| && (code[i].op == Jmp || code[i].op == Jfalse)
      ensures code[i].result in targets
    {
      if i >= |c1| {
        assert code[i] == c2[i - |c1|];
      }
    }
  }

  lemma JumpsIntoMono(code: seq<Quadruple>, small: set<Option<Operand>>, large: set<Option<Operand>>)
    requires JumpsInto(code, small) && small <= large
    ensures JumpsInto(code, large)
  {
  }

  lemma JumpsIntoAppend(c1: seq<Quadruple>, c2: seq<Quadruple>, targets: set<Option<Operand>>)
    requires JumpsInto(c1, targets) && JumpsInto(c2, targets)
    ensures JumpsInto(c1 + c2, targets)
  {
    var code := c1 + c2;
    forall i | 0 <= i < |code| && (code[i].op == Jmp || code[i].op == Jfalse)
      ensures code[i].result in targets
    {
      if i >= |c1| {
        assert code[i] == c2[i - |c1|];
      }
    }
  }

  /** A single instruction that is not a LABEL and writes no temporary. */
  lemma Plain(q: Quadruple, t: nat)
    requires q.op != Label && !WritesTemp(q.op)
    ensures FreshTemps([q], t, t) && LabelsDistinct([q]) && LabelNums([q]) == {} && Labels([q]) == {}
  {
    assert forall n :: n !in LabelNums([q]);
    assert forall o :: o !in Labels([q]);
  }

  /** A single LABEL of the `n`-th label. */
  lemma PlaceLabel(n: nat, t: nat)
    ensures var q := Quadruple(Label, result := LabelRef(n));
      FreshTemps([q], t, t) && LabelsDistinct([q]) && LabelNums([q]) == {n} && Labels([q]) == {LabelRef(n)}
  {
    LabelNumberOfLabel(n);
    var q := Quadruple(Label, result := LabelRef(n));
    assert [q][0] == q;
    assert LabelNumber(q.result) == Some(n);
    assert n in LabelNums([q]);
    assert LabelRef(n) in Labels([q]);
  }

  /** The code of an expression, seen as a piece of a statement's code. */
  lemma ExprPiece(e: Expr, t: nat, targets: set<Option<Operand>>)
    requires LowerExpr(e, t).Ok?
    ensures var low := LowerExpr(e, t).value;
      t <= low.temps && FreshTemps(low.code, t, low.temps) && LabelsDistinct(low.code) &&
      LabelNums(low.code) == {} && Labels(low.code) == {} && JumpsInto(low.code, targets)
  {
    LowerExprFresh(e, t);
    StraightNoLabels(LowerExpr(e, t).value.code);
  }

  /** The code of every statement draws temporaries and labels only after the counters
      it starts from, writes each temporary once, places each label once, and only jumps
      to labels it places itself. */
  lemma {:induction false} LowerStmtFresh(s: Stmt, t: nat, l: nat)
    requires LowerStmt(s, t, l).Ok?
    ensures FreshStmtCode(t, l, LowerStmt(s, t, l).value)
    decreases s, 1
  {
    var low := LowerStmt(s, t, l).value;
    match s
    case Block(ss) =>
      LowerStmtsFresh(ss, t, l);
    case VarDecl(_, x, _, init) =>
      if init.Some? {
        var rhs := LowerExpr(init.value, t).value;
        var store := Quadruple(Store, arg1 := Some(rhs.value), result := Some(Str(x)));
        ExprPiece(init.value, t, {});
        Plain(store, rhs.temps);
        Combine(rhs.code, [store], t, rhs.temps, rhs.temps, {});
      } else {
        StraightNoLabels([]);
      }
    case Assignment(target, value) =>
      var rhs := LowerExpr(value, t).value;
      var store := Quadruple(Store, arg1 := Some(rhs.value), result := Some(Str(target.name)));
      ExprPiece(value, t, {});
      Plain(store, rhs.temps);
      Combine(rhs.code, [store], t, rhs.temps, rhs.temps, {});
    case If(_, _, _) =>
      LowerIfFresh(s, t, l);
    case While(_, _) =>
      LowerWhileFresh(s, t, l);
    case Print(e) =>
      if e.String? {
        Plain(low.code[0], t);
        assert low.code == [low.code[0]];
      } else {
        var v := LowerExpr(e, t).value;
        var out := Quadruple(OpCode.Print, arg1 := Some(v.value));
        ExprPiece(e, t, {});
        Plain(out, v.temps);
        Combine(v.code, [out], t, v.temps, v.temps, {});
      }
    case NoOp =>
      StraightNoLabels([]);
  }

  lemma {:induction false} LowerStmtsFresh(ss: seq<Stmt>, t: nat, l: nat)
    requires LowerStmts(ss, t, l).Ok?
    ensures FreshStmtCode(t, l, LowerStmts(ss, t, l).value)
    decreases ss, 2
  {
    if |ss| == 0 {
      StraightNoLabels([]);
    } else {
      var first := LowerStmt(ss[0], t, l).value;
      var rest := LowerStmts(ss[1..], first.temps, first.labels).value;
      LowerStmtFresh(ss[0], t, l);
      LowerStmtsFresh(ss[1..], first.temps, first.labels);
      var code := first.code + rest.code;
      LabelsAppend(first.code, rest.code);
      Combine(first.code, rest.code, t, first.temps, rest.temps, Labels(code));
    }
  }

  /** The layout `visit_If` gives the code of an `if`: condition code `c` with
      operand `v`, labels `l + 1` (else) and `l + 2` (end). */
  function IfLayout(c: seq<Quadruple>, v: Option<Operand>, thenCode: seq<Quadruple>, elseCode: seq<Quadruple>, l: nat): seq<Quadruple> {
    c + [Quadruple(Jfalse, arg1 := v, result := LabelRef(l + 1))] + thenCode
    + [Quadruple(Jmp, result := LabelRef(l + 2))] + [Quadruple(Label, result := LabelRef(l + 1))]
    + elseCode + [Quadruple(Label, result := LabelRef(l + 2))]
  }

  /** The layout `visit_While` gives the code of a `while`: labels `l + 1` (start) and
      `l + 2` (end). */
  function WhileLayout(c: seq<Quadruple>, v: Option<Operand>, body: seq<Quadruple>, l: nat): seq<Quadruple> {
    [Quadruple(Label, result := LabelRef(l + 1))] + c
    + [Quadruple(Jfalse, arg1 := v, result := LabelRef(l + 2))] + body
    + [Quadruple(Jmp, result := LabelRef(l + 1))] + [Quadruple(Label, result := LabelRef(l + 2))]
  }

  lemma IfLayoutTemps(c: seq<Quadruple>, v: Option<Operand>, thenCode: seq<Quadruple>, elseCode: seq<Quadruple>, l: nat,
                      t: nat, ct: nat, tt: nat, et: nat)
    requires t <= ct <= tt <= et
    requires FreshTemps(c, t, ct) && FreshTemps(thenCode, ct, tt) && FreshTemps(elseCode, tt, et)
    ensures FreshTemps(IfLayout(c, v, thenCode, elseCode, l), t, et)
  {
    var jf := Quadruple(Jfalse, arg1 := v, result := LabelRef(l + 1));
    var jmp := Quadruple(Jmp, result := LabelRef(l + 2));
    var elseLabel := Quadruple(Label, result := LabelRef(l + 1));
    var endLabel := Quadruple(Label, result := LabelRef(l + 2));
    FreshTempsAppend(c, [jf], t, ct, ct);
    FreshTempsAppend(c + [jf], thenCode, t, ct, tt);
    FreshTempsAppend(c + [jf] + thenCode, [jmp], t, tt, tt);
    FreshTempsAppend(c + [jf] + thenCode + [jmp], [elseLabel], t, tt, tt);
    FreshTempsAppend(c + [jf] + thenCode + [jmp] + [elseLabel], elseCode, t, tt, et);
    FreshTempsAppend(c + [jf] + thenCode + [jmp] + [elseLabel] + elseCode, [endLabel], t, et, et);
  }

  /** The labels of an `if` up to its else label. */
  lemma IfHeadLabels(c: seq<Quadruple>, v: Option<Operand>, thenCode: seq<Quadruple>, l: nat, tl: nat)
    requires LabelNums(c) == {} && LabelsDistinct(c) && l + 2 <= tl
    requires FreshLabels(thenCode, l + 2, tl)
    ensures var head := c + [Quadruple(Jfalse, arg1 := v, result := LabelRef(l + 1))] + thenCode
      + [Quadruple(Jmp, result := LabelRef(l + 2))] + [Quadruple(Label, result := LabelRef(l + 1))];
      FreshLabels(head, l, tl) && LabelNums(head) == LabelNums(thenCode) + {l + 1}
  {
    var jf := Quadruple(Jfalse, arg1 := v, result := LabelRef(l + 1));
    var jmp := Quadruple(Jmp, result := LabelRef(l + 2));
    var elseLabel := Quadruple(Label, result := LabelRef(l + 1));
    Plain(jf, 0);
    Plain(jmp, 0);
    PlaceLabel(l + 1, 0);
    var p1 := c + [jf];
    FreshLabelsJoin(c, [jf], l + 2, tl);
    var p2 := p1 + thenCode;
    FreshLabelsJoin(p1, thenCode, l + 2, tl);
    var p3 := p2 + [jmp];
    FreshLabelsJoin(p2, [jmp], l + 2, tl);
    assert l + 1 !in LabelNums(p3);
    FreshLabelsJoin(p3, [elseLabel], l, tl);
  }

  lemma IfLayoutLabels(c: seq<Quadruple>, v: Option<Operand>, thenCode: seq<Quadruple>, elseCode: seq<Quadruple>, l: nat,
                       tl: nat, el: nat)
    requires LabelNums(c) == {} && LabelsDistinct(c) && l + 2 <= tl <= el
    requires FreshLabels(thenCode, l + 2, tl) && FreshLabels(elseCode, tl, el)
    ensures FreshLabels(IfLayout(c, v, thenCode, elseCode, l), l, el)
  {
    var head := c + [Quadruple(Jfalse, arg1 := v, result := LabelRef(l + 1))] + thenCode
      + [Quadruple(Jmp, result := LabelRef(l + 2))] + [Quadruple(Label, result := LabelRef(l + 1))];
    IfHeadLabels(c, v, thenCode, l, tl);
    IfTailLabels(head, elseCode, l, tl, el);
  }

  /** The else branch and the end label after the head of an `if`. */
  lemma IfTailLabels(head: seq<Quadruple>, elseCode: seq<Quadruple>, l: nat, tl: nat, el: nat)
    requires FreshLabels(head, l, tl) && l + 2 <= tl <= el && FreshLabels(elseCode, tl, el)
    requires l + 2 !in LabelNums(head)
    ensures FreshLabels(head + elseCode + [Quadruple(Label, result := LabelRef(l + 2))], l, el)
  {
    JoinAbove(head, elseCode, l, tl, el);
    AppendLabel(head + elseCode, l + 2, l, el);
  }

  /** Code whose labels lie in `(lo, mid]`, then code whose labels lie in
      `(mid, hi]`. */
  lemma JoinAbove(c1: seq<Quadruple>, c2: seq<Quadruple>, lo: nat, mid: nat, hi: nat)
    requires lo <= mid <= hi && FreshLabels(c1, lo, mid) && FreshLabels(c2, mid, hi)
    ensures FreshLabels(c1 + c2, lo, hi) && LabelNums(c1 + c2) == LabelNums(c1) + LabelNums(c2)
  {
    assert LabelNums(c1) !! LabelNums(c2) by {
      forall n | n in LabelNums(c2) ensures n !in LabelNums(c1) {
        assert mid < n;
      }
    }
    assert forall n :: n in LabelNums(c2) ==> lo < n <= hi by {
      forall n | n in LabelNums(c2) ensures lo < n <= hi {
        assert mid < n <= hi;
      }
    }
    FreshLabelsJoin(c1, c2, lo, hi);
  }

  /** A LABEL for a fresh counter in `(lo, hi]`, placed after `code`. */
  lemma AppendLabel(code: seq<Quadruple>, n: nat, lo: nat, hi: nat)
    requires FreshLabels(code, lo, hi) && lo < n <= hi && n !in LabelNums(code)
    ensures FreshLabels(code + [Quadruple(Label, result := LabelRef(n))], lo, hi)
    ensures LabelNums(code + [Quadruple(Label, result := LabelRef(n))]) == LabelNums(code) + {n}
  {
    PlaceLabel(n, 0);
    FreshLabelsJoin(code, [Quadruple(Label, result := LabelRef(n))], lo, hi);
  }

  lemma IfLayoutJumps(c: seq<Quadruple>, v: Option<Operand>, thenCode: seq<Quadruple>, elseCode: seq<Quadruple>, l: nat)
    requires JumpsInto(c, {}) && JumpsClosed(thenCode) && JumpsClosed(elseCode)
    ensures JumpsClosed(IfLayout(c, v, thenCode, elseCode, l))
  {
    var jf := Quadruple(Jfalse, arg1 := v, result := LabelRef(l + 1));
    var jmp := Quadruple(Jmp, result := LabelRef(l + 2));
    var elseLabel := Quadruple(Label, result := LabelRef(l + 1));
    var endLabel := Quadruple(Label, result := LabelRef(l + 2));
    var code := IfLayout(c, v, thenCode, elseCode, l);
    LabelsAppend(c + [jf] + thenCode + [jmp] + [elseLabel] + elseCode, [endLabel]);
    LabelsAppend(c + [jf] + thenCode + [jmp] + [elseLabel], elseCode);
    LabelsAppend(c + [jf] + thenCode + [jmp], [elseLabel]);
    LabelsAppend(c + [jf] + thenCode, [jmp]);
    LabelsAppend(c + [jf], thenCode);
    LabelsAppend(c, [jf]);
    PlaceLabel(l + 1, 0);
    PlaceLabel(l + 2, 0);
    var targets := Labels(code);
    assert Labels(thenCode) <= targets && Labels(elseCode) <= targets;
    assert LabelRef(l + 1) in targets && LabelRef(l + 2) in targets;
    JumpsIntoMono(c, {}, targets);
    JumpsIntoMono(thenCode, Labels(thenCode), targets);
    JumpsIntoMono(elseCode, Labels(elseCode), targets);
    JumpsIntoAppend(c, [jf], targets);
    JumpsIntoAppend(c + [jf], thenCode, targets);
    JumpsIntoAppend(c + [jf] + thenCode, [jmp], targets);
    JumpsIntoAppend(c + [jf] + thenCode + [jmp], [elseLabel], targets);
    JumpsIntoAppend(c + [jf] + thenCode + [jmp] + [elseLabel], elseCode, targets);
    JumpsIntoAppend(c + [jf] + thenCode + [jmp] + [elseLabel] + elseCode, [endLabel], targets);
  }

  lemma WhileLayoutTemps(c: seq<Quadruple>, v: Option<Operand>, body: seq<Quadruple>, l: nat, t: nat, ct: nat, bt: nat)
    requires t <= ct <= bt
    requires FreshTemps(c, t, ct) && FreshTemps(body, ct, bt)
    ensures FreshTemps(WhileLayout(c, v, body, l), t, bt)
  {
    var startLabel := Quadruple(Label, result := LabelRef(l + 1));
    var jf := Quadruple(Jfalse, arg1 := v, result := LabelRef(l + 2));
    var jmp := Quadruple(Jmp, result := LabelRef(l + 1));
    var endLabel := Quadruple(Label, result := LabelRef(l + 2));
    FreshTempsAppend([startLabel], c, t, t, ct);
    FreshTempsAppend([startLabel] + c, [jf], t, ct, ct);
    FreshTempsAppend([startLabel] + c + [jf], body, t, ct, bt);
    FreshTempsAppend([startLabel] + c + [jf] + body, [jmp], t, bt, bt);
    FreshTempsAppend([startLabel] + c + [jf] + body + [jmp], [endLabel], t, bt, bt);
  }

  lemma WhileLayoutLabels(c: seq<Quadruple>, v: Option<Operand>, body: seq<Quadruple>, l: nat, bl: nat)
    requires LabelNums(c) == {} && LabelsDistinct(c) && l + 2 <= bl
    requires FreshLabels(body, l + 2, bl)
    ensures FreshLabels(WhileLayout(c, v, body, l), l, bl)
  {
    var startLabel := Quadruple(Label, result := LabelRef(l + 1));
    var jf := Quadruple(Jfalse, arg1 := v, result := LabelRef(l + 2));
    Plain(jf, 0);
    PlaceLabel(l + 1, 0);
    FreshLabelsJoin([startLabel], c, l, l + 1);
    FreshLabelsJoin([startLabel] + c, [jf], l, l + 1);
    WhileTailLabels([startLabel] + c + [jf], body, l, bl);
  }

  /** The body, the jump back and the end label after the head of a `while`. */
  lemma WhileTailLabels(head: seq<Quadruple>, body: seq<Quadruple>, l: nat, bl: nat)
    requires FreshLabels(head, l, l + 1) && LabelNums(head) == {l + 1}
    requires l + 2 <= bl && FreshLabels(body, l + 2, bl)
    ensures FreshLabels(head + body + [Quadruple(Jmp, result := LabelRef(l + 1))]
                        + [Quadruple(Label, result := LabelRef(l + 2))], l, bl)
  {
    var jmp := Quadruple(Jmp, result := LabelRef(l + 1));
    Plain(jmp, 0);
    assert FreshLabels(body, l + 1, bl);
    JoinAbove(head, body, l, l + 1, bl);
    FreshLabelsJoin(head + body, [jmp], l, bl);
    AppendLabel(head + body + [jmp], l + 2, l, bl);
  }

  lemma WhileLayoutJumps(c: seq<Quadruple>, v: Option<Operand>, body: seq<Quadruple>, l: nat)
    requires JumpsInto(c, {}) && JumpsClosed(body)
    ensures JumpsClosed(WhileLayout(c, v, body, l))
  {
    var startLabel := Quadruple(Label, result := LabelRef(l + 1));
    var jf := Quadruple(Jfalse, arg1 := v, result := LabelRef(l + 2));
    var jmp := Quadruple(Jmp, result := LabelRef(l + 1));
    var endLabel := Quadruple(Label, result := LabelRef(l + 2));
    var code := WhileLayout(c, v, body, l);
    LabelsAppend([startLabel] + c + [jf] + body + [jmp], [endLabel]);
    LabelsAppend([startLabel] + c + [jf] + body, [jmp]);
    LabelsAppend([startLabel] + c + [jf], body);
    LabelsAppend([startLabel] + c, [jf]);
    LabelsAppend([startLabel], c);
    PlaceLabel(l + 1, 0);
    PlaceLabel(l + 2, 0);
    var targets := Labels(code);
    assert Labels(body) <= targets;
    assert LabelRef(l + 1) in targets && LabelRef(l + 2) in targets;
    JumpsIntoMono(c, {}, targets);
    JumpsIntoMono(body, Labels(body), targets);
    JumpsIntoAppend([startLabel], c, targets);
    JumpsIntoAppend([startLabel] + c, [jf], targets);
    JumpsIntoAppend([startLabel] + c + [jf], body, targets);
    JumpsIntoAppend([startLabel] + c + [jf] + body, [jmp], targets);
    JumpsIntoAppend([startLabel] + c + [jf] + body + [jmp], [endLabel], targets);
  }

  lemma {:induction false} LowerIfFresh(s: Stmt, t: nat, l: nat)
    requires s.If? && LowerIf(s, t, l).Ok?
    ensures FreshStmtCode(t, l, LowerIf(s, t, l).value)
    decreases s, 0
  {
    var low := LowerIf(s, t, l).value;
    var cond := LowerExpr(s.condition, t).value;
    var thenPart := LowerStmt(s.thenBranch, cond.temps, l + 2).value;
    var elsePart := if s.elseBranch.Some? then LowerStmt(s.elseBranch.value, thenPart.temps, thenPart.labels).value
                    else LoweredStmt([], thenPart.temps, thenPart.labels);
    ExprPiece(s.condition, t, {});
    LowerStmtFresh(s.thenBranch, cond.temps, l + 2);
    if s.elseBranch.Some? {
      LowerStmtFresh(s.elseBranch.value, thenPart.temps, thenPart.labels);
    } else {
      StraightNoLabels([]);
    }
    assert low.code == IfLayout(cond.code, Some(cond.value), thenPart.code, elsePart.code, l);
    assert low.temps == elsePart.temps && low.labels == elsePart.labels;
    IfLayoutTemps(cond.code, Some(cond.value), thenPart.code, elsePart.code, l, t, cond.temps, thenPart.temps, elsePart.temps);
    IfLayoutLabels(cond.code, Some(cond.value), thenPart.code, elsePart.code, l, thenPart.labels, elsePart.labels);
    IfLayoutJumps(cond.code, Some(cond.value), thenPart.code, elsePart.code, l);
  }

  lemma {:induction false} LowerWhileFresh(s: Stmt, t: nat, l: nat)
    requires s.While? && LowerWhile(s, t, l).Ok?
    ensures FreshStmtCode(t, l, LowerWhile(s, t, l).value)
    decreases s, 0
  {
    var low := LowerWhile(s, t, l).value;
    var cond := LowerExpr(s.condition, t).value;
    var bodyPart := LowerStmt(s.body, cond.temps, l + 2).value;
    ExprPiece(s.condition, t, {});
    LowerStmtFresh(s.body, cond.temps, l + 2);
    assert low.code == WhileLayout(cond.code, Some(cond.value), bodyPart.code, l);
    WhileLayoutTemps(cond.code, Some(cond.value), bodyPart.code, l, t, cond.temps, bodyPart.temps);
    WhileLayoutLabels(cond.code, Some(cond.value), bodyPart.code, l, bodyPart.labels);
    WhileLayoutJumps(cond.code, Some(cond.value), bodyPart.code, l);
  }

  /** For a whole program: temporaries `t1`, `t2`, … and labels `L1`, `L2`, … each
      written or placed once, and every jump lands on a label of the program. */
  lemma LowerProgramFresh(p: Program)
    requires LowerProgram(p).Ok?
    ensures FreshStmtCode(0, 0, LowerProgram(p).value)
  {
    LowerStmtsFresh(p.statements, 0, 0);
  }
}
