/** One forward pass of constant propagation and folding
    (my_lang_compiler/optimizer.py). */
module Optimization {
  import opened Wrappers
  import opened Ir
  import opened IrSemantics

  /** The pass's knowledge map: a dictionary keyed by instruction fields, holding the
      value each temporary or variable is known to have. Storing `None` in the source
      is modelled as removing the key: `get` cannot tell the two apart. */
  type Knowledge = map<Option<Operand>, Operand>

  /** `constants.get(key)`. */
  function Get(k: Knowledge, key: Option<Operand>): Option<Operand> {
    if key in k then Some(k[key]) else None
  }

  /** `constants[key] = v`, where a stored `None` reads back as unknown. */
  function Put(k: Knowledge, key: Option<Operand>, v: Option<Operand>): Knowledge {
    match v
    case Some(x) => k[key := x]
    case None => k - {key}
  }

  /** The opcodes in `foldable_ops`. */
  predicate Foldable(op: OpCode) {
    op == Add || op == Sub || op == Mul || op == Div ||
    op == Seq || op == Sne || op == Slt || op == Sle || op == Sgt || op == Sge
  }

  /** The opcodes in `control_flow_ops`. */
  predicate ControlFlow(op: OpCode) {
    op == Jmp || op == Jfalse || op == Jif || op == Label
  }

  /** `_compute_binary`: folds two known integers. Relational opcodes give 1 or 0,
      DIV is floor division and refuses a zero divisor, and an opcode that is not
      foldable gives `None`. */
  function ComputeBinary(op: OpCode, a: int, b: int): (r: Option<int>)
    ensures r.Some? <==> Foldable(op) && !(op == Div && b == 0)
  {
    if op == Add then Some(a + b)
    else if op == Sub then Some(a - b)
    else if op == Mul then Some(a * b)
    else if op == Div then (if b == 0 then None else Some(if b > 0 then a / b else (-a) / (-b)))
    else if op == Seq then Some(if a == b then 1 else 0)
    else if op == Sne then Some(if a != b then 1 else 0)
    else if op == Slt then Some(if a < b then 1 else 0)
    else if op == Sle then Some(if a <= b then 1 else 0)
    else if op == Sgt then Some(if a > b then 1 else 0)
    else if op == Sge then Some(if a >= b then 1 else 0)
    else None
  }

  /** Folding computes what the opcode means in the IR: relational opcodes give 1 or
      0 and DIV is floor division. */
  lemma ComputeBinaryMeaning(op: OpCode, a: int, b: int)
    ensures ComputeBinary(op, a, b) == Arith(op, a, b)
    ensures op == Div && b != 0 ==> ComputeBinary(op, a, b) == Some(FloorDiv(a, b))
    ensures Foldable(op) && op !in {Add, Sub, Mul, Div} ==>
      ComputeBinary(op, a, b) == Some(0) || ComputeBinary(op, a, b) == Some(1)
  {
  }

  /** The folded value of a foldable instruction, when both operands are known
      integers and `_compute_binary` accepts them. */
  function Fold(k: Knowledge, q: Quadruple): Option<int> {
    match (Get(k, q.arg1), Get(k, q.arg2))
    case (Some(Int(a)), Some(Int(b))) => ComputeBinary(q.op, a, b)
    case _ => None
  }

  /** The instruction one iteration of `optimize` emits for `q`. */
  function Rewrite(k: Knowledge, q: Quadruple): (r: Quadruple)
    ensures r == q || (r.op == Const && r.result == q.result && r.arg2 == None)
    ensures r != q ==> q.op == Load || Foldable(q.op)
  {
    if q.op == Load && q.arg1 in k then Quadruple(Const, arg1 := Some(k[q.arg1]), result := q.result)
    else if Foldable(q.op) && Fold(k, q).Some? then Quadruple(Const, arg1 := Some(Int(Fold(k, q).value)), result := q.result)
    else q
  }

  /** The knowledge map after one iteration of `optimize` for `q`. */
  function Learn(k: Knowledge, q: Quadruple): Knowledge {
    if q.op == Const then Put(k, q.result, q.arg1)
    else if q.op == Load || q.op == Store then Put(k, q.result, Get(k, q.arg1))
    else if Foldable(q.op) then
      (if Fold(k, q).Some? then k[q.result := Int(Fold(k, q).value)] else k - {q.result})
    else if ControlFlow(q.op) then map[]
    else if q.result.Some? then k - {q.result}
    else k
  }

  /** The knowledge map the pass holds when it reaches instruction `i`. */
  function KnowledgeBefore(qs: seq<Quadruple>, i: nat): Knowledge
    requires i <= |qs|
  {
    if i == 0 then map[] else Learn(KnowledgeBefore(qs, i - 1), qs[i - 1])
  }

  /** The first `n` instructions the pass emits: instruction `j` rewritten under the
      knowledge held on reaching it. */
  function OptimizedPrefix(qs: seq<Quadruple>, n: nat): (r: seq<Quadruple>)
    requires n <= |qs|
    ensures |r| == n
  {
    if n == 0 then [] else OptimizedPrefix(qs, n - 1) + [Rewrite(KnowledgeBefore(qs, n - 1), qs[n - 1])]
  }

  /** Instruction `j` of a prefix is instruction `j` rewritten under the knowledge
      held on reaching it. */
  lemma {:induction false} OptimizedPrefixAt(qs: seq<Quadruple>, n: nat, j: nat)
    requires j < n <= |qs|
    ensures OptimizedPrefix(qs, n)[j] == Rewrite(KnowledgeBefore(qs, j), qs[j])
  {
    if j < n - 1 {
      OptimizedPrefixAt(qs, n - 1, j);
    }
  }

  /** The optimized instruction list: one output per input, in order, each either
      the input itself or a CONST into the same result. */
  function Optimized(qs: seq<Quadruple>): (r: seq<Quadruple>)
    ensures |r| == |qs|
    ensures forall i :: 0 <= i < |qs| ==> r[i] == Rewrite(KnowledgeBefore(qs, i), qs[i])
    ensures forall i :: 0 <= i < |qs| ==>
      r[i] == qs[i] || (r[i].op == Const && r[i].result == qs[i].result)
  {
    var r := OptimizedPrefix(qs, |qs|);
    assert forall i :: 0 <= i < |qs| ==> r[i] == Rewrite(KnowledgeBefore(qs, i), qs[i]) by {
      forall i | 0 <= i < |qs| {
        OptimizedPrefixAt(qs, |qs|, i);
      }
    }
    r
  }

  /** One iteration of the loop of `Optimizer.optimize`: the instruction to append
      for `instr` and the knowledge map afterwards. */
  method Step(constants: Knowledge, instr: Quadruple) returns (emit: Quadruple, after: Knowledge)
    ensures emit == Rewrite(constants, instr)
    ensures after == Learn(constants, instr)
  {
    emit := instr;
    after := constants;
    if instr.op == Const {
      match instr.arg1 {
        case Some(v) => after := after[instr.result := v];
        case None => after := after - {instr.result};
      }
    } else if instr.op == Load {
      var knownValue := Get(after, instr.arg1);
      if knownValue.Some? {
        emit := Quadruple(Const, arg1 := knownValue, result := instr.result);
        after := after[instr.result := knownValue.value];
      } else {
        after := after - {instr.result};
      }
    } else if instr.op == Store {
      var storedValue := Get(after, instr.arg1);
      if storedValue.Some? {
        after := after[instr.result := storedValue.value];
      } else {
        after := after - {instr.result};
      }
    } else if Foldable(instr.op) {
      var arg1Val := Get(after, instr.arg1);
      var arg2Val := Get(after, instr.arg2);
      var foldedValue: Option<int> := None;
      if arg1Val.Some? && arg2Val.Some? && arg1Val.value.Int? && arg2Val.value.Int? {
        foldedValue := ComputeBinary(instr.op, arg1Val.value.i, arg2Val.value.i);
      }
      if foldedValue.Some? {
        emit := Quadruple(Const, arg1 := Some(Int(foldedValue.value)), result := instr.result);
        after := after[instr.result := Int(foldedValue.value)];
      } else {
        after := after - {instr.result};
      }
    } else if ControlFlow(instr.op) {
      after := map[];
    } else {
      if instr.result.Some? {
        after := after - {instr.result};
      }
    }
  }

  /** `Optimizer.optimize`: builds a new program, leaving the input untouched. */
  method Optimize(ir: IRProgram) returns (newIr: IRProgram)
    ensures fresh(newIr)
    ensures newIr.instructions == Optimized(ir.instructions)
  {
    newIr := new IRProgram();
    var constants: Knowledge := map[];
    var instrs := ir.instructions;
    var i := 0;
    while i < |instrs|
      invariant 0 <= i <= |instrs|
      invariant constants == KnowledgeBefore(instrs, i)
      invariant newIr.instructions == OptimizedPrefix(instrs, i)
    {
      var emit;
      emit, constants := Step(constants, instrs[i]);
      newIr.Add(emit);
      i := i + 1;
    }
  }

  // ---- The per-instruction rules of the pass ----

  /** A CONST passes through and records `result -> arg1`; nothing else changes. */
  lemma ConstRule(k: Knowledge, q: Quadruple, other: Option<Operand>)
    requires q.op == Const && other != q.result
    ensures Rewrite(k, q) == q
    ensures Get(Learn(k, q), q.result) == q.arg1
    ensures Get(Learn(k, q), other) == Get(k, other)
  {
  }

  /** A LOAD of a known name becomes a CONST of its value and makes its result known;
      a LOAD of an unknown name passes through and its result is forgotten. */
  lemma LoadRule(k: Knowledge, q: Quadruple, other: Option<Operand>)
    requires q.op == Load && other != q.result
    ensures Get(k, q.arg1).Some? ==>
      Rewrite(k, q) == Quadruple(Const, arg1 := Get(k, q.arg1), result := q.result)
    ensures Get(k, q.arg1).None? ==> Rewrite(k, q) == q
    ensures Get(Learn(k, q), q.result) == Get(k, q.arg1)
    ensures Get(Learn(k, q), other) == Get(k, other)
  {
  }

  /** A STORE is never removed; its destination takes on what is known of its source. */
  lemma StoreRule(k: Knowledge, q: Quadruple, other: Option<Operand>)
    requires q.op == Store && other != q.result
    ensures Rewrite(k, q) == q
    ensures Get(Learn(k, q), q.result) == Get(k, q.arg1)
    ensures Get(Learn(k, q), other) == Get(k, other)
  {
  }

  /** A foldable instruction whose operands are known integers and whose value is
      defined becomes a CONST of that value, and its result becomes known. */
  lemma FoldRule(k: Knowledge, q: Quadruple, a: int, b: int, other: Option<Operand>)
    requires Foldable(q.op) && other != q.result
    requires Get(k, q.arg1) == Some(Int(a)) && Get(k, q.arg2) == Some(Int(b))
    requires Arith(q.op, a, b).Some?
    ensures Rewrite(k, q) == Quadruple(Const, arg1 := Some(Int(Arith(q.op, a, b).value)), result := q.result)
    ensures Get(Learn(k, q), q.result) == Some(Int(Arith(q.op, a, b).value))
    ensures Get(Learn(k, q), other) == Get(k, other)
  {
    ComputeBinaryMeaning(q.op, a, b);
  }

  /** A foldable instruction that cannot be folded (an operand unknown or not an
      integer, or a division by a known zero) passes through and its result is
      forgotten. */
  lemma NoFoldRule(k: Knowledge, q: Quadruple, other: Option<Operand>)
    requires Foldable(q.op) && other != q.result
    requires !(Get(k, q.arg1).Some? && Get(k, q.arg1).value.Int? &&
               Get(k, q.arg2).Some? && Get(k, q.arg2).value.Int? &&
               Arith(q.op, Get(k, q.arg1).value.i, Get(k, q.arg2).value.i).Some?)
    ensures Rewrite(k, q) == q
    ensures Get(Learn(k, q), q.result) == None
    ensures Get(Learn(k, q), other) == Get(k, other)
  {
    if Get(k, q.arg1).Some? && Get(k, q.arg1).value.Int? && Get(k, q.arg2).Some? && Get(k, q.arg2).value.Int? {
      ComputeBinaryMeaning(q.op, Get(k, q.arg1).value.i, Get(k, q.arg2).value.i);
    }
  }

  /** In particular a DIV by a known zero is emitted unchanged and its result is
      forgotten. */
  lemma DivByZeroRule(k: Knowledge, q: Quadruple)
    requires q.op == Div && Get(k, q.arg2) == Some(Int(0))
    ensures Rewrite(k, q) == q
    ensures Get(Learn(k, q), q.result) == None
  {
  }

  /** JMP, JFALSE, JIF and LABEL pass through and clear all knowledge. */
  lemma ControlFlowRule(k: Knowledge, q: Quadruple)
    requires ControlFlow(q.op)
    ensures Rewrite(k, q) == q
    ensures Learn(k, q) == map[]
  {
  }

  /** PRINT, PRINTS and RETURN pass through and forget only their own result. */
  lemma OtherRule(k: Knowledge, q: Quadruple)
    requires q.op == Print || q.op == Prints || q.op == Return
    ensures Rewrite(k, q) == q
    ensures Learn(k, q) == if q.result.Some? then k - {q.result} else k
  {
  }

  /** The knowledge on reaching instruction `i + 1` is what instruction `i` leaves. */
  lemma KnowledgeAfter(qs: seq<Quadruple>, i: nat)
    requires i < |qs|
    ensures KnowledgeBefore(qs, i + 1) == Learn(KnowledgeBefore(qs, i), qs[i])
  {
  }

  /** A LOAD directly after a control-flow instruction is never folded. */
  lemma LoadAfterControlFlow(qs: seq<Quadruple>, i: nat)
    requires i + 1 < |qs| && ControlFlow(qs[i].op) && qs[i + 1].op == Load
    ensures Optimized(qs)[i + 1] == qs[i + 1]
  {
    KnowledgeAfter(qs, i);
    ControlFlowRule(KnowledgeBefore(qs, i), qs[i]);
    assert Optimized(qs)[i + 1] == Rewrite(map[], qs[i + 1]);
  }

  // ---- The scenarios of tests/test_optimizer.py ----

  /** CONST 7 -> t1; STORE t1 -> x; LOAD x -> t2: the LOAD becomes CONST 7 -> t2. */
  lemma PropagatesThroughStoreAndLoad()
    ensures var qs := [Quadruple(Const, arg1 := Some(Int(7)), result := Some(Str("t1"))),
                       Quadruple(Store, arg1 := Some(Str("t1")), result := Some(Str("x"))),
                       Quadruple(Load, arg1 := Some(Str("x")), result := Some(Str("t2")))];
            Optimized(qs)[2] == Quadruple(Const, arg1 := Some(Int(7)), result := Some(Str("t2")))
  {
    var qs := [Quadruple(Const, arg1 := Some(Int(7)), result := Some(Str("t1"))),
               Quadruple(Store, arg1 := Some(Str("t1")), result := Some(Str("x"))),
               Quadruple(Load, arg1 := Some(Str("x")), result := Some(Str("t2")))];
    assert KnowledgeBefore(qs, 1) == map[Some(Str("t1")) := Int(7)];
    assert KnowledgeBefore(qs, 2)[Some(Str("x"))] == Int(7);
  }

  /** CONST 4 -> t1; CONST 9 -> t2; SLT t1, t2 -> t3: folds to CONST 1 -> t3. */
  lemma FoldsComparison()
    ensures var qs := [Quadruple(Const, arg1 := Some(Int(4)), result := Some(Str("t1"))),
                       Quadruple(Const, arg1 := Some(Int(9)), result := Some(Str("t2"))),
                       Quadruple(Slt, arg1 := Some(Str("t1")), arg2 := Some(Str("t2")), result := Some(Str("t3")))];
            Optimized(qs)[2] == Quadruple(Const, arg1 := Some(Int(1)), result := Some(Str("t3")))
  {
    var qs := [Quadruple(Const, arg1 := Some(Int(4)), result := Some(Str("t1"))),
               Quadruple(Const, arg1 := Some(Int(9)), result := Some(Str("t2"))),
               Quadruple(Slt, arg1 := Some(Str("t1")), arg2 := Some(Str("t2")), result := Some(Str("t3")))];
    assert KnowledgeBefore(qs, 1) == map[Some(Str("t1")) := Int(4)];
    assert KnowledgeBefore(qs, 2) == map[Some(Str("t1")) := Int(4), Some(Str("t2")) := Int(9)];
  }

  /** CONST 4 -> t1; CONST 0 -> t2; DIV t1, t2 -> t3: the DIV stays. */
  lemma KeepsDivisionByZero()
    ensures var qs := [Quadruple(Const, arg1 := Some(Int(4)), result := Some(Str("t1"))),
                       Quadruple(Const, arg1 := Some(Int(0)), result := Some(Str("t2"))),
                       Quadruple(Div, arg1 := Some(Str("t1")), arg2 := Some(Str("t2")), result := Some(Str("t3")))];
            Optimized(qs)[2].op == Div
  {
    var qs := [Quadruple(Const, arg1 := Some(Int(4)), result := Some(Str("t1"))),
               Quadruple(Const, arg1 := Some(Int(0)), result := Some(Str("t2"))),
               Quadruple(Div, arg1 := Some(Str("t1")), arg2 := Some(Str("t2")), result := Some(Str("t3")))];
    assert KnowledgeBefore(qs, 1) == map[Some(Str("t1")) := Int(4)];
    assert KnowledgeBefore(qs, 2) == map[Some(Str("t1")) := Int(4), Some(Str("t2")) := Int(0)];
  }

  /** CONST 1 -> t1; STORE t1 -> x; JMP L1; LABEL L1; LOAD x -> t2: the LOAD stays. */
  lemma ClearsAcrossControlFlow()
    ensures var qs := [Quadruple(Const, arg1 := Some(Int(1)), result := Some(Str("t1"))),
                       Quadruple(Store, arg1 := Some(Str("t1")), result := Some(Str("x"))),
                       Quadruple(Jmp, result := Some(Str("L1"))),
                       Quadruple(Label, result := Some(Str("L1"))),
                       Quadruple(Load, arg1 := Some(Str("x")), result := Some(Str("t2")))];
            Optimized(qs)[4].op == Load
  {
    var qs := [Quadruple(Const, arg1 := Some(Int(1)), result := Some(Str("t1"))),
               Quadruple(Store, arg1 := Some(Str("t1")), result := Some(Str("x"))),
               Quadruple(Jmp, result := Some(Str("L1"))),
               Quadruple(Label, result := Some(Str("L1"))),
               Quadruple(Load, arg1 := Some(Str("x")), result := Some(Str("t2")))];
    LoadAfterControlFlow(qs, 3);
  }
}
