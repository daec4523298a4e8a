/** The optimizer does not change what a program does: under the meaning of
    `IrSemantics`, the optimized program runs in lock step with the original, faulting
    where it faults and printing what it prints. */
module OptimizationSoundness {
  import opened Wrappers
  import opened Ir
  import opened IrSemantics
  import opened Optimization

  /** Every fact in the knowledge map is true of the environment: the key names a
      bound name (or is that very integer) and the value is its integer. */
  predicate Consistent(k: Knowledge, env: map<string, int>) {
    forall key :: key in k ==> k[key].Int? && Value(env, key) == Some(k[key].i)
  }

  /** What holds whenever control reaches an instruction: either it is a LABEL (a
      jump may have led there, and the pass knew nothing there), or the knowledge
      the pass held on reaching it is true in the current state. */
  predicate Inv(p: seq<Quadruple>, st: State) {
    st.pc < |p| && p[st.pc].op != Label ==> Consistent(KnowledgeBefore(p, st.pc), st.env)
  }

  /** The optimized program has its LABELs at the same places, with the same names. */
  lemma LabelsPreserved(p: seq<Quadruple>, i: nat)
    requires i < |p|
    ensures Optimized(p)[i].op == Label <==> p[i].op == Label
    ensures p[i].op == Label ==> Optimized(p)[i] == p[i]
  {
    assert Optimized(p)[i] == Rewrite(KnowledgeBefore(p, i), p[i]);
  }

  /** Two programs of one length with the same LABELs at the same places. */
  predicate SameLabels(o: seq<Quadruple>, p: seq<Quadruple>) {
    |o| == |p| &&
    forall i :: 0 <= i < |p| ==> (o[i].op == Label <==> p[i].op == Label) && (p[i].op == Label ==> o[i] == p[i])
  }

  /** Such programs find every jump target at the same index. */
  lemma {:induction false} FindLabelAlike(o: seq<Quadruple>, p: seq<Quadruple>, target: Option<Operand>, from: nat)
    requires SameLabels(o, p)
    ensures FindLabel(o, target, from) == FindLabel(p, target, from)
    decreases |p| - from
  {
    if from < |p| {
      FindLabelAlike(o, p, target, from + 1);
    }
  }

  /** Jump targets are found at the same index in both programs. */
  lemma FindLabelPreserved(p: seq<Quadruple>, target: Option<Operand>, from: nat)
    ensures FindLabel(Optimized(p), target, from) == FindLabel(p, target, from)
  {
    forall i | 0 <= i < |p|
      ensures Optimized(p)[i].op == Label <==> p[i].op == Label
      ensures p[i].op == Label ==> Optimized(p)[i] == p[i]
    {
      LabelsPreserved(p, i);
    }
    FindLabelAlike(Optimized(p), p, target, from);
  }

  /** Writing `n` into `x` keeps every fact not about `x`. */
  lemma ConsistentAssign(k: Knowledge, env: map<string, int>, x: string, n: int)
    requires Consistent(k, env)
    ensures Consistent(k - {Some(Str(x))}, env[x := n])
    ensures Consistent(k[Some(Str(x)) := Int(n)], env[x := n])
  {
    forall key | key in k - {Some(Str(x))}
      ensures Value(env[x := n], key) == Value(env, key)
    {
    }
  }

  /** An instruction that is not a jump, run with true knowledge: the rewritten
      instruction does what the original does, and the knowledge the pass moves on
      with is true afterwards. */
  lemma StepStraight(o: seq<Quadruple>, p: seq<Quadruple>, k: Knowledge, q: Quadruple, st: State)
    requires Consistent(k, st.env)
    requires !ControlFlow(q.op)
    ensures ExecAt(o, Rewrite(k, q), st) == ExecAt(p, q, st)
    ensures ExecAt(p, q, st).Some? ==>
      ExecAt(p, q, st).value.pc == st.pc + 1 && Consistent(Learn(k, q), ExecAt(p, q, st).value.env)
  {
    var after := ExecAt(p, q, st);
    if after.Some? {
      match q.result
      case Some(Str(x)) =>
        if q.op in {Const, Load, Store} || Foldable(q.op) {
          assert after.value.env == st.env[x := after.value.env[x]];
          ConsistentAssign(k, st.env, x, after.value.env[x]);
          if Foldable(q.op) && Fold(k, q).Some? {
            var a, b := Get(k, q.arg1).value.i, Get(k, q.arg2).value.i;
            ComputeBinaryMeaning(q.op, a, b);
          }
        } else {
          ConsistentAssign(k, st.env, x, 0);
        }
      case _ =>
    } else if Foldable(q.op) && Fold(k, q).Some? {
      var a, b := Get(k, q.arg1).value.i, Get(k, q.arg2).value.i;
      ComputeBinaryMeaning(q.op, a, b);
    }
  }

  /** A control-flow instruction runs the same in two programs that find its label
      at the same place, and it either falls through or lands on a LABEL. */
  lemma StepJump(o: seq<Quadruple>, p: seq<Quadruple>, q: Quadruple, st: State)
    requires ControlFlow(q.op) && FindLabel(o, q.result, 0) == FindLabel(p, q.result, 0)
    ensures ExecAt(o, q, st) == ExecAt(p, q, st)
    ensures ExecAt(p, q, st).Some? ==>
      var pc := ExecAt(p, q, st).value.pc;
      ExecAt(p, q, st).value.env == st.env &&
      (pc == st.pc + 1 || (pc < |p| && p[pc].op == Label))
  {
  }

  /** One step of the optimized program is the same step as the original's, and the
      invariant holds again wherever control goes next. */
  lemma StepSound(p: seq<Quadruple>, st: State)
    requires st.pc < |p| && Inv(p, st)
    ensures ExecAt(Optimized(p), Optimized(p)[st.pc], st) == ExecAt(p, p[st.pc], st)
    ensures ExecAt(p, p[st.pc], st).Some? ==> Inv(p, ExecAt(p, p[st.pc], st).value)
  {
    if ControlFlow(p[st.pc].op) {
      ControlFlowSound(p, st);
    } else {
      StraightSound(p, st);
    }
  }

  lemma ControlFlowSound(p: seq<Quadruple>, st: State)
    requires st.pc < |p| && ControlFlow(p[st.pc].op)
    ensures ExecAt(Optimized(p), Optimized(p)[st.pc], st) == ExecAt(p, p[st.pc], st)
    ensures ExecAt(p, p[st.pc], st).Some? ==> Inv(p, ExecAt(p, p[st.pc], st).value)
  {
    var o := Optimized(p);
    var i := st.pc;
    var k := KnowledgeBefore(p, i);
    assert o[i] == Rewrite(k, p[i]);
    KnowledgeAfter(p, i);
    ControlFlowRule(k, p[i]);
    FindLabelPreserved(p, p[i].result, 0);
    JumpSound(o, p, st);
  }

  lemma StraightSound(p: seq<Quadruple>, st: State)
    requires st.pc < |p| && Inv(p, st) && !ControlFlow(p[st.pc].op)
    ensures ExecAt(Optimized(p), Optimized(p)[st.pc], st) == ExecAt(p, p[st.pc], st)
    ensures ExecAt(p, p[st.pc], st).Some? ==> Inv(p, ExecAt(p, p[st.pc], st).value)
  {
    var o := Optimized(p);
    var i := st.pc;
    var k := KnowledgeBefore(p, i);
    assert o[i] == Rewrite(k, p[i]);
    KnowledgeAfter(p, i);
    StepStraight(o, p, k, p[i], st);
  }

  /** The step case of `StepSound` for a jump or a LABEL: the pass knows nothing
      after it, and a jump lands on a LABEL. */
  lemma JumpSound(o: seq<Quadruple>, p: seq<Quadruple>, st: State)
    requires st.pc < |p| && st.pc < |o| && o[st.pc] == p[st.pc] && ControlFlow(p[st.pc].op)
    requires FindLabel(o, p[st.pc].result, 0) == FindLabel(p, p[st.pc].result, 0)
    requires KnowledgeBefore(p, st.pc + 1) == map[]
    ensures ExecAt(o, o[st.pc], st) == ExecAt(p, p[st.pc], st)
    ensures ExecAt(p, p[st.pc], st).Some? ==> Inv(p, ExecAt(p, p[st.pc], st).value)
  {
    var q := p[st.pc];
    StepJump(o, p, q, st);
    var next := ExecAt(p, q, st);
    if next.Some? && next.value.pc < |p| && p[next.value.pc].op != Label {
      assert next.value.pc == st.pc + 1;
    }
  }

  /** Two programs of one length run alike from any state satisfying `inv`, when
      every step from such a state is the same step in both and keeps `inv`. */
  lemma {:induction false} Lockstep(o: seq<Quadruple>, p: seq<Quadruple>, inv: State -> bool, st: State, fuel: nat)
    requires |o| == |p| && inv(st)
    requires forall s: State :: s.pc < |p| && inv(s) ==>
      ExecAt(o, o[s.pc], s) == ExecAt(p, p[s.pc], s) &&
      (ExecAt(p, p[s.pc], s).Some? ==> inv(ExecAt(p, p[s.pc], s).value))
    ensures Run(o, st, fuel) == Run(p, st, fuel)
    decreases fuel
  {
    if fuel > 0 && st.pc < |p| {
      var next := ExecAt(p, p[st.pc], st);
      if next.Some? {
        Lockstep(o, p, inv, next.value, fuel - 1);
      }
    }
  }

  /** The optimized program, started anywhere the invariant holds, runs exactly as
      the original for any number of steps. */
  lemma RunSound(p: seq<Quadruple>, st: State, fuel: nat)
    requires Inv(p, st)
    ensures Run(Optimized(p), st, fuel) == Run(p, st, fuel)
  {
    var o := Optimized(p);
    forall s: State | s.pc < |p| && Inv(p, s)
      ensures ExecAt(o, o[s.pc], s) == ExecAt(p, p[s.pc], s)
      ensures ExecAt(p, p[s.pc], s).Some? ==> Inv(p, ExecAt(p, p[s.pc], s).value)
    {
      StepSound(p, s);
    }
    Lockstep(o, p, s => Inv(p, s), st, fuel);
  }

  /** Soundness of `Optimizer.optimize`: from the start of the program, in any
      environment, the optimized program faults exactly when the original does and
      otherwise produces the same state and the same output. */
  lemma OptimizeSound(p: seq<Quadruple>, env: map<string, int>, fuel: nat)
    ensures Run(Optimized(p), State(0, env, []), fuel) == Run(p, State(0, env, []), fuel)
  {
    RunSound(p, State(0, env, []), fuel);
  }
}
