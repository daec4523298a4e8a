/** A meaning for IR programs, used to state what the optimizer must preserve.
    A state is a program counter, the integer value of every temporary and variable
    that has been written, and the output printed so far. Division is floor division,
    the reading the optimizer folds with. An instruction that cannot run (an unbound
    operand, division by zero, a jump to a missing label, an opcode the emitter cannot
    translate) makes the program fault. */
module IrSemantics {
  import opened Wrappers
  import opened Ir

  /** One printed item. */
  datatype Output = IntOut(n: int) | TextOut(s: string)

  datatype State = State(pc: nat, env: map<string, int>, out: seq<Output>)

  /** Python's `a // b`: the largest integer not above the exact quotient. */
  function FloorDiv(a: int, b: int): (q: int)
    requires b != 0
    ensures b > 0 ==> b * q <= a < b * q + b
    ensures b < 0 ==> b * q >= a > b * q + b
  {
    if b > 0 then a / b else (-a) / (-b)
  }

  function BoolToInt(b: bool): int { if b then 1 else 0 }

  /** The value a binary opcode computes; `None` for division by zero and for
      opcodes that are not binary. */
  function Arith(op: OpCode, a: int, b: int): Option<int> {
    match op
    case Add => Some(a + b)
    case Sub => Some(a - b)
    case Mul => Some(a * b)
    case Div => if b == 0 then None else Some(FloorDiv(a, b))
    case Seq => Some(BoolToInt(a == b))
    case Sne => Some(BoolToInt(a != b))
    case Slt => Some(BoolToInt(a < b))
    case Sle => Some(BoolToInt(a <= b))
    case Sgt => Some(BoolToInt(a > b))
    case Sge => Some(BoolToInt(a >= b))
    case _ => None
  }

  predicate IsBinary(op: OpCode) {
    op == Add || op == Sub || op == Mul || op == Div ||
    op == Seq || op == Sne || op == Slt || op == Sle || op == Sgt || op == Sge
  }

  /** The value of an operand: an integer literal, or the current value of a name. */
  function Value(env: map<string, int>, a: Option<Operand>): Option<int> {
    match a
    case Some(Int(n)) => Some(n)
    case Some(Str(x)) => if x in env then Some(env[x]) else None
    case None => None
  }

  /** The first LABEL instruction at or after `from` whose result is `target`. */
  function FindLabel(prog: seq<Quadruple>, target: Option<Operand>, from: nat): (r: Option<nat>)
    decreases |prog| - from
    ensures r.Some? ==> from <= r.value < |prog| && prog[r.value].op == Label && prog[r.value].result == target
  {
    if from >= |prog| then None
    else if prog[from].op == Label && prog[from].result == target then Some(from)
    else FindLabel(prog, target, from + 1)
  }

  /** Writes `v` into the name `dest` and moves on. */
  function Assign(st: State, dest: Option<Operand>, v: Option<int>): Option<State> {
    match (dest, v)
    case (Some(Str(x)), Some(n)) => Some(State(st.pc + 1, st.env[x := n], st.out))
    case _ => None
  }

  function Jump(prog: seq<Quadruple>, st: State, target: Option<Operand>): Option<State> {
    match FindLabel(prog, target, 0)
    case Some(j) => Some(st.(pc := j))
    case None => None
  }

  /** Runs instruction `q` in state `st`; `prog` is only used to find jump targets. */
  function ExecAt(prog: seq<Quadruple>, q: Quadruple, st: State): Option<State> {
    match q.op
    case Const =>
      (match q.arg1
       case Some(Int(n)) => Assign(st, q.result, Some(n))
       case _ => None)
    case Load => Assign(st, q.result, Value(st.env, q.arg1))
    case Store => Assign(st, q.result, Value(st.env, q.arg1))
    case Jmp => Jump(prog, st, q.result)
    case Jfalse =>
      (match Value(st.env, q.arg1)
       case Some(c) => if c == 0 then Jump(prog, st, q.result) else Some(st.(pc := st.pc + 1))
       case None => None)
    case Label => Some(st.(pc := st.pc + 1))
    case Print =>
      (match Value(st.env, q.arg1)
       case Some(n) => Some(State(st.pc + 1, st.env, st.out + [IntOut(n)]))
       case None => None)
    case Prints =>
      (match q.arg1
       case Some(Str(s)) => Some(State(st.pc + 1, st.env, st.out + [TextOut(s)]))
       case _ => None)
    case Jif => None
    case Return => None
    case _ =>
      (match (Value(st.env, q.arg1), Value(st.env, q.arg2))
       case (Some(a), Some(b)) => Assign(st, q.result, Arith(q.op, a, b))
       case _ => None)
  }

  /** Runs `fuel` steps, stopping early once the program counter leaves the
      program; `None` when the program faults first. */
  function Run(prog: seq<Quadruple>, st: State, fuel: nat): Option<State>
    decreases fuel
  {
    if fuel == 0 || st.pc >= |prog| then Some(st)
    else
      match ExecAt(prog, prog[st.pc], st)
      case None => None
      case Some(next) => Run(prog, next, fuel - 1)
  }
}
