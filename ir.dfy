/** The three-address intermediate representation (my_lang_compiler/ir.py). */
module Ir {
  import opened Wrappers
  import opened Text

  /** The closed set of IR opcodes. */
  datatype OpCode =
    | Const | Load | Store | Add | Sub | Mul | Div | Jmp | Jif | Jfalse | Label
    | Print | Prints | Return | Slt | Seq | Sle | Sgt | Sge | Sne
  {
    /** The enum member's `name`, as the instruction repr shows it. */
    function Name(): string {
      match this
      case Const => "CONST"    case Load => "LOAD"      case Store => "STORE"
      case Add => "ADD"        case Sub => "SUB"        case Mul => "MUL"
      case Div => "DIV"        case Jmp => "JMP"        case Jif => "JIF"
      case Jfalse => "JFALSE"  case Label => "LABEL"    case Print => "PRINT"
      case Prints => "PRINTS"  case Return => "RETURN"  case Slt => "SLT"
      case Seq => "SEQ"        case Sle => "SLE"        case Sgt => "SGT"
      case Sge => "SGE"        case Sne => "SNE"
    }
  }

  /** What an instruction field can hold at run time in the source: an integer
      literal or a string. A string is a temporary, a variable, a label or the text of
      a string literal: the source does not tell these apart, and neither does the
      model. An absent field is `None`. */
  datatype Operand = Int(i: int) | Str(s: string)

  /** A quadruple. `arg1`, `arg2` and `result` default to `None`. */
  datatype Quadruple = Quadruple(op: OpCode, arg1: Option<Operand> := None,
                                 arg2: Option<Operand> := None, result: Option<Operand> := None)

  /** `str(x)` of a present field. */
  function OperandText(o: Operand): string {
    match o
    case Int(i) => IntToString(i)
    case Str(s) => s
  }

  /** A field as the instruction repr shows it: absent fields print as empty. */
  function FieldText(f: Option<Operand>): string {
    match f
    case None => ""
    case Some(o) => OperandText(o)
  }

  /** `Quadruple.__repr__`: a label is `res:`; any other instruction shows the
      opcode name padded to 6, the two arguments padded to 10 and `-> result`. */
  function QuadrupleRepr(q: Quadruple): (r: string)
    ensures q.op == Label ==> r == FieldText(q.result) + ":"
    ensures q.op != Label ==> |r| >= 32 && |q.op.Name()| <= 6 && r[..|q.op.Name()|] == q.op.Name()
  {
    if q.op == Label then FieldText(q.result) + ":"
    else PadRight(q.op.Name(), 6) + " " + PadRight(FieldText(q.arg1), 10) + " "
         + PadRight(FieldText(q.arg2), 10) + " -> " + FieldText(q.result)
  }

  function ReprLines(qs: seq<Quadruple>): (r: seq<string>)
    ensures |r| == |qs| && forall k :: 0 <= k < |qs| ==> r[k] == QuadrupleRepr(qs[k])
  {
    if |qs| == 0 then [] else [QuadrupleRepr(qs[0])] + ReprLines(qs[1..])
  }

  /** An append-only list of instructions. */
  class IRProgram {
    var instructions: seq<Quadruple>

    /** A new program has no instructions. */
    constructor ()
      ensures instructions == []
    {
      instructions := [];
    }

    /** Appends at the end; every earlier instruction stays where it was. */
    method Add(q: Quadruple)
      modifies this
      ensures instructions == old(instructions) + [q]
    {
      instructions := instructions + [q];
    }

    /** `IRProgram.__repr__`: the instruction reprs joined by newlines. */
    function Repr(): string
      reads this
    {
      Join(ReprLines(instructions), "\n")
    }

    /** When no instruction's repr holds a newline, the program repr has exactly one
        line per instruction, in order. */
    lemma ReprLinesInOrder()
      requires |instructions| > 0
      requires forall k :: 0 <= k < |instructions| ==> '\n' !in QuadrupleRepr(instructions[k])
      ensures Split(Repr(), '\n') == ReprLines(instructions)
    {
      SplitJoin(ReprLines(instructions), '\n');
    }
  }
}
