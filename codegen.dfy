/** C emission (my_lang_compiler/codegen.py). `CodeGenerator` collects the names
    to declare into its `temps` and `vars` sets, then renders a C `main` with one
    line per instruction. The model stops at the text: what a C compiler makes of it
    is not part of this model. */
module CodeGeneration {
  import opened Wrappers
  import opened Text
  import opened Ir
  import opened Errors

  // ---- String escaping ----

  /** `s.replace(c, rep)` for a one-character pattern. */
  function ReplaceChar(s: string, c: char, rep: string): string {
    if |s| == 0 then "" else (if s[0] == c then rep else [s[0]]) + ReplaceChar(s[1..], c, rep)
  }

  lemma {:induction false} ReplaceCharAppend(a: string, b: string, c: char, rep: string)
    ensures ReplaceChar(a + b, c, rep) == ReplaceChar(a, c, rep) + ReplaceChar(b, c, rep)
  {
    if |a| == 0 {
      assert a + b == b;
    } else {
      assert (a + b)[1..] == a[1..] + b;
      ReplaceCharAppend(a[1..], b, c, rep);
    }
  }

  /** `_escape_c_string`: backslash first, then the quote, newline, tab and
      carriage return. */
  function EscapeCString(value: string): string {
    var e1 := ReplaceChar(value, '\\', "\\\\");
    var e2 := ReplaceChar(e1, '"', "\\\"");
    var e3 := ReplaceChar(e2, '\n', "\\n");
    var e4 := ReplaceChar(e3, '\t', "\\t");
    ReplaceChar(e4, '\r', "\\r")
  }

  /** The escape of one character, as a C string literal writes it. */
  function EscapeChar(c: char): string {
    match c
    case '\\' => "\\\\"
    case '"' => "\\\""
    case '\n' => "\\n"
    case '\t' => "\\t"
    case '\r' => "\\r"
    case _ => [c]
  }

  /** The reference escaping: each character on its own. */
  function EscapeEach(s: string): string {
    if |s| == 0 then "" else EscapeChar(s[0]) + EscapeEach(s[1..])
  }

  lemma EscapeCStringAppend(a: string, b: string)
    ensures EscapeCString(a + b) == EscapeCString(a) + EscapeCString(b)
  {
    ReplaceCharAppend(a, b, '\\', "\\\\");
    var a1, b1 := ReplaceChar(a, '\\', "\\\\"), ReplaceChar(b, '\\', "\\\\");
    ReplaceCharAppend(a1, b1, '"', "\\\"");
    var a2, b2 := ReplaceChar(a1, '"', "\\\""), ReplaceChar(b1, '"', "\\\"");
    ReplaceCharAppend(a2, b2, '\n', "\\n");
    var a3, b3 := ReplaceChar(a2, '\n', "\\n"), ReplaceChar(b2, '\n', "\\n");
    ReplaceCharAppend(a3, b3, '\t', "\\t");
    var a4, b4 := ReplaceChar(a3, '\t', "\\t"), ReplaceChar(b3, '\t', "\\t");
    ReplaceCharAppend(a4, b4, '\r', "\\r");
  }

  lemma ReplaceOne(c: char, d: char, rep: string)
    ensures ReplaceChar([c], d, rep) == if c == d then rep else [c]
  {
    assert [c][1..] == [];
  }

  lemma {:induction false} ReplaceAbsent(s: string, d: char, rep: string)
    requires d !in s
    ensures ReplaceChar(s, d, rep) == s
  {
    if |s| > 0 {
      ReplaceAbsent(s[1..], d, rep);
      assert s == [s[0]] + s[1..];
    }
  }

  /** Each step of the chain either writes the escape of the character or leaves
      the text alone. */
  lemma EscapeOne(c: char)
    ensures EscapeCString([c]) == EscapeChar(c)
  {
    var e1 := ReplaceChar([c], '\\', "\\\\");
    ReplaceOne(c, '\\', "\\\\");
    var e2 := ReplaceChar(e1, '"', "\\\"");
    if c == '\\' { ReplaceAbsent(e1, '"', "\\\""); } else { ReplaceOne(c, '"', "\\\""); }
    var e3 := ReplaceChar(e2, '\n', "\\n");
    if c in {'\\', '"'} { ReplaceAbsent(e2, '\n', "\\n"); } else { ReplaceOne(c, '\n', "\\n"); }
    var e4 := ReplaceChar(e3, '\t', "\\t");
    if c in {'\\', '"', '\n'} { ReplaceAbsent(e3, '\t', "\\t"); } else { ReplaceOne(c, '\t', "\\t"); }
    if c in {'\\', '"', '\n', '\t'} { ReplaceAbsent(e4, '\r', "\\r"); } else { ReplaceOne(c, '\r', "\\r"); }
  }

  /** A later replacement never touches what an earlier one wrote: the chain of
      replaces escapes each character independently. */
  lemma {:induction false} EscapeIsPerCharacter(value: string)
    ensures EscapeCString(value) == EscapeEach(value)
  {
    if |value| > 0 {
      assert value == [value[0]] + value[1..];
      EscapeCStringAppend([value[0]], value[1..]);
      EscapeOne(value[0]);
      EscapeIsPerCharacter(value[1..]);
    }
  }

  /** Reading a C string literal's body back: the five escapes are decoded; a raw
      newline, a raw quote or a trailing lone backslash cannot appear in it. */
  function UnescapeC(s: string): Option<string> {
    if |s| == 0 then Some("")
    else if s[0] == '\\' then
      if |s| < 2 then None
      else
        var c := match s[1]
          case '\\' => Some('\\') case '"' => Some('"') case 'n' => Some('\n')
          case 't' => Some('\t') case 'r' => Some('\r') case _ => None;
        match (c, UnescapeC(s[2..]))
        case (Some(d), Some(rest)) => Some([d] + rest)
        case _ => None
    else if s[0] == '"' || s[0] == '\n' then None
    else
      match UnescapeC(s[1..])
      case Some(rest) => Some([s[0]] + rest)
      case None => None
  }

  lemma {:induction false} UnescapeEach(value: string)
    ensures UnescapeC(EscapeEach(value)) == Some(value)
  {
    if |value| > 0 {
      var c, rest := value[0], value[1..];
      UnescapeEach(rest);
      var t := EscapeEach(rest);
      assert EscapeEach(value) == EscapeChar(c) + t;
      if c in {'\\', '"', '\n', '\t', '\r'} {
        assert (EscapeChar(c) + t)[2..] == t;
      } else {
        assert (EscapeChar(c) + t)[1..] == t;
      }
      assert value == [c] + rest;
    }
  }

  /** The escaped text, put between quotes, is a C string literal whose contents are
      the original string. */
  lemma EscapeRoundTrip(value: string)
    ensures UnescapeC(EscapeCString(value)) == Some(value)
  {
    EscapeIsPerCharacter(value);
    UnescapeEach(value);
  }

  lemma {:induction false} EscapeEachClean(value: string)
    ensures '\n' !in EscapeEach(value) && '\t' !in EscapeEach(value) && '\r' !in EscapeEach(value)
    ensures forall k :: 0 <= k < |EscapeEach(value)| && EscapeEach(value)[k] == '"' ==>
              k > 0 && EscapeEach(value)[k - 1] == '\\'
  {
    if |value| > 0 {
      EscapeEachClean(value[1..]);
      var h, t := EscapeChar(value[0]), EscapeEach(value[1..]);
      assert EscapeEach(value) == h + t;
      forall k | 0 <= k < |h + t| && (h + t)[k] == '"'
        ensures k > 0 && (h + t)[k - 1] == '\\'
      {
        if k >= |h| {
          assert t[k - |h|] == '"';
          if k - |h| == 0 {
            assert false;
          }
        }
      }
    }
  }

  /** The escaped text holds no raw newline, tab or carriage return, and every quote
      in it is preceded by a backslash. */
  lemma EscapeClean(value: string)
    ensures '\n' !in EscapeCString(value) && '\t' !in EscapeCString(value) && '\r' !in EscapeCString(value)
    ensures forall k :: 0 <= k < |EscapeCString(value)| && EscapeCString(value)[k] == '"' ==>
              k > 0 && EscapeCString(value)[k - 1] == '\\'
  {
    EscapeIsPerCharacter(value);
    EscapeEachClean(value);
  }

  // ---- Which names get declared ----

  datatype NameClass = Skipped | Temp | Variable

  predicate StartsWith(s: string, c: char) { |s| > 0 && s[0] == c }

  /** `_collect_operand`: absent fields and integers are skipped, so are names
      beginning with `L` (labels); names beginning with `t` are temporaries, and any
      other identifier is a variable. */
  function Classify(operand: Option<Operand>): NameClass {
    match operand
    case Some(Str(s)) =>
      if StartsWith(s, 'L') then Skipped
      else if StartsWith(s, 't') then Temp
      else if IsIdentifier(s) then Variable
      else Skipped
    case _ => Skipped
  }

  function TempOf(operand: Option<Operand>): set<string> {
    if Classify(operand) == Temp then {operand.value.s} else {}
  }

  function VarOf(operand: Option<Operand>): set<string> {
    if Classify(operand) == Variable then {operand.value.s} else {}
  }

  /** The opcodes whose `arg1` and `arg2` are collected. CONST's literal and the
      text of PRINTS are not among them. */
  predicate Collects(op: OpCode) {
    op in {Load, Store, Add, Sub, Mul, Div, Jfalse, Print, Slt, Seq, Sle, Sgt, Sge, Sne}
  }

  /** The fields of `q` that the first loop of `generate` collects. */
  function Scanned(q: Quadruple): seq<Option<Operand>> {
    (if q.result.Some? then [q.result] else []) + (if Collects(q.op) then [q.arg1, q.arg2] else [])
  }

  function FieldsTemps(fs: seq<Option<Operand>>): set<string> {
    if |fs| == 0 then {} else TempOf(fs[0]) + FieldsTemps(fs[1..])
  }

  function FieldsVars(fs: seq<Option<Operand>>): set<string> {
    if |fs| == 0 then {} else VarOf(fs[0]) + FieldsVars(fs[1..])
  }

  /** The names one instruction contributes: those of its result, and of its
      arguments for the opcodes whose arguments are collected. */
  lemma FieldsOfScanned(q: Quadruple)
    ensures FieldsTemps(Scanned(q)) ==
      (if q.result.Some? then TempOf(q.result) else {}) + (if Collects(q.op) then TempOf(q.arg1) + TempOf(q.arg2) else {})
    ensures FieldsVars(Scanned(q)) ==
      (if q.result.Some? then VarOf(q.result) else {}) + (if Collects(q.op) then VarOf(q.arg1) + VarOf(q.arg2) else {})
  {
    var a: seq<Option<Operand>> := if q.result.Some? then [q.result] else [];
    var b: seq<Option<Operand>> := if Collects(q.op) then [q.arg1, q.arg2] else [];
    FieldsAppend(a, b);
    if q.result.Some? {
      assert [q.result][1..] == [];
    }
    if Collects(q.op) {
      assert [q.arg1, q.arg2][1..] == [q.arg2] && [q.arg2][1..] == [];
    }
  }

  lemma {:induction false} FieldsAppend(a: seq<Option<Operand>>, b: seq<Option<Operand>>)
    ensures FieldsTemps(a + b) == FieldsTemps(a) + FieldsTemps(b)
    ensures FieldsVars(a + b) == FieldsVars(a) + FieldsVars(b)
  {
    if |a| == 0 {
      assert a + b == b;
    } else {
      assert (a + b)[1..] == a[1..] + b;
      FieldsAppend(a[1..], b);
    }
  }

  /** The temporaries the collection loop gathers from `qs`. */
  function TempsOf(qs: seq<Quadruple>): set<string> {
    if |qs| == 0 then {} else TempsOf(qs[..|qs| - 1]) + FieldsTemps(Scanned(qs[|qs| - 1]))
  }

  /** The variables the collection loop gathers from `qs`. */
  function VarsOf(qs: seq<Quadruple>): set<string> {
    if |qs| == 0 then {} else VarsOf(qs[..|qs| - 1]) + FieldsVars(Scanned(qs[|qs| - 1]))
  }

  lemma {:induction false} FieldsClassified(fs: seq<Option<Operand>>)
    ensures forall x :: x in FieldsTemps(fs) ==> Some(Str(x)) in fs && StartsWith(x, 't')
    ensures forall x :: x in FieldsVars(fs) ==>
              Some(Str(x)) in fs && IsIdentifier(x) && !StartsWith(x, 'L') && !StartsWith(x, 't')
  {
    if |fs| > 0 {
      FieldsClassified(fs[1..]);
      assert fs == [fs[0]] + fs[1..];
    }
  }

  /** The classification of the declared names: temporaries begin with `t`,
      variables are identifiers beginning with neither `t` nor `L`, so nothing is in
      both sets and no label is ever declared. Every declared name is a field the
      collection loop scans. */
  lemma {:induction false} DeclaredNamesClassified(qs: seq<Quadruple>)
    ensures forall x :: x in TempsOf(qs) ==> StartsWith(x, 't')
    ensures forall x :: x in VarsOf(qs) ==> IsIdentifier(x) && !StartsWith(x, 'L') && !StartsWith(x, 't')
    ensures TempsOf(qs) !! VarsOf(qs)
    ensures forall x :: x in TempsOf(qs) + VarsOf(qs) ==>
              !StartsWith(x, 'L') && exists k :: 0 <= k < |qs| && Some(Str(x)) in Scanned(qs[k])
  {
    if |qs| > 0 {
      var init, q := qs[..|qs| - 1], qs[|qs| - 1];
      DeclaredNamesClassified(init);
      FieldsClassified(Scanned(q));
      forall x | x in TempsOf(qs) + VarsOf(qs)
        ensures exists k :: 0 <= k < |qs| && Some(Str(x)) in Scanned(qs[k])
      {
        if x in TempsOf(init) + VarsOf(init) {
          var k :| 0 <= k < |init| && Some(Str(x)) in Scanned(init[k]);
          assert qs[k] == init[k];
        } else {
          assert Some(Str(x)) in Scanned(qs[|qs| - 1]);
        }
      }
    }
  }

  /** A CONST's literal and a PRINTS's text are never declared: only their results
      count. */
  lemma LiteralsNotCollected(q: Quadruple)
    requires q.op == Const || q.op == Prints
    ensures Scanned(q) == if q.result.Some? then [q.result] else []
  {
  }

  /** A user variable whose name begins with `L` is stored to but never declared. */
  lemma LabelLikeVariableUndeclared()
    ensures var qs := [Quadruple(Const, arg1 := Some(Int(1)), result := Some(Str("t0"))),
                       Quadruple(Store, arg1 := Some(Str("t0")), result := Some(Str("Lx")))];
            "Lx" !in TempsOf(qs) + VarsOf(qs) && "t0" in TempsOf(qs)
  {
    var qs := [Quadruple(Const, arg1 := Some(Int(1)), result := Some(Str("t0"))),
               Quadruple(Store, arg1 := Some(Str("t0")), result := Some(Str("Lx")))];
    DeclaredNamesClassified(qs);
    assert qs[..1][..0] == [];
    assert Scanned(qs[0]) == [Some(Str("t0"))];
    assert [Some(Str("t0"))][..0] == [];
    assert FieldsTemps(Scanned(qs[0])) == {"t0"};
    assert qs[..|qs| - 1] == qs[..1];
  }

  // ---- The declaration line ----

  predicate StrictlySorted(xs: seq<string>) {
    forall i, j :: 0 <= i < j < |xs| ==> Less(xs[i], xs[j])
  }

  predicate IsMinimum(m: string, s: set<string>) {
    m in s && forall y :: y in s ==> !Less(y, m)
  }

  lemma {:induction false} MinimumExists(s: set<string>)
    requires s != {}
    ensures exists m :: IsMinimum(m, s)
    decreases |s|
  {
    var x :| x in s;
    if s == {x} {
      LessIrreflexive(x);
      assert IsMinimum(x, s);
    } else {
      MinimumExists(s - {x});
      var m :| IsMinimum(m, s - {x});
      if Less(x, m) {
        LessIrreflexive(x);
        forall y | y in s
          ensures !Less(y, x)
        {
          if y != x && Less(y, x) {
            LessTransitive(y, x, m);
          }
        }
        assert IsMinimum(x, s);
      } else {
        assert IsMinimum(m, s);
      }
    }
  }

  lemma MinimumUnique(m1: string, m2: string, s: set<string>)
    requires IsMinimum(m1, s) && IsMinimum(m2, s)
    ensures m1 == m2
  {
    if m1 != m2 {
      LessTotal(m1, m2);
    }
  }

  /** `sorted(...)` of a set of names: each name once, in increasing order. */
  ghost function SortedNames(s: set<string>): (r: seq<string>)
    ensures StrictlySorted(r) && |r| == |s|
    ensures forall x :: x in r <==> x in s
    decreases |s|
  {
    if s == {} then []
    else
      MinimumExists(s);
      var m :| IsMinimum(m, s);
      var rest := SortedNames(s - {m});
      assert StrictlySorted([m] + rest) by {
        forall i, j | 0 <= i < j < |[m] + rest|
          ensures Less(([m] + rest)[i], ([m] + rest)[j])
        {
          if i == 0 {
            var x := rest[j - 1];
            assert x in s - {m};
            LessTotal(m, x);
          } else {
            assert ([m] + rest)[i] == rest[i - 1] && ([m] + rest)[j] == rest[j - 1];
          }
        }
      }
      [m] + rest
  }

  lemma SortedNamesHead(s: set<string>, m: string)
    requires IsMinimum(m, s)
    ensures SortedNames(s) == [m] + SortedNames(s - {m})
  {
    var r := SortedNames(s);
    assert IsMinimum(r[0], s) by {
      forall y | y in s
        ensures !Less(y, r[0])
      {
        if y != r[0] {
          var j :| 0 <= j < |r| && r[j] == y;
          assert Less(r[0], r[j]);
          LessAsymmetric(r[0], y);
        } else {
          LessIrreflexive(y);
        }
      }
    }
    MinimumUnique(r[0], m, s);
  }

  lemma AppendAssociative(a: seq<string>, b: seq<string>, c: seq<string>)
    ensures (a + b) + c == a + (b + c)
  {
  }

  /** The declaration line: omitted for no names, otherwise `int` and the names
      joined by commas. */
  function Declarations(names: seq<string>): (r: seq<string>)
    ensures |names| == 0 <==> r == []
  {
    if |names| == 0 then [] else ["    int " + Join(names, ", ") + ";"]
  }

  // ---- One line per instruction ----

  /** An f-string field: an absent field shows as `None`. */
  function Show(f: Option<Operand>): string {
    match f
    case None => "None"
    case Some(o) => OperandText(o)
  }

  const Indent := "    "

  /** PRINTS has its text in `arg1`; anything else makes `_escape_c_string` fail
      in the source. */
  predicate PrintsHasText(q: Quadruple) {
    q.op == Prints ==> q.arg1.Some? && q.arg1.value.Str?
  }

  /** The opcodes `generate` has a rule for: all but JIF and RETURN. */
  predicate Supported(op: OpCode) { op != Jif && op != Return }

  function ArithmeticSymbol(op: OpCode): string
    requires op in {Add, Sub, Mul, Div}
  {
    match op case Add => "+" case Sub => "-" case Mul => "*" case Div => "/"
  }

  function RelationSymbol(op: OpCode): string
    requires op in {Slt, Seq, Sne, Sle, Sgt, Sge}
  {
    match op case Slt => "<" case Seq => "==" case Sne => "!=" case Sle => "<=" case Sgt => ">" case Sge => ">="
  }

  /** The line `generate` renders for one instruction, or the error it raises. */
  function LineOf(q: Quadruple): Result<string, CompileError>
    requires PrintsHasText(q)
  {
    var res, a, b := Show(q.result), Show(q.arg1), Show(q.arg2);
    match q.op
    case Const => Ok(Indent + (res + " = " + a + ";"))
    case Load => Ok(Indent + (res + " = " + a + ";"))
    case Store => Ok(Indent + (res + " = " + a + ";"))
    case Add | Sub | Mul | Div => Ok(Indent + (res + " = " + a + " " + ArithmeticSymbol(q.op) + " " + b + ";"))
    case Jmp => Ok(Indent + ("goto " + res + ";"))
    case Jfalse => Ok(Indent + ("if (!" + a + ") goto " + res + ";"))
    case Label => Ok(res + ":;")
    case Print => Ok(Indent + ("printf(\"%d\\n\", " + a + ");"))
    case Prints => Ok(Indent + ("printf(\"%s\\n\", \"" + EscapeCString(q.arg1.value.s) + "\");"))
    case Slt | Seq | Sne | Sle | Sgt | Sge => Ok(Indent + (res + " = (" + a + " " + RelationSymbol(q.op) + " " + b + ");"))
    case _ => Err(UnsupportedOpcode(q.op))
  }

  /** A line is produced exactly for the opcodes with a rule, and an error names the
      opcode otherwise; a label's line is its name and `:;`, unindented, and every
      other line is indented by four spaces. */
  lemma LineShapes(q: Quadruple)
    requires PrintsHasText(q)
    ensures LineOf(q).Ok? <==> Supported(q.op)
    ensures !Supported(q.op) ==> LineOf(q) == Err(UnsupportedOpcode(q.op))
    ensures q.op == Label ==> LineOf(q) == Ok(Show(q.result) + ":;")
    ensures Supported(q.op) && q.op != Label ==> |LineOf(q).value| > 4 && LineOf(q).value[..4] == Indent
  {
    LineDefined(q);
    if Supported(q.op) && q.op != Label {
      LineIndented(q);
    }
  }

  lemma LineDefined(q: Quadruple)
    requires PrintsHasText(q)
    ensures LineOf(q).Ok? <==> Supported(q.op)
    ensures !Supported(q.op) ==> LineOf(q) == Err(UnsupportedOpcode(q.op))
    ensures q.op == Label ==> LineOf(q) == Ok(Show(q.result) + ":;")
  {
  }

  lemma LineIndented(q: Quadruple)
    requires PrintsHasText(q) && Supported(q.op) && q.op != Label
    ensures LineOf(q).Ok? && |LineOf(q).value| > 4 && LineOf(q).value[..4] == Indent
  {
  }

  /** The instruction lines in order, failing at the first instruction without a
      rule. */
  function BodyLines(qs: seq<Quadruple>): (r: Result<seq<string>, CompileError>)
    requires forall k :: 0 <= k < |qs| ==> PrintsHasText(qs[k])
    ensures r.Ok? <==> forall k :: 0 <= k < |qs| ==> Supported(qs[k].op)
    ensures r.Ok? ==> |r.value| == |qs| && forall k :: 0 <= k < |qs| ==> LineOf(qs[k]) == Ok(r.value[k])
    ensures r.Err? ==> exists k :: 0 <= k < |qs| && !Supported(qs[k].op) && r.error == UnsupportedOpcode(qs[k].op) &&
                                   forall j :: 0 <= j < k ==> Supported(qs[j].op)
  {
    if |qs| == 0 then Ok([])
    else
      var init := qs[..|qs| - 1];
      assert forall k :: 0 <= k < |init| ==> init[k] == qs[k];
      var front :- BodyLines(init);
      LineShapes(qs[|qs| - 1]);
      var line :- LineOf(qs[|qs| - 1]);
      Ok(front + [line])
  }

  const Header := ["#include <stdio.h>", "int main() {"]
  const Footer := ["    return 0;", "}"]

  /** The C program for `qs` with the names `decls` declared. */
  function Render(qs: seq<Quadruple>, decls: seq<string>): Result<string, CompileError>
    requires forall k :: 0 <= k < |qs| ==> PrintsHasText(qs[k])
  {
    var body :- BodyLines(qs);
    Ok(Join(Header + Declarations(decls) + body + Footer, "\n"))
  }

  /** What `generate` returns once the collected names are `names`. */
  ghost function Emit(qs: seq<Quadruple>, names: set<string>): Result<string, CompileError>
    requires forall k :: 0 <= k < |qs| ==> PrintsHasText(qs[k])
  {
    Render(qs, SortedNames(names))
  }

  // ---- The program text line by line ----

  /** A field that the rendered line shows holds no newline. */
  predicate LineSafe(q: Quadruple) {
    PrintsHasText(q) &&
    '\n' !in Show(q.result) && '\n' !in Show(q.arg2) && (q.op != Prints ==> '\n' !in Show(q.arg1))
  }

  lemma LineHasNoNewline(q: Quadruple)
    requires LineSafe(q) && Supported(q.op)
    ensures '\n' !in LineOf(q).value
  {
    if q.op == Prints {
      PrintsLineClean(q);
    } else {
      FieldLineClean(q);
    }
  }

  lemma PrintsLineClean(q: Quadruple)
    requires q.op == Prints && PrintsHasText(q)
    ensures '\n' !in LineOf(q).value
  {
    EscapeClean(q.arg1.value.s);
    var text := EscapeCString(q.arg1.value.s);
    assert LineOf(q).value == Indent + ("printf(\"%s\\n\", \"" + text + "\");");
  }

  lemma FieldLineClean(q: Quadruple)
    requires LineSafe(q) && Supported(q.op) && q.op != Prints
    ensures '\n' !in LineOf(q).value
  {
  }

  lemma {:induction false} JoinHasNoNewline(parts: seq<string>, sep: string)
    requires '\n' !in sep && forall k :: 0 <= k < |parts| ==> '\n' !in parts[k]
    ensures '\n' !in Join(parts, sep)
  {
    if |parts| > 1 {
      JoinHasNoNewline(parts[1..], sep);
    }
  }

  lemma {:induction false} NamesHaveNoNewline(qs: seq<Quadruple>)
    requires forall k :: 0 <= k < |qs| ==> LineSafe(qs[k])
    ensures forall x :: x in TempsOf(qs) + VarsOf(qs) ==> '\n' !in x
  {
    DeclaredNamesClassified(qs);
    forall x | x in TempsOf(qs) + VarsOf(qs)
      ensures '\n' !in x
    {
      var k :| 0 <= k < |qs| && Some(Str(x)) in Scanned(qs[k]);
      ScannedSafe(qs[k], x);
    }
  }

  lemma ScannedSafe(q: Quadruple, x: string)
    requires LineSafe(q) && Some(Str(x)) in Scanned(q)
    ensures '\n' !in x
  {
    assert Show(Some(Str(x))) == x;
  }

  lemma {:induction false} BodyHasNoNewline(qs: seq<Quadruple>)
    requires forall k :: 0 <= k < |qs| ==> PrintsHasText(qs[k])
    requires forall k :: 0 <= k < |qs| ==> LineSafe(qs[k])
    requires BodyLines(qs).Ok?
    ensures forall k :: 0 <= k < |BodyLines(qs).value| ==> '\n' !in BodyLines(qs).value[k]
  {
    forall k | 0 <= k < |qs|
      ensures '\n' !in BodyLines(qs).value[k]
    {
      LineHasNoNewline(qs[k]);
    }
  }

  lemma DeclarationsHaveNoNewline(decls: seq<string>)
    requires forall k :: 0 <= k < |decls| ==> '\n' !in decls[k]
    ensures forall k :: 0 <= k < |Declarations(decls)| ==> '\n' !in Declarations(decls)[k]
  {
    if |decls| > 0 {
      JoinHasNoNewline(decls, ", ");
    }
  }

  predicate NoNewlines(lines: seq<string>) {
    forall k :: 0 <= k < |lines| ==> '\n' !in lines[k]
  }

  lemma NoNewlinesAppend(a: seq<string>, b: seq<string>)
    requires NoNewlines(a) && NoNewlines(b)
    ensures NoNewlines(a + b)
  {
    forall k | 0 <= k < |a + b|
      ensures '\n' !in (a + b)[k]
    {
      if k >= |a| {
        assert (a + b)[k] == b[k - |a|];
      }
    }
  }

  lemma FixedLinesClean()
    ensures NoNewlines(Header) && NoNewlines(Footer)
  {
    var h0, h1, f0, f1 := Header[0], Header[1], Footer[0], Footer[1];
    assert forall k :: 0 <= k < |h0| ==> h0[k] != '\n';
    assert forall k :: 0 <= k < |h1| ==> h1[k] != '\n';
    assert forall k :: 0 <= k < |f0| ==> f0[k] != '\n';
    assert forall k :: 0 <= k < |f1| ==> f1[k] != '\n';
  }

  /** The output, split at newlines, is the two header lines, the declaration line
      when there are names, exactly one line per instruction in order and the two
      closing lines. */
  lemma OutputLines(qs: seq<Quadruple>, decls: seq<string>)
    requires forall k :: 0 <= k < |qs| ==> PrintsHasText(qs[k])
    requires forall k :: 0 <= k < |qs| ==> LineSafe(qs[k])
    requires forall k :: 0 <= k < |decls| ==> '\n' !in decls[k]
    requires Render(qs, decls).Ok?
    ensures Split(Render(qs, decls).value, '\n') == Header + Declarations(decls) + BodyLines(qs).value + Footer
  {
    var body := BodyLines(qs).value;
    var all := Header + Declarations(decls) + body + Footer;
    assert Render(qs, decls).value == Join(all, "\n");
    BodyHasNoNewline(qs);
    DeclarationsHaveNoNewline(decls);
    FixedLinesClean();
    NoNewlinesAppend(Header, Declarations(decls));
    NoNewlinesAppend(Header + Declarations(decls), body);
    NoNewlinesAppend(Header + Declarations(decls) + body, Footer);
    SplitJoin(all, '\n');
  }

  /** With the names the generator collects: the declaration line is present
      exactly when there are names, and declares each of them once, in increasing
      order. */
  lemma DeclarationLine(names: set<string>)
    ensures |Declarations(SortedNames(names))| == if names == {} then 0 else 1
    ensures names != {} ==> Declarations(SortedNames(names)) == ["    int " + Join(SortedNames(names), ", ") + ";"]
    ensures StrictlySorted(SortedNames(names)) && |SortedNames(names)| == |names|
    ensures forall x :: x in SortedNames(names) <==> x in names
  {
    if names != {} {
      assert |names| > 0;
    }
  }

  // ---- The generator ----

  class CodeGenerator {
    const ir: IRProgram
    var temps: set<string>
    var vars: set<string>

    constructor (irProgram: IRProgram)
      ensures ir == irProgram && temps == {} && vars == {}
    {
      ir := irProgram;
      temps := {};
      vars := {};
    }

    /** `_collect_operand`: adds the operand to the set its class names. */
    method CollectOperand(operand: Option<Operand>)
      modifies this
      ensures temps == old(temps) + TempOf(operand) && vars == old(vars) + VarOf(operand)
    {
      if operand.None? || !operand.value.Str? {
        return;
      }
      var s := operand.value.s;
      if StartsWith(s, 'L') {
        return;
      }
      if StartsWith(s, 't') {
        temps := temps + {s};
        return;
      }
      if IsIdentifier(s) {
        vars := vars + {s};
      }
    }

    /** The fields of one instruction that the first loop visits. */
    method CollectInstruction(instr: Quadruple)
      modifies this
      ensures temps == old(temps) + FieldsTemps(Scanned(instr))
      ensures vars == old(vars) + FieldsVars(Scanned(instr))
    {
      FieldsOfScanned(instr);
      if instr.result.Some? {
        CollectOperand(instr.result);
      }
      if Collects(instr.op) {
        CollectOperand(instr.arg1);
        CollectOperand(instr.arg2);
      }
    }

    /** `sorted(list(temps) + list(vars))`: since the two sets never share a name,
        this is the sorted listing of their union. */
    static method SortNames(names: set<string>) returns (r: seq<string>)
      ensures r == SortedNames(names)
    {
      r := [];
      var rest := names;
      while rest != {}
        invariant rest <= names
        invariant r + SortedNames(rest) == SortedNames(names)
        decreases |rest|
      {
        MinimumExists(rest);
        var m :| IsMinimum(m, rest);
        SortedNamesHead(rest, m);
        var tail := SortedNames(rest - {m});
        AppendAssociative(r, [m], tail);
        r := r + [m];
        rest := rest - {m};
      }
    }

    /** The first loop of `generate`: every instruction's scanned fields. */
    method CollectNames()
      modifies this
      ensures temps == old(temps) + TempsOf(ir.instructions)
      ensures vars == old(vars) + VarsOf(ir.instructions)
    {
      var instrs := ir.instructions;
      var i := 0;
      while i < |instrs|
        invariant 0 <= i <= |instrs|
        invariant temps == old(temps) + TempsOf(instrs[..i])
        invariant vars == old(vars) + VarsOf(instrs[..i])
      {
        CollectInstruction(instrs[i]);
        assert instrs[..i + 1][..i] == instrs[..i];
        i := i + 1;
      }
      assert instrs[..i] == instrs;
    }

    /** `generate`: collects the names into `temps` and `vars`, then renders one
        line per instruction, failing on an opcode without a rule. */
    method Generate() returns (r: Result<string, CompileError>)
      requires forall k :: 0 <= k < |ir.instructions| ==> PrintsHasText(ir.instructions[k])
      modifies this
      ensures temps == old(temps) + TempsOf(ir.instructions)
      ensures vars == old(vars) + VarsOf(ir.instructions)
      ensures r == Emit(ir.instructions, temps + vars)
    {
      CollectNames();
      var allVars := SortNames(temps + vars);
      r := RenderLines(ir.instructions, allVars);
    }
  }

  /** The second half of `generate`: the header, the declaration line, one line per
      instruction and the closing lines. */
  method RenderLines(instrs: seq<Quadruple>, allVars: seq<string>) returns (r: Result<string, CompileError>)
    requires forall k :: 0 <= k < |instrs| ==> PrintsHasText(instrs[k])
    ensures r == Render(instrs, allVars)
  {
    var lines := Header;
    if |allVars| > 0 {
      lines := lines + ["    int " + Join(allVars, ", ") + ";"];
    }
    assert lines == Header + Declarations(allVars);
    var full :- AppendBody(lines, instrs);
    lines := full + Footer;
    return Ok(Join(lines, "\n"));
  }

  /** The loop of `generate` over the instructions: their lines after `head`, or the
      error of the first one without a rule. */
  method AppendBody(head: seq<string>, instrs: seq<Quadruple>) returns (r: Result<seq<string>, CompileError>)
    requires forall k :: 0 <= k < |instrs| ==> PrintsHasText(instrs[k])
    ensures r.Ok? <==> BodyLines(instrs).Ok?
    ensures r.Ok? ==> r.value == head + BodyLines(instrs).value
    ensures r.Err? ==> r.error == BodyLines(instrs).error
  {
    var lines := head;
    var i := 0;
    while i < |instrs|
      invariant 0 <= i <= |instrs|
      invariant BodyLines(instrs[..i]).Ok? && lines == head + BodyLines(instrs[..i]).value
    {
      BodyLinesStep(instrs, i);
      var line := LineOf(instrs[i]);
      if line.Err? {
        BodyLinesFailure(instrs, i + 1);
        return Err(line.error);
      }
      Regroup(head, BodyLines(instrs[..i]).value, line.value);
      lines := lines + [line.value];
      i := i + 1;
    }
    assert instrs[..i] == instrs;
    return Ok(lines);
  }

  /** One more instruction: its line is added, or its error ends the list. */
  lemma BodyLinesStep(qs: seq<Quadruple>, i: nat)
    requires i < |qs| && forall k :: 0 <= k < |qs| ==> PrintsHasText(qs[k])
    requires BodyLines(qs[..i]).Ok?
    ensures LineOf(qs[i]).Err? ==> BodyLines(qs[..i + 1]) == Err(LineOf(qs[i]).error)
    ensures LineOf(qs[i]).Ok? ==> BodyLines(qs[..i + 1]) == Ok(BodyLines(qs[..i]).value + [LineOf(qs[i]).value])
  {
    assert qs[..i + 1][..i] == qs[..i];
    assert qs[..i + 1][i] == qs[i];
  }

  lemma Regroup(head: seq<string>, body: seq<string>, line: string)
    ensures head + body + [line] == head + (body + [line])
  {
  }

  /** Once a prefix fails, the whole list fails with the same error. */
  lemma {:induction false} BodyLinesFailure(qs: seq<Quadruple>, n: nat)
    requires n <= |qs| && forall k :: 0 <= k < |qs| ==> PrintsHasText(qs[k])
    requires BodyLines(qs[..n]).Err?
    ensures BodyLines(qs) == BodyLines(qs[..n])
    decreases |qs| - n
  {
    if n < |qs| {
      assert qs[..n + 1][..n] == qs[..n];
      BodyLinesFailure(qs, n + 1);
    } else {
      assert qs[..n] == qs;
    }
  }
}
