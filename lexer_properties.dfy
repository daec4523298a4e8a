/** What the scanner guarantees: a token list ends in exactly one EOF, positions
    count lines and columns, keywords and literals are recognised as the language
    defines them, and the fatal errors happen exactly where they should. */
module LexingProperties {
  import opened Wrappers
  import opened Text
  import opened Tokens
  import opened Errors
  import opened Lexing

  /** A successful scan ends in EOF, and no earlier token is EOF. */
  lemma {:induction false} EndsWithSingleEof(source: string, pos: nat)
    requires pos <= |source|
    requires TokenizeFrom(source, pos).Ok?
    ensures var ts := TokenizeFrom(source, pos).value;
            |ts| > 0 && ts[|ts| - 1].kind == Eof && forall k :: 0 <= k < |ts| - 1 ==> ts[k].kind != Eof
    decreases |source| - pos
  {
    var (t, next) := NextToken(source, pos).value;
    if t.kind != Eof {
      EndsWithSingleEof(source, next);
    }
  }

  lemma TokenizeEndsWithSingleEof(source: string)
    requires Tokenize(source).Ok?
    ensures var ts := Tokenize(source).value;
            |ts| > 0 && ts[|ts| - 1].kind == Eof && forall k :: 0 <= k < |ts| - 1 ==> ts[k].kind != Eof
  {
    EndsWithSingleEof(source, 0);
  }

  /** Passing a newline moves to the next line and passing any other character
      stays on the same line. While text follows, a newline starts the next line
      at column 1 and any other character moves one column right; passing the
      last character leaves the column where it was, except that a final newline
      leaves it at 0. */
  lemma NewlineAdvance(source: string, pos: nat)
    requires pos < |source|
    ensures source[pos] == '\n' ==> Line(source, pos + 1) == Line(source, pos) + 1
    ensures source[pos] != '\n' ==> Line(source, pos + 1) == Line(source, pos)
    ensures pos + 1 < |source| ==>
              Column(source, pos + 1) == (if source[pos] == '\n' then 1 else Column(source, pos) + 1)
    ensures pos + 1 == |source| ==>
              Column(source, pos + 1) == (if source[pos] == '\n' then 0 else Column(source, pos))
  {
  }

  /** One-character tokens report the column of their character. `=`, `<` and `>`
      report the column after it, or their own column when they end the text;
      `==`, `!=`, `<=` and `>=` report the column two after their first character,
      or one after it when they end the text. */
  lemma OperatorColumns(source: string, pos: nat)
    requires pos < |source|
    ensures source[pos] in SingleChar ==> NextToken(source, pos).value.0.column == Column(source, pos)
    ensures source[pos] in {'=', '<', '>'} && (pos + 1 == |source| || source[pos + 1] != '=') ==>
              NextToken(source, pos).value.0.column == Column(source, pos) + (if pos + 1 < |source| then 1 else 0)
    ensures source[pos] in {'=', '!', '<', '>'} && pos + 1 < |source| && source[pos + 1] == '=' ==>
              NextToken(source, pos).value.0.column == Column(source, pos) + (if pos + 2 < |source| then 2 else 1)
  {
    if source[pos] in SingleChar {
      SingleColumn(source, pos);
    } else if source[pos] in {'=', '!', '<', '>'} {
      PairColumn(source, pos);
      NewlineAdvance(source, pos);
      if pos + 1 < |source| {
        NewlineAdvance(source, pos + 1);
      }
    }
  }

  lemma SingleColumn(source: string, pos: nat)
    requires pos < |source| && source[pos] in SingleChar
    ensures NextToken(source, pos).value.0.column == Column(source, pos)
  {
    var c := source[pos];
    SingleCharClass(c);
    assert NextToken(source, pos) == Ok((Token(SingleChar[c], StrValue([c]), Line(source, pos), Column(source, pos)), pos + 1));
  }

  /** The one-character tokens start no other kind of token. */
  lemma SingleCharClass(c: char)
    requires c in SingleChar
    ensures !IsSpace(c) && c != '#' && !IsDigit(c) && c != '"' && c != '\'' && !IsAlpha(c) && c != '_'
    ensures c !in {'=', '!', '<', '>'}
  {
  }

  /** An operator built from `=`, `!`, `<` or `>` reports the column the lexer
      has reached after advancing past it: the position after a one-character
      operator, the position after the `=` of a two-character one. */
  lemma PairColumn(source: string, pos: nat)
    requires pos < |source| && source[pos] in {'=', '!', '<', '>'}
    ensures source[pos] != '!' && (pos + 1 == |source| || source[pos + 1] != '=') ==>
              NextToken(source, pos).value.0.column == Column(source, pos + 1)
    ensures pos + 1 < |source| && source[pos + 1] == '=' ==>
              NextToken(source, pos).value.0.column == Column(source, pos + 2)
  {
  }

  /** At the end of the text: `<` after `a` reports column 2, `<=` after `a`
      reports column 3, and a final newline leaves the column at 0. */
  lemma EndOfTextColumns()
    ensures NextToken("a<", 1).value.0.column == 2
    ensures NextToken("a<=", 1).value.0.column == 3
    ensures Column("a\n", 2) == 0
  {
    OperatorColumns("a<", 1);
    OperatorColumns("a<=", 1);
    NewlineAdvance("a\n", 1);
  }

  /** The keyword table: `mytrue` and `myfalse` are boolean literals carrying their
      truth value, the five other keywords carry their spelling, and every other
      word is an identifier. */
  lemma WordsClassified(word: string)
    ensures WordKind(word) == MyBool <==> word == "mytrue" || word == "myfalse"
    ensures WordKind(word) == MyBool ==> WordValue(word) == BoolValue(word == "mytrue")
    ensures WordKind(word) != MyBool ==> WordValue(word) == StrValue(word)
    ensures WordKind(word) == Identifier <==> word !in {"myif", "myelse", "mywhile", "myvar", "myprint", "mytrue", "myfalse"}
  {
  }

  lemma {:induction false} DigitsRunToEnd(source: string, pos: nat)
    requires pos <= |source| && AllDigits(source[pos..])
    ensures DigitsEnd(source, pos) == |source|
    decreases |source| - pos
  {
    if pos < |source| {
      assert source[pos..][0] == source[pos];
      assert source[pos + 1..] == source[pos..][1..];
      DigitsRunToEnd(source, pos + 1);
    }
  }

  /** A decimal numeral scans back to its value: one NUMBER token, then EOF. */
  lemma NumberRoundTrip(n: nat)
    ensures Tokenize(NatToString(n)).Ok?
    ensures var ts := Tokenize(NatToString(n)).value;
            |ts| == 2 && ts[0].kind == Number && ts[0].value == IntValue(n) && ts[0].column == 1 && ts[1].kind == Eof
  {
    var s := NatToString(n);
    assert s[0..] == s;
    DigitsRunToEnd(s, 0);
    assert s[0..|s|] == s;
    DigitsValueOfNatToString(n);
    assert IsDigit(s[0]) && !IsSpace(s[0]);
    assert ScanNumber(s, 0).1 == |s| && ScanNumber(s, 0).0.kind == Number;
    assert NextToken(s, 0) == Ok(ScanNumber(s, 0));
    var eof := Token(Eof, NoValue, Line(s, |s|), Column(s, |s|));
    assert TokenizeFrom(s, |s|) == Ok([eof]);
    var t := ScanNumber(s, 0).0;
    var len: nat := |s|;
    assert NextToken(s, 0) == Ok((t, len));
    assert TokenizeFrom(s, 0) == Ok([t] + [eof]);
  }

  /** A string literal's body, written with `\\`, `\"` and `\n` for the three
      characters that cannot stand for themselves inside double quotes. */
  function EncodeChar(c: char): string {
    if c == '\\' then "\\\\" else if c == '"' then "\\\"" else if c == '\n' then "\\n" else [c]
  }

  function Encode(s: string): string {
    if |s| == 0 then "" else EncodeChar(s[0]) + Encode(s[1..])
  }

  /** `source` holds the encoding of `s` from `pos` on, character by character. */
  predicate EncodedAt(source: string, pos: nat, s: string)
    decreases |s|
  {
    if |s| == 0 then true
    else
      var h := EncodeChar(s[0]);
      pos + |h| <= |source| && source[pos] == h[0] && (|h| == 2 ==> source[pos + 1] == h[1]) &&
      EncodedAt(source, pos + |h|, s[1..])
  }

  lemma {:induction false} EncodedAtJoin(x: string, s: string, y: string)
    ensures EncodedAt(x + Encode(s) + y, |x|, s)
    decreases |s|
  {
    if |s| > 0 {
      var h := EncodeChar(s[0]);
      assert x + Encode(s) + y == (x + h) + Encode(s[1..]) + y;
      EncodedAtJoin(x + h, s[1..], y);
      assert (x + h + Encode(s[1..]) + y)[|x|] == h[0];
    }
  }

  /** One encoded character at `pos` decodes to that character. */
  lemma BodyStep(c: char, source: string, pos: nat)
    requires var h := EncodeChar(c);
             pos + |h| < |source| && source[pos] == h[0] && (|h| == 2 ==> source[pos + 1] == h[1])
    ensures StringBody(source, pos, '"') == Prepend([c], StringBody(source, pos + |EncodeChar(c)|, '"'))
  {
  }

  lemma {:induction false} EncodedBody(s: string, source: string, pos: nat)
    requires EncodedAt(source, pos, s)
    requires pos + |Encode(s)| < |source| && source[pos + |Encode(s)|] == '"'
    ensures StringBody(source, pos, '"') == Ok((s, pos + |Encode(s)|))
    decreases |s|
  {
    if |s| > 0 {
      var h := EncodeChar(s[0]);
      var e: nat := pos + |Encode(s)|;
      assert Encode(s) == h + Encode(s[1..]);
      assert EncodedAt(source, pos + |h|, s[1..]);
      EncodedBody(s[1..], source, pos + |h|);
      BodyStep(s[0], source, pos);
      PrependFirst(s, e);
    }
  }

  lemma PrependFirst(s: string, e: nat)
    requires |s| > 0
    ensures Prepend([s[0]], Ok((s[1..], e))) == Ok((s, e))
  {
    assert [s[0]] + s[1..] == s;
  }

  lemma ScanEncoded(s: string)
    ensures var source := "\"" + Encode(s) + "\"";
            NextToken(source, 0) == Ok((Token(String, StrValue(s), Line(source, |source|), 1), |source|))
  {
    var source := "\"" + Encode(s) + "\"";
    EncodedAtJoin("\"", s, "\"");
    EncodedBody(s, source, 1);
    assert NextToken(source, 0) == ScanString(source, 0);
  }

  /** Decoding undoes encoding: a double-quoted literal scans back to its text. */
  lemma StringRoundTrip(s: string)
    ensures var source := "\"" + Encode(s) + "\"";
            Tokenize(source).Ok? &&
            var ts := Tokenize(source).value;
            |ts| == 2 && ts[0].kind == String && ts[0].value == StrValue(s) && ts[0].column == 1 && ts[1].kind == Eof
  {
    var source := "\"" + Encode(s) + "\"";
    ScanEncoded(s);
    var len: nat := |source|;
    var t := Token(String, StrValue(s), Line(source, len), 1);
    assert NextToken(source, 0) == Ok((t, len));
    var eof := Token(Eof, NoValue, Line(source, len), Column(source, len));
    assert TokenizeFrom(source, len) == Ok([eof]);
    assert TokenizeFrom(source, 0) == Ok([t] + [eof]);
  }

  /** A string still open at the end of the text, or at a raw newline, is a fatal
      error reported at the line where scanning stopped and the opening quote's
      column. */
  lemma UnterminatedLiteral(source: string, pos: nat)
    requires pos < |source| && source[pos] in {'"', '\''}
    ensures StringBody(source, pos + 1, source[pos]).Err? ==>
      NextToken(source, pos) ==
        Err(LexicalError(UnterminatedString, Line(source, StringBody(source, pos + 1, source[pos]).error), Column(source, pos)))
    ensures StringBody(source, pos + 1, source[pos]).Err? <==>
      exists p :: pos < p && (p >= |source| || source[p] == '\n') && StringBody(source, pos + 1, source[pos]) == Err(p)
  {
  }

  /** `"ab` and a string broken by a newline are both rejected. */
  lemma UnterminatedScenarios()
    ensures Tokenize("\"ab") == Err(LexicalError(UnterminatedString, 1, 1))
    ensures Tokenize("'a\nb'") == Err(LexicalError(UnterminatedString, 1, 1))
  {
    assert StringBody("\"ab", 3, '"') == Err(3);
    assert StringBody("\"ab", 2, '"') == Err(3);
    assert StringBody("'a\nb'", 2, '\'') == Err(2);
    assert StringBody("'a\nb'", 1, '\'') == Err(2);
    assert NewlinesBefore("'a\nb'", 2) == 0;
  }

  /** A `!` not followed by `=` is fatal, reported at the `!`. */
  lemma LoneBang(source: string, pos: nat)
    requires pos < |source| && source[pos] == '!' && CharAt(source, pos + 1) != Some('=')
    ensures NextToken(source, pos) == Err(LexicalError(InvalidCharacter(Some('!')), Line(source, pos), Column(source, pos)))
  {
  }

  /** A character that starts no token is fatal, reported at that character. */
  lemma UnknownCharacter(source: string, pos: nat)
    requires pos < |source|
    requires var c := source[pos];
             !IsSpace(c) && c != '#' && !IsDigit(c) && c !in {'"', '\''} && !IsAlpha(c) && c != '_' &&
             c !in {'=', '!', '<', '>'} && c !in SingleChar
    ensures NextToken(source, pos) == Err(LexicalError(InvalidCharacter(Some(source[pos])), Line(source, pos), Column(source, pos)))
  {
  }

  /** The escape table: the three letters decode to control characters, and every
      other escaped character stands for itself (so `\\`, `\"` and `\'` give the
      character after the backslash). */
  lemma EscapesDecoded(c: char)
    ensures c == 'n' ==> EscapeValue(c) == '\n'
    ensures c == 't' ==> EscapeValue(c) == '\t'
    ensures c == 'r' ==> EscapeValue(c) == '\r'
    ensures c !in {'n', 't', 'r'} ==> EscapeValue(c) == c
  {
  }

  /** Whitespace and comments produce no token: scanning resumes after them. */
  lemma SkippedText(source: string, pos: nat)
    requires pos < |source|
    ensures IsSpace(source[pos]) ==> NextToken(source, pos) == NextToken(source, SkipSpaces(source, pos))
    ensures source[pos] == '#' ==> NextToken(source, pos) == NextToken(source, CommentEnd(source, pos))
    ensures source[pos] == '#' ==> forall j :: pos <= j < CommentEnd(source, pos) - 1 ==> source[j] != '\n'
  {
  }
}
