/** Scanning (my_lang_compiler/lexer.py). `Lexer` walks the source one character
    at a time, keeping the position, line, column and current character in fields.
    The functions below give the same scan on positions alone: line and column are
    functions of the position, and the class invariant says the fields agree with
    them. */
module Lexing {
  import opened Wrappers
  import opened Text
  import opened Tokens
  import opened Errors

  // ---- Positions ----

  /** The character at `pos`, or `None` past the end. */
  function CharAt(source: string, pos: nat): Option<char> {
    if pos < |source| then Some(source[pos]) else None
  }

  /** The newlines among the first `pos` characters. */
  function NewlinesBefore(source: string, pos: nat): nat {
    if pos == 0 || |source| == 0 then 0
    else if pos > |source| then NewlinesBefore(source, |source|)
    else NewlinesBefore(source, pos - 1) + (if source[pos - 1] == '\n' then 1 else 0)
  }

  /** The line the lexer reports at `pos`: one more than the newlines passed. */
  function Line(source: string, pos: nat): int {
    1 + NewlinesBefore(source, pos)
  }

  /** The 1-based column of the character at `pos`. */
  function ColumnAt(source: string, pos: nat): int
    requires pos < |source|
  {
    if pos == 0 || source[pos - 1] == '\n' then 1 else ColumnAt(source, pos - 1) + 1
  }

  /** The column the lexer reports at `pos`. Past the end it stays where it was,
      except that consuming a final newline leaves it at 0. */
  function Column(source: string, pos: nat): int {
    if pos < |source| then ColumnAt(source, pos)
    else if |source| == 0 then 1
    else if source[|source| - 1] == '\n' then 0
    else ColumnAt(source, |source| - 1)
  }

  /** The column counts the characters since the last newline: the `ColumnAt - 1`
      characters before `pos` are not newlines, and the one before them is a
      newline or the start of the text. */
  lemma {:induction false} ColumnMeaning(source: string, pos: nat)
    requires pos < |source|
    ensures 1 <= ColumnAt(source, pos) <= pos + 1
    ensures forall j :: pos - ColumnAt(source, pos) < j < pos ==> source[j] != '\n'
    ensures pos - ColumnAt(source, pos) == -1 || source[pos - ColumnAt(source, pos)] == '\n'
  {
    if pos > 0 && source[pos - 1] != '\n' {
      ColumnMeaning(source, pos - 1);
    }
  }

  // ---- The scanning routines as functions of the position ----

  /** `skip_whitespace`: the first position at or after `pos` that is not a space. */
  function SkipSpaces(source: string, pos: nat): (r: nat)
    ensures pos <= r && (r < |source| ==> !IsSpace(source[r]))
    ensures r == pos || r <= |source|
    ensures forall j :: pos <= j < r ==> IsSpace(source[j])
    decreases |source| - pos
  {
    if pos < |source| && IsSpace(source[pos]) then SkipSpaces(source, pos + 1) else pos
  }

  /** `skip_comment`: the position just past the next newline (one past the end
      when there is none). */
  function CommentEnd(source: string, pos: nat): (r: nat)
    ensures pos < r <= |source| + 1 || (pos >= |source| && r == pos + 1)
    ensures forall j :: pos <= j < r - 1 ==> j < |source| && source[j] != '\n'
    ensures r - 1 < |source| ==> source[r - 1] == '\n'
    decreases |source| - pos
  {
    if pos < |source| && source[pos] != '\n' then CommentEnd(source, pos + 1) else pos + 1
  }

  /** The end of the run of digits starting at `pos`. */
  function DigitsEnd(source: string, pos: nat): (r: nat)
    requires pos <= |source|
    ensures pos <= r <= |source| && AllDigits(source[pos..r]) && (r < |source| ==> !IsDigit(source[r]))
    decreases |source| - pos
  {
    if pos < |source| && IsDigit(source[pos]) then
      var r := DigitsEnd(source, pos + 1);
      assert source[pos..r] == [source[pos]] + source[pos + 1..r];
      r
    else pos
  }

  predicate IsWordChar(c: char) { IsAlnum(c) || c == '_' }

  /** The end of the run of letters, digits and underscores starting at `pos`. */
  function WordEnd(source: string, pos: nat): (r: nat)
    requires pos <= |source|
    ensures pos <= r <= |source| && (r < |source| ==> !IsWordChar(source[r]))
    ensures forall j :: pos <= j < r ==> IsWordChar(source[j])
    decreases |source| - pos
  {
    if pos < |source| && IsWordChar(source[pos]) then WordEnd(source, pos + 1) else pos
  }

  /** The escape table of `string`: `n t r \ " '` decode; any other character
      stands for itself. */
  function EscapeValue(c: char): char {
    match c
    case 'n' => '\n'
    case 't' => '\t'
    case 'r' => '\r'
    case _ => c
  }

  /** Prefixes `acc` to the text of a successful scan. */
  function Prepend(acc: string, r: Result<(string, nat), nat>): Result<(string, nat), nat> {
    match r
    case Ok((s, e)) => Ok((acc + s, e))
    case Err(p) => Err(p)
  }

  /** The body of a string literal from `pos` up to the closing `quote`: the decoded
      text and the position of the closing quote, or the position at which the scan
      gives up (a raw newline or the end of the text). */
  function StringBody(source: string, pos: nat, quote: char): (r: Result<(string, nat), nat>)
    ensures r.Ok? ==> pos <= r.value.1 < |source| && source[r.value.1] == quote
    ensures r.Err? ==> pos <= r.error && (r.error >= |source| || source[r.error] == '\n')
    decreases |source| - pos
  {
    if pos >= |source| then Err(pos)
    else if source[pos] == quote then Ok(("", pos))
    else if source[pos] == '\\' then
      if pos + 1 >= |source| then Err(pos + 1)
      else Prepend([EscapeValue(source[pos + 1])], StringBody(source, pos + 2, quote))
    else if source[pos] == '\n' then Err(pos)
    else Prepend([source[pos]], StringBody(source, pos + 1, quote))
  }

  /** The keyword table. */
  const Keywords: map<string, TokenType> := map[
    "myif" := MyIf, "myelse" := MyElse, "mywhile" := MyWhile, "myvar" := MyVar,
    "myprint" := MyPrint, "mytrue" := MyBool, "myfalse" := MyBool]

  /** `identifier`'s classification of a spelling. */
  function WordKind(word: string): TokenType {
    if word in Keywords then Keywords[word] else Identifier
  }

  /** The payload of a word token: a boolean for the two literals, the lexeme for
      everything else. */
  function WordValue(word: string): TokenValue {
    if WordKind(word) == MyBool then BoolValue(word == "mytrue") else StrValue(word)
  }

  /** The one-character tokens. */
  const SingleChar: map<char, TokenType> := map[
    '+' := Plus, '-' := Minus, '*' := Mul, '/' := Div, '(' := LParen, ')' := RParen,
    '{' := LBrace, '}' := RBrace, ';' := Semicolon, ',' := Comma]

  /** A token scanned at `pos` and the position after it. */
  type Scan = Result<(Token, nat), CompileError>

  function InvalidAt(source: string, pos: nat): CompileError {
    LexicalError(InvalidCharacter(CharAt(source, pos)), Line(source, pos), Column(source, pos))
  }

  /** `number`: the digits from `pos`; the line is read after them, the column at
      the first digit. */
  function ScanNumber(source: string, pos: nat): (Token, nat)
    requires pos < |source|
  {
    var e := DigitsEnd(source, pos);
    (Token(Number, IntValue(DigitsValue(source[pos..e])), Line(source, e), Column(source, pos)), e)
  }

  /** `string`: the literal opened by the quote at `pos`. */
  function ScanString(source: string, pos: nat): (r: Scan)
    requires pos < |source|
    ensures r.Ok? ==> pos < r.value.1 <= |source|
  {
    match StringBody(source, pos + 1, source[pos])
    case Err(p) => Err(LexicalError(UnterminatedString, Line(source, p), Column(source, pos)))
    case Ok((text, close)) =>
      Ok((Token(String, StrValue(text), Line(source, close + 1), Column(source, pos)), close + 1))
  }

  /** `identifier`: the word from `pos`, a keyword or a name. */
  function ScanWord(source: string, pos: nat): (Token, nat)
    requires pos < |source|
  {
    var e := WordEnd(source, pos);
    var word := source[pos..e];
    (Token(WordKind(word), WordValue(word), Line(source, e), Column(source, pos)), e)
  }

  /** An operator that may take a following `=`: with it, `two` after advancing
      twice; without, `one` after advancing once (an error for `!`). Both report the
      position after the lexeme. */
  function ScanOperator(source: string, pos: nat, one: Option<(TokenType, string)>,
                        two: TokenType, twoText: string): (r: Scan)
    requires pos < |source|
    ensures r.Ok? ==> pos < r.value.1 <= |source|
  {
    if CharAt(source, pos + 1) == Some('=') then
      Ok((Token(two, StrValue(twoText), Line(source, pos + 2), Column(source, pos + 2)), pos + 2))
    else if one.None? then Err(InvalidAt(source, pos))
    else Ok((Token(one.value.0, StrValue(one.value.1), Line(source, pos + 1), Column(source, pos + 1)), pos + 1))
  }

  /** `get_next_token` from `pos`: skips spaces and comments, then scans one token;
      at the end of the text the token is EOF. */
  function NextToken(source: string, pos: nat): (r: Scan)
    ensures r.Ok? ==> WellFormed(r.value.0)
    ensures r.Ok? && r.value.0.kind != Eof ==> pos < r.value.1 <= |source|
    ensures r.Ok? && r.value.0.kind == Eof ==> r.value.1 >= |source|
    decreases |source| - pos
  {
    if pos >= |source| then Ok((Token(Eof, NoValue, Line(source, pos), Column(source, pos)), pos))
    else
      var c := source[pos];
      if IsSpace(c) then NextToken(source, SkipSpaces(source, pos))
      else if c == '#' then NextToken(source, CommentEnd(source, pos))
      else if IsDigit(c) then Ok(ScanNumber(source, pos))
      else if c == '"' || c == '\'' then ScanString(source, pos)
      else if IsAlpha(c) || c == '_' then Ok(ScanWord(source, pos))
      else if c == '=' then ScanOperator(source, pos, Some((Assign, "=")), Eq, "==")
      else if c == '!' then ScanOperator(source, pos, None, Ne, "!=")
      else if c == '<' then ScanOperator(source, pos, Some((Lt, "<")), Le, "<=")
      else if c == '>' then ScanOperator(source, pos, Some((Gt, ">")), Ge, ">=")
      else if c in SingleChar then Ok((Token(SingleChar[c], StrValue([c]), Line(source, pos), Column(source, pos)), pos + 1))
      else Err(InvalidAt(source, pos))
  }

  /** `tokenize` from `pos`: tokens up to and including the first EOF. */
  function TokenizeFrom(source: string, pos: nat): (r: Result<seq<Token>, CompileError>)
    requires pos <= |source|
    decreases |source| - pos
  {
    match NextToken(source, pos)
    case Err(e) => Err(e)
    case Ok((t, next)) =>
      if t.kind == Eof then Ok([t])
      else
        match TokenizeFrom(source, next)
        case Err(e) => Err(e)
        case Ok(rest) => Ok([t] + rest)
  }

  /** The token list of a whole text. */
  function Tokenize(source: string): Result<seq<Token>, CompileError> {
    TokenizeFrom(source, 0)
  }

  // ---- The lexer object ----

  class Lexer {
    const source: string
    var pos: nat
    var line: int
    var column: int
    var currentChar: Option<char>

    /** The fields agree with the position: the current character is the one at
        `pos`, and line and column are those of `pos`. */
    ghost predicate Valid()
      reads this
    {
      currentChar == CharAt(source, pos) && line == Line(source, pos) && column == Column(source, pos)
    }

    constructor (sourceCode: string)
      ensures Valid() && source == sourceCode && pos == 0
      ensures line == 1 && column == 1
    {
      source := sourceCode;
      pos := 0;
      line := 1;
      column := 1;
      currentChar := if |sourceCode| > 0 then Some(sourceCode[0]) else None;
    }

    /** `advance`: one character on, counting a newline passed. */
    method Advance()
      requires Valid()
      modifies this
      ensures Valid() && pos == old(pos) + 1
    {
      if currentChar == Some('\n') {
        line := line + 1;
        column := 0;
      }
      pos := pos + 1;
      if pos >= |source| {
        currentChar := None;
      } else {
        currentChar := Some(source[pos]);
        column := column + 1;
      }
    }

    /** `peek`: the character after the current one. */
    method Peek() returns (c: Option<char>)
      ensures c == CharAt(source, pos + 1)
    {
      var peekPos := pos + 1;
      if peekPos >= |source| {
        return None;
      }
      return Some(source[peekPos]);
    }

    method SkipWhitespace()
      requires Valid()
      modifies this
      ensures Valid() && pos == SkipSpaces(source, old(pos))
    {
      while currentChar.Some? && IsSpace(currentChar.value)
        invariant Valid() && SkipSpaces(source, pos) == SkipSpaces(source, old(pos))
        decreases |source| - pos
      {
        Advance();
      }
    }

    method SkipComment()
      requires Valid()
      modifies this
      ensures Valid() && pos == CommentEnd(source, old(pos))
    {
      while currentChar.Some? && currentChar.value != '\n'
        invariant Valid() && CommentEnd(source, pos) == CommentEnd(source, old(pos))
        decreases |source| - pos
      {
        Advance();
      }
      Advance();
    }

    /** `number`, called on a digit. */
    method Number() returns (t: Token)
      requires Valid() && currentChar.Some? && IsDigit(currentChar.value)
      modifies this
      ensures Valid() && (t, pos) == ScanNumber(source, old(pos))
    {
      var result := "";
      var startCol := column;
      while currentChar.Some? && IsDigit(currentChar.value)
        invariant Valid() && old(pos) <= pos <= |source|
        invariant DigitsEnd(source, pos) == DigitsEnd(source, old(pos))
        invariant result == source[old(pos)..pos]
        decreases |source| - pos
      {
        result := result + [currentChar.value];
        Advance();
      }
      t := Token(TokenType.Number, IntValue(DigitsValue(result)), line, startCol);
    }

    /** `string`, called on a quote. */
    method String() returns (r: Result<Token, CompileError>)
      requires Valid() && currentChar.Some? && currentChar.value in {'"', '\''}
      modifies this
      ensures Valid()
      ensures r.Ok? <==> ScanString(source, old(pos)).Ok?
      ensures r.Ok? ==> (r.value, pos) == ScanString(source, old(pos)).value
      ensures r.Err? ==> r.error == ScanString(source, old(pos)).error
    {
      var quoteChar := currentChar.value;
      var startCol := column;
      Advance();
      var body := ReadBody(quoteChar);
      if body.None? {
        return Err(LexicalError(UnterminatedString, line, startCol));
      }
      Advance();
      return Ok(Token(TokenType.String, StrValue(body.value), line, startCol));
    }

    /** The loop of `string`: the text up to the closing quote, escapes decoded,
        stopping at the quote; `None` when the text ends first or a raw newline
        comes, stopping there. */
    method ReadBody(quote: char) returns (body: Option<string>)
      requires Valid()
      modifies this
      ensures Valid()
      ensures StringBody(source, old(pos), quote) == if body.Some? then Ok((body.value, pos)) else Err(pos)
    {
      ghost var start := pos;
      var result := "";
      PrependEmpty(StringBody(source, pos, quote));
      while currentChar.Some? && currentChar.value != quote
        invariant Valid() && start <= pos
        invariant StringBody(source, start, quote) == Prepend(result, StringBody(source, pos, quote))
        decreases |source| - pos
      {
        if currentChar.value == '\\' {
          Advance();
          if currentChar.None? {
            assert StringBody(source, pos - 1, quote) == Err(pos);
            break;
          }
          ghost var before := result;
          result := result + [EscapeValue(currentChar.value)];
          PrependTwice(before, [EscapeValue(currentChar.value)], StringBody(source, pos + 1, quote));
          Advance();
          continue;
        }
        if currentChar.value == '\n' {
          return None;
        }
        ghost var before := result;
        result := result + [currentChar.value];
        PrependTwice(before, [currentChar.value], StringBody(source, pos + 1, quote));
        Advance();
      }
      if currentChar != Some(quote) {
        return None;
      }
      assert StringBody(source, pos, quote) == Ok(("", pos));
      assert result + "" == result;
      return Some(result);
    }

    /** `identifier`, called on a letter or underscore. */
    method Identifier() returns (t: Token)
      requires Valid() && currentChar.Some? && (IsAlpha(currentChar.value) || currentChar.value == '_')
      modifies this
      ensures Valid() && (t, pos) == ScanWord(source, old(pos))
    {
      var result := "";
      var startCol := column;
      while currentChar.Some? && (IsAlnum(currentChar.value) || currentChar.value == '_')
        invariant Valid() && old(pos) <= pos <= |source|
        invariant WordEnd(source, pos) == WordEnd(source, old(pos))
        invariant result == source[old(pos)..pos]
        decreases |source| - pos
      {
        result := result + [currentChar.value];
        Advance();
      }
      var tokenType := if result in Keywords then Keywords[result] else TokenType.Identifier;
      var val := StrValue(result);
      if tokenType == MyBool {
        val := BoolValue(result == "mytrue");
      }
      t := Token(tokenType, val, line, startCol);
    }

    /** An operator with an optional trailing `=`. */
    method Operator(one: Option<(TokenType, string)>, two: TokenType, twoText: string) returns (r: Result<Token, CompileError>)
      requires Valid() && currentChar.Some?
      modifies this
      ensures Valid()
      ensures r.Ok? <==> ScanOperator(source, old(pos), one, two, twoText).Ok?
      ensures r.Ok? ==> (r.value, pos) == ScanOperator(source, old(pos), one, two, twoText).value
      ensures r.Err? ==> r.error == ScanOperator(source, old(pos), one, two, twoText).error
    {
      var next := Peek();
      if next == Some('=') {
        Advance();
        Advance();
        return Ok(Token(two, StrValue(twoText), line, column));
      }
      if one.None? {
        return Err(LexicalError(InvalidCharacter(currentChar), line, column));
      }
      Advance();
      return Ok(Token(one.value.0, StrValue(one.value.1), line, column));
    }

    /** `get_next_token`. */
    method GetNextToken() returns (r: Result<Token, CompileError>)
      requires Valid()
      modifies this
      ensures Valid()
      ensures r.Ok? <==> NextToken(source, old(pos)).Ok?
      ensures r.Ok? ==> (r.value, pos) == NextToken(source, old(pos)).value
      ensures r.Err? ==> r.error == NextToken(source, old(pos)).error
    {
      while currentChar.Some?
        invariant Valid() && NextToken(source, pos) == NextToken(source, old(pos))
        decreases |source| - pos
      {
        var c := currentChar.value;
        if IsSpace(c) {
          SkipWhitespace();
          continue;
        }
        if c == '#' {
          SkipComment();
          continue;
        }
        if IsDigit(c) {
          var t := Number();
          return Ok(t);
        }
        if c == '"' || c == '\'' {
          r := String();
          return;
        }
        if IsAlpha(c) || c == '_' {
          var t := Identifier();
          return Ok(t);
        }
        if c == '=' {
          r := Operator(Some((Assign, "=")), Eq, "==");
          return;
        }
        if c == '!' {
          r := Operator(None, Ne, "!=");
          return;
        }
        if c == '<' {
          r := Operator(Some((Lt, "<")), Le, "<=");
          return;
        }
        if c == '>' {
          r := Operator(Some((Gt, ">")), Ge, ">=");
          return;
        }
        if c in SingleChar {
          var token := Token(SingleChar[c], StrValue([c]), line, column);
          Advance();
          return Ok(token);
        }
        return Err(LexicalError(InvalidCharacter(currentChar), line, column));
      }
      return Ok(Token(Eof, NoValue, line, column));
    }

    /** `tokenize`: tokens up to and including EOF. */
    method Tokenize() returns (r: Result<seq<Token>, CompileError>)
      requires Valid() && pos <= |source|
      modifies this
      ensures r == TokenizeFrom(source, old(pos))
    {
      var tokens := [];
      PrefixedEmpty(TokenizeFrom(source, pos));
      while true
        invariant Valid() && pos <= |source|
        invariant TokenizeFrom(source, old(pos)) == Prefixed(tokens, TokenizeFrom(source, pos))
        decreases |source| - pos
      {
        var token := GetNextToken();
        if token.Err? {
          return Err(token.error);
        }
        if token.value.kind == Eof {
          return Ok(tokens + [token.value]);
        }
        PrefixedStep(tokens, token.value, TokenizeFrom(source, pos));
        tokens := tokens + [token.value];
      }
    }
  }

  function Prefixed(done: seq<Token>, r: Result<seq<Token>, CompileError>): Result<seq<Token>, CompileError> {
    match r
    case Ok(rest) => Ok(done + rest)
    case Err(e) => Err(e)
  }

  lemma PrefixedEmpty(r: Result<seq<Token>, CompileError>)
    ensures Prefixed([], r) == r
  {
    if r.Ok? {
      assert [] + r.value == r.value;
    }
  }

  lemma PrefixedStep(done: seq<Token>, t: Token, r: Result<seq<Token>, CompileError>)
    ensures Prefixed(done, Prefixed([t], r)) == Prefixed(done + [t], r)
  {
    if r.Ok? {
      assert done + ([t] + r.value) == (done + [t]) + r.value;
    }
  }

  lemma PrependEmpty(r: Result<(string, nat), nat>)
    ensures Prepend("", r) == r
  {
    if r.Ok? {
      assert "" + r.value.0 == r.value.0;
    }
  }

  lemma PrependTwice(a: string, b: string, r: Result<(string, nat), nat>)
    ensures Prepend(a, Prepend(b, r)) == Prepend(a + b, r)
  {
    if r.Ok? {
      assert a + (b + r.value.0) == (a + b) + r.value.0;
    }
  }
}
