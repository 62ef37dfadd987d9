/**
 * The character-class scanner of src/lexer.rs. The peekable character
 * iterator becomes an index `pos` into the source text; `Scan` is the
 * reference definition of one `next_token` step and `Lexer.NextToken`
 * is proved to perform exactly that step.
 */
module Lexer {
  import opened Wrappers
  import opened Common

  datatype TokenType =
    | OpenParen | CloseParen | OpenBrace | CloseBrace | Semicolon
    | Minus | Tilde | Decrement | Plus | Asterisk | Slash | Percent
    | QuestionMark | Colon
    | Not | And | Or | Equal | NotEqual | Less | LessEqual | Greater | GreaterEqual
    | Assign | Comma
    | KeywordInt | KeywordVoid | KeywordReturn | KeywordIf | KeywordElse
    | KeywordDo | KeywordWhile | KeywordFor | KeywordBreak | KeywordContinue
    | Identifier(name: string)
    | IntegerConstant(value: int)

  datatype Token = Token(tokenType: TokenType, line: nat)

  /** The largest `i32`. */
  const I32Max: int := 0x7fff_ffff

  // Character classes, restricted to ASCII.
  predicate IsAlphabetic(c: char) {
    'a' <= c <= 'z' || 'A' <= c <= 'Z'
  }

  predicate IsAlphanumeric(c: char) {
    IsAlphabetic(c) || IsDigitChar(c)
  }

  predicate IsWordChar(c: char) {
    IsAlphanumeric(c) || c == '_'
  }

  predicate IsBlank(c: char) {
    c == ' ' || c == '\t' || c == '\r'
  }

  const Keywords: set<string> :=
    {"int", "void", "return", "if", "else", "continue", "do", "while", "for", "break"}

  /** Each reserved word and the token it stands for. */
  const KeywordTable: map<string, TokenType> := map[
    "int" := KeywordInt, "void" := KeywordVoid, "return" := KeywordReturn,
    "if" := KeywordIf, "else" := KeywordElse, "continue" := KeywordContinue,
    "do" := KeywordDo, "while" := KeywordWhile, "for" := KeywordFor,
    "break" := KeywordBreak]

  /** The ten reserved words map to their keyword tokens; any other word is an identifier. */
  function KeywordOrIdentifier(word: string): (t: TokenType)
    ensures t.Identifier? <==> word !in Keywords
    ensures t.Identifier? ==> t.name == word
    ensures word in Keywords ==> word in KeywordTable && t == KeywordTable[word]
  {
    if word == "int" then KeywordInt
    else if word == "void" then KeywordVoid
    else if word == "return" then KeywordReturn
    else if word == "if" then KeywordIf
    else if word == "else" then KeywordElse
    else if word == "continue" then KeywordContinue
    else if word == "do" then KeywordDo
    else if word == "while" then KeywordWhile
    else if word == "for" then KeywordFor
    else if word == "break" then KeywordBreak
    else Identifier(word)
  }

  /** End of the maximal run of alphanumeric-or-`_` characters starting at `i`. */
  function WordEnd(s: string, i: nat): (j: nat)
    requires i <= |s|
    ensures i <= j <= |s|
    ensures forall k :: i <= k < j ==> IsWordChar(s[k])
    ensures j == |s| || !IsWordChar(s[j])
    decreases |s| - i
  {
    if i < |s| && IsWordChar(s[i]) then WordEnd(s, i + 1) else i
  }

  /** End of the maximal run of decimal digits starting at `i`. */
  function DigitsEnd(s: string, i: nat): (j: nat)
    requires i <= |s|
    ensures i <= j <= |s|
    ensures forall k :: i <= k < j ==> IsDigitChar(s[k])
    ensures j == |s| || !IsDigitChar(s[j])
    decreases |s| - i
  {
    if i < |s| && IsDigitChar(s[i]) then DigitsEnd(s, i + 1) else i
  }

  /** Index of the first `\n` at or after `i`, or the end of the input. */
  function LineEnd(s: string, i: nat): (j: nat)
    requires i <= |s|
    ensures i <= j <= |s|
    ensures forall k :: i <= k < j ==> s[k] != '\n'
    ensures j == |s| || s[j] == '\n'
    decreases |s| - i
  {
    if i < |s| && s[i] != '\n' then LineEnd(s, i + 1) else i
  }

  /**
   * Skips blanks, newlines and `#` lines from `i`. Returns where the next
   * token starts and the line number there; a `#` line stops in front of
   * its `\n`, which the next round counts.
   */
  function SkipTrivia(s: string, i: nat, line: nat): (r: (nat, nat))
    requires i <= |s|
    ensures i <= r.0 <= |s|
    ensures r.0 < |s| ==> !IsBlank(s[r.0]) && s[r.0] != '\n' && s[r.0] != '#'
    decreases |s| - i
  {
    if i == |s| then (i, line)
    else if s[i] == '\n' then SkipTrivia(s, i + 1, line + 1)
    else if IsBlank(s[i]) then SkipTrivia(s, i + 1, line)
    else if s[i] == '#' then SkipTrivia(s, LineEnd(s, i + 1), line)
    else (i, line)
  }

  /** Skipping trivia raises the line number by exactly the number of `\n` skipped. */
  lemma {:induction false} SkipTriviaCountsNewlines(s: string, i: nat, line: nat)
    requires i <= |s|
    ensures SkipTrivia(s, i, line).1 == line + CountNewlines(s[i..SkipTrivia(s, i, line).0])
    decreases |s| - i
  {
    var r := SkipTrivia(s, i, line);
    if i == |s| {
    } else if s[i] == '\n' || IsBlank(s[i]) {
      SkipTriviaCountsNewlines(s, i + 1, if s[i] == '\n' then line + 1 else line);
      CountNewlinesConcat(s[i..i + 1], s[i + 1..r.0]);
      assert s[i..r.0] == s[i..i + 1] + s[i + 1..r.0];
    } else if s[i] == '#' {
      var e := LineEnd(s, i + 1);
      SkipTriviaCountsNewlines(s, e, line);
      NoNewlines(s[i..e]);
      CountNewlinesConcat(s[i..e], s[e..r.0]);
      assert s[i..r.0] == s[i..e] + s[e..r.0];
    } else {
      assert s[i..r.0] == [];
    }
  }

  /** Tokens of one character. */
  function SingleCharToken(c: char): Option<TokenType> {
    if c == '(' then Some(OpenParen)
    else if c == ')' then Some(CloseParen)
    else if c == '{' then Some(OpenBrace)
    else if c == '}' then Some(CloseBrace)
    else if c == ';' then Some(Semicolon)
    else if c == '~' then Some(Tilde)
    else if c == '+' then Some(Plus)
    else if c == '*' then Some(Asterisk)
    else if c == '/' then Some(Slash)
    else if c == '%' then Some(Percent)
    else if c == '?' then Some(QuestionMark)
    else if c == ':' then Some(Colon)
    else if c == ',' then Some(Comma)
    else None
  }

  /**
   * Characters that start a one- or two-character operator: the second
   * character, the long token and the short token.
   */
  function PairToken(c: char): Option<(char, TokenType, TokenType)> {
    if c == '-' then Some(('-', Decrement, Minus))
    else if c == '!' then Some(('=', NotEqual, Not))
    else if c == '<' then Some(('=', LessEqual, Less))
    else if c == '>' then Some(('=', GreaterEqual, Greater))
    else if c == '=' then Some(('=', Equal, Assign))
    else None
  }

  function UnrecognizedMsg(c: char, line: nat): string {
    "Unrecognized character '" + [c] + "' on line " + NatToString(line)
  }

  /** `str::parse::<i32>` on a run of digits: fails when empty or out of range. */
  function ParseI32(digits: string): Option<int>
    requires forall k :: 0 <= k < |digits| ==> IsDigitChar(digits[k])
  {
    if digits != [] && DigitsValue(digits) <= I32Max then Some(DigitsValue(digits)) else None
  }

  /** `lex_integer_constant` from `p`: the token (or error) and where it stops. */
  function LexNumber(s: string, p: nat, line: nat): (Result<TokenType>, nat)
    requires p <= |s|
  {
    var j := DigitsEnd(s, p);
    if j < |s| && IsAlphabetic(s[j]) then
      var k := WordEnd(s, j);
      (Err("Invalid token '" + s[p..k] + "' on line " + NatToString(line)), k)
    else
      match ParseI32(s[p..j])
      case Some(v) => (Ok(IntegerConstant(v)), j)
      case None => (Err("Failed to parse number: " + s[p..j]), j)
  }

  /** The token starting at `p` (which is not trivia) and where scanning stops. */
  function ScanAt(s: string, p: nat, line: nat): (Result<TokenType>, nat)
    requires p < |s|
  {
    var c := s[p];
    var second := p + 1 < |s|;
    if SingleCharToken(c).Some? then (Ok(SingleCharToken(c).value), p + 1)
    else if PairToken(c).Some? then
      var (follow, long, short) := PairToken(c).value;
      if second && s[p + 1] == follow then (Ok(long), p + 2) else (Ok(short), p + 1)
    else if c == '&' || c == '|' then
      if second && s[p + 1] == c then (Ok(if c == '&' then And else Or), p + 2)
      else (Err(UnrecognizedMsg(c, line)), p + 1)
    else if IsAlphabetic(c) || c == '_' then
      var j := WordEnd(s, p);
      (Ok(KeywordOrIdentifier(s[p..j])), j)
    else if IsDigitChar(c) then LexNumber(s, p, line)
    else (Err(UnrecognizedMsg(c, line)), p)
  }

  /** One step of the iterator: its item, and the position and line afterwards. */
  datatype Step = Step(item: Option<Result<Token>>, pos: nat, line: nat)

  /** Reference definition of `next_token` from position `i` on line `line`. */
  function Scan(s: string, i: nat, line: nat): Step
    requires i <= |s|
  {
    var (p, ln) := SkipTrivia(s, i, line);
    if p == |s| then Step(None, p, ln)
    else
      var (res, q) := ScanAt(s, p, ln);
      Step(Some(if res.Ok? then Ok(Token(res.value, ln)) else Err(res.msg)), q, ln)
  }

  /** The characters a step consumes after the trivia contain no `\n`. */
  lemma ScanAtNoNewline(s: string, p: nat, line: nat)
    requires p < |s| && s[p] != '\n'
    ensures p <= ScanAt(s, p, line).1 <= |s|
    ensures forall k :: p <= k < ScanAt(s, p, line).1 ==> s[k] != '\n'
  {
    var c := s[p];
    if SingleCharToken(c).None? && PairToken(c).None? && c != '&' && c != '|'
      && !(IsAlphabetic(c) || c == '_') && IsDigitChar(c)
    {
      var j := DigitsEnd(s, p);
      if j < |s| && IsAlphabetic(s[j]) {
        var k := WordEnd(s, j);
        assert forall m :: p <= m < k ==> IsWordChar(s[m]);
      }
    }
  }

  /**
   * The line number advances by exactly the number of `\n` consumed, and a
   * token is stamped with the line it starts on.
   */
  lemma ScanCountsLines(s: string, i: nat, line: nat)
    requires i <= |s|
    ensures var st := Scan(s, i, line);
      i <= st.pos <= |s| && st.line == line + CountNewlines(s[i..st.pos])
    ensures var st := Scan(s, i, line);
      st.item.Some? && st.item.value.Ok? ==> st.item.value.value.line == st.line
  {
    var (p, ln) := SkipTrivia(s, i, line);
    SkipTriviaCountsNewlines(s, i, line);
    if p < |s| {
      var q := ScanAt(s, p, ln).1;
      ScanAtNoNewline(s, p, ln);
      assert '\n' !in s[p..q];
      NoNewlines(s[p..q]);
      CountNewlinesConcat(s[i..p], s[p..q]);
      assert s[i..q] == s[i..p] + s[p..q];
    }
  }

  /** A step that yields a token consumes at least one character. */
  lemma ScanProgress(s: string, i: nat, line: nat)
    requires i <= |s|
    ensures var st := Scan(s, i, line);
      st.pos <= |s| && (st.item.Some? && st.item.value.Ok? ==> i < st.pos)
  {
    var p := SkipTrivia(s, i, line).0;
    if p < |s| {
      ScanAtNoNewline(s, p, SkipTrivia(s, i, line).1);
    }
  }

  /** Maximal munch: `--`, `!=`, `<=`, `>=` and `==` are single two-character tokens. */
  lemma TwoCharOperators(s: string, p: nat, line: nat)
    requires p + 1 < |s|
    ensures s[p..p + 2] == "--" ==> Scan(s, p, line) == Step(Some(Ok(Token(Decrement, line))), p + 2, line)
    ensures s[p..p + 2] == "!=" ==> Scan(s, p, line) == Step(Some(Ok(Token(NotEqual, line))), p + 2, line)
    ensures s[p..p + 2] == "<=" ==> Scan(s, p, line) == Step(Some(Ok(Token(LessEqual, line))), p + 2, line)
    ensures s[p..p + 2] == ">=" ==> Scan(s, p, line) == Step(Some(Ok(Token(GreaterEqual, line))), p + 2, line)
    ensures s[p..p + 2] == "==" ==> Scan(s, p, line) == Step(Some(Ok(Token(Equal, line))), p + 2, line)
  {
    assert s[p..p + 2][0] == s[p] && s[p..p + 2][1] == s[p + 1];
  }

  /** Without the second character, the one-character operator is produced. */
  lemma OneCharOperators(s: string, p: nat, line: nat)
    requires p < |s|
    requires p + 1 == |s| || s[p + 1] != '='
    ensures s[p] == '!' ==> Scan(s, p, line) == Step(Some(Ok(Token(Not, line))), p + 1, line)
    ensures s[p] == '<' ==> Scan(s, p, line) == Step(Some(Ok(Token(Less, line))), p + 1, line)
    ensures s[p] == '>' ==> Scan(s, p, line) == Step(Some(Ok(Token(Greater, line))), p + 1, line)
    ensures s[p] == '=' ==> Scan(s, p, line) == Step(Some(Ok(Token(Assign, line))), p + 1, line)
    ensures s[p] == '-' && (p + 1 == |s| || s[p + 1] != '-') ==>
      Scan(s, p, line) == Step(Some(Ok(Token(Minus, line))), p + 1, line)
  {
  }

  /**
   * A lone `&` or `|` is consumed and reported; any character outside the
   * known classes is reported without being consumed.
   */
  lemma UnrecognizedCharacters(s: string, p: nat, line: nat)
    requires p < |s|
    ensures (s[p] == '&' || s[p] == '|') && (p + 1 == |s| || s[p + 1] != s[p]) ==>
      Scan(s, p, line) == Step(Some(Err(UnrecognizedMsg(s[p], line))), p + 1, line)
    ensures var c := s[p];
      !IsWordChar(c) && !IsBlank(c) && c != '\n' && c !in "#(){};~+*/%?:,-&|!<>=" ==>
      Scan(s, p, line) == Step(Some(Err(UnrecognizedMsg(c, line))), p, line)
  {
  }

  /** Every character from `i` to `j` is a digit, so the word run from `i` is the one from `j`. */
  lemma {:induction false} WordEndThroughDigits(s: string, i: nat, j: nat)
    requires i <= j <= |s|
    requires forall k :: i <= k < j ==> IsDigitChar(s[k])
    ensures WordEnd(s, i) == WordEnd(s, j)
    decreases j - i
  {
    if i < j {
      WordEndThroughDigits(s, i + 1, j);
    }
  }

  /**
   * Integer constants: a digit run glued to a letter is an invalid token
   * carrying the whole alphanumeric run; otherwise the run is a constant
   * when it fits in `i32` and a parse error when it does not.
   */
  lemma IntegerConstants(s: string, p: nat, line: nat)
    requires p < |s| && IsDigitChar(s[p])
    ensures var j := DigitsEnd(s, p);
      j < |s| && IsAlphabetic(s[j]) ==>
      Scan(s, p, line) ==
        Step(Some(Err("Invalid token '" + s[p..WordEnd(s, p)] + "' on line " + NatToString(line))),
             WordEnd(s, p), line)
    ensures var j := DigitsEnd(s, p);
      (j == |s| || !IsAlphabetic(s[j])) && DigitsValue(s[p..j]) <= I32Max ==>
      Scan(s, p, line) == Step(Some(Ok(Token(IntegerConstant(DigitsValue(s[p..j])), line))), j, line)
    ensures var j := DigitsEnd(s, p);
      (j == |s| || !IsAlphabetic(s[j])) && DigitsValue(s[p..j]) > I32Max ==>
      Scan(s, p, line) == Step(Some(Err("Failed to parse number: " + s[p..j])), j, line)
  {
    WordEndThroughDigits(s, p, DigitsEnd(s, p));
  }

  /** Input made only of blanks and newlines yields no token and counts its lines. */
  lemma {:induction false} BlankInputEnds(s: string, i: nat, line: nat)
    requires i <= |s|
    requires forall k :: i <= k < |s| ==> IsBlank(s[k]) || s[k] == '\n'
    ensures Scan(s, i, line) == Step(None, |s|, line + CountNewlines(s[i..]))
    decreases |s| - i
  {
    SkipTriviaCountsNewlines(s, i, line);
    if i < |s| {
      BlankInputEnds(s, i + 1, if s[i] == '\n' then line + 1 else line);
    }
  }

  /**
   * Collecting the iterator into a `Result<Vec<Token>, String>`: all tokens
   * up to the end of input, or the first error.
   */
  function LexAll(s: string, i: nat, line: nat): Result<seq<Token>>
    requires i <= |s|
    decreases |s| - i
  {
    var st := Scan(s, i, line);
    ScanProgress(s, i, line);
    match st.item
    case None => Ok([])
    case Some(Err(e)) => Err(e)
    case Some(Ok(t)) =>
      var rest :- LexAll(s, st.pos, st.line);
      Ok([t] + rest)
  }

  /** Token line numbers never decrease and never fall below the starting line. */
  lemma {:induction false} LexAllLinesAscend(s: string, i: nat, line: nat)
    requires i <= |s|
    ensures var r := LexAll(s, i, line);
      r.Ok? ==>
        (forall k :: 0 <= k < |r.value| ==> line <= r.value[k].line) &&
        (forall j, k :: 0 <= j < k < |r.value| ==> r.value[j].line <= r.value[k].line)
    decreases |s| - i
  {
    var st := Scan(s, i, line);
    ScanProgress(s, i, line);
    ScanCountsLines(s, i, line);
    if st.item.Some? && st.item.value.Ok? {
      LexAllLinesAscend(s, st.pos, st.line);
    }
  }

  class Lexer {
    const source: string
    var pos: nat
    var line: nat

    ghost predicate Valid()
      reads this
    {
      pos <= |source|
    }

    constructor (source: string)
      ensures Valid() && this.source == source && pos == 0 && line == 1
    {
      this.source := source;
      pos := 0;
      line := 1;
    }

    /** Consumes the maximal word run and classifies it. */
    method LexIdentifierOrKeyword() returns (t: TokenType)
      requires Valid()
      modifies this`pos
      ensures Valid() && pos == WordEnd(source, old(pos))
      ensures t == KeywordOrIdentifier(source[old(pos)..pos])
    {
      var identifier := "";
      while pos < |source|
        invariant old(pos) <= pos <= |source|
        invariant identifier == source[old(pos)..pos]
        invariant WordEnd(source, pos) == WordEnd(source, old(pos))
      {
        var c := source[pos];
        if IsWordChar(c) {
          identifier := identifier + [c];
          pos := pos + 1;
        } else {
          break;
        }
      }
      t := KeywordOrIdentifier(identifier);
    }

    /** Consumes a digit run; rejects a run glued to letters, or one outside `i32`. */
    method LexIntegerConstant() returns (r: Result<TokenType>)
      requires Valid()
      modifies this`pos
      ensures Valid()
      ensures (r, pos) == LexNumber(source, old(pos), line)
    {
      var numberStr := "";
      while pos < |source|
        invariant old(pos) <= pos <= |source|
        invariant numberStr == source[old(pos)..pos]
        invariant DigitsEnd(source, pos) == DigitsEnd(source, old(pos))
      {
        var c := source[pos];
        if IsDigitChar(c) {
          numberStr := numberStr + [c];
          pos := pos + 1;
        } else {
          break;
        }
      }
      if pos < |source| && IsAlphabetic(source[pos]) {
        var invalidToken := numberStr;
        ghost var mid := pos;
        while pos < |source|
          invariant mid <= pos <= |source|
          invariant invalidToken == source[old(pos)..pos]
          invariant WordEnd(source, pos) == WordEnd(source, mid)
        {
          var c := source[pos];
          if IsWordChar(c) {
            invalidToken := invalidToken + [c];
            pos := pos + 1;
          } else {
            break;
          }
        }
        return Err("Invalid token '" + invalidToken + "' on line " + NatToString(line));
      }
      match ParseI32(numberStr)
      case Some(num) => r := Ok(IntegerConstant(num));
      case None => r := Err("Failed to parse number: " + numberStr);
    }

    /** The skip loop at the head of `next_token`: blanks, newlines and `#` lines. */
    method SkipTriviaLoop()
      requires Valid()
      modifies this`pos, this`line
      ensures Valid()
      ensures (pos, line) == SkipTrivia(source, old(pos), old(line))
    {
      while pos < |source|
        invariant pos <= |source|
        invariant SkipTrivia(source, pos, line) == SkipTrivia(source, old(pos), old(line))
        decreases |source| - pos
      {
        var c := source[pos];
        if c == '\n' {
          assert SkipTrivia(source, pos, line) == SkipTrivia(source, pos + 1, line + 1);
          line := line + 1;
          pos := pos + 1;
        } else if IsBlank(c) {
          assert SkipTrivia(source, pos, line) == SkipTrivia(source, pos + 1, line);
          pos := pos + 1;
        } else if c == '#' {
          ghost var hash := pos;
          pos := pos + 1;
          ghost var start, ln := pos, line;
          while pos < |source|
            invariant start <= pos <= |source| && line == ln
            invariant LineEnd(source, pos) == LineEnd(source, start)
          {
            if source[pos] == '\n' {
              break;
            }
            pos := pos + 1;
          }
          assert pos == LineEnd(source, hash + 1);
          assert SkipTrivia(source, hash, line) == SkipTrivia(source, pos, line);
        } else {
          break;
        }
      }
    }

    /** The dispatch of `next_token` on the first character of a token. */
    method LexToken() returns (result: Result<TokenType>)
      requires Valid() && pos < |source|
      modifies this`pos
      ensures Valid()
      ensures (result, pos) == ScanAt(source, old(pos), line)
    {
      var c := source[pos];
      match c {
      case '(' => pos := pos + 1; result := Ok(OpenParen);
      case ')' => pos := pos + 1; result := Ok(CloseParen);
      case '{' => pos := pos + 1; result := Ok(OpenBrace);
      case '}' => pos := pos + 1; result := Ok(CloseBrace);
      case ';' => pos := pos + 1; result := Ok(Semicolon);
      case '~' => pos := pos + 1; result := Ok(Tilde);
      case '+' => pos := pos + 1; result := Ok(Plus);
      case '*' => pos := pos + 1; result := Ok(Asterisk);
      case '/' => pos := pos + 1; result := Ok(Slash);
      case '%' => pos := pos + 1; result := Ok(Percent);
      case '?' => pos := pos + 1; result := Ok(QuestionMark);
      case ':' => pos := pos + 1; result := Ok(Colon);
      case ',' => pos := pos + 1; result := Ok(Comma);
      case '-' =>
        pos := pos + 1;
        if pos < |source| && source[pos] == '-' {
          pos := pos + 1;
          result := Ok(Decrement);
        } else {
          result := Ok(Minus);
        }
      case '&' =>
        pos := pos + 1;
        if pos < |source| && source[pos] == '&' {
          pos := pos + 1;
          result := Ok(And);
        } else {
          result := Err(UnrecognizedMsg(c, line));
        }
      case '|' =>
        pos := pos + 1;
        if pos < |source| && source[pos] == '|' {
          pos := pos + 1;
          result := Ok(Or);
        } else {
          result := Err(UnrecognizedMsg(c, line));
        }
      case '!' =>
        pos := pos + 1;
        if pos < |source| && source[pos] == '=' {
          pos := pos + 1;
          result := Ok(NotEqual);
        } else {
          result := Ok(Not);
        }
      case '<' =>
        pos := pos + 1;
        if pos < |source| && source[pos] == '=' {
          pos := pos + 1;
          result := Ok(LessEqual);
        } else {
          result := Ok(Less);
        }
      case '>' =>
        pos := pos + 1;
        if pos < |source| && source[pos] == '=' {
          pos := pos + 1;
          result := Ok(GreaterEqual);
        } else {
          result := Ok(Greater);
        }
      case '=' =>
        pos := pos + 1;
        if pos < |source| && source[pos] == '=' {
          pos := pos + 1;
          result := Ok(Equal);
        } else {
          result := Ok(Assign);
        }
      case _ =>
        if IsAlphabetic(c) || c == '_' {
          var t := LexIdentifierOrKeyword();
          result := Ok(t);
        } else if IsDigitChar(c) {
          result := LexIntegerConstant();
        } else {
          result := Err(UnrecognizedMsg(c, line));
        }
      }
    }

    /** `Iterator::next`: skips trivia, then lexes one token stamped with the current line. */
    method NextToken() returns (r: Option<Result<Token>>)
      requires Valid()
      modifies this`pos, this`line
      ensures Valid()
      ensures Step(r, pos, line) == Scan(source, old(pos), old(line))
    {
      SkipTriviaLoop();
      if pos == |source| {
        return None;
      }
      var result := LexToken();
      r := Some(match result
                case Ok(tokenType) => Ok(Token(tokenType, line))
                case Err(e) => Err(e));
    }

    /** Drains the iterator, stopping at the end of input or at the first error. */
    method CollectTokens() returns (r: Result<seq<Token>>)
      requires Valid()
      modifies this`pos, this`line
      ensures r == LexAll(source, old(pos), old(line))
    {
      var tokens: seq<Token> := [];
      ghost var total := LexAll(source, pos, line);
      while true
        invariant Valid()
        invariant total.Ok? <==> LexAll(source, pos, line).Ok?
        invariant total.Ok? ==> total.value == tokens + LexAll(source, pos, line).value
        invariant total.Err? ==> total == LexAll(source, pos, line)
        decreases |source| - pos
      {
        ghost var p0, l0 := pos, line;
        ScanProgress(source, pos, line);
        var item := NextToken();
        match item
        case None =>
          assert LexAll(source, p0, l0) == Ok([]);
          assert tokens + [] == tokens;
          return Ok(tokens);
        case Some(Err(e)) =>
          return Err(e);
        case Some(Ok(t)) =>
          if total.Ok? {
            assert tokens + ([t] + LexAll(source, pos, line).value) == (tokens + [t]) + LexAll(source, pos, line).value;
          }
          tokens := tokens + [t];
      }
    }
  }
}
