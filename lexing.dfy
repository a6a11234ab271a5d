/**
 * The hand-written scanner: a position and a line counter over the source
 * text, advanced by loops, and a keyword table filled when the scanner is
 * built. The class is proved against NextToken, a function of the source,
 * the position and the line counter, and the properties of the scanner are
 * proved about that function.
 */
module Lexing {
  import opened Wrappers
  import opened Text
  import Ast

  /** The parser's token codes; EOF is code 0. */
  datatype TokenKind =
    | EOF
    | GLOB | PROC | FUNC | MAIN | LOCAL | VAR | RETURN | HALT | PRINT
    | WHILE | DO | UNTIL | IF | ELSE
    | NEG | NOT | EQ | OR | AND | PLUS | MINUS | MULT | DIV
    | LBRACE | RBRACE | LPAREN | RPAREN | SEMICOLON | ASSIGN | GT
    | IDENTIFIER | NUMBER | STRING

  datatype Token = Token(kind: TokenKind, value: string)

  /** The `runtime_error`s the scanner throws, with the line number each message carries. */
  datatype LexError =
    | UnrecognizedCharacter(c: char, line: int)
    | LeadingZero(line: int)
    | UnterminatedString(line: int)
    | StringTooLong(line: int)

  /** The keyword table the constructor fills. */
  const Keywords: map<string, TokenKind> := map[
    "glob" := GLOB, "proc" := PROC, "func" := FUNC, "main" := MAIN,
    "local" := LOCAL, "var" := VAR, "return" := RETURN, "halt" := HALT,
    "print" := PRINT, "while" := WHILE, "do" := DO, "until" := UNTIL,
    "if" := IF, "else" := ELSE, "neg" := NEG, "not" := NOT, "eq" := EQ,
    "or" := OR, "and" := AND, "plus" := PLUS, "minus" := MINUS,
    "mult" := MULT, "div" := DIV
  ]

  // ------------------------------------------------------------------
  // The scanner as a function of the text
  // ------------------------------------------------------------------

  /** What `peek` sees at position i: the character there, or NUL past the end. */
  function CharAt(s: string, i: nat): char {
    if i < |s| then s[i] else '\0'
  }

  /** The end of the longest run of characters satisfying p that starts at i. */
  function Span(s: string, i: nat, p: char -> bool): (j: nat)
    requires i <= |s|
    ensures i <= j <= |s|
    ensures forall k :: i <= k < j ==> p(s[k])
    ensures j < |s| ==> !p(s[j])
    decreases |s| - i
  {
    if i < |s| && p(s[i]) then Span(s, i + 1, p) else i
  }

  /** The number of newline characters in t. */
  function Newlines(t: string): (n: nat)
    ensures n <= |t|
  {
    if t == [] then 0 else Newlines(t[..|t| - 1]) + (if t[|t| - 1] == '\n' then 1 else 0)
  }

  /** One call of getNextToken: its outcome, and the position and line counter after it. */
  datatype Step = Step(result: Result<Token, LexError>, pos: nat, line: int)

  /** The token codes of the keywords. */
  predicate IsKeywordKind(k: TokenKind) {
    k in {GLOB, PROC, FUNC, MAIN, LOCAL, VAR, RETURN, HALT, PRINT, WHILE, DO, UNTIL, IF, ELSE,
          NEG, NOT, EQ, OR, AND, PLUS, MINUS, MULT, DIV}
  }

  /** The keyword token for a keyword, an IDENTIFIER token for anything else. */
  function Lookup(value: string): (t: Token)
    ensures t.value == value
    ensures t.kind == IDENTIFIER <==> value !in Keywords
    ensures value in Keywords ==> t.kind == Keywords[value] && IsKeywordKind(t.kind)
  {
    if value in Keywords then Token(Keywords[value], value) else Token(IDENTIFIER, value)
  }

  /** identifier: lower-case letters, then digits; the scan stops at the
      first character that is neither. */
  function IdentifierEnd(s: string, i: nat): (e: nat)
    requires i <= |s|
    ensures i <= e <= |s|
    ensures forall k :: i <= k < e ==> IsLower(s[k]) || IsDigit(s[k])
    ensures e < |s| ==> !IsDigit(s[e])
  {
    Span(s, Span(s, i, IsLower), IsDigit)
  }

  /** number, started at i: the token is the text consumed, a leading zero is
      the only error, and no line is crossed. */
  function ScanNumber(s: string, i: nat, line: int): (r: Step)
    requires i <= |s|
    ensures i <= r.pos <= |s| && r.line == line
    ensures r.result.Ok? ==> r.result.value == Token(NUMBER, s[i..r.pos])
    ensures r.result.Err? ==> r.result.error == LeadingZero(line) && r.pos == i + 1
  {
    if CharAt(s, i) == '0' then
      if IsDigit(CharAt(s, i + 1)) then Step(Err(LeadingZero(line)), i + 1, line)
      else Step(Ok(Token(NUMBER, "0")), i + 1, line)
    else
      var j := Span(s, i, IsDigit);
      Step(Ok(Token(NUMBER, s[i..j])), j, line)
  }

  /** stringLiteral, started on the opening quote at i: a token holds the
      text between the quotes, at most 15 characters, and the closing quote is
      consumed; no line is crossed. */
  function ScanString(s: string, i: nat, line: int): (r: Step)
    requires i < |s|
    ensures i < r.pos <= |s| && r.line == line
    ensures r.result.Ok? ==>
      r.pos >= i + 2 && s[r.pos - 1] == '"' && r.result.value == Token(STRING, s[i + 1..r.pos - 1]) &&
      |r.result.value.value| <= 15
    ensures r.result.Err? ==> r.result.error in {UnterminatedString(line), StringTooLong(line)}
  {
    var j := Span(s, i + 1, IsAlnum);
    var value := s[i + 1..j];
    if CharAt(s, j) != '"' then Step(Err(UnterminatedString(line)), j, line)
    else if |value| > 15 then Step(Err(StringTooLong(line)), j + 1, line)
    else Step(Ok(Token(STRING, value)), j + 1, line)
  }

  /** The one-character tokens: exactly the seven punctuation characters, none
      of them a keyword code. */
  function Punctuation(c: char): (r: Option<TokenKind>)
    ensures r.Some? <==> c in "{}();=>"
    ensures r.Some? ==> !IsKeywordKind(r.value) && r.value !in {EOF, IDENTIFIER, NUMBER, STRING}
  {
    match c
    case '{' => Some(LBRACE)
    case '}' => Some(RBRACE)
    case '(' => Some(LPAREN)
    case ')' => Some(RPAREN)
    case ';' => Some(SEMICOLON)
    case '=' => Some(ASSIGN)
    case '>' => Some(GT)
    case _ => None
  }

  /** getNextToken, from position i with the line counter at `line`: it never
      moves backwards or past the end, the line counter never falls, and EOF is
      returned exactly when only white space is left. */
  function NextToken(s: string, i: nat, line: int): (r: Step)
    requires i <= |s|
    ensures i <= r.pos <= |s| && r.line >= line
    ensures r.result == Ok(Token(EOF, "")) <==> forall k :: i <= k < |s| ==> IsSpace(s[k])
  {
    var j := Span(s, i, IsSpace);
    var ln := line + Newlines(s[i..j]);
    if j >= |s| then Step(Ok(Token(EOF, "")), j, ln)
    else
      var c := s[j];
      if IsLower(c) then
        var e := IdentifierEnd(s, j);
        Step(Ok(Lookup(s[j..e])), e, ln)
      else if IsDigit(c) then ScanNumber(s, j, ln)
      else if c == '"' then ScanString(s, j, ln)
      else
        match Punctuation(c)
        case Some(k) => Step(Ok(Token(k, [c])), j + 1, ln)
        case None => Step(Err(UnrecognizedCharacter(c, ln)), j + 1, ln)
  }

  // ------------------------------------------------------------------
  // The scanner object
  // ------------------------------------------------------------------

  class Lexer {
    /** `source_`: never changed once the scanner is built. */
    const source: string
    /** `current_pos_`. */
    var pos: nat
    /** `line_number_`, starting at 1. */
    var line: int
    /** `keywords_`. */
    var keywords: map<string, TokenKind>

    ghost predicate Valid()
      reads this
    {
      pos <= |source| && keywords == Keywords
    }

    /** Lexer: at the start of the text, on line 1, with the keyword table filled in. */
    constructor (src: string)
      ensures source == src && pos == 0 && line == 1
      ensures Valid()
    {
      source := src;
      pos := 0;
      line := 1;
      keywords := map[];
      new;
      keywords := keywords["glob" := GLOB];
      keywords := keywords["proc" := PROC];
      keywords := keywords["func" := FUNC];
      keywords := keywords["main" := MAIN];
      keywords := keywords["local" := LOCAL];
      keywords := keywords["var" := VAR];
      keywords := keywords["return" := RETURN];
      keywords := keywords["halt" := HALT];
      keywords := keywords["print" := PRINT];
      keywords := keywords["while" := WHILE];
      keywords := keywords["do" := DO];
      keywords := keywords["until" := UNTIL];
      keywords := keywords["if" := IF];
      keywords := keywords["else" := ELSE];
      keywords := keywords["neg" := NEG];
      keywords := keywords["not" := NOT];
      keywords := keywords["eq" := EQ];
      keywords := keywords["or" := OR];
      keywords := keywords["and" := AND];
      keywords := keywords["plus" := PLUS];
      keywords := keywords["minus" := MINUS];
      keywords := keywords["mult" := MULT];
      keywords := keywords["div" := DIV];
    }

    /** peek: the current character, or NUL once the text is used up. */
    function Peek(): (c: char)
      reads this
      ensures pos < |source| ==> c == source[pos]
      ensures pos >= |source| ==> c == '\0'
    {
      if pos >= |source| then '\0' else source[pos]
    }

    /** advance: one character on. */
    method Advance()
      modifies this
      ensures pos == old(pos) + 1
      ensures line == old(line) && keywords == old(keywords)
    {
      pos := pos + 1;
    }

    /** skipWhitespace: past the run of white space, counting its newlines. */
    method SkipWhitespace()
      requires Valid()
      modifies this
      ensures Valid()
      ensures pos == Span(source, old(pos), IsSpace)
      ensures line == old(line) + Newlines(source[old(pos)..pos])
    {
      while IsSpace(Peek())
        invariant Valid() && old(pos) <= pos
        invariant Span(source, pos, IsSpace) == Span(source, old(pos), IsSpace)
        invariant line == old(line) + Newlines(source[old(pos)..pos])
        decreases |source| - pos
      {
        NewlinesSnoc(source, old(pos), pos);
        if Peek() == '\n' {
          line := line + 1;
        }
        Advance();
      }
    }

    /** identifier: lower-case letters, then digits, looked up in the keyword table. */
    method Identifier() returns (tok: Token)
      requires Valid()
      modifies this
      ensures Valid() && line == old(line)
      ensures pos == IdentifierEnd(source, old(pos))
      ensures tok == Lookup(source[old(pos)..pos])
    {
      var start := pos;
      while IsLower(Peek())
        invariant Valid() && start <= pos && line == old(line)
        invariant Span(source, pos, IsLower) == Span(source, start, IsLower)
        decreases |source| - pos
      {
        Advance();
      }
      while IsDigit(Peek())
        invariant Valid() && start <= pos && line == old(line)
        invariant Span(source, pos, IsDigit) == IdentifierEnd(source, start)
        decreases |source| - pos
      {
        Advance();
      }
      var value := source[start..pos];
      if value in keywords {
        return Token(keywords[value], value);
      }
      return Token(IDENTIFIER, value);
    }

    /** number: a lone 0, or a run of digits; a 0 followed by a digit is an error. */
    method Number() returns (r: Result<Token, LexError>)
      requires Valid()
      modifies this
      ensures Valid()
      ensures Step(r, pos, line) == ScanNumber(source, old(pos), old(line))
    {
      var start := pos;
      var first := Peek();
      if first == '0' {
        Advance();
        if IsDigit(Peek()) {
          return Err(LeadingZero(line));
        }
        return Ok(Token(NUMBER, "0"));
      } else {
        while IsDigit(Peek())
          invariant Valid() && start <= pos && line == old(line)
          invariant Span(source, pos, IsDigit) == Span(source, start, IsDigit)
          decreases |source| - pos
        {
          Advance();
        }
        var value := source[start..pos];
        return Ok(Token(NUMBER, value));
      }
    }

    /** stringLiteral: letters and digits between quotes, at most 15 of them. */
    method StringLiteral() returns (r: Result<Token, LexError>)
      requires Valid() && pos < |source|
      modifies this
      ensures Valid()
      ensures Step(r, pos, line) == ScanString(source, old(pos), old(line))
    {
      Advance();
      var start := pos;
      while IsAlnum(Peek())
        invariant Valid() && start <= pos && line == old(line)
        invariant Span(source, pos, IsAlnum) == Span(source, start, IsAlnum)
        decreases |source| - pos
      {
        Advance();
      }
      var value := source[start..pos];
      if Peek() != '"' {
        return Err(UnterminatedString(line));
      }
      Advance();
      if |value| > 15 {
        return Err(StringTooLong(line));
      }
      return Ok(Token(STRING, value));
    }

    /** getNextToken: skip white space, then scan one token by its first character. */
    method GetNextToken() returns (r: Result<Token, LexError>)
      requires Valid()
      modifies this
      ensures Valid()
      ensures Step(r, pos, line) == NextToken(source, old(pos), old(line))
    {
      SkipWhitespace();
      if pos >= |source| {
        return Ok(Token(EOF, ""));
      }
      var c := Peek();
      if IsLower(c) {
        var tok := Identifier();
        return Ok(tok);
      }
      if IsDigit(c) {
        r := Number();
        return;
      }
      if c == '"' {
        r := StringLiteral();
        return;
      }
      Advance();
      match c
      case '{' => return Ok(Token(LBRACE, "{"));
      case '}' => return Ok(Token(RBRACE, "}"));
      case '(' => return Ok(Token(LPAREN, "("));
      case ')' => return Ok(Token(RPAREN, ")"));
      case ';' => return Ok(Token(SEMICOLON, ";"));
      case '=' => return Ok(Token(ASSIGN, "="));
      case '>' => return Ok(Token(GT, ">"));
      case _ => return Err(UnrecognizedCharacter(c, line));
    }
  }

  /** The newline count of a slice grows by the character appended to it. */
  lemma NewlinesSnoc(s: string, a: nat, b: nat)
    requires a <= b < |s|
    ensures Newlines(s[a..b + 1]) == Newlines(s[a..b]) + (if s[b] == '\n' then 1 else 0)
  {
    assert s[a..b + 1][..b - a] == s[a..b];
  }

  /** Splitting a slice splits its newline count. */
  lemma {:induction false} NewlinesAppend(s: string, a: nat, b: nat, c: nat)
    requires a <= b <= c <= |s|
    ensures Newlines(s[a..c]) == Newlines(s[a..b]) + Newlines(s[b..c])
    decreases c - b
  {
    if b < c {
      NewlinesAppend(s, a, b, c - 1);
      NewlinesSnoc(s, a, c - 1);
      NewlinesSnoc(s, b, c - 1);
    }
  }

  /** A slice without white space holds no newline. */
  lemma {:induction false} NoNewlines(s: string, a: nat, b: nat)
    requires a <= b <= |s|
    requires forall k :: a <= k < b ==> !IsSpace(s[k])
    ensures Newlines(s[a..b]) == 0
    decreases b - a
  {
    if a < b {
      NoNewlines(s, a, b - 1);
      NewlinesSnoc(s, a, b - 1);
    }
  }

  // ------------------------------------------------------------------
  // Properties of getNextToken
  // ------------------------------------------------------------------

  /** The scanner's keyword table is the validators' reserved-word set without ">". */
  lemma KeywordsAreReserved()
    ensures Keywords.Keys == Ast.ReservedKeywords - {">"}
  {
  }

  /** The end-of-input token, with an empty value, comes exactly when only white space is left. */
  lemma EndOfInputIffBlank(s: string, i: nat, line: int)
    requires i <= |s|
    ensures NextToken(s, i, line).result == Ok(Token(EOF, "")) <==> forall k :: i <= k < |s| ==> IsSpace(s[k])
  {
    var j := Span(s, i, IsSpace);
    if j < |s| {
      assert !IsSpace(s[j]);
      var c := s[j];
      if IsLower(c) {
        assert Lookup(s[j..IdentifierEnd(s, j)]).kind != EOF;
      }
    }
  }

  /** A token never contains white space: everything after the skipped run is token text. */
  lemma TokenTextHasNoSpace(s: string, i: nat, line: int)
    requires i <= |s|
    ensures var r := NextToken(s, i, line);
            Span(s, i, IsSpace) <= r.pos <= |s| &&
            forall k :: Span(s, i, IsSpace) <= k < r.pos ==> !IsSpace(s[k])
  {
    var j := Span(s, i, IsSpace);
    if j < |s| && IsLower(s[j]) {
      var m := Span(s, j, IsLower);
      assert forall k :: j <= k < m ==> IsLower(s[k]);
    }
  }

  /** The line counter goes up by the number of newlines consumed, and by nothing else. */
  lemma LinesCountConsumedNewlines(s: string, i: nat, line: int)
    requires i <= |s|
    ensures var r := NextToken(s, i, line);
            i <= r.pos <= |s| && r.line == line + Newlines(s[i..r.pos])
  {
    var r := NextToken(s, i, line);
    var j := Span(s, i, IsSpace);
    TokenTextHasNoSpace(s, i, line);
    NoNewlines(s, j, r.pos);
    NewlinesAppend(s, i, j, r.pos);
  }

  /** Every call but the one that reports the end of input consumes at least one character;
      the end of input leaves the position at the end of the text. */
  lemma Progress(s: string, i: nat, line: int)
    requires i <= |s|
    ensures var r := NextToken(s, i, line);
            (r.result == Ok(Token(EOF, "")) ==> r.pos == |s|) &&
            (r.result != Ok(Token(EOF, "")) ==> i < r.pos <= |s|)
  {
    EndOfInputIffBlank(s, i, line);
    var j := Span(s, i, IsSpace);
    if j < |s| && IsLower(s[j]) {
      assert Span(s, j, IsLower) > j;
    }
  }

  /** The value of a token other than a string constant is the text it consumed after
      the white space. */
  lemma ValuesAreConsumedText(s: string, i: nat, line: int)
    requires i <= |s|
    ensures var r := NextToken(s, i, line);
            var j := Span(s, i, IsSpace);
            r.result.Ok? && r.result.value.kind != EOF && r.result.value.kind != STRING ==>
              j < r.pos <= |s| && r.result.value.value == s[j..r.pos]
  {
    var j := Span(s, i, IsSpace);
    var ln := line + Newlines(s[i..j]);
    if j < |s| {
      var c := s[j];
      if IsLower(c) {
        assert Span(s, j, IsLower) > j;
      } else if IsDigit(c) {
        assert NextToken(s, i, line) == ScanNumber(s, j, ln);
        NumberText(s, j, ln);
      } else if c != '"' {
        assert s[j..j + 1] == [c];
      }
    }
  }

  /** The value of a string constant is the text between the quotes it consumed. */
  lemma StringValuesAreQuotedText(s: string, i: nat, line: int)
    requires i <= |s|
    ensures var r := NextToken(s, i, line);
            var j := Span(s, i, IsSpace);
            r.result.Ok? && r.result.value.kind == STRING ==>
              j + 2 <= r.pos <= |s| && s[j] == '"' && s[r.pos - 1] == '"' && r.result.value.value == s[j + 1..r.pos - 1]
  {
    var j := Span(s, i, IsSpace);
    var ln := line + Newlines(s[i..j]);
    if j < |s| && s[j] == '"' {
      assert NextToken(s, i, line) == ScanString(s, j, ln);
      StringText(s, j, ln);
    }
  }

  /** A string constant is the text between the quotes stringLiteral consumed. */
  lemma StringText(s: string, j: nat, line: int)
    requires j < |s| && s[j] == '"'
    ensures var r := ScanString(s, j, line);
            r.result.Ok? ==>
              j + 2 <= r.pos <= |s| && s[r.pos - 1] == '"' && r.result.value == Token(STRING, s[j + 1..r.pos - 1])
  {
  }

  /** A number constant is the text number consumed. */
  lemma NumberText(s: string, j: nat, line: int)
    requires j < |s| && IsDigit(s[j])
    ensures var r := ScanNumber(s, j, line);
            r.result.Ok? ==> j < r.pos <= |s| && r.result.value.kind == NUMBER && r.result.value.value == s[j..r.pos]
  {
    if s[j] == '0' {
      assert s[j..j + 1] == "0";
    }
  }

  /** Every word the scanner returns passes the validator the tree applies to it later:
      identifiers pass checkIdentifier and keywords are reserved words. */
  lemma WordsPassValidators(s: string, i: nat, line: int)
    requires i <= |s|
    ensures var r := NextToken(s, i, line);
            r.result.Ok? ==>
              var t := r.result.value;
              (t.kind == IDENTIFIER ==> Ast.CheckIdentifier(t.value)) &&
              (IsKeywordKind(t.kind) ==> t.value in Keywords && t.value in Ast.ReservedKeywords)
  {
    var j := Span(s, i, IsSpace);
    if j < |s| && IsLower(s[j]) {
      IdentifierValid(s, j);
    }
  }

  /** Every constant the scanner returns passes the validator the tree applies to it later:
      number constants pass checkNumber and string constants pass checkString. */
  lemma ConstantsPassValidators(s: string, i: nat, line: int)
    requires i <= |s|
    ensures var r := NextToken(s, i, line);
            r.result.Ok? ==>
              var t := r.result.value;
              (t.kind == NUMBER ==> Ast.CheckNumber(t.value)) &&
              (t.kind == STRING ==> Ast.CheckString(t.value))
  {
    var j := Span(s, i, IsSpace);
    var ln := line + Newlines(s[i..j]);
    if j < |s| {
      var c := s[j];
      if IsDigit(c) {
        assert NextToken(s, i, line) == ScanNumber(s, j, ln);
        NumberValid(s, j, ln);
      } else if c == '"' {
        assert NextToken(s, i, line) == ScanString(s, j, ln);
        StringValid(s, j, ln);
      }
    }
  }

  /** The text identifier consumes, unless it is a keyword, passes checkIdentifier. */
  lemma IdentifierValid(s: string, j: nat)
    requires j < |s| && IsLower(s[j])
    ensures var v := s[j..IdentifierEnd(s, j)];
            (v !in Keywords ==> Ast.CheckIdentifier(v)) && (v in Keywords ==> v in Ast.ReservedKeywords)
  {
    var m := Span(s, j, IsLower);
    var v := s[j..IdentifierEnd(s, j)];
    forall k | 1 <= k < |v|
      ensures IsLower(v[k]) || IsDigit(v[k])
    {
      assert v[k] == s[j + k];
      if j + k < m {
        assert IsLower(s[j + k]);
      } else {
        assert IsDigit(s[j + k]);
      }
    }
    assert v[0] == s[j];
    KeywordsAreReserved();
    Ast.IdentifierCharacterisation(v);
  }

  /** A number constant number returns passes checkNumber. */
  lemma NumberValid(s: string, j: nat, line: int)
    requires j < |s| && IsDigit(s[j])
    ensures var r := ScanNumber(s, j, line);
            r.result.Ok? ==> Ast.CheckNumber(r.result.value.value)
  {
    var r := ScanNumber(s, j, line);
    if r.result.Ok? {
      var v := r.result.value.value;
      if s[j] != '0' {
        var e := Span(s, j, IsDigit);
        assert v == s[j..e];
        assert forall k :: 0 <= k < |v| ==> v[k] == s[j + k];
      }
      Ast.NumberCharacterisation(v);
    }
  }

  /** A string constant stringLiteral returns passes checkString. */
  lemma StringValid(s: string, j: nat, line: int)
    requires j < |s|
    ensures var r := ScanString(s, j, line);
            r.result.Ok? ==> Ast.CheckString(r.result.value.value)
  {
    var r := ScanString(s, j, line);
    if r.result.Ok? {
      var v := r.result.value.value;
      assert forall k :: 0 <= k < |v| ==> v[k] == s[j + 1 + k];
      Ast.StringCharacterisation(v);
    }
  }

  /** An identifier or keyword is the longest run of lower-case letters at the token start,
      followed by the longest run of digits after it. */
  lemma WordTokens(s: string, i: nat, line: int) returns (m: nat)
    requires i <= |s|
    requires Span(s, i, IsSpace) < |s| && IsLower(s[Span(s, i, IsSpace)])
    ensures var r := NextToken(s, i, line);
            var j := Span(s, i, IsSpace);
            j < m <= r.pos <= |s| &&
            (forall k :: j <= k < m ==> IsLower(s[k])) && (m < |s| ==> !IsLower(s[m])) &&
            (forall k :: m <= k < r.pos ==> IsDigit(s[k])) && (r.pos < |s| ==> !IsDigit(s[r.pos])) &&
            r.result == Ok(Lookup(s[j..r.pos]))
  {
    var j := Span(s, i, IsSpace);
    m := Span(s, j, IsLower);
  }

  /** A number constant is a lone 0 or the longest run of digits at the token start;
      a 0 followed by a digit is the leading-zero error, reported after the 0. */
  lemma NumberTokens(s: string, i: nat, line: int)
    requires i <= |s|
    requires Span(s, i, IsSpace) < |s| && IsDigit(s[Span(s, i, IsSpace)])
    ensures var r := NextToken(s, i, line);
            var j := Span(s, i, IsSpace);
            (r.result.Err? <==> s[j] == '0' && j + 1 < |s| && IsDigit(s[j + 1])) &&
            (r.result.Err? ==> r.result.error == LeadingZero(r.line) && r.pos == j + 1) &&
            (r.result.Ok? ==>
               r.result.value.kind == NUMBER && j < r.pos <= |s| &&
               (forall k :: j <= k < r.pos ==> IsDigit(s[k])) && (r.pos < |s| ==> !IsDigit(s[r.pos])) &&
               (r.result.value.value == "0" <==> s[j] == '0'))
  {
    var j := Span(s, i, IsSpace);
    if s[j] != '0' {
      var e := Span(s, j, IsDigit);
      assert s[j..e][0] == s[j];
    }
  }

  /** A string literal runs from its quote over the longest run of letters and digits;
      without a closing quote after that run it is unterminated, and with more than 15
      characters it is too long, in that order of checking. */
  lemma StringTokens(s: string, i: nat, line: int) returns (e: nat)
    requires i <= |s|
    requires Span(s, i, IsSpace) < |s| && s[Span(s, i, IsSpace)] == '"'
    ensures var r := NextToken(s, i, line);
            var j := Span(s, i, IsSpace);
            j < e <= |s| && (forall k :: j < k < e ==> IsAlnum(s[k])) && (e < |s| ==> !IsAlnum(s[e])) &&
            (r.result == Err(UnterminatedString(r.line)) <==> e == |s| || s[e] != '"') &&
            (r.result == Err(StringTooLong(r.line)) <==> e < |s| && s[e] == '"' && e - (j + 1) > 15) &&
            (r.result.Ok? <==> e < |s| && s[e] == '"' && e - (j + 1) <= 15) &&
            (r.result.Ok? ==> r.result.value == Token(STRING, s[j + 1..e]) && r.pos == e + 1)
  {
    var j := Span(s, i, IsSpace);
    e := Span(s, j + 1, IsAlnum);
  }

  /** Any other character is one of the seven punctuation tokens, with itself as value,
      or the unrecognised-character error; either way it is consumed. */
  lemma PunctuationTokens(s: string, i: nat, line: int)
    requires i <= |s|
    requires var j := Span(s, i, IsSpace);
             j < |s| && !IsLower(s[j]) && !IsDigit(s[j]) && s[j] != '"'
    ensures var r := NextToken(s, i, line);
            var j := Span(s, i, IsSpace);
            r.pos == j + 1 &&
            (r.result.Ok? <==> s[j] in "{}();=>") &&
            (r.result.Ok? ==> r.result.value.value == [s[j]] && r.result.value.kind in {LBRACE, RBRACE, LPAREN, RPAREN, SEMICOLON, ASSIGN, GT}) &&
            (r.result.Err? ==> r.result.error == UnrecognizedCharacter(s[j], r.line))
  {
  }
}
