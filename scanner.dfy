/**
 * The lexer: one left-to-right pass over the characters of the source
 * text. `ScanFrom` states, character by character, what the scanning loop
 * does from a given position and line; the method `Scanner` is the loop
 * itself, proved to produce exactly `Scan(input)`.
 */
module Scanner {
  import opened Wrappers
  import opened Tokens

  /** The keyword table, in the source's order. */
  const Keywords: seq<string> := [
    "and", "class", "else", "false", "func", "for", "if", "null", "or", "print", "return", "super",
    "this", "true", "let", "while"
  ]

  /** `_is_number`: an ASCII decimal digit. */
  predicate IsDigit(c: char) {
    '0' <= c <= '9'
  }

  /** `_is_alphanumeric`: an ASCII letter, an ASCII digit or `_`. */
  predicate IsAlphanumeric(c: char) {
    ('a' <= c <= 'z') || ('A' <= c <= 'Z') || ('0' <= c <= '9') || c == '_'
  }

  /** Looks `word` up in the keyword table, entry by entry. */
  method IsKeyword(word: string) returns (found: bool)
    ensures found <==> word in Keywords
  {
    var k := 0;
    while k < |Keywords|
      invariant 0 <= k <= |Keywords|
      invariant word !in Keywords[..k]
    {
      if word == Keywords[k] {
        return true;
      }
      k := k + 1;
    }
    assert Keywords[..k] == Keywords;
    return false;
  }

  /**
   * The token kind of a keyword. `and` and `or` are in the table but have no
   * case of their own, so they (like every non-keyword) fall through to
   * IDENTIFIER.
   */
  function MatchKeyword(word: string): (kind: TokenKind)
    ensures kind != IDENTIFIER <==> word in Keywords && word != "and" && word != "or"
    ensures word == "true" <==> kind == TRUE
    ensures word == "false" <==> kind == FALSE
  {
    match word
    case "class" => CLASS
    case "else" => ELSE
    case "false" => FALSE
    case "func" => FUNCTION
    case "for" => FOR
    case "if" => IF
    case "null" => NIL
    case "print" => PRINT
    case "return" => RETURN
    case "super" => SUPER
    case "this" => THIS
    case "true" => TRUE
    case "let" => LET
    case "while" => WHILE
    case _ => IDENTIFIER
  }

  /** The kind of a token that is always exactly one character. */
  function SingleCharKind(c: char): Option<TokenKind> {
    match c
    case '.' => Some(DOT)
    case '{' => Some(LEFTBRACE)
    case '%' => Some(MODULO)
    case '}' => Some(RIGHTBRACE)
    case '(' => Some(LEFTPAREN)
    case ')' => Some(RIGHTPAREN)
    case ',' => Some(COMMA)
    case '-' => Some(MINUS)
    case '+' => Some(PLUS)
    case ';' => Some(SEMICOLON)
    case '*' => Some(STAR)
    case _ => None
  }

  /** `=`, `!`, `>`, `<`: one character, or two when followed by `=`. */
  predicate IsEqualPrefix(c: char) {
    c == '=' || c == '!' || c == '>' || c == '<'
  }

  function OneCharKind(c: char): TokenKind
    requires IsEqualPrefix(c)
  {
    match c
    case '=' => EQUAL
    case '!' => BANG
    case '>' => GREATER
    case '<' => LESS
  }

  function TwoCharKind(c: char): TokenKind
    requires IsEqualPrefix(c)
  {
    match c
    case '=' => EQUALEQUAL
    case '!' => BANGEQUAL
    case '>' => GREATEREQUAL
    case '<' => LESSEQUAL
  }

  function DigitValue(c: char): nat
    requires IsDigit(c)
  {
    (c as int) - ('0' as int)
  }

  /** The decimal value of a run of digits, read most significant first. */
  function DecimalValue(digits: string): nat
    requires forall k :: 0 <= k < |digits| ==> IsDigit(digits[k])
  {
    if digits == [] then 0
    else 10 * DecimalValue(digits[..|digits| - 1]) + DigitValue(digits[|digits| - 1])
  }

  /** The end of the maximal run of digits that starts at `i`. */
  function DigitsEnd(s: string, i: nat): (j: nat)
    requires i <= |s|
    ensures i <= j <= |s|
    ensures forall k :: i <= k < j ==> IsDigit(s[k])
    ensures j == |s| || !IsDigit(s[j])
    decreases |s| - i
  {
    if i < |s| && IsDigit(s[i]) then DigitsEnd(s, i + 1) else i
  }

  /** The end of the maximal run of `[A-Za-z0-9_]` that starts at `i`. */
  function WordEnd(s: string, i: nat): (j: nat)
    requires i <= |s|
    ensures i <= j <= |s|
    ensures forall k :: i <= k < j ==> IsAlphanumeric(s[k])
    ensures j == |s| || !IsAlphanumeric(s[j])
    decreases |s| - i
  {
    if i < |s| && IsAlphanumeric(s[i]) then WordEnd(s, i + 1) else i
  }

  /** The position of the first `c` at or after `i`, or `|s|` if there is none. */
  function NextOf(s: string, i: nat, c: char): (j: nat)
    requires i <= |s|
    ensures i <= j <= |s|
    ensures forall k :: i <= k < j ==> s[k] != c
    ensures j == |s| || s[j] == c
    decreases |s| - i
  {
    if i < |s| && s[i] != c then NextOf(s, i + 1, c) else i
  }

  function CountNewlines(s: string): nat {
    if s == [] then 0
    else CountNewlines(s[..|s| - 1]) + (if s[|s| - 1] == '\n' then 1 else 0)
  }

  function EofToken(line: nat): Token {
    Token(EOF, "", line, Nil)
  }

  /** The token for a maximal identifier-like run `word`. */
  function WordToken(word: string, line: nat): Token {
    if word in Keywords then
      Token(MatchKeyword(word), word, line,
            if word == "true" then Bool(true) else if word == "false" then Bool(false) else Nil)
    else
      Token(IDENTIFIER, word, line, Nil)
  }

  /** What one turn of the scanning loop does: stop, or emit tokens and move on. */
  datatype StepResult = Stop | Emit(emitted: seq<Token>, next: nat, line: nat)

  /**
   * One turn of the scanning loop on the character at `i`, including what
   * the inner loops consume after it.
   */
  function Step(s: string, i: nat, line: nat): (r: StepResult)
    requires i < |s|
    ensures r.Emit? ==> i < r.next <= |s| && line <= r.line
  {
    var c := s[i];
    if c == ' ' || c == '\t' then Emit([], i + 1, line)
    else if c == '\n' then Emit([], i + 1, line + 1)
    else if c == '\0' then Stop
    else if SingleCharKind(c).Some? then
      Emit([Token(SingleCharKind(c).value, [c], line, Nil)], i + 1, if c == ';' then line + 1 else line)
    else if IsEqualPrefix(c) || c == '&' || c == '|' then OperatorTurn(s, i, line)
    else if c == '/' then SlashTurn(s, i, line)
    else if c == '"' then StringTurn(s, i, line)
    else if IsDigit(c) then NumberTurn(s, i, line)
    else if IsAlphanumeric(c) then WordTurn(s, i, line)
    else Emit([], i + 1, line)
  }

  /**
   * `=`, `!`, `>`, `<`, `&`, `|`. At the end of the input or before a
   * `'\0'` nothing is emitted; `&` and `|` that are not doubled are dropped.
   */
  function OperatorTurn(s: string, i: nat, line: nat): (r: StepResult)
    requires i < |s| && (IsEqualPrefix(s[i]) || s[i] == '&' || s[i] == '|')
    ensures r.Emit? && i < r.next <= i + 2 && r.line == line
  {
    var c := s[i];
    if i + 1 == |s| || s[i + 1] == '\0' then Emit([], i + 1, line)
    else if IsEqualPrefix(c) then
      if s[i + 1] == '=' then Emit([Token(TwoCharKind(c), [c, '='], line, Nil)], i + 2, line)
      else Emit([Token(OneCharKind(c), [c], line, Nil)], i + 1, line)
    else if s[i + 1] == c then Emit([Token(if c == '&' then AND else OR, [c, c], line, Nil)], i + 2, line)
    else Emit([], i + 1, line)
  }

  /** `/` alone, or a `//` comment skipped up to and including its newline. */
  function SlashTurn(s: string, i: nat, line: nat): (r: StepResult)
    requires i < |s| && s[i] == '/'
    ensures r.Emit? && i < r.next <= |s| && line <= r.line <= line + 1
  {
    if i + 1 < |s| && s[i + 1] == '/' then
      var j := NextOf(s, i + 2, '\n');
      if j < |s| then Emit([], j + 1, line + 1) else Emit([], j, line)
    else Emit([Token(SLASH, "/", line, Nil)], i + 1, line)
  }

  /**
   * A string literal: the text up to the next quote, or to the end of the
   * input when there is none (the token is emitted either way); newlines
   * inside it move the line counter, and the token carries the new line.
   */
  function StringTurn(s: string, i: nat, line: nat): (r: StepResult)
    requires i < |s| && s[i] == '"'
    ensures r.Emit? && i < r.next <= |s| && line <= r.line
  {
    var j := NextOf(s, i + 1, '"');
    var text := s[i + 1..j];
    var line' := line + CountNewlines(text);
    Emit([Token(STRING, text, line', String(text))], if j < |s| then j + 1 else j, line')
  }

  /** A maximal run of digits, with its decimal value as the literal. */
  function NumberTurn(s: string, i: nat, line: nat): (r: StepResult)
    requires i < |s| && IsDigit(s[i])
    ensures r.Emit? && i < r.next <= |s| && r.line == line
  {
    var j := DigitsEnd(s, i);
    Emit([Token(NUMBER, s[i..j], line, Number(DecimalValue(s[i..j]) as real))], j, line)
  }

  /** A maximal identifier-like run, classified against the keyword table. */
  function WordTurn(s: string, i: nat, line: nat): (r: StepResult)
    requires i < |s| && IsAlphanumeric(s[i])
    ensures r.Emit? && i < r.next <= |s| && r.line == line
  {
    var j := WordEnd(s, i);
    Emit([WordToken(s[i..j], line)], j, line)
  }

  /**
   * The tokens the scanning loop produces from position `i` on, when the
   * line counter stands at `line`: the loop runs until the input or a
   * `'\0'` ends it, and then the EOF token is appended.
   */
  function ScanFrom(s: string, i: nat, line: nat): seq<Token>
    requires i <= |s|
    decreases |s| - i
  {
    if i == |s| then [EofToken(line)]
    else
      match Step(s, i, line)
      case Stop => [EofToken(line)]
      case Emit(emitted, j, line') => emitted + ScanFrom(s, j, line')
  }

  /** The whole token sequence of a source text; lines count from 1. */
  function Scan(s: string): seq<Token> {
    ScanFrom(s, 0, 1)
  }

  /**
   * The scanning loop. It keeps the source's structure: a cursor over the
   * characters and a line counter; the body of the loop, with its inner
   * loops for comments, strings, digits and identifiers, is `ScanStep`.
   * The source's `Result` is always `Ok`, so the tokens are returned directly.
   */
  method Scanner(input: string) returns (tokens: seq<Token>)
    ensures tokens == Scan(input)
  {
    tokens := [];
    var line: nat := 1;
    var i: nat := 0;
    while i < |input|
      invariant i <= |input|
      invariant tokens + ScanFrom(input, i, line) == Scan(input)
      decreases |input| - i
    {
      var emitted, next, line', stop := ScanStep(input, i, line);
      if stop {
        break;
      }
      tokens, i, line := tokens + emitted, next, line';
    }
    tokens := tokens + [EofToken(line)];
  }

  /** One turn of the scanning loop: the `match` on the current character. */
  method ScanStep(input: string, start: nat, line: nat)
    returns (emitted: seq<Token>, next: nat, line': nat, stop: bool)
    requires start < |input|
    ensures stop <==> Step(input, start, line).Stop?
    ensures !stop ==> Step(input, start, line) == Emit(emitted, next, line')
  {
    var c := input[start];
    next, line', stop, emitted := start + 1, line, false, [];
    if c == ' ' || c == '\t' {
    } else if c == '\n' {
      line' := line + 1;
    } else if c == '\0' {
      stop := true;
    } else if SingleCharKind(c).Some? {
      emitted := [Token(SingleCharKind(c).value, [c], line, Nil)];
      if c == ';' {
        line' := line + 1;
      }
    } else if IsEqualPrefix(c) || c == '&' || c == '|' {
      emitted, next := ScanOperator(input, start, line);
    } else if c == '/' {
      emitted, next, line' := ScanSlash(input, start, line);
    } else if c == '"' {
      var token;
      token, next, line' := ScanString(input, start, line);
      emitted := [token];
    } else if IsDigit(c) {
      var token;
      token, next := ScanNumber(input, start, line);
      emitted := [token];
    } else if IsAlphanumeric(c) {
      var token;
      token, next := ScanWord(input, start, line);
      emitted := [token];
    }
  }

  /** `=`, `!`, `>`, `<` with an optional `=`, and `&&`, `||`. */
  method ScanOperator(input: string, start: nat, line: nat) returns (emitted: seq<Token>, next: nat)
    requires start < |input|
    requires IsEqualPrefix(input[start]) || input[start] == '&' || input[start] == '|'
    ensures OperatorTurn(input, start, line) == Emit(emitted, next, line)
  {
    var c := input[start];
    next := start + 1;
    emitted := [];
    if next < |input| && input[next] != '\0' {
      if IsEqualPrefix(c) {
        if input[next] == '=' {
          emitted := [Token(TwoCharKind(c), [c, '='], line, Nil)];
          next := next + 1;
        } else {
          emitted := [Token(OneCharKind(c), [c], line, Nil)];
        }
      } else if input[next] == c {
        emitted := [Token(if c == '&' then AND else OR, [c, c], line, Nil)];
        next := next + 1;
      }
    }
  }

  /** `/` alone, or a `//` comment skipped through its newline. */
  method ScanSlash(input: string, start: nat, line: nat) returns (emitted: seq<Token>, next: nat, line': nat)
    requires start < |input| && input[start] == '/'
    ensures SlashTurn(input, start, line) == Emit(emitted, next, line')
  {
    next := start + 1;
    line' := line;
    if next < |input| && input[next] == '/' {
      emitted := [];
      next := next + 1;
      while next < |input| && input[next] != '\n'
        invariant start + 2 <= next <= |input|
        invariant NextOf(input, next, '\n') == NextOf(input, start + 2, '\n')
      {
        next := next + 1;
      }
      if next < |input| {
        next, line' := next + 1, line + 1;
      }
    } else {
      emitted := [Token(SLASH, "/", line, Nil)];
    }
  }

  /** A string literal: everything up to the next quote or the end of input. */
  method ScanString(input: string, start: nat, line: nat) returns (token: Token, next: nat, line': nat)
    requires start < |input| && input[start] == '"'
    ensures StringTurn(input, start, line) == Emit([token], next, line')
  {
    var lexeme: string := "";
    next, line' := start + 1, line;
    while next < |input| && input[next] != '"'
      invariant start + 1 <= next <= |input|
      invariant lexeme == input[start + 1..next]
      invariant line' == line + CountNewlines(lexeme)
      invariant NextOf(input, next, '"') == NextOf(input, start + 1, '"')
    {
      var d := input[next];
      if d == '\n' {
        line' := line' + 1;
      }
      assert lexeme + [d] == input[start + 1..next + 1];
      lexeme := lexeme + [d];
      next := next + 1;
    }
    if next < |input| {
      next := next + 1;
    }
    token := Token(STRING, lexeme, line', String(lexeme));
  }

  /** A maximal run of digits, with its decimal value as the literal. */
  method ScanNumber(input: string, start: nat, line: nat) returns (token: Token, next: nat)
    requires start < |input| && IsDigit(input[start])
    ensures NumberTurn(input, start, line) == Emit([token], next, line)
  {
    var lexeme: string := [input[start]];
    next := start + 1;
    while next < |input| && IsDigit(input[next])
      invariant start + 1 <= next <= |input|
      invariant lexeme == input[start..next]
      invariant DigitsEnd(input, next) == DigitsEnd(input, start)
    {
      lexeme := lexeme + [input[next]];
      next := next + 1;
    }
    token := Token(NUMBER, lexeme, line, Number(DecimalValue(lexeme) as real));
  }

  /** A maximal identifier-like run, classified against the keyword table. */
  method ScanWord(input: string, start: nat, line: nat) returns (token: Token, next: nat)
    requires start < |input| && IsAlphanumeric(input[start])
    ensures WordTurn(input, start, line) == Emit([token], next, line)
  {
    var lexeme: string := [input[start]];
    next := start + 1;
    while next < |input| && IsAlphanumeric(input[next])
      invariant start + 1 <= next <= |input|
      invariant lexeme == input[start..next]
      invariant WordEnd(input, next) == WordEnd(input, start)
    {
      lexeme := lexeme + [input[next]];
      next := next + 1;
    }
    var keyword := IsKeyword(lexeme);
    if keyword {
      if lexeme == "true" {
        token := Token(MatchKeyword(lexeme), lexeme, line, Bool(true));
      } else if lexeme == "false" {
        token := Token(MatchKeyword(lexeme), lexeme, line, Bool(false));
      } else {
        token := Token(MatchKeyword(lexeme), lexeme, line, Nil);
      }
    } else {
      token := Token(IDENTIFIER, lexeme, line, Nil);
    }
  }
}
