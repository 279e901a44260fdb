/**
 * What the scanner guarantees about the token sequence: it always ends in
 * exactly one EOF token, every other token is well formed for its kind,
 * line numbers start at 1, never decrease and grow only on newlines and
 * semicolons, and each kind of character is scanned as the loop's `match`
 * says.
 */
module ScannerProperties {
  import opened Wrappers
  import opened Tokens
  import opened Scanner

  predicate AllDigits(w: string) {
    forall k :: 0 <= k < |w| ==> IsDigit(w[k])
  }

  predicate AllAlphanumeric(w: string) {
    forall k :: 0 <= k < |w| ==> IsAlphanumeric(w[k])
  }

  /** The kinds that only a keyword-table hit produces. */
  predicate IsKeywordKind(k: TokenKind) {
    k in {CLASS, ELSE, FALSE, FUNCTION, FOR, IF, NIL, PRINT, RETURN, SUPER, THIS, TRUE, LET, WHILE}
  }

  /** The text of an operator or punctuation token. */
  function OperatorText(k: TokenKind): string {
    match k
    case LEFTPAREN => "(" case RIGHTPAREN => ")" case LEFTBRACE => "{" case RIGHTBRACE => "}"
    case COMMA => "," case DOT => "." case MINUS => "-" case PLUS => "+"
    case SEMICOLON => ";" case SLASH => "/" case STAR => "*" case MODULO => "%"
    case BANG => "!" case BANGEQUAL => "!=" case EQUAL => "=" case EQUALEQUAL => "=="
    case GREATER => ">" case GREATEREQUAL => ">=" case LESS => "<" case LESSEQUAL => "<="
    case AND => "&&" case OR => "||"
    case _ => ""
  }

  /**
   * A token the scanning loop can emit (every token but the final EOF):
   * NUMBER is a run of digits carrying its decimal value; IDENTIFIER is an
   * identifier-like run that is not a keyword (or is `and`/`or`); STRING has
   * no quote in it and carries its own text; a keyword kind is a table hit;
   * everything else is an operator with its fixed text. EOF, VAR and the
   * increment/decrement kinds are never emitted.
   */
  predicate WellFormed(t: Token) {
    match t.kind
    case NUMBER =>
      |t.lexeme| > 0 && AllDigits(t.lexeme) && t.literal == Number(DecimalValue(t.lexeme) as real)
    case IDENTIFIER =>
      |t.lexeme| > 0 && !IsDigit(t.lexeme[0]) && AllAlphanumeric(t.lexeme)
      && (t.lexeme in Keywords ==> t.lexeme == "and" || t.lexeme == "or")
      && t.literal == Nil
    case STRING =>
      '"' !in t.lexeme && t.literal == String(t.lexeme)
    case EOF => false
    case VAR => false
    case INCREMENTOR => false
    case DECREMENTOR => false
    case _ =>
      if IsKeywordKind(t.kind) then
        t.lexeme in Keywords && MatchKeyword(t.lexeme) == t.kind
        && t.literal == (if t.kind == TRUE then Bool(true) else if t.kind == FALSE then Bool(false) else Nil)
      else
        t.lexeme == OperatorText(t.kind) && t.literal == Nil && t.lexeme != ""
  }

  /** The number of characters of `s` that may move the line counter. */
  function CountBumps(s: string): nat {
    if s == [] then 0
    else CountBumps(s[..|s| - 1]) + (if s[|s| - 1] == '\n' || s[|s| - 1] == ';' then 1 else 0)
  }

  lemma {:induction false} CountBumpsConcat(a: string, b: string)
    ensures CountBumps(a + b) == CountBumps(a) + CountBumps(b)
    decreases |b|
  {
    if b != [] {
      assert (a + b)[..|a + b| - 1] == a + b[..|b| - 1];
      CountBumpsConcat(a, b[..|b| - 1]);
    } else {
      assert a + b == a;
    }
  }

  lemma {:induction false} NewlinesAreBumps(s: string)
    ensures CountNewlines(s) <= CountBumps(s)
    decreases |s|
  {
    if s != [] {
      NewlinesAreBumps(s[..|s| - 1]);
    }
  }

  lemma WordTokenWellFormed(word: string, line: nat)
    requires |word| > 0 && !IsDigit(word[0]) && AllAlphanumeric(word)
    ensures WellFormed(WordToken(word, line)) && WordToken(word, line).line == line
  {
    var k := MatchKeyword(word);
    if word in Keywords && k != IDENTIFIER {
      assert IsKeywordKind(k);
    }
  }

  /** What a turn emits: well formed tokens on lines between `line` and `hi`. */
  predicate EmitsWithin(emitted: seq<Token>, line: nat, hi: nat) {
    |emitted| <= 1 && forall t :: t in emitted ==> WellFormed(t) && line <= t.line <= hi
  }

  lemma SingleCharWellFormed(c: char, line: nat)
    requires SingleCharKind(c).Some?
    ensures WellFormed(Token(SingleCharKind(c).value, [c], line, Nil))
  {
  }

  lemma OperatorTurnTokens(s: string, i: nat, line: nat)
    requires i < |s| && (IsEqualPrefix(s[i]) || s[i] == '&' || s[i] == '|')
    ensures EmitsWithin(OperatorTurn(s, i, line).emitted, line, line)
  {
  }

  lemma SlashTurnTokens(s: string, i: nat, line: nat)
    requires i < |s| && s[i] == '/'
    ensures var r := SlashTurn(s, i, line);
            EmitsWithin(r.emitted, line, r.line) && r.line <= line + CountBumps(s[i..r.next])
  {
    var r := SlashTurn(s, i, line);
    if i + 1 < |s| && s[i + 1] == '/' {
      var j := NextOf(s, i + 2, '\n');
      if j < |s| {
        assert s[i..j + 1][..|s[i..j + 1]| - 1] == s[i..j];
      }
    }
  }

  /** A string literal is one well formed token on a line no later than the scan has counted. */
  lemma StringTurnTokens(s: string, i: nat, line: nat)
    requires i < |s| && s[i] == '"'
    ensures var r := StringTurn(s, i, line);
            EmitsWithin(r.emitted, line, r.line) && r.line <= line + CountBumps(s[i..r.next])
  {
    var j := NextOf(s, i + 1, '"');
    var text := s[i + 1..j];
    assert '"' !in text by {
      forall k | 0 <= k < |text| ensures text[k] != '"' {
        assert text[k] == s[i + 1 + k];
      }
    }
    StringLineBound(s, i, line);
  }

  /** A string literal's newlines are bumps of the line counter. */
  lemma StringLineBound(s: string, i: nat, line: nat)
    requires i < |s| && s[i] == '"'
    ensures StringTurn(s, i, line).line <= line + CountBumps(s[i..StringTurn(s, i, line).next])
  {
    var r := StringTurn(s, i, line);
    var j := NextOf(s, i + 1, '"');
    var text := s[i + 1..j];
    NewlinesAreBumps(text);
    assert s[i..r.next] == [s[i]] + text + s[j..r.next];
    CountBumpsConcat([s[i]] + text, s[j..r.next]);
    CountBumpsConcat([s[i]], text);
  }

  lemma NumberTurnTokens(s: string, i: nat, line: nat)
    requires i < |s| && IsDigit(s[i])
    ensures EmitsWithin(NumberTurn(s, i, line).emitted, line, line)
  {
    var j := DigitsEnd(s, i);
    assert AllDigits(s[i..j]) by {
      forall k | 0 <= k < j - i ensures IsDigit(s[i..j][k]) {
        assert s[i..j][k] == s[i + k];
      }
    }
  }

  lemma WordTurnTokens(s: string, i: nat, line: nat)
    requires i < |s| && IsAlphanumeric(s[i]) && !IsDigit(s[i])
    ensures EmitsWithin(WordTurn(s, i, line).emitted, line, line)
  {
    var j := WordEnd(s, i);
    assert AllAlphanumeric(s[i..j]) by {
      forall k | 0 <= k < j - i ensures IsAlphanumeric(s[i..j][k]) {
        assert s[i..j][k] == s[i + k];
      }
    }
    WordTokenWellFormed(s[i..j], line);
  }

  /**
   * What one turn of the loop emits: at most one token, well formed, on a
   * line between the counter before and after the turn; and the counter
   * moves by at most the number of newlines and semicolons consumed.
   */
  lemma StepTokens(s: string, i: nat, line: nat)
    requires i < |s| && Step(s, i, line).Emit?
    ensures var r := Step(s, i, line);
            EmitsWithin(r.emitted, line, r.line) && r.line <= line + CountBumps(s[i..r.next])
  {
    var c := s[i];
    if c == '\n' {
      assert s[i..i + 1] == [c];
      assert CountBumps(s[i..i + 1]) == CountBumps([]) + 1;
    } else if c == ';' {
      SingleCharWellFormed(';', line);
      assert s[i..i + 1] == [c];
      assert CountBumps(s[i..i + 1]) == CountBumps([]) + 1;
    } else if SingleCharKind(c).Some? {
      SingleCharWellFormed(c, line);
    } else if IsEqualPrefix(c) || c == '&' || c == '|' {
      OperatorTurnTokens(s, i, line);
    } else if c == '/' {
      SlashTurnTokens(s, i, line);
    } else if c == '"' {
      StringTurnTokens(s, i, line);
    } else if IsDigit(c) {
      NumberTurnTokens(s, i, line);
    } else if IsAlphanumeric(c) {
      WordTurnTokens(s, i, line);
    }
  }

  /**
   * The shape of every token sequence the loop produces: it ends with a
   * bare EOF token, and every token before it is well formed and not EOF.
   */
  predicate Shaped(t: seq<Token>) {
    |t| > 0 && t[|t| - 1].kind == EOF && t[|t| - 1].lexeme == "" && t[|t| - 1].literal == Nil
    && forall k :: 0 <= k < |t| - 1 ==> WellFormed(t[k]) && t[k].kind != EOF
  }

  lemma ShapedConcat(emitted: seq<Token>, rest: seq<Token>, line: nat, hi: nat)
    requires EmitsWithin(emitted, line, hi) && Shaped(rest)
    ensures Shaped(emitted + rest)
  {
    var t := emitted + rest;
    assert t[|t| - 1] == rest[|rest| - 1];
    forall k | 0 <= k < |t| - 1 ensures WellFormed(t[k]) && t[k].kind != EOF {
      if k < |emitted| {
        assert t[k] in emitted;
        WellFormedKind(t[k]);
      } else {
        assert t[k] == rest[k - |emitted|];
      }
    }
  }

  /**
   * The scan from any position ends with one EOF token, with an empty
   * lexeme and no literal, and has no other EOF token; every token before
   * it is well formed.
   */
  lemma {:induction false} ScanFromShape(s: string, i: nat, line: nat)
    requires i <= |s|
    ensures Shaped(ScanFrom(s, i, line))
    decreases |s| - i
  {
    if i < |s| {
      match Step(s, i, line)
      case Stop =>
      case Emit(emitted, j, line') =>
        StepTokens(s, i, line);
        ScanFromShape(s, j, line');
        ShapedConcat(emitted, ScanFrom(s, j, line'), line, line');
    }
  }

  /** The scanner's result ends with exactly one EOF token, and only there. */
  lemma ScanEndsWithOneEof(s: string)
    ensures var t := Scan(s);
            |t| > 0 && t[|t| - 1].kind == EOF
            && forall k :: 0 <= k < |t| - 1 ==> t[k].kind != EOF
  {
    ScanFromShape(s, 0, 1);
  }

  /** Every token the scanner emits before EOF is well formed for its kind. */
  lemma ScanTokensWellFormed(s: string)
    ensures var t := Scan(s);
            forall k :: 0 <= k < |t| - 1 ==> WellFormed(t[k])
  {
    ScanFromShape(s, 0, 1);
  }

  /** In particular the scanner never produces `++`, `--` or VAR tokens. */
  lemma ScanNeverIncrements(s: string)
    ensures forall t :: t in Scan(s) ==> t.kind != INCREMENTOR && t.kind != DECREMENTOR && t.kind != VAR
  {
    var ts := Scan(s);
    forall t | t in ts ensures t.kind != INCREMENTOR && t.kind != DECREMENTOR && t.kind != VAR {
      var k :| 0 <= k < |ts| && ts[k] == t;
      ScannedKind(s, k);
    }
  }

  lemma ScannedKind(s: string, k: nat)
    requires k < |Scan(s)|
    ensures Scan(s)[k].kind != INCREMENTOR && Scan(s)[k].kind != DECREMENTOR && Scan(s)[k].kind != VAR
  {
    ScanFromShape(s, 0, 1);
    if k < |Scan(s)| - 1 {
      WellFormedKind(Scan(s)[k]);
    }
  }

  /** No well-formed token is EOF, VAR, `++` or `--`. */
  lemma WellFormedKind(t: Token)
    requires WellFormed(t)
    ensures t.kind != EOF && t.kind != VAR && t.kind != INCREMENTOR && t.kind != DECREMENTOR
  {
  }

  /** Every token's line lies in `[lo, hi]`. */
  predicate LinesWithin(t: seq<Token>, lo: nat, hi: nat) {
    forall k :: 0 <= k < |t| ==> lo <= t[k].line <= hi
  }

  /** Line numbers never decrease along `t`. */
  predicate LinesMonotone(t: seq<Token>) {
    forall k, m :: 0 <= k <= m < |t| ==> t[k].line <= t[m].line
  }

  lemma LinesConcat(emitted: seq<Token>, rest: seq<Token>, line: nat, line': nat, hi: nat)
    requires line <= line' <= hi && EmitsWithin(emitted, line, line') && LinesWithin(rest, line', hi) && LinesMonotone(rest)
    ensures LinesWithin(emitted + rest, line, hi) && LinesMonotone(emitted + rest)
  {
    var t := emitted + rest;
    forall k | 0 <= k < |t| ensures line <= t[k].line <= hi {
      if k < |emitted| {
        assert t[k] in emitted;
      } else {
        assert t[k] == rest[k - |emitted|];
      }
    }
    forall k, m | 0 <= k <= m < |t| ensures t[k].line <= t[m].line {
      if m < |emitted| {
        assert k == m;
      } else if k < |emitted| {
        assert t[k] in emitted;
        assert t[m] == rest[m - |emitted|];
      } else {
        assert t[k] == rest[k - |emitted|];
        assert t[m] == rest[m - |emitted|];
      }
    }
  }

  /**
   * Lines from a given counter on never fall below it, never decrease from
   * one token to the next, and grow by at most the number of newlines and
   * semicolons in the rest of the input.
   */
  lemma {:induction false} ScanFromLines(s: string, i: nat, line: nat)
    requires i <= |s|
    ensures LinesWithin(ScanFrom(s, i, line), line, line + CountBumps(s[i..]))
    ensures LinesMonotone(ScanFrom(s, i, line))
    decreases |s| - i
  {
    if i < |s| {
      match Step(s, i, line)
      case Stop =>
      case Emit(emitted, j, line') =>
        StepTokens(s, i, line);
        ScanFromLines(s, j, line');
        assert s[i..] == s[i..j] + s[j..];
        CountBumpsConcat(s[i..j], s[j..]);
        LinesConcat(emitted, ScanFrom(s, j, line'), line, line', line + CountBumps(s[i..]));
    }
  }

  /** The scanner's lines start at 1 and never decrease. */
  lemma ScanLines(s: string)
    ensures LinesWithin(Scan(s), 1, 1 + CountBumps(s)) && LinesMonotone(Scan(s))
  {
    ScanFromLines(s, 0, 1);
    assert s[0..] == s;
  }

  // One turn of the loop, character by character.

  /** A character that produces no token and does not move the line counter. */
  predicate IsIgnored(c: char) {
    !(c == '\n' || c == '\0' || SingleCharKind(c).Some? || IsEqualPrefix(c)
      || c == '&' || c == '|' || c == '/' || c == '"' || IsAlphanumeric(c))
  }

  lemma IgnoredStep(s: string, i: nat, line: nat)
    requires i < |s| && IsIgnored(s[i])
    ensures ScanFrom(s, i, line) == ScanFrom(s, i + 1, line)
  {
    assert Step(s, i, line) == Emit([], i + 1, line);
  }

  lemma NewlineStep(s: string, i: nat, line: nat)
    requires i < |s| && s[i] == '\n'
    ensures ScanFrom(s, i, line) == ScanFrom(s, i + 1, line + 1)
  {
    assert Step(s, i, line) == Emit([], i + 1, line + 1);
  }

  lemma NulStops(s: string, i: nat, line: nat)
    requires i < |s| && s[i] == '\0'
    ensures ScanFrom(s, i, line) == [EofToken(line)]
  {
    assert Step(s, i, line) == Stop;
  }

  lemma SingleCharStep(s: string, i: nat, line: nat)
    requires i < |s| && SingleCharKind(s[i]).Some?
    ensures ScanFrom(s, i, line) ==
            [Token(SingleCharKind(s[i]).value, [s[i]], line, Nil)]
            + ScanFrom(s, i + 1, if s[i] == ';' then line + 1 else line)
  {
    var c := s[i];
    assert Step(s, i, line) == Emit([Token(SingleCharKind(c).value, [c], line, Nil)], i + 1, if c == ';' then line + 1 else line);
  }

  lemma TwoCharStep(s: string, i: nat, line: nat)
    requires i + 1 < |s| && IsEqualPrefix(s[i]) && s[i + 1] == '='
    ensures ScanFrom(s, i, line) == [Token(TwoCharKind(s[i]), s[i..i + 2], line, Nil)] + ScanFrom(s, i + 2, line)
  {
    assert s[i..i + 2] == [s[i], '='];
    assert SingleCharKind(s[i]).None?;
    assert OperatorTurn(s, i, line) == Emit([Token(TwoCharKind(s[i]), [s[i], '='], line, Nil)], i + 2, line);
    assert Step(s, i, line) == OperatorTurn(s, i, line);
  }

  lemma OneCharStep(s: string, i: nat, line: nat)
    requires i + 1 < |s| && IsEqualPrefix(s[i]) && s[i + 1] != '=' && s[i + 1] != '\0'
    ensures ScanFrom(s, i, line) == [Token(OneCharKind(s[i]), [s[i]], line, Nil)] + ScanFrom(s, i + 1, line)
  {
    assert SingleCharKind(s[i]).None?;
    assert OperatorTurn(s, i, line) == Emit([Token(OneCharKind(s[i]), [s[i]], line, Nil)], i + 1, line);
    assert Step(s, i, line) == OperatorTurn(s, i, line);
  }

  lemma DanglingOperatorStep(s: string, i: nat, line: nat)
    requires i < |s| && IsEqualPrefix(s[i]) && (i + 1 == |s| || s[i + 1] == '\0')
    ensures ScanFrom(s, i, line) == ScanFrom(s, i + 1, line)
  {
    assert SingleCharKind(s[i]).None?;
    assert OperatorTurn(s, i, line) == Emit([], i + 1, line);
    assert Step(s, i, line) == OperatorTurn(s, i, line);
  }

  lemma DoubledStep(s: string, i: nat, line: nat)
    requires i + 1 < |s| && (s[i] == '&' || s[i] == '|') && s[i + 1] == s[i]
    ensures ScanFrom(s, i, line) ==
            [Token(if s[i] == '&' then AND else OR, s[i..i + 2], line, Nil)] + ScanFrom(s, i + 2, line)
  {
    assert s[i..i + 2] == [s[i], s[i]];
    assert SingleCharKind(s[i]).None? && !IsEqualPrefix(s[i]);
    assert OperatorTurn(s, i, line) == Emit([Token(if s[i] == '&' then AND else OR, [s[i], s[i]], line, Nil)], i + 2, line);
    assert Step(s, i, line) == OperatorTurn(s, i, line);
  }

  lemma LoneAmpersandOrBarStep(s: string, i: nat, line: nat)
    requires i < |s| && (s[i] == '&' || s[i] == '|') && (i + 1 == |s| || s[i + 1] != s[i])
    ensures ScanFrom(s, i, line) == ScanFrom(s, i + 1, line)
  {
    assert SingleCharKind(s[i]).None? && !IsEqualPrefix(s[i]);
    assert OperatorTurn(s, i, line) == Emit([], i + 1, line);
    assert Step(s, i, line) == OperatorTurn(s, i, line);
  }

  lemma SlashStep(s: string, i: nat, line: nat)
    requires i < |s| && s[i] == '/' && (i + 1 == |s| || s[i + 1] != '/')
    ensures ScanFrom(s, i, line) == [Token(SLASH, "/", line, Nil)] + ScanFrom(s, i + 1, line)
  {
    assert SlashTurn(s, i, line) == Emit([Token(SLASH, "/", line, Nil)], i + 1, line);
    assert Step(s, i, line) == SlashTurn(s, i, line);
  }

  lemma CommentStep(s: string, i: nat, line: nat)
    requires i + 1 < |s| && s[i] == '/' && s[i + 1] == '/'
    ensures var j := NextOf(s, i + 2, '\n');
            ScanFrom(s, i, line) == if j < |s| then ScanFrom(s, j + 1, line + 1) else [EofToken(line)]
  {
    var j := NextOf(s, i + 2, '\n');
    assert Step(s, i, line) == SlashTurn(s, i, line);
    if j < |s| {
      assert SlashTurn(s, i, line) == Emit([], j + 1, line + 1);
    } else {
      assert SlashTurn(s, i, line) == Emit([], j, line);
      assert ScanFrom(s, j, line) == [EofToken(line)];
    }
  }

  lemma StringStep(s: string, i: nat, line: nat)
    requires i < |s| && s[i] == '"'
    ensures var j := NextOf(s, i + 1, '"');
            var text := s[i + 1..j];
            ScanFrom(s, i, line) ==
            [Token(STRING, text, line + CountNewlines(text), String(text))]
            + ScanFrom(s, if j < |s| then j + 1 else j, line + CountNewlines(text))
  {
    assert Step(s, i, line) == StringTurn(s, i, line);
  }

  lemma NumberStep(s: string, i: nat, line: nat)
    requires i < |s| && IsDigit(s[i])
    ensures var j := DigitsEnd(s, i);
            ScanFrom(s, i, line) ==
            [Token(NUMBER, s[i..j], line, Number(DecimalValue(s[i..j]) as real))] + ScanFrom(s, j, line)
  {
    assert Step(s, i, line) == NumberTurn(s, i, line);
  }

  lemma WordStep(s: string, i: nat, line: nat)
    requires i < |s| && IsAlphanumeric(s[i]) && !IsDigit(s[i])
    ensures var j := WordEnd(s, i);
            ScanFrom(s, i, line) == [WordToken(s[i..j], line)] + ScanFrom(s, j, line)
  {
    assert Step(s, i, line) == WordTurn(s, i, line);
  }
}
