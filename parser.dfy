/**
 * The recursive-descent parser. The functions below say what each descent
 * routine does when it starts at position `p` of the token sequence: the
 * tree it builds and the position it leaves the cursor at, or the error it
 * stops with (the source panics). The class `Parser` is the routines
 * themselves, moving a cursor `current`, each proved to agree with its
 * function.
 */
module Parser {
  import opened Wrappers
  import opened Tokens
  import opened Ast

  /** Why parsing stopped: a diagnostic at a token, or an invalid assignment target. */
  datatype ParseError =
    | Unexpected(at: Token, message: string)
    | WrongAssignment
    | MalformedLiteral(at: Token)

  /** The outcome of one descent routine started at some position. */
  datatype Parsed<+T> = POk(value: T, next: nat) | PErr(error: ParseError)

  /** The token sequences the parser works on: the last token is EOF, as the scanner guarantees. */
  predicate ValidTokens(ts: seq<Token>) {
    |ts| > 0 && ts[|ts| - 1].kind == EOF
  }

  // The messages of the parse errors, as the source words them.
  const MissingRightParen := "Expect ')' after expression."
  const MissingExpression := "Expect expression."
  const MissingName := "Expected a identifier here"
  const MissingLetSemicolon := "Expected ; at the end"
  const MissingRightBrace := "Expected a }"
  const MissingPrintSemicolon := "Expect ';' after value."
  const MissingExpressionSemicolon := "Expect ';' after expression."

  /** `check_token`: not at EOF and the current token has kind `k`. */
  predicate Check(ts: seq<Token>, p: nat, k: TokenKind)
    requires p < |ts|
  {
    ts[p].kind != EOF && ts[p].kind == k
  }

  /** `match_token`'s test: the current token has one of the kinds `ks`. */
  predicate CheckAny(ts: seq<Token>, p: nat, ks: seq<TokenKind>)
    requires p < |ts|
  {
    ts[p].kind != EOF && ts[p].kind in ks
  }

  /** Where `advance` leaves the cursor: one step on, but never past EOF. */
  function Advanced(ts: seq<Token>, p: nat): (q: nat)
    requires ValidTokens(ts) && p < |ts|
    ensures q < |ts|
    ensures ts[p].kind == EOF ==> q == p
    ensures ts[p].kind != EOF ==> q == p + 1
  {
    if ts[p].kind != EOF then p + 1 else p
  }

  /** The operators of the four binary levels: 4 equality, 3 comparison, 2 term, 1 factor. */
  function Ops(k: nat): seq<TokenKind> {
    if k == 4 then [BANGEQUAL, EQUALEQUAL]
    else if k == 3 then [GREATER, GREATEREQUAL, LESS, LESSEQUAL]
    else if k == 2 then [PLUS, MINUS]
    else if k == 1 then [STAR, SLASH]
    else []
  }

  // Expressions

  function ParseExpression(ts: seq<Token>, p: nat): (r: Parsed<Expr>)
    requires ValidTokens(ts) && p < |ts|
    ensures r.POk? ==> p < r.next < |ts|
    decreases |ts| - p, 12
  {
    ParseAssignment(ts, p)
  }

  /**
   * `assignment`: an equality expression, and if `=` follows, the value on
   * its right (parsed first), which is only kept when the left side is a
   * bare variable.
   */
  function ParseAssignment(ts: seq<Token>, p: nat): (r: Parsed<Expr>)
    requires ValidTokens(ts) && p < |ts|
    ensures r.POk? ==> p < r.next < |ts|
    decreases |ts| - p, 11
  {
    match ParseBinary(ts, p, 4)
    case PErr(e) => PErr(e)
    case POk(target, q) =>
      if Check(ts, q, EQUAL) then
        match ParseAssignment(ts, q + 1)
        case PErr(e) => PErr(e)
        case POk(value, q') =>
          if target.Variable? then POk(Assignment(target.name, value), q') else PErr(WrongAssignment)
      else POk(target, q)
  }

  /** The operand of binary level `k`: the next level down, or `unary` below `factor`. */
  function ParseOperand(ts: seq<Token>, p: nat, k: nat): (r: Parsed<Expr>)
    requires ValidTokens(ts) && p < |ts| && 1 <= k <= 4
    ensures r.POk? ==> p < r.next < |ts|
    decreases |ts| - p, 2 * k + 1
  {
    if k == 1 then ParseUnary(ts, p) else ParseBinary(ts, p, k - 1)
  }

  /** `equality`, `comparison`, `term`, `factor`: an operand, then the loop over operators of level `k`. */
  function ParseBinary(ts: seq<Token>, p: nat, k: nat): (r: Parsed<Expr>)
    requires ValidTokens(ts) && p < |ts| && 1 <= k <= 4
    ensures r.POk? ==> p < r.next < |ts|
    decreases |ts| - p, 2 * k + 2
  {
    match ParseOperand(ts, p, k)
    case PErr(e) => PErr(e)
    case POk(left, q) => BinaryTail(ts, q, k, left)
  }

  /**
   * The loop of a binary level from position `q`, with the tree built so
   * far in `left`: each operator of the level and the operand after it
   * extend the tree on the left.
   */
  function BinaryTail(ts: seq<Token>, q: nat, k: nat, left: Expr): (r: Parsed<Expr>)
    requires ValidTokens(ts) && q < |ts| && 1 <= k <= 4
    ensures r.POk? ==> q <= r.next < |ts|
    decreases |ts| - q, 2 * k
  {
    if CheckAny(ts, q, Ops(k)) then
      match ParseOperand(ts, q + 1, k)
      case PErr(e) => PErr(e)
      case POk(right, q') => BinaryTail(ts, q', k, Binary(left, ts[q].kind, right))
    else POk(left, q)
  }

  /** `unary`: `!` or `-` applied to a unary expression, or a primary. */
  function ParseUnary(ts: seq<Token>, p: nat): (r: Parsed<Expr>)
    requires ValidTokens(ts) && p < |ts|
    ensures r.POk? ==> p < r.next < |ts|
    decreases |ts| - p, 2
  {
    if CheckAny(ts, p, [BANG, MINUS]) then
      match ParseUnary(ts, p + 1)
      case PErr(e) => PErr(e)
      case POk(right, q) => POk(Unary(ts[p].kind, right), q)
    else ParsePrimary(ts, p)
  }

  /** The literal branches of `primary`; `None` when the token starts no literal. */
  function LiteralAt(ts: seq<Token>, p: nat): (r: Option<Parsed<Expr>>)
    requires p < |ts|
    ensures r.None? <==> !CheckAny(ts, p, [FALSE, TRUE, NIL, NUMBER, STRING])
    ensures r.Some? && r.value.POk? ==> r.value.next == p + 1 && r.value.value.Literal?
  {
    if Check(ts, p, FALSE) then Some(POk(Literal(Bool(false)), p + 1))
    else if Check(ts, p, TRUE) then Some(POk(Literal(Bool(true)), p + 1))
    else if Check(ts, p, NIL) then Some(POk(Literal(Nil), p + 1))
    else if Check(ts, p, NUMBER) then
      Some(if ts[p].literal.Number? then POk(Literal(ts[p].literal), p + 1) else PErr(MalformedLiteral(ts[p])))
    else if Check(ts, p, STRING) then
      Some(if ts[p].literal.String? then POk(Literal(ts[p].literal), p + 1) else PErr(MalformedLiteral(ts[p])))
    else None
  }

  /**
   * `primary`: a literal, a parenthesised expression, or a variable. Number
   * and string literals take the value the scanner stored in the token.
   */
  function ParsePrimary(ts: seq<Token>, p: nat): (r: Parsed<Expr>)
    requires ValidTokens(ts) && p < |ts|
    ensures r.POk? ==> p < r.next < |ts|
    decreases |ts| - p, 1
  {
    match LiteralAt(ts, p)
    case Some(lit) => lit
    case None =>
      if Check(ts, p, LEFTPAREN) then
        match ParseExpression(ts, p + 1)
        case PErr(e) => PErr(e)
        case POk(inner, q) =>
          if Check(ts, q, RIGHTPAREN) then POk(Grouping(inner), q + 1)
          else PErr(Unexpected(ts[q], MissingRightParen))
      else if Check(ts, p, IDENTIFIER) then POk(Variable(ts[p]), p + 1)
      else PErr(Unexpected(ts[p], MissingExpression))
  }

  // Statements

  /** `consume`: the expected token is stepped over, anything else is an error at it. */
  function ConsumeAt(ts: seq<Token>, p: nat, k: TokenKind, message: string): (r: Parsed<Token>)
    requires ValidTokens(ts) && p < |ts|
    ensures r.POk? <==> Check(ts, p, k)
    ensures r.POk? ==> r.value == ts[p] && r.next == p + 1 && r.next < |ts|
    ensures r.PErr? ==> r.error == Unexpected(ts[p], message)
  {
    if Check(ts, p, k) then POk(ts[p], p + 1) else PErr(Unexpected(ts[p], message))
  }

  /** `declaration`: a `let` declaration or a statement. */
  function ParseDeclaration(ts: seq<Token>, p: nat): (r: Parsed<Stmt>)
    requires ValidTokens(ts) && p < |ts|
    ensures r.POk? ==> p < r.next < |ts|
    decreases |ts| - p, 3
  {
    if Check(ts, p, LET) then ParseVarDeclaration(ts, p + 1) else ParseStatement(ts, p)
  }

  /** `var_declaration`, after `let`: a name, an optional `= expression`, then `;`. */
  function ParseVarDeclaration(ts: seq<Token>, p: nat): (r: Parsed<Stmt>)
    requires ValidTokens(ts) && p < |ts|
    ensures r.POk? ==> p < r.next < |ts|
    decreases |ts| - p, 1
  {
    match ConsumeAt(ts, p, IDENTIFIER, MissingName)
    case PErr(e) => PErr(e)
    case POk(name, q) =>
      var init :=
        if Check(ts, q, EQUAL) then ParseExpression(ts, q + 1) else POk(Literal(Nil), q);
      match init
      case PErr(e) => PErr(e)
      case POk(initializer, q') =>
        match ConsumeAt(ts, q', SEMICOLON, MissingLetSemicolon)
        case PErr(e) => PErr(e)
        case POk(_, q'') => POk(LetStatement(name, initializer), q'')
  }

  /** `statement`: `print`, a block, or an expression statement. */
  function ParseStatement(ts: seq<Token>, p: nat): (r: Parsed<Stmt>)
    requires ValidTokens(ts) && p < |ts|
    ensures r.POk? ==> p < r.next < |ts|
    decreases |ts| - p, 2
  {
    if Check(ts, p, PRINT) then ParsePrintStatement(ts, p + 1)
    else if Check(ts, p, LEFTBRACE) then ParseBlock(ts, p + 1)
    else ParseExpressionStatement(ts, p)
  }

  /** `block_statement`, after `{`: declarations up to `}`. */
  function ParseBlock(ts: seq<Token>, p: nat): (r: Parsed<Stmt>)
    requires ValidTokens(ts) && p < |ts|
    ensures r.POk? ==> p < r.next < |ts|
    decreases |ts| - p, 5
  {
    match BlockItems(ts, p)
    case PErr(e) => PErr(e)
    case POk(items, q) =>
      match ConsumeAt(ts, q, RIGHTBRACE, MissingRightBrace)
      case PErr(e) => PErr(e)
      case POk(_, q') => POk(BlockStatement(items), q')
  }

  /** The loop of `block_statement`: declarations until `}` or EOF. */
  function BlockItems(ts: seq<Token>, p: nat): (r: Parsed<seq<Stmt>>)
    requires ValidTokens(ts) && p < |ts|
    ensures r.POk? ==> p <= r.next < |ts|
    decreases |ts| - p, 4
  {
    if Check(ts, p, RIGHTBRACE) || ts[p].kind == EOF then POk([], p)
    else
      match ParseDeclaration(ts, p)
      case PErr(e) => PErr(e)
      case POk(s, q) =>
        match BlockItems(ts, q)
        case PErr(e) => PErr(e)
        case POk(rest, q') => POk([s] + rest, q')
  }

  /** `print_statement`, after `print`. */
  function ParsePrintStatement(ts: seq<Token>, p: nat): (r: Parsed<Stmt>)
    requires ValidTokens(ts) && p < |ts|
    ensures r.POk? ==> p < r.next < |ts|
  {
    match ParseExpression(ts, p)
    case PErr(e) => PErr(e)
    case POk(e, q) =>
      match ConsumeAt(ts, q, SEMICOLON, MissingPrintSemicolon)
      case PErr(err) => PErr(err)
      case POk(_, q') => POk(PrintStatement(e), q')
  }

  /** `expression_statement`. */
  function ParseExpressionStatement(ts: seq<Token>, p: nat): (r: Parsed<Stmt>)
    requires ValidTokens(ts) && p < |ts|
    ensures r.POk? ==> p < r.next < |ts|
  {
    match ParseExpression(ts, p)
    case PErr(e) => PErr(e)
    case POk(e, q) =>
      match ConsumeAt(ts, q, SEMICOLON, MissingExpressionSemicolon)
      case PErr(err) => PErr(err)
      case POk(_, q') => POk(ExpressionStatement(e), q')
  }

  /** The loop of `parse` from position `p`: declarations until EOF, which it stops exactly at. */
  function ParseFrom(ts: seq<Token>, p: nat): (r: Parsed<seq<Stmt>>)
    requires ValidTokens(ts) && p < |ts|
    ensures r.POk? ==> p <= r.next < |ts| && ts[r.next].kind == EOF
    decreases |ts| - p
  {
    if ts[p].kind == EOF then POk([], p)
    else
      match ParseDeclaration(ts, p)
      case PErr(e) => PErr(e)
      case POk(s, q) =>
        match ParseFrom(ts, q)
        case PErr(e) => PErr(e)
        case POk(rest, q') => POk([s] + rest, q')
  }

  /** `parse`: the whole program. */
  function Parse(ts: seq<Token>): (r: Result<seq<Stmt>, ParseError>)
    requires ValidTokens(ts)
  {
    match ParseFrom(ts, 0)
    case PErr(e) => Failure(e)
    case POk(program, _) => Success(program)
  }

  /** A routine's result and final cursor agree with what its function says. */
  predicate Agrees<T(==)>(r: Result<T, ParseError>, spec: Parsed<T>, current: nat) {
    match spec
    case POk(v, n) => r == Success(v) && current == n
    case PErr(e) => r == Failure(e)
  }

  /**
   * The parser object: the token vector and the cursor. Every routine
   * keeps the cursor on a token, and returns what its function says.
   */
  class Parser {
    const tokens: seq<Token>
    var current: nat

    predicate Valid()
      reads this
    {
      ValidTokens(tokens) && current < |tokens|
    }

    constructor (tokens: seq<Token>)
      requires ValidTokens(tokens)
      ensures Valid() && this.tokens == tokens && current == 0
    {
      this.tokens := tokens;
      current := 0;
    }

    function Peek(): (t: Token)
      requires Valid()
      reads this
      ensures t == tokens[current]
    {
      tokens[current]
    }

    predicate IsAtEnd()
      requires Valid()
      reads this
    {
      Peek().kind == EOF
    }

    predicate CheckToken(k: TokenKind)
      requires Valid()
      reads this
    {
      !IsAtEnd() && Peek().kind == k
    }

    function Previous(): (t: Token)
      requires Valid() && current > 0
      reads this
      ensures t == tokens[current - 1]
    {
      tokens[current - 1]
    }

    /** `advance`; it returns the previous token, so it needs one before the cursor when at EOF. */
    method Advance() returns (t: Token)
      requires Valid() && (!IsAtEnd() || current > 0)
      modifies this
      ensures Valid() && current == Advanced(tokens, old(current)) && current > 0
      ensures t == tokens[current - 1]
    {
      if !IsAtEnd() {
        current := current + 1;
      }
      t := Previous();
    }

    /** `match_token`: the kinds are tried in order; the first that matches is stepped over. */
    method MatchToken(types: seq<TokenKind>) returns (matched: bool)
      requires Valid()
      modifies this
      ensures Valid()
      ensures matched == CheckAny(tokens, old(current), types)
      ensures current == if matched then old(current) + 1 else old(current)
    {
      var i := 0;
      while i < |types|
        invariant 0 <= i <= |types| && current == old(current)
        invariant !CheckAny(tokens, current, types[..i])
      {
        if CheckToken(types[i]) {
          var _ := Advance();
          return true;
        }
        i := i + 1;
      }
      assert types[..i] == types;
      return false;
    }

    method Consume(k: TokenKind, message: string) returns (r: Result<Token, ParseError>)
      requires Valid()
      modifies this
      ensures Valid() && Agrees(r, ConsumeAt(tokens, old(current), k, message), current)
    {
      if CheckToken(k) {
        var t := Advance();
        return Success(t);
      }
      return Failure(Unexpected(Peek(), message));
    }

    method ParseProgram() returns (r: Result<seq<Stmt>, ParseError>)
      requires Valid()
      modifies this
      ensures Valid()
      ensures ParseFrom(tokens, old(current)).POk? ==> r == Success(ParseFrom(tokens, old(current)).value)
      ensures ParseFrom(tokens, old(current)).PErr? ==> r == Failure(ParseFrom(tokens, old(current)).error)
    {
      var statements: seq<Stmt> := [];
      PrependNothing(ParseFrom(tokens, current));
      while !IsAtEnd()
        invariant Valid() && old(current) <= current
        invariant ParseFrom(tokens, old(current)) == Prepend(statements, ParseFrom(tokens, current))
        decreases |tokens| - current
      {
        ghost var before := current;
        var s := Declaration();
        if s.Failure? {
          return Failure(s.error);
        }
        ParseFromStep(tokens, before, statements);
        statements := statements + [s.value];
      }
      assert statements + [] == statements;
      return Success(statements);
    }

    method Declaration() returns (r: Result<Stmt, ParseError>)
      requires Valid()
      modifies this
      ensures Valid() && Agrees(r, ParseDeclaration(tokens, old(current)), current)
      decreases |tokens| - current, 3
    {
      var isLet := MatchToken([LET]);
      if isLet {
        r := VarDeclaration();
      } else {
        r := Statement();
      }
    }

    method VarDeclaration() returns (r: Result<Stmt, ParseError>)
      requires Valid()
      modifies this
      ensures Valid() && Agrees(r, ParseVarDeclaration(tokens, old(current)), current)
      decreases |tokens| - current, 1
    {
      var name :- Consume(IDENTIFIER, MissingName);
      var initializer := Literal(Nil);
      var hasInit := MatchToken([EQUAL]);
      if hasInit {
        initializer :- Expression();
      }
      var consumed :- Consume(SEMICOLON, MissingLetSemicolon);
      return Success(LetStatement(name, initializer));
    }

    method Statement() returns (r: Result<Stmt, ParseError>)
      requires Valid()
      modifies this
      ensures Valid() && Agrees(r, ParseStatement(tokens, old(current)), current)
      decreases |tokens| - current, 2
    {
      var isPrint := MatchToken([PRINT]);
      if isPrint {
        r := PrintStatement();
        return;
      }
      var isBlock := MatchToken([LEFTBRACE]);
      if isBlock {
        r := BlockStatement();
        return;
      }
      r := ExpressionStatement();
    }

    method BlockStatement() returns (r: Result<Stmt, ParseError>)
      requires Valid()
      modifies this
      ensures Valid() && Agrees(r, ParseBlock(tokens, old(current)), current)
      decreases |tokens| - current, 5
    {
      var statements: seq<Stmt> := [];
      BlockRestStart(tokens, current);
      while !CheckToken(RIGHTBRACE) && !IsAtEnd()
        invariant Valid() && old(current) <= current
        invariant ParseBlock(tokens, old(current)) == BlockRest(statements, tokens, current)
        decreases |tokens| - current
      {
        ghost var before := current;
        var s := Declaration();
        if s.Failure? {
          return Failure(s.error);
        }
        BlockRestStep(tokens, before, statements);
        statements := statements + [s.value];
      }
      assert statements + [] == statements;
      var consumed :- Consume(RIGHTBRACE, MissingRightBrace);
      return Success(Stmt.BlockStatement(statements));
    }

    method PrintStatement() returns (r: Result<Stmt, ParseError>)
      requires Valid()
      modifies this
      ensures Valid() && Agrees(r, ParsePrintStatement(tokens, old(current)), current)
    {
      var e :- Expression();
      var consumed :- Consume(SEMICOLON, MissingPrintSemicolon);
      return Success(Stmt.PrintStatement(e));
    }

    method ExpressionStatement() returns (r: Result<Stmt, ParseError>)
      requires Valid()
      modifies this
      ensures Valid() && Agrees(r, ParseExpressionStatement(tokens, old(current)), current)
    {
      var e :- Expression();
      var consumed :- Consume(SEMICOLON, MissingExpressionSemicolon);
      return Success(Stmt.ExpressionStatement(e));
    }

    method Expression() returns (r: Result<Expr, ParseError>)
      requires Valid()
      modifies this
      ensures Valid() && Agrees(r, ParseExpression(tokens, old(current)), current)
      decreases |tokens| - current, 12
    {
      r := Assignment();
    }

    method Assignment() returns (r: Result<Expr, ParseError>)
      requires Valid()
      modifies this
      ensures Valid() && Agrees(r, ParseAssignment(tokens, old(current)), current)
      decreases |tokens| - current, 11
    {
      var expr :- Equality();
      var isAssign := MatchToken([EQUAL]);
      if isAssign {
        var value :- Assignment();
        if expr.Variable? {
          return Success(Expr.Assignment(expr.name, value));
        }
        return Failure(WrongAssignment);
      }
      return Success(expr);
    }

    method Equality() returns (r: Result<Expr, ParseError>)
      requires Valid()
      modifies this
      ensures Valid() && Agrees(r, ParseBinary(tokens, old(current), 4), current)
      decreases |tokens| - current, 10
    {
      ghost var goal := ParseBinary(tokens, current, 4);
      ghost var start := current;
      BinaryStart(tokens, start, 4);
      var expr :- Comparison();
      while true
        invariant Valid() && goal == BinaryTail(tokens, current, 4, expr)
        decreases |tokens| - current
      {
        var done, next := LevelTurn(4, expr);
        if done {
          return next;
        }
        expr := next.value;
      }
    }

    method Comparison() returns (r: Result<Expr, ParseError>)
      requires Valid()
      modifies this
      ensures Valid() && Agrees(r, ParseBinary(tokens, old(current), 3), current)
      decreases |tokens| - current, 8
    {
      ghost var goal := ParseBinary(tokens, current, 3);
      ghost var start := current;
      BinaryStart(tokens, start, 3);
      var expr :- Term();
      while true
        invariant Valid() && goal == BinaryTail(tokens, current, 3, expr)
        decreases |tokens| - current
      {
        var done, next := LevelTurn(3, expr);
        if done {
          return next;
        }
        expr := next.value;
      }
    }

    method Term() returns (r: Result<Expr, ParseError>)
      requires Valid()
      modifies this
      ensures Valid() && Agrees(r, ParseBinary(tokens, old(current), 2), current)
      decreases |tokens| - current, 6
    {
      ghost var goal := ParseBinary(tokens, current, 2);
      ghost var start := current;
      BinaryStart(tokens, start, 2);
      var expr :- Factor();
      while true
        invariant Valid() && goal == BinaryTail(tokens, current, 2, expr)
        decreases |tokens| - current
      {
        var done, next := LevelTurn(2, expr);
        if done {
          return next;
        }
        expr := next.value;
      }
    }

    method Factor() returns (r: Result<Expr, ParseError>)
      requires Valid()
      modifies this
      ensures Valid() && Agrees(r, ParseBinary(tokens, old(current), 1), current)
      decreases |tokens| - current, 4
    {
      ghost var goal := ParseBinary(tokens, current, 1);
      ghost var start := current;
      BinaryStart(tokens, start, 1);
      var expr :- Unary();
      while true
        invariant Valid() && goal == BinaryTail(tokens, current, 1, expr)
        decreases |tokens| - current
      {
        var done, next := LevelTurn(1, expr);
        if done {
          return next;
        }
        expr := next.value;
      }
    }

    /**
     * One turn of the loop of binary level `k`: when the current token is
     * one of the level's operators, that operator and the operand after it
     * extend `expr`; otherwise the loop is done with `expr`.
     */
    method LevelTurn(k: nat, expr: Expr) returns (done: bool, r: Result<Expr, ParseError>)
      requires Valid() && 1 <= k <= 4
      modifies this
      ensures Valid()
      ensures done ==> Agrees(r, BinaryTail(tokens, old(current), k, expr), current)
      ensures !done ==> r.Success? && old(current) < current
      ensures !done ==> BinaryTail(tokens, old(current), k, expr) == BinaryTail(tokens, current, k, r.value)
      decreases |tokens| - current, 2 * k + 1
    {
      TailTurn(tokens, current, k, expr);
      var more := MatchToken(Ops(k));
      if !more {
        return true, Success(expr);
      }
      var operator := Previous().kind;
      ghost var at := current;
      var right;
      if k == 1 {
        right := Unary();
        assert Agrees(right, ParseOperand(tokens, at, k), current);
      } else if k == 2 {
        right := Factor();
        assert Agrees(right, ParseOperand(tokens, at, k), current);
      } else if k == 3 {
        right := Term();
        assert Agrees(right, ParseOperand(tokens, at, k), current);
      } else {
        right := Comparison();
        assert Agrees(right, ParseOperand(tokens, at, k), current);
      }
      if right.Failure? {
        return true, Failure(right.error);
      }
      return false, Success(Binary(expr, operator, right.value));
    }

    method Unary() returns (r: Result<Expr, ParseError>)
      requires Valid()
      modifies this
      ensures Valid() && Agrees(r, ParseUnary(tokens, old(current)), current)
      decreases |tokens| - current, 2
    {
      var isUnary := MatchToken([BANG, MINUS]);
      if isUnary {
        var operator := Previous().kind;
        var right :- Unary();
        return Success(Expr.Unary(operator, right));
      }
      r := Primary();
    }

    /** The literal branches of `primary`, as `LiteralAt` gives them. */
    method LiteralPrimary() returns (r: Option<Result<Expr, ParseError>>)
      requires Valid()
      modifies this
      ensures Valid() && r.Some? == LiteralAt(tokens, old(current)).Some?
      ensures r.Some? ==> Agrees(r.value, LiteralAt(tokens, old(current)).value, current)
      ensures r.None? ==> current == old(current)
    {
      var m := MatchToken([FALSE]);
      if m { return Some(Success(Literal(Bool(false)))); }
      m := MatchToken([TRUE]);
      if m { return Some(Success(Literal(Bool(true)))); }
      m := MatchToken([NIL]);
      if m { return Some(Success(Literal(Nil))); }
      m := MatchToken([NUMBER]);
      if m {
        var lit := Previous().literal;
        if lit.Number? { return Some(Success(Literal(lit))); }
        return Some(Failure(MalformedLiteral(Previous())));
      }
      m := MatchToken([STRING]);
      if m {
        var lit := Previous().literal;
        if lit.String? { return Some(Success(Literal(lit))); }
        return Some(Failure(MalformedLiteral(Previous())));
      }
      return None;
    }

    method Primary() returns (r: Result<Expr, ParseError>)
      requires Valid()
      modifies this
      ensures Valid() && Agrees(r, ParsePrimary(tokens, old(current)), current)
      decreases |tokens| - current, 1
    {
      var lit := LiteralPrimary();
      if lit.Some? { return lit.value; }
      var m := MatchToken([LEFTPAREN]);
      if m {
        var inner :- Expression();
        var consumed :- Consume(RIGHTPAREN, MissingRightParen);
        return Success(Grouping(inner));
      }
      m := MatchToken([IDENTIFIER]);
      if m {
        return Success(Variable(Previous()));
      }
      return Failure(Unexpected(Peek(), MissingExpression));
    }
  }

  /** The statements parsed so far, put in front of what the rest of the loop parses. */
  function Prepend(done: seq<Stmt>, rest: Parsed<seq<Stmt>>): Parsed<seq<Stmt>> {
    match rest
    case PErr(e) => PErr(e)
    case POk(more, n) => POk(done + more, n)
  }

  /** What `block_statement` yields once `done` are parsed and the cursor is at `p`. */
  function BlockRest(done: seq<Stmt>, ts: seq<Token>, p: nat): Parsed<Stmt>
    requires ValidTokens(ts) && p < |ts|
  {
    match BlockItems(ts, p)
    case PErr(e) => PErr(e)
    case POk(items, q) =>
      match ConsumeAt(ts, q, RIGHTBRACE, MissingRightBrace)
      case PErr(e) => PErr(e)
      case POk(_, q') => POk(BlockStatement(done + items), q')
  }

  /** One turn of a binary level's loop at `q`, as `BinaryTail` unfolds it. */
  lemma TailTurn(ts: seq<Token>, q: nat, k: nat, left: Expr)
    requires ValidTokens(ts) && q < |ts| && 1 <= k <= 4
    ensures !CheckAny(ts, q, Ops(k)) ==> BinaryTail(ts, q, k, left) == POk(left, q)
    ensures CheckAny(ts, q, Ops(k)) ==> q + 1 < |ts|
    ensures CheckAny(ts, q, Ops(k)) && ParseOperand(ts, q + 1, k).PErr? ==>
              BinaryTail(ts, q, k, left) == PErr(ParseOperand(ts, q + 1, k).error)
    ensures CheckAny(ts, q, Ops(k)) && ParseOperand(ts, q + 1, k).POk? ==>
              var o := ParseOperand(ts, q + 1, k);
              BinaryTail(ts, q, k, left) == BinaryTail(ts, o.next, k, Binary(left, ts[q].kind, o.value))
  {
  }

  /** The start of a binary level at `p`: the operand, then the level's loop. */
  lemma BinaryStart(ts: seq<Token>, p: nat, k: nat)
    requires ValidTokens(ts) && p < |ts| && 1 <= k <= 4
    ensures ParseOperand(ts, p, k) == if k == 1 then ParseUnary(ts, p) else ParseBinary(ts, p, k - 1)
    ensures ParseOperand(ts, p, k).PErr? ==> ParseBinary(ts, p, k) == PErr(ParseOperand(ts, p, k).error)
    ensures ParseOperand(ts, p, k).POk? ==>
              var o := ParseOperand(ts, p, k);
              ParseBinary(ts, p, k) == BinaryTail(ts, o.next, k, o.value)
  {
  }

  lemma PrependNothing(rest: Parsed<seq<Stmt>>)
    ensures Prepend([], rest) == rest
  {
    if rest.POk? {
      assert [] + rest.value == rest.value;
    }
  }

  /** One turn of the loop of `parse`: a declaration moves from the rest into `done`. */
  lemma ParseFromStep(ts: seq<Token>, p: nat, done: seq<Stmt>)
    requires ValidTokens(ts) && p < |ts| && ts[p].kind != EOF && ParseDeclaration(ts, p).POk?
    ensures var d := ParseDeclaration(ts, p);
            Prepend(done, ParseFrom(ts, p)) == Prepend(done + [d.value], ParseFrom(ts, d.next))
  {
    var d := ParseDeclaration(ts, p);
    match ParseFrom(ts, d.next)
    case PErr(_) =>
    case POk(rest, _) =>
      assert done + ([d.value] + rest) == done + [d.value] + rest;
  }

  lemma BlockRestStart(ts: seq<Token>, p: nat)
    requires ValidTokens(ts) && p < |ts|
    ensures BlockRest([], ts, p) == ParseBlock(ts, p)
  {
    if BlockItems(ts, p).POk? {
      assert [] + BlockItems(ts, p).value == BlockItems(ts, p).value;
    }
  }

  /** One turn of the loop of `block_statement`. */
  lemma BlockRestStep(ts: seq<Token>, p: nat, done: seq<Stmt>)
    requires ValidTokens(ts) && p < |ts| && !Check(ts, p, RIGHTBRACE) && ts[p].kind != EOF
    requires ParseDeclaration(ts, p).POk?
    ensures var d := ParseDeclaration(ts, p);
            BlockRest(done, ts, p) == BlockRest(done + [d.value], ts, d.next)
  {
    var d := ParseDeclaration(ts, p);
    match BlockItems(ts, d.next)
    case PErr(_) =>
    case POk(rest, _) =>
      assert done + ([d.value] + rest) == done + [d.value] + rest;
  }
}
