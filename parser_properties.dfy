/**
 * What the expression parser guarantees. `Parsable(e, lvl)` describes the
 * trees that respect the precedence ladder and left associativity, and
 * `Unparse(e)` spells a tree as tokens. The parser inverts `Unparse` on
 * exactly those trees: parsing the spelling of such a tree gives it back
 * (`ExpressionRoundTrip`), and every tree the parser returns is one of them
 * (`ExpressionSound`).
 */
module ParserProperties {
  import opened Wrappers
  import opened Tokens
  import opened Ast
  import opened Parser

  /** The level an operator binds at: 1 factor, 2 term, 3 comparison, 4 equality, 0 none. */
  function OpLevel(k: TokenKind): nat {
    match k
    case STAR => 1 case SLASH => 1
    case PLUS => 2 case MINUS => 2
    case GREATER => 3 case GREATEREQUAL => 3 case LESS => 3 case LESSEQUAL => 3
    case BANGEQUAL => 4 case EQUALEQUAL => 4
    case _ => 0
  }

  lemma OpsByLevel(k: TokenKind, j: nat)
    requires 1 <= j <= 4
    ensures k in Ops(j) <==> OpLevel(k) == j
  {
  }

  /**
   * Trees the parser can build at precedence level `lvl`: 0 primary,
   * 1 unary, k + 1 for binary level k, 6 assignment. A binary node's left
   * operand is at its own level (left associativity), its right operand one
   * below; `!`/`-` nest; an assignment's target is a variable and its value
   * is again an assignment-level tree.
   */
  predicate Parsable(e: Expr, lvl: nat) {
    match e
    case Literal(_) => true
    case Variable(t) => t.kind == IDENTIFIER
    case Grouping(inner) => Parsable(inner, 6)
    case Unary(op, r) => 1 <= lvl && (op == BANG || op == MINUS) && Parsable(r, 1)
    case Binary(l, op, r) =>
      1 <= OpLevel(op) && OpLevel(op) + 1 <= lvl && Parsable(l, OpLevel(op) + 1) && Parsable(r, OpLevel(op))
    case Assignment(name, v) => 6 <= lvl && name.kind == IDENTIFIER && Parsable(v, 6)
    case Logical(_, _, _) => false
    case Postfix(_, _) => false
    case Call(_, _) => false
  }

  function Tok(k: TokenKind): Token {
    Token(k, "", 0, Nil)
  }

  /** The token a literal is written as. */
  function LiteralToken(a: Atomic): Token {
    match a
    case Bool(b) => Token(if b then TRUE else FALSE, "", 0, a)
    case Nil => Token(NIL, "", 0, Nil)
    case Number(_) => Token(NUMBER, "", 0, a)
    case String(s) => Token(STRING, s, 0, a)
  }

  /** The tokens that spell a tree (fully parenthesised only where it has a Grouping). */
  function Unparse(e: Expr): seq<Token> {
    match e
    case Literal(a) => [LiteralToken(a)]
    case Grouping(inner) => [Tok(LEFTPAREN)] + Unparse(inner) + [Tok(RIGHTPAREN)]
    case Variable(t) => [t]
    case Assignment(name, v) => [name, Tok(EQUAL)] + Unparse(v)
    case Binary(l, op, r) => Unparse(l) + [Tok(op)] + Unparse(r)
    case Unary(op, r) => [Tok(op)] + Unparse(r)
    case Logical(l, op, r) => Unparse(l) + [Tok(op)] + Unparse(r)
    case Postfix(op, x) => Unparse(x) + [Tok(op)]
    case Call(_, _) => []
  }

  /**
   * `t` stands where `u` is written: same kind and literal (the parser reads
   * nothing else of them), and the very token where it becomes a variable.
   */
  predicate Fits(t: Token, u: Token) {
    t.kind == u.kind && t.literal == u.literal && (u.kind == IDENTIFIER ==> t == u)
  }

  /** The token `i` places after `p` stands where `u[i]` is written. */
  predicate FitsAt(ts: seq<Token>, p: nat, u: seq<Token>, i: nat) {
    p + i < |ts| && i < |u| && Fits(ts[p + i], u[i])
  }

  /** The tokens from `p` on spell `u`. */
  predicate At(ts: seq<Token>, p: nat, u: seq<Token>) {
    p + |u| <= |ts| && forall i: nat :: i < |u| ==> FitsAt(ts, p, u, i)
  }

  lemma AtConcat(ts: seq<Token>, p: nat, a: seq<Token>, b: seq<Token>)
    ensures At(ts, p, a + b) <==> At(ts, p, a) && At(ts, p + |a|, b)
  {
    if At(ts, p, a) && At(ts, p + |a|, b) {
      forall i: nat | i < |a + b| ensures FitsAt(ts, p, a + b, i) {
        if i >= |a| {
          assert FitsAt(ts, p + |a|, b, i - |a|);
          assert ts[p + i] == ts[p + |a| + (i - |a|)];
        } else {
          assert FitsAt(ts, p, a, i);
        }
      }
    }
    if At(ts, p, a + b) {
      forall i: nat | i < |a| ensures FitsAt(ts, p, a, i) {
        assert FitsAt(ts, p, a + b, i);
        assert (a + b)[i] == a[i];
      }
      var q := p + |a|;
      forall i: nat | i < |b| ensures FitsAt(ts, q, b, i) {
        assert FitsAt(ts, p, a + b, |a| + i);
        assert (a + b)[|a| + i] == b[i];
      }
    }
  }

  lemma AtThree(ts: seq<Token>, p: nat, a: seq<Token>, t: Token, b: seq<Token>)
    requires At(ts, p, a + [t] + b)
    ensures At(ts, p, a) && Fits(ts[p + |a|], t) && At(ts, p + |a| + 1, b)
  {
    AtConcat(ts, p, a + [t], b);
    AtConcat(ts, p, a, [t]);
    assert FitsAt(ts, p + |a|, [t], 0);
  }

  /** The kinds an expression can start with: a literal, a name, `(`, `!` or `-`. */
  predicate StartsExpression(k: TokenKind) {
    k in {FALSE, TRUE, NIL, NUMBER, STRING, IDENTIFIER, LEFTPAREN, BANG, MINUS}
  }

  /** The first token of a tree's spelling, for the trees the parser builds. */
  lemma UnparseNonEmpty(e: Expr, lvl: nat)
    requires Parsable(e, lvl)
    ensures |Unparse(e)| > 0 && StartsExpression(Unparse(e)[0].kind)
  {
    match e
    case Binary(l, op, r) =>
      UnparseNonEmpty(l, OpLevel(op) + 1);
      assert Unparse(e)[0] == Unparse(l)[0];
    case _ =>
  }

  function Size(e: Expr): nat {
    match e
    case Literal(_) => 1
    case Variable(_) => 1
    case Grouping(inner) => 1 + Size(inner)
    case Assignment(_, v) => 2 + Size(v)
    case Binary(l, _, r) => 1 + Size(l) + Size(r)
    case Unary(_, r) => 1 + Size(r)
    case Logical(l, _, r) => 1 + Size(l) + Size(r)
    case Postfix(_, x) => 1 + Size(x)
    case Call(_, _) => 1
  }

  /** One turn of a binary level's loop: an operator of the level and its operand extend `e.left` to `e`. */
  lemma TailStep(ts: seq<Token>, q: nat, k: nat, e: Expr, next: nat)
    requires ValidTokens(ts) && q + 1 < |ts| && 1 <= k <= 4 && e.Binary?
    requires CheckAny(ts, q, Ops(k)) && ts[q].kind == e.op
    requires ParseOperand(ts, q + 1, k) == POk(e.right, next)
    ensures BinaryTail(ts, q, k, e.left) == BinaryTail(ts, next, k, e)
  {
  }

  /** The follow token stops every binary level below `lvl` (and `=` too, at the top). */
  predicate StopsAt(f: Token, lvl: nat) {
    (OpLevel(f.kind) == 0 || OpLevel(f.kind) >= lvl) && (lvl >= 6 ==> f.kind != EQUAL)
  }

  /** The usual hypothesis: `e` is spelled from `p` on and a token follows it. */
  predicate SpelledAt(ts: seq<Token>, p: nat, e: Expr) {
    ValidTokens(ts) && At(ts, p, Unparse(e)) && p + |Unparse(e)| < |ts|
  }

  lemma {:induction false} PrimaryRoundTrip(e: Expr, ts: seq<Token>, p: nat)
    requires SpelledAt(ts, p, e) && Parsable(e, 0)
    ensures ParsePrimary(ts, p) == POk(e, p + |Unparse(e)|)
    decreases Size(e), 1
  {
    match e
    case Literal(a) => LiteralRoundTrip(a, ts, p);
    case Variable(t) => VariableRoundTrip(t, ts, p);
    case Grouping(inner) => GroupingRoundTrip(inner, ts, p);
  }

  lemma VariableRoundTrip(t: Token, ts: seq<Token>, p: nat)
    requires SpelledAt(ts, p, Variable(t)) && t.kind == IDENTIFIER
    ensures ParsePrimary(ts, p) == POk(Variable(t), p + 1)
  {
    assert FitsAt(ts, p, Unparse(Variable(t)), 0);
    assert LiteralAt(ts, p).None?;
  }

  lemma {:induction false} GroupingRoundTrip(inner: Expr, ts: seq<Token>, p: nat)
    requires SpelledAt(ts, p, Grouping(inner)) && Parsable(inner, 6)
    ensures ParsePrimary(ts, p) == POk(Grouping(inner), p + |Unparse(Grouping(inner))|)
    decreases Size(Grouping(inner)), 0
  {
    var q := p + 1 + |Unparse(inner)|;
    SplitGrouping(ts, p, inner);
    assert ParseExpression(ts, p + 1) == POk(inner, q) by {
      ExpressionRoundTrip(inner, ts, p + 1);
    }
    GroupingStep(ts, p, inner, q);
  }

  lemma LiteralRoundTrip(a: Atomic, ts: seq<Token>, p: nat)
    requires SpelledAt(ts, p, Literal(a))
    ensures ParsePrimary(ts, p) == POk(Literal(a), p + 1)
  {
    assert FitsAt(ts, p, Unparse(Literal(a)), 0);
    assert LiteralAt(ts, p) == Some(POk(Literal(a), p + 1));
  }

  /** The spelling of a grouping, taken apart: `(`, the inner tree, `)`. */
  lemma SplitGrouping(ts: seq<Token>, p: nat, inner: Expr)
    requires SpelledAt(ts, p, Grouping(inner))
    ensures SpelledAt(ts, p + 1, inner) && ts[p].kind == LEFTPAREN
    ensures ts[p + 1 + |Unparse(inner)|].kind == RIGHTPAREN && StopsAt(ts[p + 1 + |Unparse(inner)|], 6)
    ensures |Unparse(Grouping(inner))| == |Unparse(inner)| + 2
  {
    AtConcat(ts, p, [Tok(LEFTPAREN)] + Unparse(inner), [Tok(RIGHTPAREN)]);
    AtConcat(ts, p, [Tok(LEFTPAREN)], Unparse(inner));
    assert FitsAt(ts, p, [Tok(LEFTPAREN)], 0);
    assert FitsAt(ts, p + 1 + |Unparse(inner)|, [Tok(RIGHTPAREN)], 0);
  }

  /** `primary` on `(`: the inner expression, then the `)` that closes it. */
  lemma GroupingStep(ts: seq<Token>, p: nat, inner: Expr, q: nat)
    requires ValidTokens(ts) && p + 1 < |ts| && Check(ts, p, LEFTPAREN)
    requires ParseExpression(ts, p + 1) == POk(inner, q) && Check(ts, q, RIGHTPAREN)
    ensures ParsePrimary(ts, p) == POk(Grouping(inner), q + 1)
  {
  }

  lemma {:induction false} UnaryRoundTrip(e: Expr, ts: seq<Token>, p: nat)
    requires SpelledAt(ts, p, e) && Parsable(e, 1)
    ensures ParseUnary(ts, p) == POk(e, p + |Unparse(e)|)
    decreases Size(e), 2
  {
    if e.Unary? {
      SplitUnary(ts, p, e);
      assert ParseUnary(ts, p + 1) == POk(e.right, p + |Unparse(e)|) by {
        UnaryRoundTrip(e.right, ts, p + 1);
      }
      UnaryStep(ts, p, e, p + |Unparse(e)|);
    } else {
      NotUnary(ts, p, e);
      PrimaryRoundTrip(e, ts, p);
    }
  }

  /** The spelling of a `!`/`-` node, taken apart: the operator, then its operand. */
  lemma SplitUnary(ts: seq<Token>, p: nat, e: Expr)
    requires SpelledAt(ts, p, e) && Parsable(e, 1) && e.Unary?
    ensures ts[p].kind == e.op && CheckAny(ts, p, [BANG, MINUS])
    ensures SpelledAt(ts, p + 1, e.right) && Parsable(e.right, 1)
    ensures p + 1 + |Unparse(e.right)| == p + |Unparse(e)|
  {
    AtConcat(ts, p, [Tok(e.op)], Unparse(e.right));
    assert FitsAt(ts, p, [Tok(e.op)], 0);
  }

  /** `unary` on `!` or `-`: the operator applied to the unary expression after it. */
  lemma UnaryStep(ts: seq<Token>, p: nat, e: Expr, n: nat)
    requires ValidTokens(ts) && p + 1 < |ts| && e.Unary? && ts[p].kind == e.op && CheckAny(ts, p, [BANG, MINUS])
    requires ParseUnary(ts, p + 1) == POk(e.right, n)
    ensures ParseUnary(ts, p) == POk(e, n)
  {
  }

  /** A unary-level tree that is no `!`/`-` node is a primary, and `unary` hands it on. */
  lemma NotUnary(ts: seq<Token>, p: nat, e: Expr)
    requires SpelledAt(ts, p, e) && Parsable(e, 1) && !e.Unary?
    ensures Parsable(e, 0) && ParseUnary(ts, p) == ParsePrimary(ts, p)
  {
    assert FitsAt(ts, p, Unparse(e), 0);
    var k := Unparse(e)[0].kind;
    match e
    case Literal(a) => assert k != BANG && k != MINUS;
    case Variable(t) => assert k == IDENTIFIER;
    case Grouping(inner) => assert k == LEFTPAREN;
  }

  lemma {:induction false} OperandRoundTrip(e: Expr, k: nat, ts: seq<Token>, p: nat)
    requires 1 <= k <= 4 && SpelledAt(ts, p, e) && Parsable(e, k)
    requires StopsAt(ts[p + |Unparse(e)|], k)
    ensures ParseOperand(ts, p, k) == POk(e, p + |Unparse(e)|)
    decreases Size(e), 4 * k
  {
    if k == 1 {
      UnaryRoundTrip(e, ts, p);
    } else {
      LevelRoundTrip(e, k - 1, ts, p);
    }
  }

  /**
   * Parsing at binary level `k` reads a level-`k` chain and then sits in the
   * loop of that level with the chain as its tree so far.
   */
  lemma {:induction false} ChainRoundTrip(e: Expr, k: nat, ts: seq<Token>, p: nat)
    requires 1 <= k <= 4 && SpelledAt(ts, p, e) && Parsable(e, k + 1)
    requires StopsAt(ts[p + |Unparse(e)|], k)
    ensures ParseBinary(ts, p, k) == BinaryTail(ts, p + |Unparse(e)|, k, e)
    decreases Size(e), 4 * k + 2
  {
    if e.Binary? && OpLevel(e.op) == k {
      ChainLinkRoundTrip(e, k, ts, p);
    } else {
      OperandRoundTrip(e, k, ts, p);
    }
  }

  /** The chain case whose last link is an operator of level `k` itself. */
  lemma {:induction false} ChainLinkRoundTrip(e: Expr, k: nat, ts: seq<Token>, p: nat)
    requires 1 <= k <= 4 && SpelledAt(ts, p, e) && e.Binary? && OpLevel(e.op) == k
    requires Parsable(e.left, k + 1) && Parsable(e.right, k)
    requires StopsAt(ts[p + |Unparse(e)|], k)
    ensures ParseBinary(ts, p, k) == BinaryTail(ts, p + |Unparse(e)|, k, e)
    decreases Size(e), 4 * k + 1
  {
    SplitBinary(ts, p, e);
    calc {
      ParseBinary(ts, p, k);
    == { ChainRoundTrip(e.left, k, ts, p); }
      BinaryTail(ts, p + |Unparse(e.left)|, k, e.left);
    == { LinkRoundTrip(e, k, ts, p + |Unparse(e.left)|, p + |Unparse(e)|); }
      BinaryTail(ts, p + |Unparse(e)|, k, e);
    }
  }

  /** The rest of that case: the operator at `q` and the right operand after it, up to `n`. */
  lemma {:induction false} LinkRoundTrip(e: Expr, k: nat, ts: seq<Token>, q: nat, n: nat)
    requires 1 <= k <= 4 && e.Binary? && OpLevel(e.op) == k && Parsable(e.right, k)
    requires SpelledAt(ts, q + 1, e.right) && ts[q].kind == e.op && q + 1 + |Unparse(e.right)| == n
    requires StopsAt(ts[n], k)
    ensures BinaryTail(ts, q, k, e.left) == BinaryTail(ts, n, k, e)
    decreases Size(e), 4 * k
  {
    OperandRoundTrip(e.right, k, ts, q + 1);
    OpsByLevel(e.op, k);
    TailStep(ts, q, k, e, n);
  }

  /** The spelling of a binary node, taken apart: its left operand, the operator, its right operand. */
  lemma SplitBinary(ts: seq<Token>, p: nat, e: Expr)
    requires SpelledAt(ts, p, e) && e.Binary?
    ensures SpelledAt(ts, p, e.left) && SpelledAt(ts, p + |Unparse(e.left)| + 1, e.right)
    ensures ts[p + |Unparse(e.left)|].kind == e.op
    ensures p + |Unparse(e.left)| + 1 + |Unparse(e.right)| == p + |Unparse(e)|
  {
    AtThree(ts, p, Unparse(e.left), Tok(e.op), Unparse(e.right));
  }

  /** A level-`k` tree followed by a token that continues no level up to `k` is read whole. */
  lemma {:induction false} LevelRoundTrip(e: Expr, k: nat, ts: seq<Token>, p: nat)
    requires 1 <= k <= 4 && SpelledAt(ts, p, e) && Parsable(e, k + 1)
    requires StopsAt(ts[p + |Unparse(e)|], k + 1)
    ensures ParseBinary(ts, p, k) == POk(e, p + |Unparse(e)|)
    decreases Size(e), 4 * k + 3
  {
    ChainRoundTrip(e, k, ts, p);
    OpsByLevel(ts[p + |Unparse(e)|].kind, k);
  }

  /**
   * The round trip: an assignment-level tree, spelled from `p` and followed
   * by a token that continues no expression (`;`, `)`, EOF, ...), parses
   * back to itself and leaves the cursor right after its spelling.
   */
  lemma {:induction false} ExpressionRoundTrip(e: Expr, ts: seq<Token>, p: nat)
    requires SpelledAt(ts, p, e) && Parsable(e, 6)
    requires StopsAt(ts[p + |Unparse(e)|], 6)
    ensures ParseExpression(ts, p) == POk(e, p + |Unparse(e)|)
    decreases Size(e), 20
  {
    if e.Assignment? {
      var name, v := e.name, e.value;
      AtConcat(ts, p, [name, Tok(EQUAL)], Unparse(v));
      assert FitsAt(ts, p, [name, Tok(EQUAL)], 0) && FitsAt(ts, p, [name, Tok(EQUAL)], 1);
      assert At(ts, p, Unparse(Variable(name))) by {
        assert FitsAt(ts, p, Unparse(Variable(name)), 0);
      }
      LevelRoundTrip(Variable(name), 4, ts, p);
      ExpressionRoundTrip(v, ts, p + 2);
    } else {
      LevelRoundTrip(e, 4, ts, p);
    }
  }

  /** The round trip on a whole token vector: the spelling of the tree, then EOF. */
  lemma ParseUnparse(e: Expr)
    requires Parsable(e, 6)
    ensures ValidTokens(Unparse(e) + [Tok(EOF)])
    ensures ParseExpression(Unparse(e) + [Tok(EOF)], 0) == POk(e, |Unparse(e)|)
  {
    var ts := Unparse(e) + [Tok(EOF)];
    assert At(ts, 0, Unparse(e)) by {
      forall i: nat | i < |Unparse(e)| ensures FitsAt(ts, 0, Unparse(e), i) {
        assert ts[i] == Unparse(e)[i];
      }
    }
    ExpressionRoundTrip(e, ts, 0);
  }

  // Programs: `print e;` and `e;` statements spelled one after another.

  /** The statements spelled here: `print e;` and `e;` for a tree the parser builds. */
  predicate SimpleStatement(s: Stmt) {
    (s.PrintStatement? || s.ExpressionStatement?) && Parsable(s.expr, 6)
  }

  /** Every statement of the program is one of those. */
  predicate SimpleProgram(ss: seq<Stmt>) {
    |ss| == 0 || (SimpleStatement(ss[0]) && SimpleProgram(ss[1..]))
  }

  /** The tokens that spell a statement. */
  function UnparseStatement(s: Stmt): seq<Token> {
    match s
    case PrintStatement(e) => [Tok(PRINT)] + Unparse(e) + [Tok(SEMICOLON)]
    case ExpressionStatement(e) => Unparse(e) + [Tok(SEMICOLON)]
    case _ => []
  }

  /** The tokens that spell a program: its statements' spellings, one after another. */
  function UnparseProgram(ss: seq<Stmt>): seq<Token> {
    if |ss| == 0 then [] else UnparseStatement(ss[0]) + UnparseProgram(ss[1..])
  }

  /** `print`, an expression and `;` make a print statement. */
  lemma PrintStatementAt(ts: seq<Token>, p: nat, e: Expr, q: nat)
    requires ValidTokens(ts) && p + 1 < |ts| && ts[p].kind == PRINT
    requires ParseExpression(ts, p + 1) == POk(e, q) && ts[q].kind == SEMICOLON
    ensures ParseDeclaration(ts, p) == POk(PrintStatement(e), q + 1)
  {
  }

  /** An expression that starts as expressions do, then `;`, makes an expression statement. */
  lemma ExpressionStatementAt(ts: seq<Token>, p: nat, e: Expr, q: nat)
    requires ValidTokens(ts) && p < |ts| && StartsExpression(ts[p].kind)
    requires ParseExpression(ts, p) == POk(e, q) && ts[q].kind == SEMICOLON
    ensures ParseDeclaration(ts, p) == POk(ExpressionStatement(e), q + 1)
  {
  }

  /** The tokens from `p` spell `[a] + u + [b]`: `a` first, then `u`, then `b`. */
  lemma AtBetween(ts: seq<Token>, p: nat, a: Token, u: seq<Token>, b: Token)
    requires At(ts, p, [a] + u + [b])
    ensures Fits(ts[p], a) && At(ts, p + 1, u) && Fits(ts[p + 1 + |u|], b)
  {
    AtConcat(ts, p, [a] + u, [b]);
    AtConcat(ts, p, [a], u);
    assert FitsAt(ts, p, [a], 0);
    assert FitsAt(ts, p + |[a] + u|, [b], 0);
  }

  /** The tokens from `p` spell `u + [b]`: `u`, then `b`. */
  lemma AtBefore(ts: seq<Token>, p: nat, u: seq<Token>, b: Token)
    requires At(ts, p, u + [b])
    ensures At(ts, p, u) && Fits(ts[p + |u|], b)
  {
    AtConcat(ts, p, u, [b]);
    assert FitsAt(ts, p + |u|, [b], 0);
  }

  /** `print e;` followed by any token is read back by `declaration`. */
  lemma PrintRoundTrip(s: Stmt, ts: seq<Token>, p: nat, q: nat)
    requires ValidTokens(ts) && s.PrintStatement? && Parsable(s.expr, 6)
    requires At(ts, p, UnparseStatement(s)) && q == p + |UnparseStatement(s)| && q < |ts|
    ensures ts[p].kind != EOF
    ensures ParseDeclaration(ts, p) == POk(s, q)
  {
    var e := s.expr;
    var u := Unparse(e);
    AtBetween(ts, p, Tok(PRINT), u, Tok(SEMICOLON));
    ExpressionRoundTrip(e, ts, p + 1);
    PrintStatementAt(ts, p, e, p + 1 + |u|);
  }

  /** `e;` followed by any token is read back by `declaration`. */
  lemma ExpressionStatementRoundTrip(s: Stmt, ts: seq<Token>, p: nat, q: nat)
    requires ValidTokens(ts) && s.ExpressionStatement? && Parsable(s.expr, 6)
    requires At(ts, p, UnparseStatement(s)) && q == p + |UnparseStatement(s)| && q < |ts|
    ensures StartsExpression(ts[p].kind)
    ensures ParseDeclaration(ts, p) == POk(s, q)
  {
    var e := s.expr;
    var u := Unparse(e);
    UnparseNonEmpty(e, 6);
    AtBefore(ts, p, u, Tok(SEMICOLON));
    assert FitsAt(ts, p, u, 0);
    ExpressionRoundTrip(e, ts, p);
    ExpressionStatementAt(ts, p, e, p + |u|);
  }

  /** A statement's spelling, followed by any token, is read back by `declaration`. */
  lemma StatementRoundTrip(s: Stmt, ts: seq<Token>, p: nat, q: nat)
    requires ValidTokens(ts) && SimpleStatement(s)
    requires At(ts, p, UnparseStatement(s)) && q == p + |UnparseStatement(s)| && q < |ts|
    ensures ts[p].kind != EOF
    ensures ParseDeclaration(ts, p) == POk(s, q)
  {
    if s.PrintStatement? {
      PrintRoundTrip(s, ts, p, q);
    } else {
      ExpressionStatementRoundTrip(s, ts, p, q);
    }
  }

  /** From `p`, `declaration` reads the statements `ss` one after another and stops at `n`. */
  predicate Declarations(ts: seq<Token>, p: nat, ss: seq<Stmt>, n: nat)
    decreases |ss|
  {
    if |ss| == 0 then p == n
    else
      ValidTokens(ts) && p < |ts| && ts[p].kind != EOF && ParseDeclaration(ts, p).POk?
      && ParseDeclaration(ts, p).value == ss[0]
      && Declarations(ts, ParseDeclaration(ts, p).next, ss[1..], n)
  }

  /** The loop of `parse` collects such a run of declarations when EOF follows it. */
  lemma {:induction false} ParseFromDeclarations(ts: seq<Token>, p: nat, ss: seq<Stmt>, n: nat)
    requires ValidTokens(ts) && p < |ts| && n < |ts| && ts[n].kind == EOF
    requires Declarations(ts, p, ss, n)
    ensures ParseFrom(ts, p) == POk(ss, n)
    decreases |ss|
  {
    if |ss| > 0 {
      var q := ParseDeclaration(ts, p).next;
      ParseFromDeclarations(ts, q, ss[1..], n);
      assert [ss[0]] + ss[1..] == ss;
    }
  }

  /** The spelling of a program, before any token, is such a run of declarations. */
  lemma {:induction false} ProgramDeclarations(ss: seq<Stmt>, ts: seq<Token>, p: nat, n: nat)
    requires ValidTokens(ts) && SimpleProgram(ss)
    requires At(ts, p, UnparseProgram(ss)) && n == p + |UnparseProgram(ss)| && n < |ts|
    ensures Declarations(ts, p, ss, n)
    decreases |ss|
  {
    if |ss| == 0 {
      NoDeclarations(ts, p, ss, n);
    } else {
      var q := FirstStatement(ss, ts, p, n);
      ProgramDeclarations(ss[1..], ts, q, n);
      DeclarationsStep(ts, p, ss, q, n);
    }
  }

  /** The empty run of declarations stops where it starts. */
  lemma NoDeclarations(ts: seq<Token>, p: nat, ss: seq<Stmt>, n: nat)
    requires |ss| == 0 && n == p
    ensures Declarations(ts, p, ss, n)
  {
  }

  /** A declaration read at `p`, then a run of them from where it stops. */
  lemma DeclarationsStep(ts: seq<Token>, p: nat, ss: seq<Stmt>, q: nat, n: nat)
    requires ValidTokens(ts) && p < |ts| && ts[p].kind != EOF && |ss| > 0
    requires ParseDeclaration(ts, p) == POk(ss[0], q) && Declarations(ts, q, ss[1..], n)
    ensures Declarations(ts, p, ss, n)
  {
  }

  /** `declaration` reads the first statement back from its spelling, up to where the rest is spelled. */
  lemma FirstStatement(ss: seq<Stmt>, ts: seq<Token>, p: nat, n: nat) returns (q: nat)
    requires ValidTokens(ts) && |ss| > 0 && SimpleProgram(ss)
    requires At(ts, p, UnparseProgram(ss)) && n == p + |UnparseProgram(ss)| && n < |ts|
    ensures ts[p].kind != EOF && ParseDeclaration(ts, p) == POk(ss[0], q)
    ensures SimpleProgram(ss[1..]) && At(ts, q, UnparseProgram(ss[1..]))
    ensures n == q + |UnparseProgram(ss[1..])|
  {
    q := ProgramSplit(ss, ts, p);
    StatementRoundTrip(ss[0], ts, p, q);
  }

  /** The loop of `parse` reads a program's spelling back, up to the EOF after it. */
  lemma ProgramFromRoundTrip(ss: seq<Stmt>, ts: seq<Token>, p: nat)
    requires ValidTokens(ts) && SimpleProgram(ss)
    requires At(ts, p, UnparseProgram(ss)) && p + |UnparseProgram(ss)| < |ts|
    requires ts[p + |UnparseProgram(ss)|].kind == EOF
    ensures ParseFrom(ts, p) == POk(ss, p + |UnparseProgram(ss)|)
  {
    ProgramDeclarations(ss, ts, p, p + |UnparseProgram(ss)|);
    ParseFromDeclarations(ts, p, ss, p + |UnparseProgram(ss)|);
  }

  /** The first statement's spelling, then the rest of the program's from `q`. */
  lemma ProgramSplit(ss: seq<Stmt>, ts: seq<Token>, p: nat) returns (q: nat)
    requires |ss| > 0 && SimpleProgram(ss)
    requires At(ts, p, UnparseProgram(ss)) && p + |UnparseProgram(ss)| < |ts|
    ensures SimpleStatement(ss[0]) && SimpleProgram(ss[1..])
    ensures q == p + |UnparseStatement(ss[0])| && p < q
    ensures At(ts, p, UnparseStatement(ss[0])) && At(ts, q, UnparseProgram(ss[1..]))
    ensures q + |UnparseProgram(ss[1..])| == p + |UnparseProgram(ss)|
  {
    var u, v := UnparseStatement(ss[0]), UnparseProgram(ss[1..]);
    assert UnparseProgram(ss) == u + v;
    AtConcat(ts, p, u, v);
    UnparseStatementNonEmpty(ss[0]);
    q := p + |u|;
  }

  lemma UnparseStatementNonEmpty(s: Stmt)
    requires SimpleStatement(s)
    ensures |UnparseStatement(s)| > 0
  {
  }

  /** A program of `print e;` and `e;` statements, spelled and ended by EOF, parses back to itself. */
  lemma ParseProgramRoundTrip(ss: seq<Stmt>)
    requires SimpleProgram(ss)
    ensures ValidTokens(UnparseProgram(ss) + [Tok(EOF)])
    ensures Parse(UnparseProgram(ss) + [Tok(EOF)]) == Success(ss)
  {
    var u := UnparseProgram(ss);
    var ts := u + [Tok(EOF)];
    assert At(ts, 0, u) by {
      forall i: nat | i < |u| ensures FitsAt(ts, 0, u, i) {
        assert ts[i] == u[i];
      }
    }
    ProgramFromRoundTrip(ss, ts, 0);
  }

  // Soundness: what the parser returns respects the precedence ladder.

  lemma {:induction false} PrimarySound(ts: seq<Token>, p: nat)
    requires ValidTokens(ts) && p < |ts| && ParsePrimary(ts, p).POk?
    ensures Parsable(ParsePrimary(ts, p).value, 0)
    decreases |ts| - p, 0
  {
    if LiteralAt(ts, p).None? && Check(ts, p, LEFTPAREN) {
      ExpressionSound(ts, p + 1);
    }
  }

  lemma {:induction false} UnarySound(ts: seq<Token>, p: nat)
    requires ValidTokens(ts) && p < |ts| && ParseUnary(ts, p).POk?
    ensures Parsable(ParseUnary(ts, p).value, 1)
    decreases |ts| - p, 1
  {
    if CheckAny(ts, p, [BANG, MINUS]) {
      UnarySound(ts, p + 1);
    } else {
      PrimarySound(ts, p);
      ParsableUp(ParsePrimary(ts, p).value, 0, 1);
    }
  }

  lemma {:induction false} OperandSound(ts: seq<Token>, p: nat, k: nat)
    requires ValidTokens(ts) && p < |ts| && 1 <= k <= 4 && ParseOperand(ts, p, k).POk?
    ensures Parsable(ParseOperand(ts, p, k).value, k)
    decreases |ts| - p, 3 * k
  {
    if k == 1 {
      UnarySound(ts, p);
    } else {
      BinarySound(ts, p, k - 1);
    }
  }

  lemma {:induction false} TailSound(ts: seq<Token>, q: nat, k: nat, left: Expr)
    requires ValidTokens(ts) && q < |ts| && 1 <= k <= 4 && Parsable(left, k + 1)
    requires BinaryTail(ts, q, k, left).POk?
    ensures Parsable(BinaryTail(ts, q, k, left).value, k + 1)
    decreases |ts| - q, 3 * k + 1
  {
    if CheckAny(ts, q, Ops(k)) {
      OpsByLevel(ts[q].kind, k);
      OperandSound(ts, q + 1, k);
      var right := ParseOperand(ts, q + 1, k);
      TailSound(ts, right.next, k, Binary(left, ts[q].kind, right.value));
    }
  }

  lemma {:induction false} BinarySound(ts: seq<Token>, p: nat, k: nat)
    requires ValidTokens(ts) && p < |ts| && 1 <= k <= 4 && ParseBinary(ts, p, k).POk?
    ensures Parsable(ParseBinary(ts, p, k).value, k + 1)
    decreases |ts| - p, 3 * k + 2
  {
    OperandSound(ts, p, k);
    var left := ParseOperand(ts, p, k);
    ParsableUp(left.value, k, k + 1);
    TailSound(ts, left.next, k, left.value);
  }

  /** Every tree the expression parser returns respects precedence and associativity. */
  lemma {:induction false} ExpressionSound(ts: seq<Token>, p: nat)
    requires ValidTokens(ts) && p < |ts| && ParseExpression(ts, p).POk?
    ensures Parsable(ParseExpression(ts, p).value, 6)
    decreases |ts| - p, 15
  {
    BinarySound(ts, p, 4);
    var target := ParseBinary(ts, p, 4);
    ParsableUp(target.value, 5, 6);
    if Check(ts, target.next, EQUAL) {
      ExpressionSound(ts, target.next + 1);
    }
  }

  /** A tree that fits a level fits every higher one. */
  lemma ParsableUp(e: Expr, lvl: nat, lvl': nat)
    requires Parsable(e, lvl) && lvl <= lvl'
    ensures Parsable(e, lvl')
  {
  }

  // Consequences on concrete token vectors.

  /** The round trip on a token vector that spells `e` and then ends. */
  lemma RoundTripOn(e: Expr, ts: seq<Token>)
    requires Parsable(e, 6) && ValidTokens(ts) && |ts| == |Unparse(e)| + 1
    requires forall i :: 0 <= i < |Unparse(e)| ==> Fits(ts[i], Unparse(e)[i])
    ensures ParseExpression(ts, 0) == POk(e, |Unparse(e)|)
  {
    assert At(ts, 0, Unparse(e)) by {
      forall i: nat | i < |Unparse(e)| ensures FitsAt(ts, 0, Unparse(e), i) {
        assert Fits(ts[i], Unparse(e)[i]);
      }
    }
    ExpressionRoundTrip(e, ts, 0);
  }

  /** A token of kind `k` as the scanner makes operators: no literal. */
  predicate IsOp(t: Token, k: TokenKind) {
    t.kind == k && t.literal == Nil
  }

  /** `a - b - c` is `(a - b) - c`. */
  lemma MinusIsLeftAssociative(a: Token, m1: Token, b: Token, m2: Token, c: Token, eof: Token)
    requires a.kind == IDENTIFIER && b.kind == IDENTIFIER && c.kind == IDENTIFIER
    requires IsOp(m1, MINUS) && IsOp(m2, MINUS) && eof.kind == EOF
    ensures ParseExpression([a, m1, b, m2, c, eof], 0) ==
            POk(Binary(Binary(Variable(a), MINUS, Variable(b)), MINUS, Variable(c)), 5)
  {
    var ab := Binary(Variable(a), MINUS, Variable(b));
    assert Unparse(ab) == [a, Tok(MINUS), b];
    assert Unparse(Binary(ab, MINUS, Variable(c))) == [a, Tok(MINUS), b, Tok(MINUS), c];
    RoundTripOn(Binary(ab, MINUS, Variable(c)), [a, m1, b, m2, c, eof]);
  }

  /** `a + b * c` is `a + (b * c)`. */
  lemma StarBindsTighterThanPlus(a: Token, plus: Token, b: Token, star: Token, c: Token, eof: Token)
    requires a.kind == IDENTIFIER && b.kind == IDENTIFIER && c.kind == IDENTIFIER
    requires IsOp(plus, PLUS) && IsOp(star, STAR) && eof.kind == EOF
    ensures ParseExpression([a, plus, b, star, c, eof], 0) ==
            POk(Binary(Variable(a), PLUS, Binary(Variable(b), STAR, Variable(c))), 5)
  {
    var bc := Binary(Variable(b), STAR, Variable(c));
    assert Unparse(bc) == [b, Tok(STAR), c];
    assert Unparse(Binary(Variable(a), PLUS, bc)) == [a, Tok(PLUS), b, Tok(STAR), c];
    RoundTripOn(Binary(Variable(a), PLUS, bc), [a, plus, b, star, c, eof]);
  }

  /** `a == b < c + d` is `a == (b < (c + d))`. */
  lemma ComparisonBetweenTermAndEquality(a: Token, eq: Token, b: Token, lt: Token, c: Token, plus: Token,
                                         d: Token, eof: Token)
    requires a.kind == IDENTIFIER && b.kind == IDENTIFIER && c.kind == IDENTIFIER && d.kind == IDENTIFIER
    requires IsOp(eq, EQUALEQUAL) && IsOp(lt, LESS) && IsOp(plus, PLUS) && eof.kind == EOF
    ensures ParseExpression([a, eq, b, lt, c, plus, d, eof], 0) ==
            POk(Binary(Variable(a), EQUALEQUAL, Binary(Variable(b), LESS, Binary(Variable(c), PLUS, Variable(d)))), 7)
  {
    var cd := Binary(Variable(c), PLUS, Variable(d));
    var bcd := Binary(Variable(b), LESS, cd);
    assert OpLevel(PLUS) == 2 && OpLevel(LESS) == 3 && OpLevel(EQUALEQUAL) == 4;
    assert Parsable(Variable(d), 2);
    assert Parsable(cd, 3);
    assert Parsable(bcd, 4);
    assert Unparse(cd) == [c, Tok(PLUS), d];
    assert Unparse(bcd) == [b, Tok(LESS), c, Tok(PLUS), d];
    assert Unparse(Binary(Variable(a), EQUALEQUAL, bcd)) == [a, Tok(EQUALEQUAL), b, Tok(LESS), c, Tok(PLUS), d];
    RoundTripOn(Binary(Variable(a), EQUALEQUAL, bcd), [a, eq, b, lt, c, plus, d, eof]);
  }

  /** `a = b = c` is `a = (b = c)`. */
  lemma AssignmentIsRightAssociative(a: Token, e1: Token, b: Token, e2: Token, c: Token, eof: Token)
    requires a.kind == IDENTIFIER && b.kind == IDENTIFIER && c.kind == IDENTIFIER
    requires IsOp(e1, EQUAL) && IsOp(e2, EQUAL) && eof.kind == EOF
    ensures ParseExpression([a, e1, b, e2, c, eof], 0) == POk(Assignment(a, Assignment(b, Variable(c))), 5)
  {
    assert Unparse(Assignment(b, Variable(c))) == [b, Tok(EQUAL), c];
    assert Unparse(Assignment(a, Assignment(b, Variable(c)))) == [a, Tok(EQUAL), b, Tok(EQUAL), c];
    RoundTripOn(Assignment(a, Assignment(b, Variable(c))), [a, e1, b, e2, c, eof]);
  }

  /** `- - x` is `-(-x)`. */
  lemma UnaryNests(m1: Token, m2: Token, x: Token, eof: Token)
    requires IsOp(m1, MINUS) && IsOp(m2, MINUS) && x.kind == IDENTIFIER && eof.kind == EOF
    ensures ParseExpression([m1, m2, x, eof], 0) == POk(Unary(MINUS, Unary(MINUS, Variable(x))), 3)
  {
    assert Unparse(Unary(MINUS, Variable(x))) == [Tok(MINUS), x];
    assert Unparse(Unary(MINUS, Unary(MINUS, Variable(x)))) == [Tok(MINUS), Tok(MINUS), x];
    RoundTripOn(Unary(MINUS, Unary(MINUS, Variable(x))), [m1, m2, x, eof]);
  }

  /** `a + b = c` is rejected: the target of `=` must be a bare variable. */
  lemma AssignmentToNonVariable(a: Token, plus: Token, b: Token, eq: Token, c: Token, eof: Token)
    requires a.kind == IDENTIFIER && b.kind == IDENTIFIER && c.kind == IDENTIFIER
    requires IsOp(plus, PLUS) && IsOp(eq, EQUAL) && eof.kind == EOF
    ensures ParseExpression([a, plus, b, eq, c, eof], 0) == PErr(WrongAssignment)
  {
    var ts := [a, plus, b, eq, c, eof];
    var sum := Binary(Variable(a), PLUS, Variable(b));
    assert Unparse(sum) == [a, Tok(PLUS), b];
    assert At(ts, 0, Unparse(sum)) by {
      forall i: nat | i < 3 ensures FitsAt(ts, 0, Unparse(sum), i) {
      }
    }
    LevelRoundTrip(sum, 4, ts, 0);
    assert Unparse(Variable(c)) == [c];
    assert At(ts, 4, Unparse(Variable(c))) by {
      assert FitsAt(ts, 4, Unparse(Variable(c)), 0);
    }
    ExpressionRoundTrip(Variable(c), ts, 4);
  }

  // Statements and errors.

  /** `let x;` declares `x` with the initializer `Literal(Nil)`. */
  lemma LetWithoutInitializer(ts: seq<Token>, p: nat)
    requires ValidTokens(ts) && p + 2 < |ts|
    requires ts[p].kind == LET && ts[p + 1].kind == IDENTIFIER && ts[p + 2].kind == SEMICOLON
    ensures ParseDeclaration(ts, p) == POk(LetStatement(ts[p + 1], Literal(Nil)), p + 3)
  {
  }

  /** A `print` statement whose expression is not followed by `;` fails at the token after it. */
  lemma PrintNeedsSemicolon(ts: seq<Token>, p: nat)
    requires ValidTokens(ts) && p + 1 < |ts| && ts[p].kind == PRINT && ParseExpression(ts, p + 1).POk?
    requires ts[ParseExpression(ts, p + 1).next].kind != SEMICOLON
    ensures ParseStatement(ts, p) == PErr(Unexpected(ts[ParseExpression(ts, p + 1).next], MissingPrintSemicolon))
  {
  }

  /** The same for an expression statement. */
  lemma ExpressionStatementNeedsSemicolon(ts: seq<Token>, p: nat)
    requires ValidTokens(ts) && p < |ts| && ts[p].kind != PRINT && ts[p].kind != LEFTBRACE
    requires ParseExpression(ts, p).POk? && ts[ParseExpression(ts, p).next].kind != SEMICOLON
    ensures ParseStatement(ts, p) ==
            PErr(Unexpected(ts[ParseExpression(ts, p).next], MissingExpressionSemicolon))
  {
  }

  /** A `let` must be followed by a name. */
  lemma LetNeedsName(ts: seq<Token>, p: nat)
    requires ValidTokens(ts) && p + 1 < |ts| && ts[p].kind == LET && ts[p + 1].kind != IDENTIFIER
    ensures ParseDeclaration(ts, p) == PErr(Unexpected(ts[p + 1], MissingName))
  {
  }

  /** A block that reaches EOF before its `}` fails at the EOF token. */
  lemma UnclosedBlock(ts: seq<Token>, p: nat)
    requires ValidTokens(ts) && p < |ts| && BlockItems(ts, p).POk?
    requires ts[BlockItems(ts, p).next].kind == EOF
    ensures ParseBlock(ts, p) == PErr(Unexpected(ts[BlockItems(ts, p).next], MissingRightBrace))
  {
  }

  /** A `(` expression without its `)` fails at the token after the expression. */
  lemma UnclosedGrouping(ts: seq<Token>, p: nat)
    requires ValidTokens(ts) && p + 1 < |ts| && ts[p].kind == LEFTPAREN && ParseExpression(ts, p + 1).POk?
    requires ts[ParseExpression(ts, p + 1).next].kind != RIGHTPAREN
    ensures ParsePrimary(ts, p) ==
            PErr(Unexpected(ts[ParseExpression(ts, p + 1).next], MissingRightParen))
  {
  }

  /** No binary level accepts a token that starts no primary expression. */
  lemma {:induction false} NoOperand(ts: seq<Token>, p: nat, k: nat)
    requires ValidTokens(ts) && p < |ts| && 1 <= k <= 4
    requires ts[p].kind !in {FALSE, TRUE, NIL, NUMBER, STRING, LEFTPAREN, IDENTIFIER, BANG, MINUS}
    ensures ParseBinary(ts, p, k) == PErr(Unexpected(ts[p], MissingExpression))
    decreases k
  {
    if k == 1 {
      assert ParseUnary(ts, p) == ParsePrimary(ts, p);
    } else {
      NoOperand(ts, p, k - 1);
    }
  }

  /** A token that starts no primary expression (an operator, `;`, EOF, ...) is an error there. */
  lemma NoPrimary(ts: seq<Token>, p: nat)
    requires ValidTokens(ts) && p < |ts|
    requires ts[p].kind !in {FALSE, TRUE, NIL, NUMBER, STRING, LEFTPAREN, IDENTIFIER, BANG, MINUS}
    ensures ParseExpression(ts, p) == PErr(Unexpected(ts[p], MissingExpression))
  {
    NoOperand(ts, p, 4);
  }
}
