/**
 * What block scoping keeps: code that neither assigns nor updates a
 * variable leaves every enclosing scope exactly as it was, so a block of
 * such statements gives back the very chain it started from, and a name a
 * block shadows reads its outer value again after the block.
 */
module ScopeProperties {
  import opened Wrappers
  import opened Tokens
  import opened Ast
  import opened Environment
  import opened Interpreter

  /** An expression with no assignment and no postfix update anywhere in it. */
  predicate AssignsNothing(e: Expr)
    decreases e
  {
    match e
    case Literal(_) => true
    case Grouping(inner) => AssignsNothing(inner)
    case Variable(_) => true
    case Assignment(_, _) => false
    case Binary(left, _, right) => AssignsNothing(left) && AssignsNothing(right)
    case Unary(_, right) => AssignsNothing(right)
    case Logical(left, _, right) => AssignsNothing(left) && AssignsNothing(right)
    case Postfix(_, _) => false
    case Call(callee, args) => AssignsNothing(callee) && ArgsAssignNothing(args)
  }

  /** Call arguments none of which assigns or updates a variable. */
  predicate ArgsAssignNothing(args: seq<Expr>)
    decreases args
  {
    |args| == 0 || (ArgsAssignNothing(args[..|args| - 1]) && AssignsNothing(args[|args| - 1]))
  }

  /** A statement none of whose expressions assigns or updates a variable; `let` may still define. */
  predicate StmtAssignsNothing(s: Stmt)
    decreases s
  {
    match s
    case ExpressionStatement(e) => AssignsNothing(e)
    case PrintStatement(e) => AssignsNothing(e)
    case LetStatement(_, init) => AssignsNothing(init)
    case BlockStatement(body) => SeqAssignsNothing(body)
    case IfStatement(cond, thenBranch, elseBranch) =>
      AssignsNothing(cond) && StmtAssignsNothing(thenBranch)
      && (elseBranch.Some? ==> StmtAssignsNothing(elseBranch.value))
    case WhileStatement(cond, loopBody) => AssignsNothing(cond) && StmtAssignsNothing(loopBody)
  }

  /** Statements none of which assigns or updates a variable. */
  predicate SeqAssignsNothing(ss: seq<Stmt>)
    decreases ss
  {
    |ss| == 0 || (StmtAssignsNothing(ss[0]) && SeqAssignsNothing(ss[1..]))
  }

  /** Chains that are equal outside the current scope. */
  ghost predicate SameOuter(c: Chain, d: Chain) {
    0 < |c| == |d| && c[..|c| - 1] == d[..|d| - 1]
  }

  /** An expression that assigns nothing leaves the chain exactly as it found it. */
  lemma {:induction false} EvalKeepsChain(h: Host, e: Expr, c: Chain)
    requires AssignsNothing(e) && Eval(h, e, c).Success?
    ensures Eval(h, e, c).value.scopes == c
    decreases e
  {
    match e
    case Grouping(inner) => EvalKeepsChain(h, inner, c);
    case Call(callee, args) =>
      EvalKeepsChain(h, callee, c);
      ArgsKeepChain(h, args, c);
    case Unary(_, right) => EvalKeepsChain(h, right, c);
    case Logical(left, op, right) =>
      EvalKeepsChain(h, left, c);
      var o := Eval(h, left, c).value;
      if (op == OR) != Truthy(o.value) {
        EvalKeepsChain(h, right, c);
      }
    case Binary(left, _, right) =>
      EvalKeepsChain(h, left, c);
      EvalKeepsChain(h, right, c);
    case _ =>
  }

  /** Arguments that assign nothing leave the chain exactly as they found it. */
  lemma {:induction false} ArgsKeepChain(h: Host, args: seq<Expr>, c: Chain)
    requires ArgsAssignNothing(args) && EvalArgs(h, args, c).Success?
    ensures EvalArgs(h, args, c).value.1 == c
    decreases args
  {
    if |args| > 0 {
      ArgsKeepChain(h, args[..|args| - 1], c);
      EvalKeepsChain(h, args[|args| - 1], c);
    }
  }

  /**
   * A statement that assigns nothing changes at most the current scope:
   * every enclosing scope, keys and values, is as it was.
   */
  lemma {:induction false} ExecKeepsOuter(h: Host, fuel: nat, s: Stmt, st: State)
    requires |st.scopes| > 0 && StmtAssignsNothing(s) && Exec(h, fuel, s, st).Success?
    ensures SameOuter(st.scopes, Exec(h, fuel, s, st).value.scopes)
    decreases fuel, s, 1
  {
    match s
    case ExpressionStatement(e) => EvalKeepsChain(h, e, st.scopes);
    case PrintStatement(e) => EvalKeepsChain(h, e, st.scopes);
    case LetStatement(name, init) =>
      if init != Literal(Nil) {
        EvalKeepsChain(h, init, st.scopes);
      }
    case BlockStatement(body) => BlockKeepsChain(h, fuel, body, st);
    case IfStatement(cond, thenBranch, elseBranch) =>
      EvalKeepsChain(h, cond, st.scopes);
      var o := Eval(h, cond, st.scopes).value;
      if Truthy(o.value) {
        ExecKeepsOuter(h, fuel, thenBranch, State(o.scopes, st.out));
      } else if elseBranch.Some? {
        ExecKeepsOuter(h, fuel, elseBranch.value, State(o.scopes, st.out));
      }
    case WhileStatement(cond, loopBody) => LoopKeepsOuter(h, fuel, cond, loopBody, st);
  }

  /**
   * A block of statements that assign nothing gives back exactly the chain
   * it started from: what it defined is gone, and nothing outside it changed.
   */
  lemma {:induction false} BlockKeepsChain(h: Host, fuel: nat, body: seq<Stmt>, st: State)
    requires |st.scopes| > 0 && SeqAssignsNothing(body) && ExecBlock(h, fuel, body, st).Success?
    ensures ExecBlock(h, fuel, body, st).value.scopes == st.scopes
    decreases fuel, BlockStatement(body), 0
  {
    var pushed := State(st.scopes + [map[]], st.out);
    SeqKeepsOuter(h, fuel, body, pushed);
    assert pushed.scopes[..|pushed.scopes| - 1] == st.scopes;
  }

  /** A loop whose condition and body assign nothing changes at most the current scope. */
  lemma {:induction false} LoopKeepsOuter(h: Host, fuel: nat, cond: Expr, loopBody: Stmt, st: State)
    requires |st.scopes| > 0 && AssignsNothing(cond) && StmtAssignsNothing(loopBody)
    requires ExecWhile(h, fuel, cond, loopBody, st).Success?
    ensures SameOuter(st.scopes, ExecWhile(h, fuel, cond, loopBody, st).value.scopes)
    decreases fuel, WhileStatement(cond, loopBody), 0
  {
    EvalKeepsChain(h, cond, st.scopes);
    var o := Eval(h, cond, st.scopes).value;
    if Truthy(o.value) {
      WhileTurn(h, fuel, cond, loopBody, st, o);
      var next := Exec(h, fuel, loopBody, State(o.scopes, st.out));
      ExecKeepsOuter(h, fuel, loopBody, State(o.scopes, st.out));
      LoopKeepsOuter(h, Spent(fuel), cond, loopBody, next.value);
    }
  }

  /** Statements that assign nothing, run in order, change at most the current scope. */
  lemma {:induction false} SeqKeepsOuter(h: Host, fuel: nat, ss: seq<Stmt>, st: State)
    requires |st.scopes| > 0 && SeqAssignsNothing(ss) && ExecSeq(h, fuel, ss, st).Success?
    ensures SameOuter(st.scopes, ExecSeq(h, fuel, ss, st).value.scopes)
    decreases fuel, ss, 2
  {
    if |ss| > 0 {
      var first := Exec(h, fuel, ss[0], st);
      ExecKeepsOuter(h, fuel, ss[0], st);
      SeqKeepsOuter(h, fuel, ss[1..], first.value);
    }
  }

  /**
   * `let a = 1; { let a = 2; } print a;` prints 1: the inner `let` binds
   * `a` in the block's own scope, which is dropped with the block.
   */
  lemma ShadowedNameRestored(h: Host, fuel: nat, a: Token)
    requires a.lexeme == "a"
    ensures
      ExecSeq(h, fuel,
        [ LetStatement(a, Literal(Number(1.0))),
          BlockStatement([LetStatement(a, Literal(Number(2.0)))]),
          PrintStatement(Variable(a)) ],
        State([map[]], []))
      == Success(State([map["a" := Num(1.0)]], [Printed(Num(1.0))]))
  {
    var outer := [map["a" := Num(1.0)]];
    var first := LetStatement(a, Literal(Number(1.0)));
    var block := BlockStatement([LetStatement(a, Literal(Number(2.0)))]);
    var show := PrintStatement(Variable(a));
    LetOnEmpty(h, fuel, a, 1.0, [map[]]);
    InnerLetDropped(h, fuel, a, outer);
    PrintBound(h, fuel, a, outer);
    var start := State([map[]], []);
    var bound := State(outer, []);
    var printed := State(outer, [Printed(Num(1.0))]);
    assert ExecSeq(h, fuel, [show], bound) == Success(printed) by {
      assert [show][1..] == [];
    }
    assert ExecSeq(h, fuel, [block, show], bound) == Success(printed) by {
      assert [block, show][1..] == [show];
    }
    assert ExecSeq(h, fuel, [first, block, show], start) == Success(printed) by {
      assert [first, block, show][1..] == [block, show];
    }
  }

  /** `let a = n;` in a single scope binds `a` to `n` there. */
  lemma LetOnEmpty(h: Host, fuel: nat, a: Token, n: real, c: Chain)
    requires c == [map[]]
    ensures Exec(h, fuel, LetStatement(a, Literal(Number(n))), State(c, []))
      == Success(State([map[a.lexeme := Num(n)]], []))
  {
    assert DefineIn(c, a.lexeme, Num(n)) == [map[a.lexeme := Num(n)]];
  }

  /** A block holding only `let a = 2;` leaves the chain and the output as they were. */
  lemma InnerLetDropped(h: Host, fuel: nat, a: Token, c: Chain)
    requires |c| > 0
    ensures Exec(h, fuel, BlockStatement([LetStatement(a, Literal(Number(2.0)))]), State(c, []))
      == Success(State(c, []))
  {
    var inner := LetStatement(a, Literal(Number(2.0)));
    var pushed := State(c + [map[]], []);
    var defined := DefineIn(c + [map[]], a.lexeme, Num(2.0));
    assert Exec(h, fuel, inner, pushed) == Success(State(defined, []));
    assert ExecSeq(h, fuel, [inner], pushed) == Success(State(defined, []));
    assert defined[..|defined| - 1] == c;
  }

  /** `print a;` on a chain binding `a` to 1 prints 1. */
  lemma PrintBound(h: Host, fuel: nat, a: Token, c: Chain)
    requires c == [map[a.lexeme := Num(1.0)]]
    ensures Exec(h, fuel, PrintStatement(Variable(a)), State(c, []))
      == Success(State(c, [Printed(Num(1.0))]))
  {
    assert a.lexeme in c[|c| - 1];
    assert Lookup(c, a.lexeme) == Success(Num(1.0));
    assert Eval(h, Variable(a), c) == Success(Outcome(Num(1.0), c));
    var empty: seq<Output> := [];
    assert empty + [Printed(Num(1.0))] == [Printed(Num(1.0))];
  }
}
