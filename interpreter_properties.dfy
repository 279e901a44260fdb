/**
 * What the evaluator promises: truthiness, short-circuiting, assignment and
 * postfix updates, block scoping, the typing of the operators, and that the
 * iteration bound given to `while` only ever cuts a run short.
 */
module InterpreterProperties {
  import opened Wrappers
  import opened Tokens
  import opened Ast
  import opened Environment
  import opened EnvironmentProperties
  import opened Interpreter

  /** Only `nil` and `false` are falsy; `0`, `""` and callables are truthy. */
  lemma FalsyValues(v: Value)
    ensures !Truthy(v) <==> v == Basic(Nil) || v == Basic(Bool(false))
  {
  }

  /**
   * `||` with a truthy left operand and `&&` with a falsy one yield the left
   * operand's value and chain: the right operand is not evaluated.
   */
  lemma ShortCircuit(h: Host, left: Expr, op: TokenKind, right: Expr, c: Chain)
    requires Eval(h, left, c).Success?
    requires (op == OR) == Truthy(Eval(h, left, c).value.value)
    ensures Eval(h, Logical(left, op, right), c) == Eval(h, left, c)
  {
  }

  /** Otherwise a logical expression is its right operand, evaluated after the left. */
  lemma LogicalOtherwiseRight(h: Host, left: Expr, op: TokenKind, right: Expr, c: Chain)
    requires Eval(h, left, c).Success?
    requires (op == OR) != Truthy(Eval(h, left, c).value.value)
    ensures Eval(h, Logical(left, op, right), c) == Eval(h, right, Eval(h, left, c).value.scopes)
  {
  }

  /**
   * An assignment yields the value it assigns; afterwards `get` of the name
   * returns it, and every other name reads as it did once the right-hand
   * side was evaluated.
   */
  lemma AssignmentYieldsItsValue(h: Host, name: Token, value: Expr, c: Chain, other: string)
    requires Eval(h, Assignment(name, value), c).Success?
    requires other != name.lexeme
    ensures Eval(h, value, c).Success?
    ensures Eval(h, Assignment(name, value), c).value.value == Eval(h, value, c).value.value
    ensures Lookup(Eval(h, Assignment(name, value), c).value.scopes, name.lexeme) == Success(Eval(h, value, c).value.value)
    ensures Lookup(Eval(h, Assignment(name, value), c).value.scopes, other) == Lookup(Eval(h, value, c).value.scopes, other)
  {
    var o := Eval(h, value, c).value;
    GetAfterAssign(o.scopes, name.lexeme, o.value);
    AssignKeepsOtherNames(o.scopes, name.lexeme, o.value, other);
  }

  /** Assigning a name bound nowhere is an error. */
  lemma AssignmentToUnboundFails(h: Host, name: Token, value: Expr, c: Chain)
    requires Eval(h, value, c).Success? && Lookup(Eval(h, value, c).value.scopes, name.lexeme).Failure?
    ensures Eval(h, Assignment(name, value), c) == Failure(Unbound(NotDefinedInAssign(name.lexeme)))
  {
  }

  /**
   * `x++` and `x--` on a variable bound to a number yield that number and
   * rebind the variable one up or one down.
   */
  lemma PostfixSteps(op: TokenKind, t: Token, c: Chain, n: real)
    requires op == INCREMENTOR || op == DECREMENTOR
    requires Lookup(c, t.lexeme) == Success(Num(n))
    ensures EvalPostfix(op, Variable(t), c).Success?
    ensures EvalPostfix(op, Variable(t), c).value.value == Num(n)
    ensures Lookup(EvalPostfix(op, Variable(t), c).value.scopes, t.lexeme)
      == Success(Num(if op == INCREMENTOR then n + 1.0 else n - 1.0))
  {
    var m := Num(if op == INCREMENTOR then n + 1.0 else n - 1.0);
    PostfixOutcome(op, t, c, n);
    GetAfterAssign(c, t.lexeme, m);
  }

  /** The outcome of `x++` or `x--` on a number `n`: the value `n`, on the chain `assign` leaves. */
  lemma PostfixOutcome(op: TokenKind, t: Token, c: Chain, n: real)
    requires op == INCREMENTOR || op == DECREMENTOR
    requires Lookup(c, t.lexeme) == Success(Num(n))
    ensures var m := Num(if op == INCREMENTOR then n + 1.0 else n - 1.0);
      AssignIn(c, t.lexeme, m).Success? &&
      EvalPostfix(op, Variable(t), c) == Success(Outcome(Num(n), AssignIn(c, t.lexeme, m).value))
  {
    var v := Num(n);
    var m := Num(if op == INCREMENTOR then n + 1.0 else n - 1.0);
    assert m == Num(if op == INCREMENTOR then v.a.n + 1.0 else v.a.n - 1.0);
    assert EvalPostfix(op, Variable(t), c) == Rebind(c, t.lexeme, m, v) by {
      PostfixUnfolds(op, t, c, v);
    }
    RebindBound(c, t.lexeme, m, v);
  }

  /** Postfix on anything but a bound numeric variable is an error and binds nothing. */
  lemma PostfixRejects(op: TokenKind, operand: Expr, c: Chain)
    requires !operand.Variable? || Lookup(c, operand.name.lexeme).Failure?
      || !(Lookup(c, operand.name.lexeme).value.Basic? && Lookup(c, operand.name.lexeme).value.a.Number?)
      || (op != INCREMENTOR && op != DECREMENTOR)
    ensures EvalPostfix(op, operand, c).Failure?
    ensures !operand.Variable? ==> EvalPostfix(op, operand, c).error == InvalidPostfixTarget
  {
  }

  /**
   * After a block, the chain has as many scopes as before, each binding
   * exactly the names it bound before: the names the block defined are gone.
   */
  lemma BlockDiscardsItsNames(h: Host, fuel: nat, body: seq<Stmt>, st: State)
    requires |st.scopes| > 0 && Exec(h, fuel, BlockStatement(body), st).Success?
    ensures SameKeys(st.scopes, Exec(h, fuel, BlockStatement(body), st).value.scopes)
  {
    var inner := ExecSeq(h, fuel, body, State(st.scopes + [map[]], st.out)).value;
    var n := |st.scopes|;
    assert SameOuterKeys(st.scopes + [map[]], inner.scopes);
    forall i | 0 <= i < n
      ensures st.scopes[i].Keys == inner.scopes[..n][i].Keys
    {
      assert (st.scopes + [map[]])[i] == st.scopes[i];
    }
  }

  /** `let` binds its name, in the current scope, to its initializer's value; `let x;` binds `nil`. */
  lemma LetBindsItsValue(h: Host, fuel: nat, name: Token, init: Expr, st: State)
    requires |st.scopes| > 0 && Exec(h, fuel, LetStatement(name, init), st).Success?
    ensures Eval(h, init, st.scopes).Success?
    ensures Lookup(Exec(h, fuel, LetStatement(name, init), st).value.scopes, name.lexeme)
      == Success(Eval(h, init, st.scopes).value.value)
  {
  }

  /** A `print` appends the value printed to the console and leaves earlier lines alone. */
  lemma PrintAppends(h: Host, fuel: nat, e: Expr, st: State)
    requires |st.scopes| > 0 && Eval(h, e, st.scopes).Success?
    ensures Exec(h, fuel, PrintStatement(e), st) ==
      Success(State(Eval(h, e, st.scopes).value.scopes, st.out + [Printed(Eval(h, e, st.scopes).value.value)]))
  {
  }

  /**
   * `+`: two numbers add, two strings concatenate, a string and a number
   * give the number's text followed by the string whichever side the number
   * is on, and every other pairing is an error.
   */
  lemma PlusCases(h: Host, a: Value, b: Value)
    ensures a.Basic? && b.Basic? && a.a.Number? && b.a.Number? ==> ApplyBinary(h, PLUS, a, b) == Success(Num(a.a.n + b.a.n))
    ensures a.Basic? && b.Basic? && a.a.String? && b.a.String? ==>
      ApplyBinary(h, PLUS, a, b) == Success(Basic(String(a.a.s + b.a.s)))
    ensures a.Basic? && b.Basic? && a.a.String? && b.a.Number? ==>
      ApplyBinary(h, PLUS, a, b) == ApplyBinary(h, PLUS, b, a) == Success(Basic(String(h.numText(b.a.n) + a.a.s)))
    ensures !(a.Basic? && b.Basic? && (a.a.Number? || a.a.String?) && (b.a.Number? || b.a.String?)) ==>
      ApplyBinary(h, PLUS, a, b) == Failure(OperandsNumbersOrStrings)
  {
  }

  /** `/` by zero is an error whatever the numerator; other divisors give the quotient. */
  lemma DivisionByZeroFails(h: Host, x: real, y: real)
    ensures ApplyBinary(h, SLASH, Num(x), Num(y)) == if y == 0.0 then Failure(DivisionByZero) else Success(Num(x / y))
  {
  }

  /** Through `ApplyBinary`, on two numbers `-`, `*` and `%` give the difference, the product and the remainder. */
  lemma ArithmeticOperators(h: Host, x: real, y: real)
    ensures ApplyBinary(h, MINUS, Num(x), Num(y)) == Success(Num(x - y))
    ensures ApplyBinary(h, STAR, Num(x), Num(y)) == Success(Num(x * y))
    ensures ApplyBinary(h, MODULO, Num(x), Num(y)) == Success(Num(Rem(h, x, y)))
  {
    var product := ApplyBinary(h, STAR, Num(x), Num(y));
    assert product == Arithmetic(h, STAR, Num(x), Num(y));
    assert product.value == Num(x * y);
  }

  /** Through `ApplyBinary`, on two numbers `>`, `>=`, `<` and `<=` give the outcome of the comparison. */
  lemma ComparisonOperators(h: Host, x: real, y: real)
    ensures ApplyBinary(h, GREATER, Num(x), Num(y)) == Success(BoolValue(x > y))
    ensures ApplyBinary(h, GREATEREQUAL, Num(x), Num(y)) == Success(BoolValue(x >= y))
    ensures ApplyBinary(h, LESS, Num(x), Num(y)) == Success(BoolValue(x < y))
    ensures ApplyBinary(h, LESSEQUAL, Num(x), Num(y)) == Success(BoolValue(x <= y))
  {
  }

  /** `-`, `*`, `%`, `/` and the comparisons fail unless both operands are numbers. */
  lemma NumericOperatorsNeedNumbers(h: Host, op: TokenKind, a: Value, b: Value)
    requires op in {MINUS, STAR, MODULO, SLASH, GREATER, GREATEREQUAL, LESS, LESSEQUAL}
    requires !(a.Basic? && a.a.Number? && b.Basic? && b.a.Number?)
    ensures ApplyBinary(h, op, a, b) == Failure(OperandsMustBeNumbers)
  {
  }

  /**
   * `!=` is the negation of `==`, which is structural equality of atomic
   * values (so `"1" == 1` is false); comparing a callable is an error.
   */
  lemma EqualityOperators(h: Host, a: Value, b: Value)
    ensures a.Basic? && b.Basic? ==>
      ApplyBinary(h, EQUALEQUAL, a, b) == Success(BoolValue(a == b)) &&
      ApplyBinary(h, BANGEQUAL, a, b) == Success(BoolValue(a != b))
    ensures !(a.Basic? && b.Basic?) ==>
      ApplyBinary(h, EQUALEQUAL, a, b) == ApplyBinary(h, BANGEQUAL, a, b) == Failure(CompareCallables)
  {
  }

  /**
   * The remainder of a non-zero divisor: the dividend less a whole number
   * of divisors, smaller than the divisor in magnitude and never of the
   * opposite sign to the dividend.
   */
  lemma RemainderBounds(h: Host, a: real, b: real)
    requires b != 0.0
    ensures a == b * Trunc(a / b) as real + Rem(h, a, b)
    ensures -Abs(b) < Rem(h, a, b) < Abs(b)
    ensures a >= 0.0 ==> Rem(h, a, b) >= 0.0
    ensures a <= 0.0 ==> Rem(h, a, b) <= 0.0
  {
    var q := a / b;
    var f := q - Trunc(q) as real;
    RemIsScaledFraction(h, a, b);
    assert a == b * q;
    ScaledFraction(b, f);
    SameSign(b, q, f);
  }

  function Abs(x: real): real { if x < 0.0 then -x else x }

  lemma RemIsScaledFraction(h: Host, a: real, b: real)
    requires b != 0.0
    ensures Rem(h, a, b) == b * (a / b - Trunc(a / b) as real)
  {
    var t := Trunc(a / b) as real;
    calc {
      b * (a / b - t);
    ==
      b * (a / b) - b * t;
    ==
      a - b * t;
    }
  }

  /** `b` times a fraction below one in magnitude stays below `b` in magnitude. */
  lemma ScaledFraction(b: real, f: real)
    requires b != 0.0 && -1.0 < f < 1.0
    ensures -Abs(b) < b * f < Abs(b)
  {
    if b > 0.0 {
      ProductBound(b, f);
    } else {
      NegativeProductBound(b, f);
      assert -Abs(b) == b;
    }
  }
  /** Scaling by `b` keeps `f` on the side of zero that it keeps `q` on. */
  lemma SameSign(b: real, q: real, f: real)
    requires b != 0.0
    requires q >= 0.0 ==> f >= 0.0
    requires q <= 0.0 ==> f <= 0.0
    ensures b * q >= 0.0 ==> b * f >= 0.0
    ensures b * q <= 0.0 ==> b * f <= 0.0
  {
    if b > 0.0 {
      assert b * q >= 0.0 <==> q >= 0.0;
      assert b * q <= 0.0 <==> q <= 0.0;
    } else {
      assert b * q >= 0.0 <==> q <= 0.0;
      assert b * q <= 0.0 <==> q >= 0.0;
    }
  }
  lemma NegativeProductBound(b: real, f: real)
    requires b < 0.0 && -1.0 < f < 1.0
    ensures b < b * f < -b
  {
  }
  lemma ProductBound(b: real, f: real)
    requires b > 0.0 && -1.0 < f < 1.0
    ensures -b < b * f < b
  {
  }
}
