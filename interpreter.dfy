/**
 * The tree-walking evaluator. `Eval` and `Exec` say what evaluating an
 * expression and executing a statement do to a scope chain and to the
 * console; the `Interpreter` class below does the same with its `storage`
 * updated in place, as the source does, and is proved to agree with them.
 *
 * What the evaluator cannot see is a parameter (`Host`): the text of a
 * number, the behaviour of a callable, and the float remainder by zero.
 * Every `panic!` of the source is a `Failure` naming the panic.
 */
module Interpreter {
  import opened Wrappers
  import opened Tokens
  import opened Ast
  import opened Environment

  /** What the evaluator leaves to the platform and to code not modelled. */
  datatype Host = Host(
    numText: real -> string,              // `f32::to_string`
    call: (nat, seq<Value>) -> Value,     // invoking the callable with this identity
    zeroRem: real -> real)                // `a % 0.0` (NaN for `f32`)

  datatype RuntimeError =
    | Unbound(cause: EnvError)            // `get` or `assign` of a name bound nowhere
    | NotCallable                         // "should not reach here"
    | InvalidPostfixTarget                // "Parser should not ever reach this"
    | PostfixNotNumber                    // "++ / -- only allowed on numbers"
    | OperandMustBeNumber                 // "Operand must be a number."
    | UnknownUnary                        // `unreachable!()`
    | OperandsNumbersOrStrings            // "Operands must be two numbers or two strings."
    | OperandsMustBeNumbers               // "Operands must be numbers."
    | DivisionByZero                      // "Division by zero."
    | CompareCallables                    // "not possible to compare callables"
    | OutOfFuel                           // a `while` ran past the iteration bound

  /** A line on the console: the fixed line of an expression statement, or a printed value. */
  datatype Output = ExprDone | Printed(v: Value)

  /** The value of an expression and the chain its assignments left behind. */
  datatype Outcome = Outcome(value: Value, scopes: Chain)

  /** What statements act on: the scope chain and the console so far. */
  datatype State = State(scopes: Chain, out: seq<Output>)

  /** `is_truthy`: `nil` and `false` are falsy, every other value (`0`, `""` and callables too) truthy. */
  predicate Truthy(v: Value) {
    match v
    case Basic(Nil) => false
    case Basic(Bool(false)) => false
    case _ => true
  }

  /** `is_equal`: structural equality on atomic values; a callable cannot be compared. */
  function IsEqual(a: Value, b: Value): (r: Result<bool, RuntimeError>)
    ensures r.Success? <==> a.Basic? && b.Basic?
    ensures r.Failure? ==> r.error == CompareCallables
    ensures r.Success? ==> (r.value <==> a == b)
  {
    match (a, b)
    case (Basic(x), Basic(y)) => Success(x == y)
    case _ => Failure(CompareCallables)
  }

  /** Rounding toward zero, as `f32` division and remainder do. */
  function Trunc(x: real): (r: int)
    ensures x >= 0.0 ==> 0.0 <= r as real <= x && x - 1.0 < r as real
    ensures x < 0.0 ==> x <= r as real <= 0.0 && r as real < x + 1.0
  {
    if x >= 0.0 then x.Floor else -((-x).Floor)
  }

  /** The float remainder `a % b`: what is left after taking `b` away a whole number of times, toward zero. */
  function Rem(h: Host, a: real, b: real): real {
    if b == 0.0 then h.zeroRem(a) else a - b * Trunc(a / b) as real
  }

  function Num(n: real): Value { Basic(Number(n)) }

  function BoolValue(b: bool): Value { Basic(Bool(b)) }

  /** Both operands are numbers. */
  predicate Numbers(a: Value, b: Value) {
    a.Basic? && a.a.Number? && b.Basic? && b.a.Number?
  }

  /**
   * The arithmetic operators, `-`, `*`, `%` and `/`: both operands must be
   * numbers, and a divisor of zero is an error for `/` only. The result is
   * the number that added to the right operand gives the left one, the
   * product, the remainder, or the number that times the divisor gives the
   * dividend.
   */
  function Arithmetic(h: Host, op: TokenKind, a: Value, b: Value): (r: Result<Value, RuntimeError>)
    requires op in {MINUS, STAR, MODULO, SLASH}
    ensures !Numbers(a, b) ==> r == Failure(OperandsMustBeNumbers)
    ensures Numbers(a, b) ==> (r.Failure? <==> op == SLASH && b.a.n == 0.0)
    ensures Numbers(a, b) && r.Failure? ==> r.error == DivisionByZero
    ensures r.Success? ==> r.value.Basic? && r.value.a.Number?
    ensures Numbers(a, b) && r.Success? && op == MINUS ==> r.value.a.n + b.a.n == a.a.n
    ensures Numbers(a, b) && r.Success? && op == STAR ==> r.value.a.n == a.a.n * b.a.n
    ensures Numbers(a, b) && r.Success? && op == MODULO ==> r.value.a.n == Rem(h, a.a.n, b.a.n)
    ensures Numbers(a, b) && r.Success? && op == SLASH ==> r.value.a.n * b.a.n == a.a.n
  {
    match (a, b)
    case (Basic(Number(x)), Basic(Number(y))) =>
      if op == MINUS then Success(Num(x - y))
      else if op == STAR then Success(Num(x * y))
      else if op == MODULO then Success(Num(Rem(h, x, y)))
      else if y == 0.0 then Failure(DivisionByZero)
      else Success(Num(x / y))
    case _ => Failure(OperandsMustBeNumbers)
  }

  /** `>`, `>=`, `<`, `<=`: two numbers, compared; the Bool is true exactly when the comparison holds. */
  function Comparison(op: TokenKind, a: Value, b: Value): (r: Result<Value, RuntimeError>)
    requires op in {GREATER, GREATEREQUAL, LESS, LESSEQUAL}
    ensures r.Success? <==> Numbers(a, b)
    ensures r.Failure? ==> r.error == OperandsMustBeNumbers
    ensures r.Success? ==> r.value.Basic? && r.value.a.Bool?
    ensures r.Success? ==> (r.value.a.b <==>
      (op == GREATER && a.a.n > b.a.n) || (op == GREATEREQUAL && a.a.n >= b.a.n) ||
      (op == LESS && a.a.n < b.a.n) || (op == LESSEQUAL && a.a.n <= b.a.n))
  {
    match (a, b)
    case (Basic(Number(x)), Basic(Number(y))) =>
      Success(BoolValue(
        if op == GREATER then x > y
        else if op == GREATEREQUAL then x >= y
        else if op == LESS then x < y
        else x <= y))
    case _ => Failure(OperandsMustBeNumbers)
  }

  /**
   * `+`: a sum of numbers, a concatenation of strings, and for a string and
   * a number in either order the number's text followed by the string.
   */
  function Plus(h: Host, a: Value, b: Value): (r: Result<Value, RuntimeError>)
    ensures r.Failure? ==> r.error == OperandsNumbersOrStrings
    ensures r.Success? ==> r.value.Basic? && (r.value.a.Number? || r.value.a.String?)
  {
    match (a, b)
    case (Basic(Number(x)), Basic(Number(y))) => Success(Num(x + y))
    case (Basic(String(x)), Basic(String(y))) => Success(Basic(String(x + y)))
    case (Basic(String(x)), Basic(Number(y))) => Success(Basic(String(h.numText(y) + x)))
    case (Basic(Number(x)), Basic(String(y))) => Success(Basic(String(h.numText(x) + y)))
    case _ => Failure(OperandsNumbersOrStrings)
  }

  /** A binary operator applied to the values of its two operands. */
  function ApplyBinary(h: Host, op: TokenKind, a: Value, b: Value): (r: Result<Value, RuntimeError>)
    ensures op in {GREATER, GREATEREQUAL, LESS, LESSEQUAL, EQUALEQUAL, BANGEQUAL} && r.Success? ==>
      r.value.Basic? && r.value.a.Bool?
    ensures op !in {PLUS, MINUS, STAR, MODULO, SLASH, GREATER, GREATEREQUAL, LESS, LESSEQUAL, EQUALEQUAL, BANGEQUAL} ==>
      r == Success(Basic(Nil))
  {
    if op == PLUS then Plus(h, a, b)
    else if op in {MINUS, STAR, MODULO, SLASH} then Arithmetic(h, op, a, b)
    else if op in {GREATER, GREATEREQUAL, LESS, LESSEQUAL} then Comparison(op, a, b)
    else if op == EQUALEQUAL || op == BANGEQUAL then
      match IsEqual(a, b)
      case Failure(e) => Failure(e)
      case Success(eq) => Success(BoolValue(if op == EQUALEQUAL then eq else !eq))
    else Success(Basic(Nil))
  }

  /** `-` on a number negates it; `!` gives the value's falsity. */
  function ApplyUnary(op: TokenKind, v: Value): (r: Result<Value, RuntimeError>)
    ensures op == BANG ==> r == Success(BoolValue(!Truthy(v)))
    ensures op == MINUS ==> (r.Success? <==> v.Basic? && v.a.Number?)
    ensures op == MINUS && r.Success? ==> r.value == Num(-v.a.n)
    ensures op != BANG && op != MINUS ==> r == Failure(UnknownUnary)
  {
    if op == MINUS then
      if v.Basic? && v.a.Number? then Success(Num(-v.a.n)) else Failure(OperandMustBeNumber)
    else if op == BANG then Success(BoolValue(!Truthy(v)))
    else Failure(UnknownUnary)
  }

  /**
   * `evaluate`: the value of `e` on chain `c`, and the chain as its
   * assignments and postfix updates leave it. Operands are evaluated left to
   * right, each on the chain the previous one left. No evaluation creates or
   * removes a binding.
   */
  function Eval(h: Host, e: Expr, c: Chain): (r: Result<Outcome, RuntimeError>)
    ensures r.Success? ==> SameKeys(c, r.value.scopes)
    decreases e
  {
    match e
    case Literal(a) => Success(Outcome(Basic(a), c))
    case Grouping(inner) => Eval(h, inner, c)
    case Variable(name) =>
      (match Lookup(c, name.lexeme)
      case Failure(err) => Failure(Unbound(err))
      case Success(v) => Success(Outcome(v, c)))
    case Assignment(name, value) =>
      (match Eval(h, value, c)
      case Failure(err) => Failure(err)
      case Success(o) => Rebind(o.scopes, name.lexeme, o.value, o.value))
    case Call(callee, args) =>
      (match Eval(h, callee, c)
      case Failure(err) => Failure(err)
      case Success(f) =>
        match EvalArgs(h, args, f.scopes)
        case Failure(err) => Failure(err)
        case Success((vs, d)) =>
          if f.value.LoxCallable? then Success(Outcome(h.call(f.value.id, vs), d))
          else Failure(NotCallable))
    case Postfix(op, operand) => EvalPostfix(op, operand, c)
    case Unary(op, right) =>
      (match Eval(h, right, c)
      case Failure(err) => Failure(err)
      case Success(o) =>
        match ApplyUnary(op, o.value)
        case Failure(err) => Failure(err)
        case Success(v) => Success(Outcome(v, o.scopes)))
    case Logical(left, op, right) =>
      (match Eval(h, left, c)
      case Failure(err) => Failure(err)
      case Success(o) =>
        if (op == OR) == Truthy(o.value) then Success(o)
        else Eval(h, right, o.scopes))
    case Binary(left, op, right) =>
      (match Eval(h, left, c)
      case Failure(err) => Failure(err)
      case Success(l) =>
        match Eval(h, right, l.scopes)
        case Failure(err) => Failure(err)
        case Success(r) =>
          match ApplyBinary(h, op, l.value, r.value)
          case Failure(err) => Failure(err)
          case Success(v) => Success(Outcome(v, r.scopes)))
  }

  /**
   * Postfix `++`/`--`: only on a variable, and only when it holds a number,
   * which is rebound one up or down; the value is the number before.
   */
  function EvalPostfix(op: TokenKind, operand: Expr, c: Chain): (r: Result<Outcome, RuntimeError>)
    ensures r.Success? ==> SameKeys(c, r.value.scopes)
  {
    if !operand.Variable? then Failure(InvalidPostfixTarget)
    else
      var name := operand.name.lexeme;
      match Lookup(c, name)
      case Failure(err) => Failure(Unbound(err))
      case Success(v) =>
        if v.Basic? && v.a.Number? && (op == INCREMENTOR || op == DECREMENTOR) then
          var n := v.a.n;
          Rebind(c, name, Num(if op == INCREMENTOR then n + 1.0 else n - 1.0), v)
        else Failure(PostfixNotNumber)
  }

  /** On a variable bound to a number, postfix is the `assign` of the number one up or one down. */
  lemma PostfixUnfolds(op: TokenKind, t: Token, c: Chain, v: Value)
    requires op == INCREMENTOR || op == DECREMENTOR
    requires Lookup(c, t.lexeme) == Success(v) && v.Basic? && v.a.Number?
    ensures EvalPostfix(op, Variable(t), c)
      == Rebind(c, t.lexeme, Num(if op == INCREMENTOR then v.a.n + 1.0 else v.a.n - 1.0), v)
  {
  }

  /** `assign` of a bound name succeeds, on the chain `assign` leaves. */
  lemma RebindBound(c: Chain, name: string, v: Value, result: Value)
    requires Lookup(c, name).Success?
    ensures AssignIn(c, name, v).Success?
    ensures Rebind(c, name, v, result) == Success(Outcome(result, AssignIn(c, name, v).value))
  {
  }

  /** `assign(name, v)` on chain `c`, the expression's value being `result`. */
  function Rebind(c: Chain, name: string, v: Value, result: Value): (r: Result<Outcome, RuntimeError>)
    ensures r.Success? ==> SameKeys(c, r.value.scopes) && r.value.value == result
  {
    match AssignIn(c, name, v)
    case Failure(err) => Failure(Unbound(err))
    case Success(d) =>
      assert SameKeys(c, d) by {
        forall i | 0 <= i < |c|
          ensures c[i].Keys == d[i].Keys
        {
          if NearestAt(c, name, i) {
            assert name in c[i];
          }
        }
      }
      Success(Outcome(result, d))
  }

  /** The arguments of a call, left to right, threading the chain through. */
  function EvalArgs(h: Host, args: seq<Expr>, c: Chain): (r: Result<(seq<Value>, Chain), RuntimeError>)
    ensures r.Success? ==> |r.value.0| == |args| && SameKeys(c, r.value.1)
    decreases args
  {
    if |args| == 0 then Success(([], c))
    else
      match EvalArgs(h, args[..|args| - 1], c)
      case Failure(err) => Failure(err)
      case Success((vs, d)) =>
        match Eval(h, args[|args| - 1], d)
        case Failure(err) => Failure(err)
        case Success(o) => Success((vs + [o.value], o.scopes))
  }

  /**
   * Chains that agree on everything outside the current scope: the same
   * number of scopes, each enclosing scope binding the same names. This is
   * what executing a statement keeps.
   */
  ghost predicate SameOuterKeys(c: Chain, d: Chain) {
    |c| == |d| && forall i :: 0 <= i < |c| - 1 ==> c[i].Keys == d[i].Keys
  }

  /**
   * `evaluate_statement`. A `while` may run for ever: each of its
   * iterations spends one unit of `fuel`, and a loop that would need more
   * fails with `OutOfFuel`.
   */
  function Exec(h: Host, fuel: nat, s: Stmt, st: State): (r: Result<State, RuntimeError>)
    requires |st.scopes| > 0
    ensures r.Success? ==> SameOuterKeys(st.scopes, r.value.scopes)
    decreases fuel, s, 1
  {
    match s
    case ExpressionStatement(e) =>
      (match Eval(h, e, st.scopes)
      case Failure(err) => Failure(err)
      case Success(o) => Success(State(o.scopes, st.out + [ExprDone])))
    case PrintStatement(e) =>
      (match Eval(h, e, st.scopes)
      case Failure(err) => Failure(err)
      case Success(o) => Success(State(o.scopes, st.out + [Printed(o.value)])))
    case LetStatement(name, init) =>
      if init == Literal(Nil) then Success(State(DefineIn(st.scopes, name.lexeme, Basic(Nil)), st.out))
      else
        (match Eval(h, init, st.scopes)
        case Failure(err) => Failure(err)
        case Success(o) => Success(State(DefineIn(o.scopes, name.lexeme, o.value), st.out)))
    case BlockStatement(body) => ExecBlock(h, fuel, body, st)
    case IfStatement(cond, thenBranch, elseBranch) => ExecIf(h, fuel, cond, thenBranch, elseBranch, st)
    case WhileStatement(cond, loopBody) => ExecWhile(h, fuel, cond, loopBody, st)
  }

  /** `evaluate_blocks`: the statements run in a new innermost scope, which is dropped afterwards. */
  function ExecBlock(h: Host, fuel: nat, body: seq<Stmt>, st: State): (r: Result<State, RuntimeError>)
    requires |st.scopes| > 0
    ensures r.Success? ==> SameOuterKeys(st.scopes, r.value.scopes)
    decreases fuel, BlockStatement(body), 0
  {
    match ExecSeq(h, fuel, body, State(st.scopes + [map[]], st.out))
    case Failure(err) => Failure(err)
    case Success(inner) => Success(State(inner.scopes[..|inner.scopes| - 1], inner.out))
  }

  /** `evaluate_if`: the condition, then the branch it selects, if any. */
  function ExecIf(h: Host, fuel: nat, cond: Expr, thenBranch: Stmt, elseBranch: Option<Stmt>, st: State)
    : (r: Result<State, RuntimeError>)
    requires |st.scopes| > 0
    ensures r.Success? ==> SameOuterKeys(st.scopes, r.value.scopes)
    decreases fuel, IfStatement(cond, thenBranch, elseBranch), 0
  {
    match Eval(h, cond, st.scopes)
    case Failure(err) => Failure(err)
    case Success(o) =>
      if Truthy(o.value) then Exec(h, fuel, thenBranch, State(o.scopes, st.out))
      else if elseBranch.Some? then Exec(h, fuel, elseBranch.value, State(o.scopes, st.out))
      else Success(State(o.scopes, st.out))
  }

  /**
   * `evaluate_while`: the condition, and while it is truthy the body and
   * the loop again; each iteration spends one unit of `fuel`.
   */
  function ExecWhile(h: Host, fuel: nat, cond: Expr, loopBody: Stmt, st: State): (r: Result<State, RuntimeError>)
    requires |st.scopes| > 0
    ensures r.Success? ==> SameOuterKeys(st.scopes, r.value.scopes)
    decreases fuel, WhileStatement(cond, loopBody), 0
  {
    if fuel == 0 then Failure(OutOfFuel)
    else
      match Eval(h, cond, st.scopes)
      case Failure(err) => Failure(err)
      case Success(o) =>
        if !Truthy(o.value) then Success(State(o.scopes, st.out))
        else
          match Exec(h, fuel, loopBody, State(o.scopes, st.out))
          case Failure(err) => Failure(err)
          case Success(next) => ExecWhile(h, Spent(fuel), cond, loopBody, next)
  }

  /** The fuel left after one iteration of a loop: one unit less. */
  function Spent(fuel: nat): nat
  {
    if fuel == 0 then 0 else fuel - 1
  }

  /** With no fuel left, the loop stops with `OutOfFuel`. */
  lemma WhileOutOfFuel(h: Host, cond: Expr, loopBody: Stmt, st: State)
    requires |st.scopes| > 0
    ensures ExecWhile(h, 0, cond, loopBody, st) == Failure(OutOfFuel)
  {
  }

  /** A condition that fails or is falsy ends the loop, on the chain the condition left. */
  lemma WhileEnds(h: Host, fuel: nat, cond: Expr, loopBody: Stmt, st: State)
    requires |st.scopes| > 0 && fuel > 0
    requires Eval(h, cond, st.scopes).Failure? || !Truthy(Eval(h, cond, st.scopes).value.value)
    ensures ExecWhile(h, fuel, cond, loopBody, st) ==
      match Eval(h, cond, st.scopes)
      case Failure(err) => Failure(err)
      case Success(o) => Success(State(o.scopes, st.out))
  {
  }

  /** One iteration of `while`: a truthy condition, then the body, then the loop again with one unit less. */
  lemma WhileTurn(h: Host, fuel: nat, cond: Expr, loopBody: Stmt, st: State, tested: Outcome)
    requires |st.scopes| > 0 && fuel > 0
    requires Eval(h, cond, st.scopes) == Success(tested) && Truthy(tested.value)
    ensures |tested.scopes| > 0
    ensures var once := Exec(h, fuel, loopBody, State(tested.scopes, st.out));
      ExecWhile(h, fuel, cond, loopBody, st) ==
      if once.Failure? then Failure(once.error) else ExecWhile(h, Spent(fuel), cond, loopBody, once.value)
  {
  }

  /** Statements in order, each on the state the previous one left; the first failure stops the run. */
  function ExecSeq(h: Host, fuel: nat, ss: seq<Stmt>, st: State): (r: Result<State, RuntimeError>)
    requires |st.scopes| > 0
    ensures r.Success? ==> SameOuterKeys(st.scopes, r.value.scopes)
    decreases fuel, ss, 2
  {
    if |ss| == 0 then Success(st)
    else
      match Exec(h, fuel, ss[0], st)
      case Failure(err) => Failure(err)
      case Success(next) => ExecSeq(h, fuel, ss[1..], next)
  }

  /** The spec result `spec` is what a method returned (`r`) and left in the chain (`c`). */
  ghost predicate Yields(r: Result<Value, RuntimeError>, spec: Result<Outcome, RuntimeError>, c: Chain) {
    match spec
    case Success(o) => r == Success(o.value) && c == o.scopes
    case Failure(err) => r == Failure(err)
  }

  /** The spec result `spec` is what a statement method returned (`r`) and left behind (`now`). */
  ghost predicate Ran(r: Result<(), RuntimeError>, spec: Result<State, RuntimeError>, now: State) {
    match spec
    case Success(st) => r.Success? && now == st
    case Failure(err) => r == Failure(err)
  }

  /** The argument list stops at its first failing argument. */
  lemma {:induction false} EvalArgsStopsAtFailure(h: Host, args: seq<Expr>, c: Chain, k: nat)
    requires k <= |args| && EvalArgs(h, args[..k], c).Failure?
    ensures EvalArgs(h, args, c) == EvalArgs(h, args[..k], c)
    decreases |args|
  {
    if k < |args| {
      var front := args[..|args| - 1];
      assert front[..k] == args[..k];
      EvalArgsStopsAtFailure(h, front, c, k);
    } else {
      assert args[..k] == args;
    }
  }

  /** The evaluator, with its scope chain and console. */
  class Interpreter {
    const storage: Environment
    const host: Host
    var out: seq<Output>

    ghost predicate Valid()
      reads this, storage
    {
      storage.Valid()
    }

    ghost function Now(): State
      reads this, storage
    {
      State(storage.scopes, out)
    }

    /** `Interpreter::new`: one empty global scope and nothing printed. */
    constructor (host: Host)
      ensures Valid() && fresh(storage) && storage.scopes == [map[]] && out == [] && this.host == host
    {
      storage := new Environment();
      this.host := host;
      out := [];
    }

    /** `evaluate`. */
    method Evaluate(e: Expr) returns (r: Result<Value, RuntimeError>)
      requires Valid()
      modifies storage
      ensures Valid() && |storage.scopes| == |old(storage.scopes)|
      ensures Yields(r, Eval(host, e, old(storage.scopes)), storage.scopes)
      decreases e
    {
      match e
      case Literal(a) =>
        r := Success(Basic(a));
      case Grouping(inner) =>
        r := Evaluate(inner);
      case Variable(name) =>
        var got := Lookup(storage.scopes, name.lexeme);
        r := if got.Success? then Success(got.value) else Failure(Unbound(got.error));
      case Assignment(name, value) =>
        r := Evaluate(value);
        if r.Success? {
          var done := storage.Assign(name.lexeme, r.value);
          if done.Failure? {
            r := Failure(Unbound(done.error));
          }
        }
      case Call(callee, args) =>
        r := EvaluateCall(callee, args);
      case Postfix(op, operand) =>
        r := EvaluatePostfix(op, operand);
      case Unary(op, right) =>
        r := Evaluate(right);
        if r.Success? {
          r := ApplyUnary(op, r.value);
        }
      case Logical(left, op, right) =>
        r := Evaluate(left);
        if r.Success? && (op == OR) != Truthy(r.value) {
          r := Evaluate(right);
        }
      case Binary(left, op, right) =>
        var l := Evaluate(left);
        if l.Failure? {
          return l;
        }
        r := Evaluate(right);
        if r.Success? {
          r := ApplyBinary(host, op, l.value, r.value);
        }
    }

    /** The `Call` arm of `evaluate`: the callee, then each argument in order, then the call. */
    method EvaluateCall(callee: Expr, args: seq<Expr>) returns (r: Result<Value, RuntimeError>)
      requires Valid()
      modifies storage
      ensures Valid() && |storage.scopes| == |old(storage.scopes)|
      ensures Yields(r, Eval(host, Call(callee, args), old(storage.scopes)), storage.scopes)
      decreases Call(callee, args), 0
    {
      var f := Evaluate(callee);
      if f.Failure? {
        return f;
      }
      ghost var c := storage.scopes;
      var vs: seq<Value> := [];
      for i := 0 to |args|
        invariant Valid() && |storage.scopes| == |old(storage.scopes)|
        invariant EvalArgs(host, args[..i], c) == Success((vs, storage.scopes))
      {
        assert args[i] in args;
        var a := Evaluate(args[i]);
        assert args[..i + 1][..i] == args[..i];
        if a.Failure? {
          EvalArgsStopsAtFailure(host, args, c, i + 1);
          return a;
        }
        vs := vs + [a.value];
      }
      assert args[..|args|] == args;
      if f.value.LoxCallable? {
        r := Success(host.call(f.value.id, vs));
      } else {
        r := Failure(NotCallable);
      }
    }

    /** The `Postfix` arm of `evaluate`: rebind a numeric variable one up or down, yielding its old value. */
    method EvaluatePostfix(op: TokenKind, operand: Expr) returns (r: Result<Value, RuntimeError>)
      requires Valid()
      modifies storage
      ensures Valid() && |storage.scopes| == |old(storage.scopes)|
      ensures Yields(r, EvalPostfix(op, operand, old(storage.scopes)), storage.scopes)
    {
      if !operand.Variable? {
        return Failure(InvalidPostfixTarget);
      }
      var current := Lookup(storage.scopes, operand.name.lexeme);
      if current.Failure? {
        return Failure(Unbound(current.error));
      }
      var v := current.value;
      if op == INCREMENTOR && v.Basic? && v.a.Number? {
        r := StepVariable(op, operand.name, v, v.a.n + 1.0);
      } else if op == DECREMENTOR && v.Basic? && v.a.Number? {
        r := StepVariable(op, operand.name, v, v.a.n - 1.0);
      } else {
        r := Failure(PostfixNotNumber);
      }
    }

    /** Assign `next` to the variable holding the number `v`, and yield `v`. */
    method StepVariable(op: TokenKind, t: Token, v: Value, next: real) returns (r: Result<Value, RuntimeError>)
      requires Valid() && (op == INCREMENTOR || op == DECREMENTOR)
      requires Lookup(storage.scopes, t.lexeme) == Success(v) && v.Basic? && v.a.Number?
      requires next == if op == INCREMENTOR then v.a.n + 1.0 else v.a.n - 1.0
      modifies storage
      ensures Valid() && |storage.scopes| == |old(storage.scopes)|
      ensures Yields(r, EvalPostfix(op, Variable(t), old(storage.scopes)), storage.scopes)
    {
      PostfixUnfolds(op, t, storage.scopes, v);
      RebindBound(storage.scopes, t.lexeme, Num(next), v);
      // the name was just found, so this `assign` succeeds
      var _ := storage.Assign(t.lexeme, Num(next));
      r := Success(v);
    }

    /** `evaluate_statement`. */
    method EvaluateStatement(s: Stmt, fuel: nat) returns (r: Result<(), RuntimeError>)
      requires Valid()
      modifies this, storage
      ensures Valid() && |storage.scopes| == |old(storage.scopes)|
      ensures Ran(r, Exec(host, fuel, s, old(Now())), Now())
      decreases fuel, s, 2
    {
      match s
      case ExpressionStatement(e) =>
        var v := Evaluate(e);
        if v.Failure? {
          return Failure(v.error);
        }
        out := out + [ExprDone];
        r := Success(());
      case PrintStatement(e) =>
        var v := Evaluate(e);
        if v.Failure? {
          return Failure(v.error);
        }
        out := out + [Printed(v.value)];
        r := Success(());
      case LetStatement(name, init) =>
        if init == Literal(Nil) {
          storage.Define(name.lexeme, Basic(Nil));
        } else {
          var v := Evaluate(init);
          if v.Failure? {
            return Failure(v.error);
          }
          storage.Define(name.lexeme, v.value);
        }
        r := Success(());
      case BlockStatement(body) =>
        r := EvaluateBlocks(body, fuel);
      case IfStatement(cond, thenBranch, elseBranch) =>
        r := EvaluateIf(cond, thenBranch, elseBranch, fuel);
      case WhileStatement(cond, loopBody) =>
        r := EvaluateWhile(cond, loopBody, fuel);
    }

    /** `evaluate_blocks`: run the statements in a new scope, then return to the enclosing chain. */
    method EvaluateBlocks(body: seq<Stmt>, fuel: nat) returns (r: Result<(), RuntimeError>)
      requires Valid()
      modifies this, storage
      ensures Valid() && |storage.scopes| == |old(storage.scopes)|
      ensures Ran(r, ExecBlock(host, fuel, body, old(Now())), Now())
      decreases fuel, BlockStatement(body), 1
    {
      ghost var start := Now();
      storage.Enclose();
      ghost var spec := ExecSeq(host, fuel, body, Now());
      for i := 0 to |body|
        invariant Valid() && |storage.scopes| == |start.scopes| + 1
        invariant ExecSeq(host, fuel, body[i..], Now()) == spec
      {
        assert body[i] in body;
        var x := EvaluateStatement(body[i], fuel);
        if x.Failure? {
          storage.Release();
          return x;
        }
      }
      storage.Release();
      r := Success(());
    }

    /** `evaluate_if`. */
    method EvaluateIf(cond: Expr, thenBranch: Stmt, elseBranch: Option<Stmt>, fuel: nat)
      returns (r: Result<(), RuntimeError>)
      requires Valid()
      modifies this, storage
      ensures Valid() && |storage.scopes| == |old(storage.scopes)|
      ensures Ran(r, ExecIf(host, fuel, cond, thenBranch, elseBranch, old(Now())), Now())
      decreases fuel, IfStatement(cond, thenBranch, elseBranch), 1
    {
      var c := Evaluate(cond);
      if c.Failure? {
        return Failure(c.error);
      }
      if Truthy(c.value) {
        r := EvaluateStatement(thenBranch, fuel);
      } else if elseBranch.Some? {
        r := EvaluateStatement(elseBranch.value, fuel);
      } else {
        r := Success(());
      }
    }

    /** `evaluate_while`, each iteration spending one unit of `fuel`. */
    method EvaluateWhile(cond: Expr, loopBody: Stmt, fuel: nat) returns (r: Result<(), RuntimeError>)
      requires Valid()
      modifies this, storage
      ensures Valid() && |storage.scopes| == |old(storage.scopes)|
      ensures Ran(r, ExecWhile(host, fuel, cond, loopBody, old(Now())), Now())
      decreases fuel, WhileStatement(cond, loopBody), 1
    {
      var left: nat := fuel;
      ghost var spec := ExecWhile(host, fuel, cond, loopBody, Now());
      var done := false;
      r := Success(());
      while !done
        invariant Valid() && |storage.scopes| == |old(storage.scopes)| && left <= fuel
        invariant !done ==> ExecWhile(host, left, cond, loopBody, Now()) == spec
        invariant done ==> Ran(r, spec, Now())
        decreases !done, left
      {
        done, r, left := WhileStep(cond, loopBody, left);
      }
    }

    /**
     * One turn of the `evaluate_while` loop, out of fuel or not. `done` when
     * the loop ends here, with the loop's result; otherwise the loop goes on
     * with `next` units of fuel.
     */
    method WhileStep(cond: Expr, loopBody: Stmt, left: nat)
      returns (done: bool, r: Result<(), RuntimeError>, next: nat)
      requires Valid()
      modifies this, storage
      ensures Valid() && |storage.scopes| == |old(storage.scopes)|
      ensures done ==> Ran(r, ExecWhile(host, left, cond, loopBody, old(Now())), Now())
      ensures next <= left && (!done ==> next < left)
      ensures !done ==> ExecWhile(host, left, cond, loopBody, old(Now())) == ExecWhile(host, next, cond, loopBody, Now())
      decreases left, WhileStatement(cond, loopBody), 0
    {
      if left == 0 {
        WhileOutOfFuel(host, cond, loopBody, Now());
        return true, Failure(OutOfFuel), 0;
      }
      done, r, next := WhileIteration(cond, loopBody, left);
    }

    /**
     * One turn of the `evaluate_while` loop with fuel left: the condition,
     * and when it is truthy the body. `done` when the loop ends here, with
     * the loop's result.
     */
    method WhileIteration(cond: Expr, loopBody: Stmt, left: nat)
      returns (done: bool, r: Result<(), RuntimeError>, next: nat)
      requires Valid() && left > 0
      modifies this, storage
      ensures Valid() && |storage.scopes| == |old(storage.scopes)| && next == Spent(left)
      ensures done ==> Ran(r, ExecWhile(host, left, cond, loopBody, old(Now())), Now())
      ensures !done ==> ExecWhile(host, left, cond, loopBody, old(Now())) == ExecWhile(host, next, cond, loopBody, Now())
      decreases left, loopBody, 4
    {
      next := Spent(left);
      ghost var before := Now();
      var c := Evaluate(cond);
      if c.Failure? || !Truthy(c.value) {
        WhileEnds(host, left, cond, loopBody, before);
        done := true;
        r := if c.Failure? then Failure(c.error) else Success(());
        return;
      }
      done, r := WhileBody(cond, loopBody, left, before);
    }

    /** The body of the loop, once its condition has come out truthy on `before`. */
    method WhileBody(cond: Expr, loopBody: Stmt, left: nat, ghost before: State) returns (done: bool, r: Result<(), RuntimeError>)
      requires Valid() && left > 0 && |before.scopes| > 0
      requires Eval(host, cond, before.scopes).Success? && Truthy(Eval(host, cond, before.scopes).value.value)
      requires Now() == State(Eval(host, cond, before.scopes).value.scopes, before.out)
      modifies this, storage
      ensures Valid() && |storage.scopes| == |old(storage.scopes)|
      ensures done ==> Ran(r, ExecWhile(host, left, cond, loopBody, before), Now())
      ensures !done ==> ExecWhile(host, left, cond, loopBody, before) == ExecWhile(host, Spent(left), cond, loopBody, Now())
      decreases left, loopBody, 3
    {
      WhileTurn(host, left, cond, loopBody, before, Eval(host, cond, before.scopes).value);
      r := EvaluateStatement(loopBody, left);
      done := r.Failure?;
    }

    /** `interpreter`: the statements of a program, in order. */
    method Interpret(statements: seq<Stmt>, fuel: nat) returns (r: Result<(), RuntimeError>)
      requires Valid()
      modifies this, storage
      ensures Valid() && |storage.scopes| == |old(storage.scopes)|
      ensures Ran(r, ExecSeq(host, fuel, statements, old(Now())), Now())
    {
      ghost var spec := ExecSeq(host, fuel, statements, Now());
      for i := 0 to |statements|
        invariant Valid() && |storage.scopes| == |old(storage.scopes)|
        invariant ExecSeq(host, fuel, statements[i..], Now()) == spec
      {
        var x := EvaluateStatement(statements[i], fuel);
        if x.Failure? {
          return x;
        }
      }
      r := Success(());
    }
  }
}
