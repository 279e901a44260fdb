/**
 * What the iteration bound given to `while` means: it only ever cuts a run
 * short, so a run that did not stop for lack of fuel ends the same way
 * with more.
 */
module FuelProperties {
  import opened Wrappers
  import opened Tokens
  import opened Ast
  import opened Environment
  import opened Interpreter

  /**
   * The iteration bound only cuts a run short: a run that did not fail for
   * lack of fuel ends the same way with any larger bound.
   */
  lemma {:induction false} MoreFuelSameRun(h: Host, fuel: nat, more: nat, s: Stmt, st: State)
    requires |st.scopes| > 0 && fuel <= more && Exec(h, fuel, s, st) != Failure(OutOfFuel)
    ensures Exec(h, more, s, st) == Exec(h, fuel, s, st)
    decreases fuel, s, 1
  {
    match s
    case BlockStatement(body) =>
      MoreFuelSameSeq(h, fuel, more, body, State(st.scopes + [map[]], st.out));
    case IfStatement(cond, thenBranch, elseBranch) =>
      var o := Eval(h, cond, st.scopes);
      if o.Success? {
        if Truthy(o.value.value) {
          MoreFuelSameRun(h, fuel, more, thenBranch, State(o.value.scopes, st.out));
        } else if elseBranch.Some? {
          MoreFuelSameRun(h, fuel, more, elseBranch.value, State(o.value.scopes, st.out));
        }
      }
    case WhileStatement(cond, loopBody) =>
      MoreFuelSameLoop(h, fuel, more, cond, loopBody, st);
    case _ =>
  }

  /** The same for a `while` loop. */
  lemma {:induction false} MoreFuelSameLoop(h: Host, fuel: nat, more: nat, cond: Expr, loopBody: Stmt, st: State)
    requires |st.scopes| > 0 && fuel <= more && ExecWhile(h, fuel, cond, loopBody, st) != Failure(OutOfFuel)
    ensures ExecWhile(h, more, cond, loopBody, st) == ExecWhile(h, fuel, cond, loopBody, st)
    decreases fuel, WhileStatement(cond, loopBody), 0
  {
    var o := Eval(h, cond, st.scopes);
    if o.Success? && Truthy(o.value.value) {
      var S := State(o.value.scopes, st.out);
      var once := Exec(h, fuel, loopBody, S);
      TurnNotOutOfFuel(h, fuel, cond, loopBody, st, o.value);
      MoreFuelSameTurn(h, fuel, more, cond, loopBody, S, once);
      TurnFromParts(h, fuel, more, cond, loopBody, st, o.value, once);
    }
  }

  /**
   * The same for one iteration: a body that did not run out of fuel, and
   * the rest of the loop after it, end the same way with more.
   */
  lemma {:induction false} MoreFuelSameTurn(h: Host, fuel: nat, more: nat, cond: Expr, loopBody: Stmt, st: State,
                                            once: Result<State, RuntimeError>)
    requires |st.scopes| > 0 && 0 < fuel <= more
    requires once == Exec(h, fuel, loopBody, st) && once != Failure(OutOfFuel)
    requires once.Success? ==>
      |once.value.scopes| > 0 && ExecWhile(h, Spent(fuel), cond, loopBody, once.value) != Failure(OutOfFuel)
    ensures Exec(h, more, loopBody, st) == once
    ensures once.Success? ==>
      ExecWhile(h, Spent(more), cond, loopBody, once.value) == ExecWhile(h, Spent(fuel), cond, loopBody, once.value)
    decreases fuel, loopBody, 3
  {
    assert Exec(h, more, loopBody, st) == once by {
      MoreFuelSameRun(h, fuel, more, loopBody, st);
    }
    if once.Success? {
      MoreFuelSameLoop(h, Spent(fuel), Spent(more), cond, loopBody, once.value);
    }
  }

  /** A truthy turn that does not run out of fuel: neither does its body, nor the rest of the loop. */
  lemma TurnNotOutOfFuel(h: Host, fuel: nat, cond: Expr, loopBody: Stmt, st: State, o: Outcome)
    requires |st.scopes| > 0 && Eval(h, cond, st.scopes) == Success(o) && Truthy(o.value)
    requires ExecWhile(h, fuel, cond, loopBody, st) != Failure(OutOfFuel)
    ensures fuel > 0 && |o.scopes| > 0
    ensures Exec(h, fuel, loopBody, State(o.scopes, st.out)) != Failure(OutOfFuel)
    ensures var once := Exec(h, fuel, loopBody, State(o.scopes, st.out));
      once.Success? ==> |once.value.scopes| > 0 && ExecWhile(h, Spent(fuel), cond, loopBody, once.value) != Failure(OutOfFuel)
  {
    WhileTurn(h, fuel, cond, loopBody, st, o);
  }

  /** More fuel for a truthy turn, given it for the body and for the rest of the loop. */
  lemma TurnFromParts(h: Host, fuel: nat, more: nat, cond: Expr, loopBody: Stmt, st: State, o: Outcome,
                      once: Result<State, RuntimeError>)
    requires |st.scopes| > 0 && 0 < fuel <= more && Eval(h, cond, st.scopes) == Success(o) && Truthy(o.value)
    requires once == Exec(h, fuel, loopBody, State(o.scopes, st.out))
    requires Exec(h, more, loopBody, State(o.scopes, st.out)) == once
    requires once.Success? ==>
      |once.value.scopes| > 0 &&
      ExecWhile(h, Spent(more), cond, loopBody, once.value) == ExecWhile(h, Spent(fuel), cond, loopBody, once.value)
    ensures ExecWhile(h, more, cond, loopBody, st) == ExecWhile(h, fuel, cond, loopBody, st)
  {
    TurnResult(h, fuel, cond, loopBody, st, o, once);
    TurnResult(h, more, cond, loopBody, st, o, once);
  }

  /** A truthy turn whose body ended in `once`: the body's failure, or the rest of the loop from its state. */
  lemma TurnResult(h: Host, fuel: nat, cond: Expr, loopBody: Stmt, st: State, o: Outcome,
                   once: Result<State, RuntimeError>)
    requires |st.scopes| > 0 && fuel > 0 && Eval(h, cond, st.scopes) == Success(o) && Truthy(o.value)
    requires once == Exec(h, fuel, loopBody, State(o.scopes, st.out))
    ensures once.Failure? ==> ExecWhile(h, fuel, cond, loopBody, st) == Failure(once.error)
    ensures once.Success? ==>
      |once.value.scopes| > 0 &&
      ExecWhile(h, fuel, cond, loopBody, st) == ExecWhile(h, Spent(fuel), cond, loopBody, once.value)
  {
    WhileTurn(h, fuel, cond, loopBody, st, o);
  }

  /** The same for the statements of a block, run in order. */
  lemma {:induction false} MoreFuelSameSeq(h: Host, fuel: nat, more: nat, ss: seq<Stmt>, st: State)
    requires |st.scopes| > 0 && fuel <= more && ExecSeq(h, fuel, ss, st) != Failure(OutOfFuel)
    ensures ExecSeq(h, more, ss, st) == ExecSeq(h, fuel, ss, st)
    decreases fuel, ss, 2
  {
    if |ss| > 0 {
      var first := Exec(h, fuel, ss[0], st);
      MoreFuelSameRun(h, fuel, more, ss[0], st);
      if first.Success? {
        MoreFuelSameSeq(h, fuel, more, ss[1..], first.value);
      }
    }
  }
}
