/**
 * The scope chain. The source links each scope to the one enclosing it; the
 * model lays the chain out as a sequence of maps, outermost (global) scope
 * first and the current scope last, so that entering a scope is a push and
 * leaving it a pop.
 */
module Environment {
  import opened Wrappers
  import opened Tokens

  /** Scopes from the outermost to the current one. */
  type Chain = seq<map<string, Value>>

  /** The two ways the chain can fail a request: the source panics on both. */
  datatype EnvError = NotFoundInGet(name: string) | NotDefinedInAssign(name: string)

  /** `name` is bound in some scope of the chain. */
  ghost predicate Bound(c: Chain, name: string) {
    exists i :: 0 <= i < |c| && name in c[i]
  }

  /** The scope at `i` binds `name`, and no scope nearer to the current one does. */
  ghost predicate NearestAt(c: Chain, name: string, i: nat) {
    i < |c| && name in c[i] && forall j :: i < j < |c| ==> name !in c[j]
  }

  /** Two chains have the same scopes, each binding the same names (values may differ). */
  ghost predicate SameKeys(c: Chain, d: Chain) {
    |c| == |d| && forall i :: 0 <= i < |c| ==> c[i].Keys == d[i].Keys
  }

  /**
   * `get`: the current scope first, then each enclosing one outward; the
   * nearest binding wins, and a name bound nowhere is an error.
   */
  function Lookup(c: Chain, name: string): (r: Result<Value, EnvError>)
    ensures r.Failure? <==> !Bound(c, name)
    ensures r.Failure? ==> r.error == NotFoundInGet(name)
    ensures forall i: nat :: NearestAt(c, name, i) ==> r == Success(c[i][name])
    decreases |c|
  {
    if |c| == 0 then Failure(NotFoundInGet(name))
    else if name in c[|c| - 1] then
      assert NearestAt(c, name, |c| - 1);
      Success(c[|c| - 1][name])
    else
      assert forall i :: 0 <= i < |c| - 1 ==> c[..|c| - 1][i] == c[i];
      Lookup(c[..|c| - 1], name)
  }

  /** `define`: bind `name` in the current scope, replacing a binding already there. */
  function DefineIn(c: Chain, name: string, v: Value): (r: Chain)
    requires |c| > 0
    ensures |r| == |c| && forall i :: 0 <= i < |c| - 1 ==> r[i] == c[i]
    ensures r[|c| - 1] == c[|c| - 1][name := v]
    ensures Lookup(r, name) == Success(v)
  {
    c[..|c| - 1] + [c[|c| - 1][name := v]]
  }

  /**
   * `assign`: search outward like `get` and overwrite the nearest binding;
   * every other scope and binding is kept, and a name bound nowhere is an
   * error.
   */
  function AssignIn(c: Chain, name: string, v: Value): (r: Result<Chain, EnvError>)
    ensures r.Failure? <==> !Bound(c, name)
    ensures r.Failure? ==> r.error == NotDefinedInAssign(name)
    ensures r.Success? ==> |r.value| == |c|
    ensures r.Success? ==> forall i :: 0 <= i < |c| ==>
      r.value[i] == (if NearestAt(c, name, i) then c[i][name := v] else c[i])
    decreases |c|
  {
    if |c| == 0 then Failure(NotDefinedInAssign(name))
    else if name in c[|c| - 1] then Success(c[..|c| - 1] + [c[|c| - 1][name := v]])
    else
      assert forall i :: 0 <= i < |c| - 1 ==> c[..|c| - 1][i] == c[i];
      match AssignIn(c[..|c| - 1], name, v)
      case Failure(e) => Failure(e)
      case Success(outer) => Success(outer + [c[|c| - 1]])
  }

  /** The scope chain an interpreter reads and updates in place. */
  class Environment {
    var scopes: Chain

    ghost predicate Valid()
      reads this
    {
      |scopes| > 0
    }

    /** `Environment::new(None)`. */
    constructor ()
      ensures Valid() && scopes == [map[]]
    {
      scopes := [map[]];
    }

    /** `Environment::new(Some(previous))`: a new empty scope enclosed by the current chain. */
    method Enclose()
      modifies this
      ensures Valid() && scopes == old(scopes) + [map[]]
    {
      scopes := scopes + [map[]];
    }

    /** `enclosing.take().unwrap()`: drop the current scope and return to the one enclosing it. */
    method Release()
      requires |scopes| > 1
      modifies this
      ensures Valid() && scopes == old(scopes)[..|old(scopes)| - 1]
    {
      scopes := scopes[..|scopes| - 1];
    }

    /** `define`, on the current scope. */
    method Define(name: string, value: Value)
      requires Valid()
      modifies this
      ensures Valid() && scopes == DefineIn(old(scopes), name, value)
    {
      var last := |scopes| - 1;
      scopes := scopes[last := scopes[last][name := value]];
    }

    /**
     * `assign`: overwrite the nearest binding of `name`, or fail leaving the
     * chain as it was.
     */
    method Assign(name: string, value: Value) returns (r: Result<(), EnvError>)
      requires Valid()
      modifies this
      ensures Valid()
      ensures r.Success? == AssignIn(old(scopes), name, value).Success?
      ensures r.Success? ==> scopes == AssignIn(old(scopes), name, value).value
      ensures r.Failure? ==> r.error == NotDefinedInAssign(name) && scopes == old(scopes)
    {
      r := AssignFrom(|scopes| - 1, name, value);
    }

    /**
     * `assign` on the scope at depth `i`: its own map if it binds the name,
     * otherwise the enclosing scope's `assign`, as the source recurses.
     */
    method AssignFrom(i: nat, name: string, value: Value) returns (r: Result<(), EnvError>)
      requires i < |scopes| && forall j :: i < j < |scopes| ==> name !in scopes[j]
      modifies this
      ensures |scopes| == |old(scopes)|
      ensures r.Success? == AssignIn(old(scopes), name, value).Success?
      ensures r.Success? ==> scopes == AssignIn(old(scopes), name, value).value
      ensures r.Failure? ==> r.error == NotDefinedInAssign(name) && scopes == old(scopes)
      decreases i
    {
      if name in scopes[i] {
        ghost var c := scopes;
        assert NearestAt(c, name, i);
        scopes := scopes[i := scopes[i][name := value]];
        ghost var updated := AssignIn(c, name, value);
        assert forall k :: 0 <= k < |c| ==> (NearestAt(c, name, k) <==> k == i);
        assert scopes == updated.value;
        r := Success(());
      } else if i == 0 {
        assert !Bound(scopes, name);
        r := Failure(NotDefinedInAssign(name));
      } else {
        r := AssignFrom(i - 1, name, value);
      }
    }
  }
}
