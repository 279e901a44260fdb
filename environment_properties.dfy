/**
 * What `define`, `get` and `assign` promise of one another on a scope chain.
 */
module EnvironmentProperties {
  import opened Wrappers
  import opened Tokens
  import opened Environment

  /** The scope holding the binding of `name` that `get` finds. */
  ghost function Nearest(c: Chain, name: string): (i: nat)
    requires Bound(c, name)
    ensures NearestAt(c, name, i)
    decreases |c|
  {
    if name in c[|c| - 1] then |c| - 1
    else
      assert Bound(c[..|c| - 1], name) by {
        var i :| 0 <= i < |c| && name in c[i];
        assert c[..|c| - 1][i] == c[i];
      }
      var i := Nearest(c[..|c| - 1], name);
      assert c[..|c| - 1][i] == c[i];
      i
  }

  /** `get` of a bound name succeeds with the value of its nearest binding. */
  lemma GetFindsNearest(c: Chain, name: string)
    requires Bound(c, name)
    ensures Lookup(c, name) == Success(c[Nearest(c, name)][name])
  {
  }

  /** `m` is bound alike in both chains, scope by scope. */
  ghost predicate AgreeOn(c: Chain, d: Chain, m: string) {
    |c| == |d| && forall i :: 0 <= i < |c| ==> (m in c[i] <==> m in d[i]) && (m in c[i] ==> c[i][m] == d[i][m])
  }

  /** `get` reads nothing of a chain but the bindings of the name asked for. */
  lemma {:induction false} GetReadsOnlyItsName(c: Chain, d: Chain, m: string)
    requires AgreeOn(c, d, m)
    ensures Lookup(c, m) == Lookup(d, m)
    decreases |c|
  {
    if |c| > 0 && m !in c[|c| - 1] {
      assert AgreeOn(c[..|c| - 1], d[..|d| - 1], m) by {
        assert forall i :: 0 <= i < |c| - 1 ==> c[..|c| - 1][i] == c[i] && d[..|d| - 1][i] == d[i];
      }
      GetReadsOnlyItsName(c[..|c| - 1], d[..|d| - 1], m);
    }
  }

  /** `define` leaves what `get` returns for every other name as it was. */
  lemma DefineKeepsOtherNames(c: Chain, n: string, v: Value, m: string)
    requires |c| > 0 && m != n
    ensures Lookup(DefineIn(c, n, v), m) == Lookup(c, m)
  {
    GetReadsOnlyItsName(DefineIn(c, n, v), c, m);
  }

  /** `define` adds `name` to the current scope and binds no other name anew. */
  lemma DefineAddsOneName(c: Chain, n: string, v: Value)
    requires |c| > 0
    ensures DefineIn(c, n, v)[|c| - 1].Keys == c[|c| - 1].Keys + {n}
    ensures forall i :: 0 <= i < |c| - 1 ==> DefineIn(c, n, v)[i].Keys == c[i].Keys
  {
  }

  /** A `get` after a successful `assign` returns the value assigned. */
  lemma GetAfterAssign(c: Chain, n: string, v: Value)
    requires AssignIn(c, n, v).Success?
    ensures Lookup(AssignIn(c, n, v).value, n) == Success(v)
  {
    var d := AssignIn(c, n, v).value;
    var i := Nearest(c, n);
    assert NearestAt(d, n, i);
  }

  /** `assign` leaves what `get` returns for every other name as it was. */
  lemma AssignKeepsOtherNames(c: Chain, n: string, v: Value, m: string)
    requires AssignIn(c, n, v).Success? && m != n
    ensures Lookup(AssignIn(c, n, v).value, m) == Lookup(c, m)
  {
    GetReadsOnlyItsName(AssignIn(c, n, v).value, c, m);
  }

  /** `assign` never creates or removes a binding, in any scope. */
  lemma AssignKeepsNames(c: Chain, n: string, v: Value)
    requires AssignIn(c, n, v).Success?
    ensures SameKeys(c, AssignIn(c, n, v).value)
  {
    var d := AssignIn(c, n, v).value;
    forall i | 0 <= i < |c|
      ensures c[i].Keys == d[i].Keys
    {
      if NearestAt(c, n, i) {
        assert n in c[i];
      }
    }
  }

  /** `assign` changes the scope holding the nearest binding and no other scope. */
  lemma AssignChangesOneScope(c: Chain, n: string, v: Value)
    requires AssignIn(c, n, v).Success?
    ensures AssignIn(c, n, v).value == c[Nearest(c, n) := c[Nearest(c, n)][n := v]]
  {
    var d := AssignIn(c, n, v).value;
    var i := Nearest(c, n);
    forall k | 0 <= k < |c|
      ensures d[k] == c[i := c[i][n := v]][k]
    {
      if NearestAt(c, n, k) {
        assert k == i;
      }
    }
  }
}
