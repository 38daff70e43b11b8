// Types and small facts shared by the models.
module Prelude {

  datatype Option<+T> = None | Some(value: T)

  datatype Result<+T, +E> = Ok(value: T) | Err(error: E)

  function Min(a: real, b: real): real { if a <= b then a else b }

  function Max(a: real, b: real): real { if a >= b then a else b }

  // Look a key up as a database `get` does: absent keys give None.
  function Get<K, V>(m: map<K, V>, k: K): Option<V> {
    if k in m then Some(m[k]) else None
  }

  lemma SomeMember(s: set<int>)
    ensures s == {} || exists x :: x in s
  {
    if forall x :: x !in s { assert s == {}; }
  }

  // A string that is not in the set, and longer than every string that is.
  lemma {:induction false} NewString(ids: set<string>) returns (id: string, bound: nat)
    ensures id !in ids && |id| == bound && forall x :: x in ids ==> |x| < bound
    decreases ids
  {
    if ids == {} {
      id, bound := "", 0;
    } else {
      var x :| x in ids;
      var _, b := NewString(ids - {x});
      bound := if b > |x| then b else |x| + 1;
      id := seq(bound, i => 'a');
      forall y | y in ids ensures |y| < bound {
        if y != x { assert y in ids - {x}; }
      }
    }
  }
}
