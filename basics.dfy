/** Identities and values shared by every part of the model, and the iteration of a
    JavaScript `Set` (a `for ... of` loop or `Array.from`) as a loop over a Dafny set. */
module Basics {

  /** A state handle's api object (the thing with `get()` and `subscribe()`), by identity. */
  type ApiId = nat

  /** A promise-like value (anything with a callable `then`), by identity. */
  type PromiseId = nat

  /** A consumer component: its freeze subscription and its re-render function go by this id. */
  type ConsumerId = nat

  /** Any settled payload, rejection reason or plain state value; its content is never inspected. */
  type Payload = int

  /** What a state handle's `get()` returns: a plain value or a thenable (compared by identity). */
  datatype Value = Plain(payload: Payload) | Thenable(promise: PromiseId)

  datatype Option<T> = None | Some(value: T)

  datatype Result<T, E> = Ok(value: T) | Err(error: E)

  /** `q` lists every element of `s` exactly once, in some order. */
  ghost predicate Enumerates<T(!new)>(q: seq<T>, s: set<T>)
  {
    |q| == |s| &&
    (forall x :: x in q <==> x in s) &&
    (forall i, j :: 0 <= i < j < |q| ==> q[i] != q[j])
  }

  /** Iterating a JavaScript `Set`: every member is visited once, in an order this model
      leaves unspecified. */
  method Enumerate<T(!new)>(s: set<T>) returns (q: seq<T>)
    ensures Enumerates(q, s)
  {
    q := [];
    var rest := s;
    while rest != {}
      invariant rest <= s
      invariant |q| + |rest| == |s|
      invariant forall x :: x in q <==> x in s && x !in rest
      invariant forall i, j :: 0 <= i < j < |q| ==> q[i] != q[j]
      decreases rest
    {
      var x :| x in rest;
      q := q + [x];
      rest := rest - {x};
    }
  }

  /** Visiting a one-member set calls that member once and nothing else. */
  lemma EnumeratesSingleton<T(!new)>(q: seq<T>, x: T)
    requires Enumerates(q, {x})
    ensures q == [x]
  {
    assert q[0] in q;
  }

  /** Visiting an empty set calls nothing. */
  lemma EnumeratesEmpty<T(!new)>(q: seq<T>)
    requires Enumerates(q, {})
    ensures q == []
  {
  }
}
