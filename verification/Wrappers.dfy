/** What the models share: the optional value (an etcd key, a marker file or a
    queue front that may be absent), the choice of a next element from a set, and what it means
    that something happens in a run. */
module Wrappers {

  datatype Option<+T> = None | Some(value: T)

  // Some element of a set, as a loop over a dictionary's keys visits them.
  method Pick<T>(s: set<T>) returns (x: T)
    requires s != {}
    ensures x in s
  {
    x :| x in s;
  }

  // Some event of a run has the property, given the events before it.
  ghost predicate Happens<E>(es: seq<E>, p: (seq<E>, E) -> bool) {
    exists n :: 0 <= n < |es| && p(es[..n], es[n])
  }

  lemma HappensStep<E>(es: seq<E>, e: E, p: (seq<E>, E) -> bool)
    ensures Happens(es + [e], p) <==> Happens(es, p) || p(es, e)
  {
    var all := es + [e];
    assert all[..|es|] == es;
    assert forall n :: 0 <= n < |es| ==> all[..n] == es[..n] && all[n] == es[n];
    if n :| 0 <= n < |es| && p(es[..n], es[n]) { assert p(all[..n], all[n]); }
    if p(es, e) { assert p(all[..|es|], all[|es|]); }
  }
}
