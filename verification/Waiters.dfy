/** Requests that wait for their replies: numbered in the order they were made, each with a key that says
    where its reply would come from. */
module Waiters {

  /** What became of a request: a reply, ConnectionError, or its caller gave up. */
  datatype Fate<R> = Waiting | Got(reply: R) | Failed | Abandoned

  datatype Waiter<K, R> = Waiter(key: K, fate: Fate<R>)

  /** Those of who that still wait fail. */
  function FailAll<K, R>(waiters: seq<Waiter<K, R>>, who: set<nat>): seq<Waiter<K, R>> {
    seq(|waiters|, i requires 0 <= i < |waiters| =>
      if i in who && waiters[i].fate.Waiting? then waiters[i].(fate := Failed) else waiters[i])
  }

  method FailThem<K, R>(waiters: seq<Waiter<K, R>>, who: set<nat>) returns (r: seq<Waiter<K, R>>)
    ensures r == FailAll(waiters, who)
  {
    r := waiters;
    var todo := who;
    while todo != {}
      invariant todo <= who && |r| == |waiters|
      invariant forall i :: 0 <= i < |r| ==> r[i] == (if i in todo then waiters[i] else FailAll(waiters, who)[i])
      decreases todo
    {
      var w :| w in todo;
      if w < |r| && r[w].fate.Waiting? {
        r := r[w := r[w].(fate := Failed)];
      }
      todo := todo - {w};
    }
  }

  /** Waiters keep their keys, and once settled what became of them. */
  ghost predicate Later<K(!new), R(!new)>(before: seq<Waiter<K, R>>, after: seq<Waiter<K, R>>) {
    && |before| <= |after|
    && forall i :: 0 <= i < |before| ==>
         && after[i].key == before[i].key
         && (!before[i].fate.Waiting? ==> after[i] == before[i])
  }

  lemma LaterTwice<K(!new), R(!new)>(a: seq<Waiter<K, R>>, b: seq<Waiter<K, R>>, c: seq<Waiter<K, R>>)
    requires Later(a, b) && Later(b, c)
    ensures Later(a, c)
  {}
}
