/** What other requests do between two calls of one: the steps they offer to take,
    at each place of a handler where they may. */
module Interleaving {
  import opened StoreModel

  type Schedule<A, S> = nat -> seq<(A, S)>

  function Later<A, S>(others: Schedule<A, S>, n: nat): Schedule<A, S> {
    (i: nat) => others(i + n)
  }

  // Request r is as it was, or still not there.
  predicate Spares<R(==)>(before: map<nat, R>, after: map<nat, R>, r: nat) {
    if r in before then Same(before, after, r) else r !in after
  }
}
