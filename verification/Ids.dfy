/** Identifiers handed out by a counter. */
module Ids {

  // The k identifiers starting at n.
  function Range(n: nat, k: nat): (s: set<nat>)
    ensures |s| == k
    ensures forall i :: i in s <==> n <= i < n + k
  {
    if k == 0 then {} else Range(n, k - 1) + {n + k - 1}
  }

  lemma RangeNext(free: set<nat>, n: nat, k: nat)
    ensures free + Range(n, k) + {n + k} == free + Range(n, k + 1)
  {
  }
}
