/** Induction over runs, for any state predicate and any step relation. */
module Induction {

  /** What holds at point i of a run and is kept by every step holds at every later point. */
  lemma {:induction false} Always<S(!new), A(!new)>(P: S -> bool, R: (S, A, S) -> bool, states: seq<S>, acts: seq<A>,
      i: nat, k: nat)
    requires |states| == |acts| + 1 && i <= k <= |acts| && P(states[i])
    requires forall j :: 0 <= j < |acts| ==> R(states[j], acts[j], states[j + 1])
    requires forall s, a, s' :: P(s) && R(s, a, s') ==> P(s')
    ensures P(states[k])
  {
    if i < k {
      Always(P, R, states, acts, i, k - 1);
      assert R(states[k - 1], acts[k - 1], states[k - 1 + 1]);
    }
  }
}
