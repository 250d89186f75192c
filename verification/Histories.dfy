/** What is true after each step of a run, as a sequence. */
module Histories {
  /** Where the run of `true` at the end begins. */
  lemma LastRise(h: seq<bool>) returns (k: nat)
    requires |h| > 1 && !h[0] && h[|h| - 1]
    ensures k < |h| - 1 && !h[k] && forall i :: k < i < |h| ==> h[i]
  {
    k := |h| - 2;
    while h[k]
      invariant k < |h| - 1 && forall i :: k < i < |h| ==> h[i]
      decreases k
    {
      k := k - 1;
    }
  }
}
