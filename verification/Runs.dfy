/** A fact about runs, kept away from what their states hold. */
module Runs {

  /** What every step carries on holds from one moment to any later one. */
  lemma {:induction false} Persists(holds: seq<bool>, m: nat, n: nat)
    requires m <= n < |holds| && holds[m] && forall i :: m <= i < n && holds[i] ==> holds[i + 1]
    ensures holds[n]
    decreases n
  {
    if m < n {
      Persists(holds, m, n - 1);
    }
  }

  /** What does not hold at first and holds later began at some step. */
  lemma {:induction false} Begins(holds: seq<bool>, n: nat) returns (i: nat)
    requires n < |holds| && !holds[0] && holds[n]
    ensures i < n && !holds[i] && holds[i + 1]
    decreases n
  {
    if holds[n - 1] {
      i := Begins(holds, n - 1);
    } else {
      i := n - 1;
    }
  }
}
