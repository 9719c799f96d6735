/** A loop over `n` items that gives up at the first failing item, as the
    candidate flushes of both peers do. */
module Attempts {

  /** How many items complete: the first position in `fails`, or all `n`. */
  function Completed(n: nat, fails: set<nat>): (k: nat)
    ensures k <= n
    ensures forall j | 0 <= j < k :: j !in fails
    ensures k < n ==> k in fails
  {
    if n == 0 then 0
    else
      var k := Completed(n - 1, fails);
      if k < n - 1 || n - 1 in fails then k else n
  }

  /** The count is the first failure: whatever loop index has only
      successes before it and stops at the end or at a failure is it. */
  lemma {:induction false} CompletedIs(n: nat, fails: set<nat>, i: nat)
    requires i <= n && forall j | 0 <= j < i :: j !in fails
    requires i < n ==> i in fails
    ensures Completed(n, fails) == i
  {
  }

  /** With nothing failing, everything completes. */
  lemma {:induction false} CompletedAll(n: nat)
    ensures Completed(n, {}) == n
  {
  }
}
