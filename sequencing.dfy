/** Ordered sequences of fallible bus steps that stop at the first failure:
    the shape shared by the drivers' `ret = step(); if (ret) return ret;` chains.
    Step number j of a sequence started at bus position k runs at position k + j,
    and `failed` says which bus positions fail. */
module Sequencing {

  /** How many of the `n` steps at positions k .. k + n - 1 run: all of them,
      or those up to and including the first that fails. */
  function Performed(failed: nat -> bool, k: nat, n: nat): (p: nat)
    ensures p <= n
    ensures n > 0 ==> p > 0
    decreases n
  {
    if n == 0 then 0
    else if failed(k) then 1
    else 1 + Performed(failed, k + 1, n - 1)
  }

  ghost predicate AllPass(failed: nat -> bool, k: nat, n: nat)
  {
    forall j :: k <= j < k + n ==> !failed(j)
  }

  /** A sequence whose step i is the first to fail runs exactly i + 1 steps. */
  lemma {:induction false} StopsAfterFirstFailure(failed: nat -> bool, k: nat, n: nat, i: nat)
    requires i < n && AllPass(failed, k, i) && failed(k + i)
    ensures Performed(failed, k, n) == i + 1
    decreases i
  {
    if i > 0 {
      assert !failed(k);
      StopsAfterFirstFailure(failed, k + 1, n - 1, i - 1);
    }
  }

  /** A sequence in which no step fails runs every step. */
  lemma {:induction false} RunsToCompletion(failed: nat -> bool, k: nat, n: nat)
    requires AllPass(failed, k, n)
    ensures Performed(failed, k, n) == n
    decreases n
  {
    if n > 0 {
      assert !failed(k);
      RunsToCompletion(failed, k + 1, n - 1);
    }
  }

  /** A step runs only when every step before it passed. */
  lemma {:induction false} RunsOnlyAfterPasses(failed: nat -> bool, k: nat, n: nat, i: nat)
    requires i < Performed(failed, k, n)
    ensures AllPass(failed, k, i)
    decreases i
  {
    if i > 0 {
      assert !failed(k);
      RunsOnlyAfterPasses(failed, k + 1, n - 1, i - 1);
    }
  }

  /** A sequence that does not run all its steps stopped at a failing one. */
  lemma {:induction false} StoppedAtFailure(failed: nat -> bool, k: nat, n: nat)
    requires Performed(failed, k, n) < n
    ensures failed(k + Performed(failed, k, n) - 1)
    decreases n
  {
    if !failed(k) {
      StoppedAtFailure(failed, k + 1, n - 1);
    }
  }
}
