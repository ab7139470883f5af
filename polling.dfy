/**
 * `safe_polling` (main.py): start polling, and after every failed start sleep
 * for the current delay and double it, up to 60 seconds; the first start that
 * returns cleanly ends the loop.
 */
module Polling {

  const MaxDelay: nat := 60

  function Min(a: nat, b: nat): nat {
    if a <= b then a else b
  }

  function Pow2(k: nat): nat {
    if k == 0 then 1 else 2 * Pow2(k - 1)
  }

  /** The delay slept after the failure of start number `k` (from 0): 1, 2, 4, ..., 60, 60, ... */
  function Delay(k: nat): (d: nat)
    ensures 1 <= d <= MaxDelay
  {
    if k == 0 then 1 else Min(Delay(k - 1) * 2, MaxDelay)
  }

  /**
   * The delay after failed start `k` (from 0) is min(2^k, 60), that is
   * min(2^(k-1), 60) after the k-th failure counting from 1.
   */
  lemma {:induction false} DelayIsCappedPower(k: nat)
    ensures Delay(k) == Min(Pow2(k), MaxDelay)
  {
    if k > 0 {
      DelayIsCappedPower(k - 1);
    }
  }

  /** From the seventh failure on, the delay stays at the cap. */
  lemma {:induction false} DelayReachesCap(k: nat)
    requires k >= 6
    ensures Delay(k) == MaxDelay
  {
    if k > 6 {
      DelayReachesCap(k - 1);
    }
  }

  /** Delays never shrink while the failures go on. */
  lemma DelayMonotonic(j: nat, k: nat)
    requires j <= k
    ensures Delay(j) <= Delay(k)
    decreases k - j
  {
    if j < k {
      DelayMonotonic(j + 1, k);
    }
  }

  /**
   * Runs the loop against `starts`, where `starts(n)` says whether start number
   * `n` returns cleanly; a start that never returns cleanly keeps the source
   * looping for ever, hence the requirement that one does. Returns the number
   * of failed starts and the delays slept after them.
   */
  method SafePolling(starts: nat -> bool) returns (failures: nat, sleeps: seq<nat>)
    requires exists n :: starts(n)
    ensures starts(failures) && forall n :: 0 <= n < failures ==> !starts(n)
    ensures |sleeps| == failures
    ensures forall k :: 0 <= k < failures ==> sleeps[k] == Delay(k)
  {
    ghost var bound: nat :| starts(bound);
    var delay := 1;
    failures, sleeps := 0, [];
    while !starts(failures)
      invariant failures <= bound
      invariant forall n :: 0 <= n < failures ==> !starts(n)
      invariant delay == Delay(failures)
      invariant |sleeps| == failures
      invariant forall k :: 0 <= k < failures ==> sleeps[k] == Delay(k)
      decreases bound - failures
    {
      sleeps := sleeps + [delay];
      delay := Min(delay * 2, MaxDelay);
      failures := failures + 1;
    }
  }
}
