/** The delay before a failed order is retried: the loop as written, and the loop as documented. */
module Backoff {
  /** What the loop in sync computes. It multiplies up from zero, so it never leaves zero
      unless the cap itself is not positive. */
  function Written(failures: int, initial: int, max: int): (r: int)
  {
    if failures > 0 && max <= 0 then max else 0
  }

  method Compute(failures: int, initial: int, max: int) returns (backoff: int)
    ensures backoff == Written(failures, initial, max)
  {
    backoff := 0;
    var i := 0;
    while i < failures
      invariant 0 <= i && backoff == 0
      invariant i > 0 ==> max > 0
    {
      backoff := backoff * initial;
      if backoff >= max {
        backoff := max;
        break;
      }
      i := i + 1;
    }
  }

  /** The documented behaviour: an exponential backoff from `initial`, capped at `max`. */
  function Intended(failures: int, initial: int, max: int): (r: int)
    requires 0 < initial <= max
    ensures 0 <= r <= max
    ensures failures > 0 ==> initial <= r
    decreases failures
  {
    if failures <= 0 then 0
    else if failures == 1 then initial
    else
      var half := Intended(failures - 1, initial, max);
      if 2 * half >= max then max else 2 * half
  }

  lemma {:induction false} IntendedMonotone(f: int, g: int, initial: int, max: int)
    requires 0 < initial <= max && f <= g
    ensures Intended(f, initial, max) <= Intended(g, initial, max)
    decreases g - f
  {
    if f < g {
      IntendedMonotone(f, g - 1, initial, max);
    }
  }

  /** After any failure at all the written loop waits less than the documented one, under every
      configuration the flags document. */
  lemma WrittenNeverWaits(failures: int, initial: int, max: int)
    requires 0 < initial <= max
    ensures Written(failures, initial, max) == 0
    ensures failures > 0 ==> Written(failures, initial, max) < Intended(failures, initial, max)
  {
  }
}
