/**
 * The exponential backoff of one socket worker: a delay in seconds that
 * starts at 1, doubles on each closure while it is below the limit of 128,
 * and falls back to 1 on a successful send. The worker in ApnsObject updates
 * its own variable in place; these functions specify that variable.
 */
module Backoff {

  const Floor := 1
  const Limit := 128

  /** The delays the variable can ever hold. */
  const Levels: set<int> := {1, 2, 4, 8, 16, 32, 64, 128}

  function Pow2(k: nat): (p: int)
    ensures p >= 1
  {
    if k == 0 then 1 else 2 * Pow2(k - 1)
  }

  function Min(a: int, b: int): int {
    if a <= b then a else b
  }

  /** The delay after a closure: doubled, capped at the limit. */
  function OnClosure(b: int): (b': int)
    ensures b in Levels ==> b' in Levels && b' == Min(2 * b, Limit)
    ensures b >= Limit ==> b' == b
  {
    if b < Limit then b * 2 else b
  }

  /** The delay after `k` consecutive closures starting from `b`. */
  function AfterClosures(b: int, k: nat): int {
    if k == 0 then b else OnClosure(AfterClosures(b, k - 1))
  }

  /** `k` closures in a row from the floor give 2^k seconds, capped at the
      limit; the delay never leaves Levels. */
  lemma {:induction false} ClosuresFromFloor(k: nat)
    ensures AfterClosures(Floor, k) == Min(Pow2(k), Limit)
    ensures AfterClosures(Floor, k) in Levels
  {
    if k > 0 {
      ClosuresFromFloor(k - 1);
      if k - 1 >= 7 {
        Pow2AtLeastLimit(k - 1);
        Pow2AtLeastLimit(k);
      }
    }
  }

  lemma {:induction false} Pow2AtLeastLimit(k: nat)
    requires k >= 7
    ensures Pow2(k) >= Limit
  {
    if k > 7 {
      Pow2AtLeastLimit(k - 1);
    }
  }

  /** Three closures in a row give 2, 4 and 8; seven or more give 128. */
  lemma ThreeClosuresScenario(k: nat)
    requires k >= 7
    ensures AfterClosures(Floor, 1) == 2 && AfterClosures(Floor, 2) == 4
    ensures AfterClosures(Floor, 3) == 8 && AfterClosures(Floor, k) == Limit
  {
    ClosuresFromFloor(3);
    ClosuresFromFloor(k);
    Pow2AtLeastLimit(k);
  }
}
