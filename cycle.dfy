/** The grant-cycle advance shared by app/api/toss/billing/route.ts and
    app/api/cron/cycle-credit-reset/route.ts: starting from a base date, add 30 days
    while the date is not after now; the cycle then runs from 30 days before that
    date up to it. Dates are integers in whatever unit the caller uses, and `step` is
    30 days in that unit. */
module Cycle {
  /** How many steps the loop takes. */
  function CycleCount(base: int, now: int, step: nat): nat
    requires step > 0
    decreases now - base
  {
    if base > now then 0 else 1 + CycleCount(base + step, now, step)
  }

  /** The first date `base + k * step` (k >= 0) that lies after `now`. */
  function NextCycle(base: int, now: int, step: nat): int
    requires step > 0
  {
    base + step * CycleCount(base, now, step)
  }

  /** The next grant date is after now and a whole number of steps from the base;
      it is the first such date: one step earlier is not after now, unless no step
      was taken because the base itself is after now. */
  lemma {:induction false} NextCycleBounds(base: int, now: int, step: nat)
    requires step > 0
    ensures now < NextCycle(base, now, step)
    ensures base <= NextCycle(base, now, step)
    ensures base <= now ==> NextCycle(base, now, step) - step <= now
    ensures base > now ==> NextCycle(base, now, step) == base
    decreases now - base
  {
    if base <= now {
      var k := CycleCount(base + step, now, step);
      assert step * (1 + k) == step + step * k;
      NextCycleBounds(base + step, now, step);
    }
  }

  /** The `while (currentCycle <= now) currentCycle += 30 days` loop; returns the new
      cycle start and the next grant date. */
  method AdvanceCycle(base: int, now: int, step: nat) returns (start: int, next: int)
    requires step > 0
    ensures next == NextCycle(base, now, step) && start == next - step
  {
    next := base;
    ghost var k: nat := 0;
    while next <= now
      invariant next == base + step * k
      invariant CycleCount(base, now, step) == k + CycleCount(next, now, step)
      decreases now - next
    {
      assert step * (k + 1) == step * k + step;
      next := next + step;
      k := k + 1;
    }
    start := next - step;
  }
}
