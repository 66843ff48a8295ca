/** The few helpers of Unity's `Mathf` that the vehicle controller calls,
    over exact reals (single-precision rounding is not modelled). */
module Mathf {

  function Abs(x: real): (r: real)
    ensures r >= 0.0
    ensures r == x || r == -x
  {
    if x < 0.0 then -x else x
  }

  /** `Mathf.Sign`: 1 for zero and positive values, -1 for negative ones. */
  function Sign(x: real): (r: real)
    ensures r == 1.0 <==> x >= 0.0
    ensures r == -1.0 <==> x < 0.0
  {
    if x >= 0.0 then 1.0 else -1.0
  }

  function Max(a: real, b: real): real
  {
    if a >= b then a else b
  }

  function Min(a: real, b: real): real
  {
    if a <= b then a else b
  }

  /** `Mathf.MoveTowards`: step from `current` toward `target` by at most
      `maxDelta`, landing on `target` when it is within reach. Unity adds
      `Sign(target - current) * maxDelta`; the two cases of the sign are
      written out here. */
  function MoveTowards(current: real, target: real, maxDelta: real): real
  {
    if Abs(target - current) <= maxDelta then target
    else if target - current >= 0.0 then current + maxDelta
    else current - maxDelta
  }

  /** What a step of `MoveTowards` promises. */
  lemma MoveTowardsStep(current: real, target: real, maxDelta: real)
    // within reach: exactly the target
    ensures Abs(target - current) <= maxDelta ==> MoveTowards(current, target, maxDelta) == target
    // a non-negative step never passes the target ...
    ensures maxDelta >= 0.0 ==>
      Min(current, target) <= MoveTowards(current, target, maxDelta) <= Max(current, target)
    // ... is at most maxDelta long ...
    ensures maxDelta >= 0.0 ==> Abs(MoveTowards(current, target, maxDelta) - current) <= maxDelta
    // ... and is a full step unless it reaches the target
    ensures maxDelta >= 0.0 ==>
      (MoveTowards(current, target, maxDelta) == target <==> Abs(target - current) <= maxDelta)
    ensures maxDelta >= 0.0 && MoveTowards(current, target, maxDelta) != target ==>
      Abs(MoveTowards(current, target, maxDelta) - current) == maxDelta
  {
  }
}
