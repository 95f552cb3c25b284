/** The "steps to the next lamp" rule: lamps stand every 100 steps, and
    the counter shows how many steps remain to the next one. */
module Lamp {

  const LampSpacing: int := 100

  /** The value shown before any step count arrives: a full spacing. */
  const InitialStepsToLamp: int := 100

  /** JavaScript's `total % 100`: the remainder takes the sign of the
      dividend. */
  function Remainder(total: int): (r: int)
    ensures total >= 0 ==> 0 <= r < LampSpacing
    ensures total < 0 ==> -LampSpacing < r <= 0
    ensures (total - r) % LampSpacing == 0
  {
    if total >= 0 then total % LampSpacing else -((-total) % LampSpacing)
  }

  /** Steps to the next lamp for a running total: the rest of the current
      stretch, or a whole stretch when the total sits exactly on a lamp. */
  function StepsToLamp(total: int): (n: int)
    ensures (total + n) % LampSpacing == 0
    ensures total >= 0 ==> 1 <= n <= LampSpacing
    ensures total % LampSpacing == 0 ==> n == LampSpacing
  {
    var remainder := Remainder(total);
    if remainder == 0 then LampSpacing else LampSpacing - remainder
  }

  /** No lamp is passed before the one the counter points at. */
  lemma StepsToLampIsNearest(total: int, k: int)
    requires total >= 0 && 0 < k < StepsToLamp(total)
    ensures (total + k) % LampSpacing != 0
  {
  }

  /** Every further step brings the lamp one step closer, until it is
      reached and the count starts again from a full stretch. */
  lemma StepTowardsLamp(total: int)
    requires total >= 0
    ensures StepsToLamp(total) > 1 ==> StepsToLamp(total + 1) == StepsToLamp(total) - 1
    ensures StepsToLamp(total) == 1 ==> StepsToLamp(total + 1) == LampSpacing
  {
  }

  /** Walking a whole stretch leads to the same point before the next lamp. */
  lemma StepsToLampPeriodic(total: int)
    requires total >= 0
    ensures StepsToLamp(total + LampSpacing) == StepsToLamp(total)
  {
  }

  /** The starting value is the rule applied to no steps at all. */
  lemma InitialIsNoSteps()
    ensures InitialStepsToLamp == StepsToLamp(0)
  {
  }

  /** On each step event the total is the day's earlier steps plus the
      steps counted since the subscription began. */
  function StepsAfterUpdate(baseSteps: int, sessionSteps: int): (n: int)
    ensures (baseSteps + sessionSteps + n) % LampSpacing == 0
    ensures baseSteps >= 0 && sessionSteps >= 0 ==> 1 <= n <= LampSpacing
  {
    StepsToLamp(baseSteps + sessionSteps)
  }
}
