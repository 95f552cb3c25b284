/** Headline counters of the Next.js variant: life-expectancy band, the
    health and eating adjustments, and the four counters derived from the
    remaining weeks. Every number is computed from one Assumptions record;
    JavaScript's Math.round is half-up rounding and Math.floor is `.Floor`. */
module Calc {

  /** A value that may be absent (JavaScript's undefined). */
  datatype Option<T> = None | Some(value: T)

  datatype LifeExpectancy = Short | Average | Optimistic

  /** The absurdity tone; it selects wording only. */
  datatype Tone = Dry | Bleak | Bureaucratic | Cosmic

  /** The fields the calculation code reads. Sliders are whole numbers:
      health and eating 1..5, coffees 0..6, workdays 0..7, optimism 0..10,
      but nothing here relies on those ranges. */
  datatype Assumptions = Assumptions(
    age: int,
    lifeExpectancy: LifeExpectancy,
    healthCondition: int,
    eatingHabits: int,
    coffeesPerDay: int,
    workdaysPerWeek: int,
    optimism: int,
    tone: Tone)

  /** Position of a band in the order short < average < optimistic. */
  function BandRank(band: LifeExpectancy): nat
  {
    match band
    case Short => 0
    case Average => 1
    case Optimistic => 2
  }

  /** Base expectancy age of a band: 70, 80 or 90, ten years per band step. */
  function LifeExpectancyAge(band: LifeExpectancy): (age: int)
    ensures band == Short ==> age == 70
    ensures band == Average ==> age == 80
    ensures band == Optimistic ==> age == 90
    ensures age == 70 + 10 * BandRank(band)
  {
    match band
    case Short => 70
    case Average => 80
    case Optimistic => 90
  }

  function MaxInt(a: int, b: int): int
  {
    if a >= b then a else b
  }

  /** Math.min(hi, Math.max(lo, value)) over numbers with a fraction. */
  function Clamp(value: real, lo: real, hi: real): (r: real)
    ensures lo <= hi ==> lo <= r <= hi
    ensures lo <= value <= hi ==> r == value
    ensures value < lo && lo <= hi ==> r == lo
    ensures hi < value ==> r == hi
  {
    var raised := if value > lo then value else lo;
    if raised < hi then raised else hi
  }

  /** The same clamp over whole numbers. */
  function ClampInt(value: int, lo: int, hi: int): (r: int)
    ensures lo <= hi ==> lo <= r <= hi
    ensures lo <= value <= hi ==> r == value
    ensures value < lo && lo <= hi ==> r == lo
    ensures hi < value ==> r == hi
  {
    var raised := if value > lo then value else lo;
    if raised < hi then raised else hi
  }

  /** A product of whole numbers is whole: Math.floor leaves it unchanged. */
  lemma WholeProduct(x: int, y: int)
    ensures x as real * y as real == (x * y) as real
    ensures (x as real * y as real).Floor == x * y
  {
  }

  /** max(0, floor(x × y)) for non-negative whole x and y: exactly their
      product, and zero only when one of them is. */
  function WholeCount(x: int, y: int): (n: int)
    requires x >= 0 && y >= 0
    ensures n == x * y
    ensures n == 0 <==> x == 0 || y == 0
  {
    WholeProduct(x, y);
    PositiveProduct(x, y);
    MaxInt(0, (x as real * y as real).Floor)
  }

  lemma PositiveProduct(x: int, y: int)
    requires x >= 0 && y >= 0
    ensures x * y == 0 <==> x == 0 || y == 0
  {
    if x > 0 && y > 0 {
      ScaleInt(x, 1, y);
    }
  }

  /** JavaScript's Math.round: the nearest integer, halves rounding up. */
  function Round(x: real): (n: int)
    ensures n as real - 0.5 <= x < n as real + 0.5
  {
    (x + 0.5).Floor
  }

  /** Years added by the health slider, saturating outside 1..5. */
  function HealthDeltaYears(healthCondition: int): (d: real)
    ensures -4.0 <= d <= 4.0
    ensures healthCondition <= 1 ==> d == -4.0
    ensures healthCondition >= 5 ==> d == 4.0
    ensures healthCondition == 3 ==> d == 0.0
  {
    var clamped := ClampInt(healthCondition, 1, 5);
    ((clamped - 3) * 2) as real
  }

  /** Years added by the eating slider, saturating outside 1..5. */
  function EatingHabitsDeltaYears(eatingHabits: int): (d: real)
    ensures -3.0 <= d <= 3.0
    ensures eatingHabits <= 1 ==> d == -3.0
    ensures eatingHabits >= 5 ==> d == 3.0
    ensures eatingHabits == 3 ==> d == 0.0
  {
    var clamped := ClampInt(eatingHabits, 1, 5);
    (clamped - 3) as real * 1.5
  }

  /** The band adjusted by health and eating, rounded and kept in 50..105.
      The deltas move the band by at most seven years either way. */
  function AdjustedLifeExpectancyAge(a: Assumptions): (age: int)
    ensures 50 <= age <= 105
    ensures LifeExpectancyAge(a.lifeExpectancy) - 7 <= age <= LifeExpectancyAge(a.lifeExpectancy) + 7
  {
    var base := LifeExpectancyAge(a.lifeExpectancy);
    var adjusted := base as real + HealthDeltaYears(a.healthCondition) + EatingHabitsDeltaYears(a.eatingHabits);
    ClampInt(Round(adjusted), 50, 105)
  }

  // `name` holds the profile's `label` (a reserved word in Dafny).
  datatype HealthProfile = HealthProfile(name: string, description: string)

  /** The five profiles, indexed by score 1..5. */
  const Profiles: seq<HealthProfile> := [
    HealthProfile("fragile", "Expect lower stamina and slower recovery."),
    HealthProfile("strained", "Functional, but with more bad days than good."),
    HealthProfile("steady", "Average resilience with manageable dips."),
    HealthProfile("strong", "Reliable energy with occasional wobble."),
    HealthProfile("excellent", "High resilience and faster bounce-back.")
  ]

  /** The profile of the rounded mean of health and eating. The score is
      clamped to 1..5 before the lookup, so a profile always exists. */
  function GetHealthProfile(a: Assumptions): (p: HealthProfile)
    ensures p in Profiles
    ensures 1 <= a.healthCondition <= 5 && a.eatingHabits == a.healthCondition ==> p == Profiles[a.healthCondition - 1]
    ensures a.healthCondition + a.eatingHabits <= 2 ==> p == Profiles[0]
    ensures a.healthCondition + a.eatingHabits >= 9 ==> p == Profiles[4]
  {
    var score := Round((a.healthCondition + a.eatingHabits) as real / 2.0);
    Profiles[ClampInt(score, 1, 5) - 1]
  }

  /** Whole weeks left until the adjusted expectancy age, 52 per year.
      Zero exactly when the age has reached the expectancy; otherwise the
      weeks are a whole number of years that lead to it. */
  function WeeksRemaining(a: Assumptions): (w: int)
    ensures w >= 0 && w % 52 == 0
    ensures w == 0 <==> a.age >= AdjustedLifeExpectancyAge(a)
    ensures w > 0 ==> a.age + w / 52 == AdjustedLifeExpectancyAge(a)
    ensures a.age >= 0 ==> w <= 105 * 52
  {
    var expectancyAge := AdjustedLifeExpectancyAge(a);
    var remainingYears := MaxInt(0, expectancyAge - a.age);
    MaxInt(0, (remainingYears as real * 52.0).Floor)
  }

  /** One Sunday per remaining week. */
  function SundaysRemaining(a: Assumptions): (s: int)
    ensures s == WeeksRemaining(a)
  {
    WeeksRemaining(a)
  }

  /** Seven days of coffees per remaining week; none for a rate of zero or less. */
  function CoffeesLeft(a: Assumptions): (c: int)
    ensures c >= 0
    ensures c == 0 <==> WeeksRemaining(a) == 0 || a.coffeesPerDay <= 0
    ensures a.coffeesPerDay >= 0 ==> c == WeeksRemaining(a) * 7 * a.coffeesPerDay
  {
    var weeksRemaining := WeeksRemaining(a);
    var rate := MaxInt(0, a.coffeesPerDay);
    WholeCount(weeksRemaining * 7, rate)
  }

  /** Workdays per remaining week; none for a rate of zero or less. */
  function WorkdaysRemaining(a: Assumptions): (d: int)
    ensures d >= 0
    ensures d == 0 <==> WeeksRemaining(a) == 0 || a.workdaysPerWeek <= 0
    ensures a.workdaysPerWeek >= 0 ==> d == WeeksRemaining(a) * a.workdaysPerWeek
  {
    var weeksRemaining := WeeksRemaining(a);
    var rate := MaxInt(0, a.workdaysPerWeek);
    WholeCount(weeksRemaining, rate)
  }

  /** The share of `weeks` still postponed: optimism/10 of them (clamped to
      0..1) are taken away. In tenths of a week that is weeks × (10 − the
      optimism clamped to 0..10), floored. */
  function PostponedWeeks(weeks: int, optimism: int): (n: int)
    requires weeks >= 0
    ensures 0 <= n <= weeks
    ensures optimism <= 0 ==> n == weeks
    ensures optimism >= 10 ==> n == 0
    ensures n == ((weeks * (10 - ClampInt(optimism, 0, 10))) as real / 10.0).Floor
  {
    var optimismFactor := Clamp(optimism as real / 10.0, 0.0, 1.0);
    PostponedTenths(weeks, optimism);
    ScaleInt(weeks, 10 - ClampInt(optimism, 0, 10), 10);
    ScaleInt(weeks, 0, 10 - ClampInt(optimism, 0, 10));
    MaxInt(0, (weeks as real * (1.0 - optimismFactor)).Floor)
  }

  /** The postponed share counted in tenths of a week is a whole number. */
  lemma PostponedTenths(weeks: int, optimism: int)
    ensures weeks as real * (1.0 - Clamp(optimism as real / 10.0, 0.0, 1.0))
      == (weeks * (10 - ClampInt(optimism, 0, 10))) as real / 10.0
  {
    var c := ClampInt(optimism, 0, 10);
    assert Clamp(optimism as real / 10.0, 0.0, 1.0) == c as real / 10.0;
    WholeProduct(weeks, 10 - c);
  }

  /** Multiplying by a non-negative whole number keeps the order. */
  lemma ScaleInt(k: int, x: int, y: int)
    requires k >= 0 && x <= y
    ensures k * x <= k * y
  {
    assert k * y - k * x == k * (y - x);
  }

  /** Remaining weeks still postponed: a pessimist keeps every week and
      full optimism none. */
  function NextWeekStartRemaining(a: Assumptions): (n: int)
    ensures 0 <= n <= WeeksRemaining(a)
    ensures a.optimism <= 0 ==> n == WeeksRemaining(a)
    ensures a.optimism >= 10 ==> n == 0
  {
    PostponedWeeks(WeeksRemaining(a), a.optimism)
  }

  /** No counter reads the tone. */
  lemma CountersIgnoreTone(a: Assumptions, tone: Tone)
    ensures AdjustedLifeExpectancyAge(a.(tone := tone)) == AdjustedLifeExpectancyAge(a)
    ensures WeeksRemaining(a.(tone := tone)) == WeeksRemaining(a)
    ensures CoffeesLeft(a.(tone := tone)) == CoffeesLeft(a)
    ensures WorkdaysRemaining(a.(tone := tone)) == WorkdaysRemaining(a)
    ensures NextWeekStartRemaining(a.(tone := tone)) == NextWeekStartRemaining(a)
  {
  }

  lemma LifeExpectancyAgeIncreasing(b1: LifeExpectancy, b2: LifeExpectancy)
    requires BandRank(b1) < BandRank(b2)
    ensures LifeExpectancyAge(b1) < LifeExpectancyAge(b2)
  {
  }

  /** Better health and eating never shorten the adjusted expectancy. */
  lemma AdjustedMonotone(a: Assumptions, health: int, eating: int)
    requires a.healthCondition <= health && a.eatingHabits <= eating
    ensures AdjustedLifeExpectancyAge(a) <= AdjustedLifeExpectancyAge(a.(healthCondition := health, eatingHabits := eating))
  {
    var b := a.(healthCondition := health, eatingHabits := eating);
    var base := LifeExpectancyAge(a.lifeExpectancy) as real;
    var x := base + HealthDeltaYears(a.healthCondition) + EatingHabitsDeltaYears(a.eatingHabits);
    var y := base + HealthDeltaYears(health) + EatingHabitsDeltaYears(eating);
    assert x <= y;
    assert Round(x) <= Round(y);
  }

  /** Growing older never adds weeks. */
  lemma WeeksNonIncreasingInAge(a: Assumptions, older: int)
    requires a.age <= older
    ensures WeeksRemaining(a.(age := older)) <= WeeksRemaining(a)
  {
    assert AdjustedLifeExpectancyAge(a.(age := older)) == AdjustedLifeExpectancyAge(a);
  }

  /** At the same age, a later adjusted expectancy never removes weeks. */
  lemma WeeksNonDecreasingInExpectancy(a: Assumptions, b: Assumptions)
    requires a.age == b.age
    requires AdjustedLifeExpectancyAge(a) <= AdjustedLifeExpectancyAge(b)
    ensures WeeksRemaining(a) <= WeeksRemaining(b)
  {
  }

  lemma FloorMonotone(x: real, y: real)
    requires x <= y
    ensures x.Floor <= y.Floor
  {
  }

  lemma ScaleMonotone(w: real, p: real, q: real)
    requires w >= 0.0 && p <= q
    ensures w * p <= w * q
  {
  }

  lemma MulMonotone(a: real, b: real, c: real, d: real)
    requires 0.0 <= a <= b && 0.0 <= c <= d
    ensures a * c <= b * d
  {
    ScaleMonotone(a, c, d);
    ScaleMonotone(d, a, b);
    assert d * a == a * d;
    assert d * b == b * d;
  }

  /** More optimism never adds postponed weeks. */
  lemma PostponedWeeksNonIncreasing(weeks: int, optimism: int, more: int)
    requires weeks >= 0 && optimism <= more
    ensures PostponedWeeks(weeks, more) <= PostponedWeeks(weeks, optimism)
  {
    var f := ClampInt(optimism, 0, 10);
    var g := ClampInt(more, 0, 10);
    ScaleInt(weeks, 10 - g, 10 - f);
    FloorMonotone((weeks * (10 - g)) as real / 10.0, (weeks * (10 - f)) as real / 10.0);
  }

  lemma NextWeekNonIncreasingInOptimism(a: Assumptions, optimism: int)
    requires a.optimism <= optimism
    ensures NextWeekStartRemaining(a.(optimism := optimism)) <= NextWeekStartRemaining(a)
  {
    var b := a.(optimism := optimism);
    assert AdjustedLifeExpectancyAge(b) == AdjustedLifeExpectancyAge(a);
    PostponedWeeksNonIncreasing(WeeksRemaining(a), a.optimism, optimism);
  }

  /** The worked example: age 30, average band, health and eating 3,
      two coffees, five workdays, optimism 5. */
  lemma WorkedExample()
    ensures var a := Assumptions(30, Average, 3, 3, 2, 5, 5, Dry);
      && AdjustedLifeExpectancyAge(a) == 80
      && WeeksRemaining(a) == 2600
      && SundaysRemaining(a) == 2600
      && CoffeesLeft(a) == 36400
      && WorkdaysRemaining(a) == 13000
      && NextWeekStartRemaining(a) == 1300
  {
    var a := Assumptions(30, Average, 3, 3, 2, 5, 5, Dry);
    assert AdjustedLifeExpectancyAge(a) == 80;
    assert WeeksRemaining(a) == 2600;
  }
}
