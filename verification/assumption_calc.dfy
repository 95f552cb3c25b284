/** Valuation of one catalogue item: a per-week or per-year base rate from
    a table keyed by id, scaled by the clamped factors its tags name, then
    floored and kept non-negative. */
module AssumptionCalc {
  import opened Calc

  /** A row of the catalogue: the fields valuation and its hint read.
      `affectedBy` holds the factor tags. */
  datatype LifeAssumption = LifeAssumption(
    id: string,
    calculationHint: string,
    affectedBy: seq<string>)

  /** Whole years until the adjusted expectancy age; the weeks counter is
      exactly 52 of them per year. */
  function RemainingYears(a: Assumptions): (y: int)
    ensures y >= 0
    ensures y == 0 <==> a.age >= AdjustedLifeExpectancyAge(a)
    ensures WeeksRemaining(a) == 52 * y
  {
    MaxInt(0, AdjustedLifeExpectancyAge(a) - a.age)
  }

  /** 0.9 at health 3, five hundredths per step; on the slider range 1..5
      the clamp to 0.75..1.15 is never reached. */
  function HealthConditionFactor(a: Assumptions): (f: real)
    ensures 0.75 <= f <= 1.15
    ensures 1 <= a.healthCondition <= 5 ==> 0.8 <= f <= 1.0
  {
    Clamp(0.9 + (a.healthCondition - 3) as real * 0.05, 0.75, 1.15)
  }

  /** 0.85 at eating 3, six hundredths per step, clamped to 0.70..1.20. */
  function EatingHabitsFactor(a: Assumptions): (f: real)
    ensures 0.7 <= f <= 1.2
    ensures 1 <= a.eatingHabits <= 5 ==> 0.73 <= f <= 0.97
  {
    Clamp(0.85 + (a.eatingHabits - 3) as real * 0.06, 0.7, 1.2)
  }

  /** Workdays and coffees around 5 and 2, scaled by the health factor,
      clamped to 0.55..1.45. */
  function LifestyleFactor(a: Assumptions): (f: real)
    ensures 0.55 <= f <= 1.45
  {
    Clamp(
      (0.85
        + (a.workdaysPerWeek - 5) as real * 0.05
        + (a.coffeesPerDay - 2) as real * 0.04)
        * HealthConditionFactor(a),
      0.55,
      1.45)
  }

  /** Coffees per six and workdays per seven, scaled by the eating factor,
      clamped to 0.45..1.50. */
  function HabitsFactor(a: Assumptions): (f: real)
    ensures 0.45 <= f <= 1.5
  {
    Clamp(
      (0.6
        + (a.coffeesPerDay as real / 6.0) * 0.5
        + (a.workdaysPerWeek as real / 7.0) * 0.3)
        * EatingHabitsFactor(a),
      0.45,
      1.5)
  }

  /** From 0.8 at optimism 0 to 1.2 at optimism 10. */
  function OptimismFactor(a: Assumptions): (f: real)
    ensures 0.8 <= f <= 1.2
    ensures a.optimism <= 0 ==> f == 0.8
    ensures a.optimism >= 10 ==> f == 1.2
  {
    Clamp(0.8 + (a.optimism as real / 10.0) * 0.4, 0.8, 1.2)
  }

  /** From 1.1 at birth down to its floor 0.75, reached from age 88 on. */
  function AgeFactor(a: Assumptions): (f: real)
    ensures 0.75 <= f <= 1.1
    ensures a.age <= 0 ==> f == 1.1
    ensures a.age >= 88 ==> f == 0.75
  {
    Clamp(1.1 - (a.age as real / 100.0) * 0.4, 0.75, 1.1)
  }

  /** A rate entry. A field the table leaves out is 0.0: like an absent
      field, zero fails the truthiness test that picks the rate. */
  datatype Rate = Rate(perWeek: real, perYear: real)

  function PerWeek(r: real): Rate { Rate(r, 0.0) }

  function PerYear(r: real): Rate { Rate(0.0, r) }

  /** The rate table as the source writes it: one (id, rate) entry per
      catalogue item, in catalogue order. */
  const RateTable: seq<(string, Rate)> := [
    ("matches-burned", PerWeek(1.1)),
    ("toothpicks-broken", PerWeek(2.6)),
    ("candles-forgotten", PerYear(1.8)),
    ("plastic-lids-lost", PerWeek(0.7)),
    ("pens-stop-mid-sentence", PerYear(6.2)),
    ("batteries-just-in-case", PerYear(4.1)),
    ("paper-towels-unnecessary", PerWeek(4.0)),
    ("coffee-cups-held-too-long", PerWeek(5.0)),
    ("receipts-kept-for-later", PerWeek(3.1)),
    ("plastic-bags-reused-once", PerWeek(1.4)),
    ("glasses-dishwasher-wrong", PerWeek(1.1)),
    ("chairs-temp-storage", PerWeek(2.0)),
    ("doors-closed-without-why", PerWeek(3.2)),
    ("switches-flipped-twice", PerWeek(4.0)),
    ("sockets-unplugged-emotionally", PerWeek(1.0)),
    ("keys-somewhere-safe", PerWeek(0.8)),
    ("drawers-opened-no-purpose", PerWeek(2.2)),
    ("shelves-dusted-incompletely", PerYear(8.0)),
    ("plants-killed-good-intentions", PerYear(1.0)),
    ("mugs-sentimental", PerYear(1.6)),
    ("minutes-doorways", PerWeek(12.0)),
    ("alarms-snoozed", PerWeek(3.1)),
    ("emails-reread", PerWeek(5.0)),
    ("lists-rewritten", PerWeek(1.2)),
    ("decisions-postponed", PerWeek(0.9)),
    ("moments-waiting-right-time", PerWeek(4.2)),
    ("evenings-scrolling", PerWeek(1.5)),
    ("plans-almost-made", PerWeek(1.0)),
    ("weekends-underestimated", PerYear(20.0)),
    ("mondays-anticipated", PerWeek(1.0)),
    ("conversations-ended-too-late", PerWeek(2.2)),
    ("goodbyes-too-long", PerWeek(1.2)),
    ("names-forgotten", PerWeek(1.0)),
    ("eye-contact-too-long", PerWeek(3.0)),
    ("laughs-politeness", PerWeek(4.0)),
    ("stories-nodded-through", PerWeek(2.3)),
    ("opinions-withheld", PerWeek(2.8)),
    ("apologies-preemptive", PerWeek(1.3)),
    ("messages-deleted", PerWeek(2.5)),
    ("clarity-ignored", PerWeek(1.1))
  ]

  /** The lookup an object literal gives: each entry adds its id, and a
      later entry with the same id would replace an earlier one. */
  function RatesMap(table: seq<(string, Rate)>): map<string, Rate>
  {
    if table == [] then map[]
    else
      var last := table[|table| - 1];
      RatesMap(table[..|table| - 1])[last.0 := last.1]
  }

  const AssumptionRates: map<string, Rate> := RatesMap(RateTable)

  predicate KeysDistinct(table: seq<(string, Rate)>)
  {
    forall i, j | 0 <= i < j < |table| :: table[i].0 != table[j].0
  }

  /** Every id the map knows comes from some entry, and maps to that
      entry's rate. */
  lemma {:induction false} RatesMapFrom(table: seq<(string, Rate)>, id: string)
    ensures id in RatesMap(table) ==>
      exists k | 0 <= k < |table| :: table[k].0 == id && RatesMap(table)[id] == table[k].1
  {
    if table != [] {
      var front := table[..|table| - 1];
      var last := table[|table| - 1];
      if id in RatesMap(table) && id != last.0 {
        RatesMapFrom(front, id);
        var k :| 0 <= k < |front| && front[k].0 == id && RatesMap(front)[id] == front[k].1;
        assert table[k] == front[k];
      }
    }
  }

  /** With distinct ids, every entry can be looked up and gives its own
      rate. */
  lemma {:induction false} RatesMapLookup(table: seq<(string, Rate)>, k: int)
    requires KeysDistinct(table)
    requires 0 <= k < |table|
    ensures table[k].0 in RatesMap(table)
    ensures RatesMap(table)[table[k].0] == table[k].1
  {
    var front := table[..|table| - 1];
    if k < |table| - 1 {
      assert KeysDistinct(front) by {
        forall i, j | 0 <= i < j < |front| ensures front[i].0 != front[j].0 {
          assert front[i] == table[i] && front[j] == table[j];
        }
      }
      RatesMapLookup(front, k);
      assert front[k] == table[k];
    }
  }

  /** A number that tells the table's ids apart: the first and the tenth
      character of the id. */
  ghost function IdKey(id: string): int
  {
    if |id| < 10 then 0 else 128 * (id[0] as int) + id[9] as int
  }

  /** The table position of the id with a given key. */
  ghost function KeyPosition(key: int): int
  {
    if key < 14052 then
      if key < 12915 then
        if key < 12781 then
          if key < 12589 then
            if key < 12527 then
              37
            else
              21
          else
            if key < 12775 then
              5
            else
              if key < 12777 then
                39
              else
                30
        else
          if key < 12784 then
            if key < 12783 then
              11
            else
              2
          else
            if key < 12845 then
              7
            else
              if key < 12912 then
                24
              else
                16
      else
        if key < 13300 then
          if key < 13042 then
            if key < 13027 then
              12
            else
              33
          else
            if key < 13043 then
              22
            else
              if key < 13289 then
                26
              else
                10
        else
          if key < 13932 then
            if key < 13815 then
              31
            else
              15
          else
            if key < 13938 then
              34
            else
              if key < 14049 then
                23
              else
                25
    else
      if key < 14441 then
        if key < 14183 then
          if key < 14062 then
            if key < 14057 then
              38
            else
              19
          else
            if key < 14063 then
              29
            else
              if key < 14069 then
                20
              else
                0
        else
          if key < 14381 then
            if key < 14327 then
              32
            else
              36
          else
            if key < 14433 then
              4
            else
              if key < 14437 then
                9
              else
                6
      else
        if key < 14830 then
          if key < 14447 then
            if key < 14444 then
              3
            else
              18
          else
            if key < 14699 then
              27
            else
              if key < 14822 then
                8
              else
                13
        else
          if key < 14837 then
            if key < 14831 then
              14
            else
              35
          else
            if key < 14963 then
              17
            else
              if key < 15349 then
                1
              else
                28
  }

  lemma KeysLocateFirstHalf()
    ensures forall k | 0 <= k < 20 :: KeyPosition(IdKey(RateTable[k].0)) == k
  {
  }

  lemma KeysLocateSecondHalf()
    ensures forall k | 20 <= k < |RateTable| :: KeyPosition(IdKey(RateTable[k].0)) == k
  {
  }

  /** No id appears twice in the rate table. */
  lemma RateTableKeysDistinct()
    ensures |RateTable| == 40
    ensures KeysDistinct(RateTable)
  {
    KeysLocateFirstHalf();
    KeysLocateSecondHalf();
  }

  /** Every rate in the table is non-negative, and each entry sets exactly
      one of its two fields. */
  lemma RatesWellFormed()
    ensures forall id | id in AssumptionRates ::
      && AssumptionRates[id].perWeek >= 0.0
      && AssumptionRates[id].perYear >= 0.0
      && (AssumptionRates[id].perWeek == 0.0 <==> AssumptionRates[id].perYear != 0.0)
  {
    forall id | id in AssumptionRates
      ensures AssumptionRates[id].perWeek >= 0.0 && AssumptionRates[id].perYear >= 0.0
      ensures AssumptionRates[id].perWeek == 0.0 <==> AssumptionRates[id].perYear != 0.0
    {
      RatesMapFrom(RateTable, id);
      EntriesWellFormed();
    }
  }

  lemma EntriesWellFormed()
    ensures forall k | 0 <= k < |RateTable| ::
      && RateTable[k].1.perWeek >= 0.0
      && RateTable[k].1.perYear >= 0.0
      && (RateTable[k].1.perWeek == 0.0 <==> RateTable[k].1.perYear != 0.0)
  {
  }

  /** The unscaled count one rate entry gives: the weekly rate times the
      remaining weeks when it is set, otherwise the yearly rate times the
      remaining years. */
  function RateCount(rates: Rate, weeks: int, years: int): (b: real)
    ensures weeks >= 0 && years >= 0 && rates.perWeek >= 0.0 && rates.perYear >= 0.0 ==> b >= 0.0
    ensures weeks == 0 && years == 0 ==> b == 0.0
    ensures rates.perWeek != 0.0 ==> b == weeks as real * rates.perWeek
    ensures rates.perWeek == 0.0 ==> b == years as real * rates.perYear
  {
    if rates.perWeek != 0.0 then
      NonNegativeProduct(weeks as real, rates.perWeek);
      weeks as real * rates.perWeek
    else if rates.perYear != 0.0 then
      NonNegativeProduct(years as real, rates.perYear);
      years as real * rates.perYear
    else 0.0
  }

  lemma NonNegativeProduct(x: real, y: real)
    ensures x >= 0.0 && y >= 0.0 ==> x * y >= 0.0
  {
  }

  /** The unscaled count for an id: a weekly rate scales the remaining
      weeks and takes precedence, a yearly rate scales the remaining years;
      0 for an id the table does not know. */
  function BaseCount(a: Assumptions, id: string): (b: real)
    ensures id !in AssumptionRates ==> b == 0.0
    ensures b >= 0.0
    ensures a.age >= AdjustedLifeExpectancyAge(a) ==> b == 0.0
    ensures id in AssumptionRates ==> b == RateCount(AssumptionRates[id], WeeksRemaining(a), RemainingYears(a))
  {
    if id !in AssumptionRates then 0.0
    else
      var rates := AssumptionRates[id];
      var remainingWeeks := WeeksRemaining(a);
      var remainingYears := RemainingYears(a);
      RatesWellFormed();
      RateCount(rates, remainingWeeks, remainingYears)
  }

  /** The tags that select a factor; any other tag selects none. */
  const FactorTags: seq<string> := ["age", "lifestyle", "habits", "optimism"]

  /** The four tag-selectable factors of one set of assumptions. */
  datatype Factors = Factors(age: real, lifestyle: real, habits: real, optimism: real)

  function FactorsOf(a: Assumptions): (fs: Factors)
    ensures 0.75 <= fs.age <= 1.1 && 0.55 <= fs.lifestyle <= 1.45
    ensures 0.45 <= fs.habits <= 1.5 && 0.8 <= fs.optimism <= 1.2
  {
    Factors(AgeFactor(a), LifestyleFactor(a), HabitsFactor(a), OptimismFactor(a))
  }

  /** One tag check of the running product: multiply `x` in or not. */
  function Step(acc: real, take: bool, x: real): real
  {
    if take then acc * x else acc
  }

  /** The running product from 1 that multiplies in, for each of the four
      factor tags present, that tag's factor. */
  function Combine(fs: Factors, tags: seq<string>): real
  {
    var withAge := Step(1.0, "age" in tags, fs.age);
    var withLifestyle := Step(withAge, "lifestyle" in tags, fs.lifestyle);
    var withHabits := Step(withLifestyle, "habits" in tags, fs.habits);
    Step(withHabits, "optimism" in tags, fs.optimism)
  }

  /** The combined factor of an item's tags. */
  function Factor(a: Assumptions, tags: seq<string>): real
  {
    Combine(FactorsOf(a), tags)
  }

  /** The factor a present tag contributes: its value, or 1 when absent. */
  function Pick(present: bool, x: real): real
  {
    if present then x else 1.0
  }

  /** The running product is the product of the four picked factors. */
  lemma CombineIsProduct(fs: Factors, tags: seq<string>)
    ensures Combine(fs, tags) ==
      Pick("age" in tags, fs.age) * Pick("lifestyle" in tags, fs.lifestyle)
      * Pick("habits" in tags, fs.habits) * Pick("optimism" in tags, fs.optimism)
  {
  }

  /** Only which factor tags are present matters: not their order, not
      how often they occur, not the other tags. */
  lemma CombineByPresence(fs: Factors, tags: seq<string>, other: seq<string>)
    requires forall tag | tag in FactorTags :: tag in tags <==> tag in other
    ensures Combine(fs, tags) == Combine(fs, other)
  {
    assert FactorTags[0] == "age" && FactorTags[1] == "lifestyle";
    assert FactorTags[2] == "habits" && FactorTags[3] == "optimism";
  }

  /** A tag that names no factor contributes 1. */
  lemma FactorIgnoresOtherTags(a: Assumptions, tags: seq<string>, tag: string)
    requires tag !in FactorTags
    ensures Factor(a, tags + [tag]) == Factor(a, tags)
  {
    CombineByPresence(FactorsOf(a), tags + [tag], tags);
  }

  /** A repeated tag multiplies its factor in only once. */
  lemma FactorIgnoresRepeats(a: Assumptions, tags: seq<string>, tag: string)
    requires tag in tags
    ensures Factor(a, tags + [tag]) == Factor(a, tags)
  {
    CombineByPresence(FactorsOf(a), tags + [tag], tags);
  }

  /** One step of the running product keeps it inside the widened bounds,
      whether or not a factor in [lo, hi] with lo <= 1 <= hi is taken. */
  lemma BoundedStep(acc: real, accLo: real, accHi: real, take: bool, x: real, lo: real, hi: real)
    requires 0.0 < accLo <= acc <= accHi
    requires 0.0 < lo <= x <= hi && lo <= 1.0 <= hi
    ensures accLo * lo <= Step(acc, take, x) <= accHi * hi
  {
    if take {
      MulMonotone(accLo, acc, lo, x);
      MulMonotone(acc, accHi, x, hi);
    } else {
      MulMonotone(accLo, accLo, lo, 1.0);
      MulMonotone(accHi, accHi, 1.0, hi);
    }
  }

  /** Bounds on the running product, given bounds on each factor. */
  lemma CombineBounds(fs: Factors, tags: seq<string>)
    requires 0.75 <= fs.age <= 1.1 && 0.55 <= fs.lifestyle <= 1.45
    requires 0.45 <= fs.habits <= 1.5 && 0.8 <= fs.optimism <= 1.2
    ensures 0.75 * 0.55 * 0.45 * 0.8 <= Combine(fs, tags) <= 1.1 * 1.45 * 1.5 * 1.2
  {
    var withAge := Step(1.0, "age" in tags, fs.age);
    BoundedStep(1.0, 1.0, 1.0, "age" in tags, fs.age, 0.75, 1.1);
    var withLifestyle := Step(withAge, "lifestyle" in tags, fs.lifestyle);
    BoundedStep(withAge, 0.75, 1.1, "lifestyle" in tags, fs.lifestyle, 0.55, 1.45);
    var withHabits := Step(withLifestyle, "habits" in tags, fs.habits);
    BoundedStep(withLifestyle, 0.75 * 0.55, 1.1 * 1.45, "habits" in tags, fs.habits, 0.45, 1.5);
    BoundedStep(withHabits, 0.75 * 0.55 * 0.45, 1.1 * 1.45 * 1.5, "optimism" in tags, fs.optimism, 0.8, 1.2);
  }

  /** The combined factor is positive and lies between the product of the
      four lower bounds and the product of the four upper bounds; with no
      tags it is 1. */
  lemma FactorBounds(a: Assumptions, tags: seq<string>)
    ensures 0.75 * 0.55 * 0.45 * 0.8 <= Factor(a, tags) <= 1.1 * 1.45 * 1.5 * 1.2
    ensures tags == [] ==> Factor(a, tags) == 1.0
  {
    CombineBounds(FactorsOf(a), tags);
  }

  /** The running product the source accumulates, one tag check at a time. */
  method GetFactor(a: Assumptions, item: LifeAssumption) returns (factor: real)
    ensures factor == Factor(a, item.affectedBy)
  {
    factor := MultiplyIn(FactorsOf(a), item.affectedBy);
  }

  method MultiplyIn(fs: Factors, tags: seq<string>) returns (factor: real)
    ensures factor == Combine(fs, tags)
  {
    factor := 1.0;
    if "age" in tags {
      factor := factor * fs.age;
    }
    if "lifestyle" in tags {
      factor := factor * fs.lifestyle;
    }
    if "habits" in tags {
      factor := factor * fs.habits;
    }
    if "optimism" in tags {
      factor := factor * fs.optimism;
    }
  }

  /** The displayed count of an item: a non-negative whole number, zero for
      an unknown id and zero once no years remain. */
  function AssumptionValue(a: Assumptions, item: LifeAssumption): (v: int)
    ensures v >= 0
    ensures item.id !in AssumptionRates ==> v == 0
    ensures a.age >= AdjustedLifeExpectancyAge(a) ==> v == 0
  {
    var base := BaseCount(a, item.id);
    Scaled(base, Factor(a, item.affectedBy))
  }

  /** A base count scaled by a factor, floored and kept non-negative. */
  function Scaled(base: real, factor: real): (v: int)
    ensures v >= 0
    ensures base == 0.0 ==> v == 0
    ensures v == 0 <==> base * factor < 1.0
    ensures v > 0 ==> v as real <= base * factor < v as real + 1.0
  {
    MaxInt(0, (base * factor).Floor)
  }

  /** For an id the table knows, the value is the floored product of its
      base count and its tags' factor. */
  lemma RatedValuation(a: Assumptions, item: LifeAssumption, rate: Rate)
    requires item.id in AssumptionRates && AssumptionRates[item.id] == rate
    ensures AssumptionValue(a, item) ==
      Scaled(RateCount(rate, WeeksRemaining(a), RemainingYears(a)), Factor(a, item.affectedBy))
  {
  }
}
