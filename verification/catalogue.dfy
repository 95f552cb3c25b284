/** The catalogue of forty life-assumption items, and the facts that tie
    it to the rate table: distinct ids, every id rated, only factor tags. */
module Catalogue {
  import opened Calc
  import opened AssumptionCalc

  /** The rows in source order. Each calculation hint is written as three
      joined pieces, its lead, its coefficient and its factor names; the
      text is the source's, character for character. */
  const AssumptionsBase: seq<LifeAssumption> := [
    LifeAssumption(
      "matches-burned",
      "remainingWeeks × " + "1.1" + " × lifestyleFactor × habitsFactor",
      ["lifestyle", "habits"]),
    LifeAssumption(
      "toothpicks-broken",
      "remainingWeeks × " + "2.6" + " × habitsFactor",
      ["habits"]),
    LifeAssumption(
      "candles-forgotten",
      "remainingYears × " + "1.8" + " × lifestyleFactor",
      ["lifestyle", "age"]),
    LifeAssumption(
      "plastic-lids-lost",
      "remainingWeeks × " + "0.7" + " × lifestyleFactor",
      ["lifestyle"]),
    LifeAssumption(
      "pens-stop-mid-sentence",
      "remainingYears × " + "6.2" + " × lifestyleFactor",
      ["lifestyle"]),
    LifeAssumption(
      "batteries-just-in-case",
      "remainingYears × " + "4.1" + " × lifestyleFactor",
      ["lifestyle"]),
    LifeAssumption(
      "paper-towels-unnecessary",
      "remainingWeeks × " + "4.0" + " × habitsFactor",
      ["habits"]),
    LifeAssumption(
      "coffee-cups-held-too-long",
      "remainingWeeks × " + "5.0" + " × habitsFactor × lifestyleFactor",
      ["habits", "lifestyle"]),
    LifeAssumption(
      "receipts-kept-for-later",
      "remainingWeeks × " + "3.1" + " × lifestyleFactor",
      ["lifestyle"]),
    LifeAssumption(
      "plastic-bags-reused-once",
      "remainingWeeks × " + "1.4" + " × lifestyleFactor",
      ["lifestyle"]),
    LifeAssumption(
      "glasses-dishwasher-wrong",
      "remainingWeeks × " + "1.1" + " × lifestyleFactor",
      ["lifestyle"]),
    LifeAssumption(
      "chairs-temp-storage",
      "remainingWeeks × " + "2.0" + " × lifestyleFactor",
      ["lifestyle"]),
    LifeAssumption(
      "doors-closed-without-why",
      "remainingWeeks × " + "3.2" + " × lifestyleFactor",
      ["lifestyle"]),
    LifeAssumption(
      "switches-flipped-twice",
      "remainingWeeks × " + "4.0" + " × lifestyleFactor",
      ["lifestyle"]),
    LifeAssumption(
      "sockets-unplugged-emotionally",
      "remainingWeeks × " + "1.0" + " × lifestyleFactor",
      ["lifestyle"]),
    LifeAssumption(
      "keys-somewhere-safe",
      "remainingWeeks × " + "0.8" + " × lifestyleFactor",
      ["lifestyle"]),
    LifeAssumption(
      "drawers-opened-no-purpose",
      "remainingWeeks × " + "2.2" + " × lifestyleFactor",
      ["lifestyle"]),
    LifeAssumption(
      "shelves-dusted-incompletely",
      "remainingYears × " + "8.0" + " × lifestyleFactor",
      ["lifestyle", "age"]),
    LifeAssumption(
      "plants-killed-good-intentions",
      "remainingYears × " + "1.0" + " × lifestyleFactor",
      ["lifestyle", "age"]),
    LifeAssumption(
      "mugs-sentimental",
      "remainingYears × " + "1.6" + " × lifestyleFactor",
      ["lifestyle", "age"]),
    LifeAssumption(
      "minutes-doorways",
      "remainingWeeks × " + "12" + " × habitsFactor",
      ["habits"]),
    LifeAssumption(
      "alarms-snoozed",
      "remainingWeeks × " + "3.1" + " × habitsFactor",
      ["habits"]),
    LifeAssumption(
      "emails-reread",
      "remainingWeeks × " + "5.0" + " × optimismFactor × habitsFactor",
      ["optimism", "habits"]),
    LifeAssumption(
      "lists-rewritten",
      "remainingWeeks × " + "1.2" + " × optimismFactor",
      ["optimism"]),
    LifeAssumption(
      "decisions-postponed",
      "remainingWeeks × " + "0.9" + " × optimismFactor",
      ["optimism"]),
    LifeAssumption(
      "moments-waiting-right-time",
      "remainingWeeks × " + "4.2" + " × optimismFactor",
      ["optimism"]),
    LifeAssumption(
      "evenings-scrolling",
      "remainingWeeks × " + "1.5" + " × habitsFactor",
      ["habits"]),
    LifeAssumption(
      "plans-almost-made",
      "remainingWeeks × " + "1.0" + " × optimismFactor",
      ["optimism"]),
    LifeAssumption(
      "weekends-underestimated",
      "remainingYears × " + "20" + " × lifestyleFactor",
      ["lifestyle", "age"]),
    LifeAssumption(
      "mondays-anticipated",
      "remainingWeeks × " + "1.0" + " × habitsFactor",
      ["habits"]),
    LifeAssumption(
      "conversations-ended-too-late",
      "remainingWeeks × " + "2.2" + " × lifestyleFactor",
      ["lifestyle"]),
    LifeAssumption(
      "goodbyes-too-long",
      "remainingWeeks × " + "1.2" + " × lifestyleFactor",
      ["lifestyle"]),
    LifeAssumption(
      "names-forgotten",
      "remainingWeeks × " + "1.0" + " × lifestyleFactor",
      ["lifestyle"]),
    LifeAssumption(
      "eye-contact-too-long",
      "remainingWeeks × " + "3.0" + " × lifestyleFactor",
      ["lifestyle"]),
    LifeAssumption(
      "laughs-politeness",
      "remainingWeeks × " + "4.0" + " × lifestyleFactor",
      ["lifestyle"]),
    LifeAssumption(
      "stories-nodded-through",
      "remainingWeeks × " + "2.3" + " × lifestyleFactor",
      ["lifestyle"]),
    LifeAssumption(
      "opinions-withheld",
      "remainingWeeks × " + "2.8" + " × optimismFactor",
      ["optimism"]),
    LifeAssumption(
      "apologies-preemptive",
      "remainingWeeks × " + "1.3" + " × optimismFactor",
      ["optimism"]),
    LifeAssumption(
      "messages-deleted",
      "remainingWeeks × " + "2.5" + " × optimismFactor",
      ["optimism"]),
    LifeAssumption(
      "clarity-ignored",
      "remainingWeeks × " + "1.1" + " × optimismFactor",
      ["optimism"])
  ]

  lemma FirstHalfFollowsRateTable()
    ensures forall k | 0 <= k < 20 :: AssumptionsBase[k].id == RateTable[k].0
  {
  }

  lemma SecondHalfFollowsRateTable()
    ensures forall k | 20 <= k < 40 :: AssumptionsBase[k].id == RateTable[k].0
  {
  }

  /** Row k carries the id of rate-table entry k. */
  lemma CatalogueFollowsRateTable()
    ensures |AssumptionsBase| == |RateTable| == 40
    ensures forall k | 0 <= k < |AssumptionsBase| :: AssumptionsBase[k].id == RateTable[k].0
  {
    FirstHalfFollowsRateTable();
    SecondHalfFollowsRateTable();
  }

  /** The catalogue has forty rows and no id occurs twice. */
  lemma CatalogueIdsDistinct()
    ensures |AssumptionsBase| == 40
    ensures forall i, j | 0 <= i < j < |AssumptionsBase| :: AssumptionsBase[i].id != AssumptionsBase[j].id
  {
    CatalogueFollowsRateTable();
    RateTableKeysDistinct();
  }

  /** Every row's id has a rate, namely the entry at the same position, so
      valuation never takes the unknown-id branch. */
  lemma EveryIdRated()
    ensures forall k | 0 <= k < |AssumptionsBase| ::
      AssumptionsBase[k].id in AssumptionRates && AssumptionRates[AssumptionsBase[k].id] == RateTable[k].1
  {
    CatalogueFollowsRateTable();
    RateTableKeysDistinct();
    forall k | 0 <= k < |AssumptionsBase|
      ensures AssumptionsBase[k].id in AssumptionRates && AssumptionRates[AssumptionsBase[k].id] == RateTable[k].1
    {
      RatesMapLookup(RateTable, k);
    }
  }

  /** Every tag is one of the four factor tags: no row names a health or
      nutrition factor. */
  lemma TagsKnown()
    ensures forall k, t | 0 <= k < |AssumptionsBase| && t in AssumptionsBase[k].affectedBy :: t in FactorTags
  {
  }

  /** The five rows tagged "age". */
  lemma AgeTaggedRows()
    ensures forall k | 0 <= k < |AssumptionsBase| ::
      "age" in AssumptionsBase[k].affectedBy <==> k in {2, 17, 18, 19, 28}
  {
  }

  /** The value of row k under any assumptions: the rate of entry k on the
      remaining weeks or years, times the factor of the row's tags. */
  lemma CatalogueValuation(a: Assumptions, k: int)
    requires 0 <= k < |AssumptionsBase|
    ensures AssumptionValue(a, AssumptionsBase[k]) ==
      Scaled(RateCount(RateTable[k].1, WeeksRemaining(a), RemainingYears(a)), Factor(a, AssumptionsBase[k].affectedBy))
  {
    EveryIdRated();
    RatedValuation(a, AssumptionsBase[k], RateTable[k].1);
  }
}
