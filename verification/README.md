# Existential countdown: the counter-derivation layer in Dafny

This project models how the existential-countdown apps turn a handful of
life assumptions into counters. The assumptions are age, a life-expectancy
band, health and eating sliders, coffees per day, workdays per week,
optimism and a tone. The counters are "coffees left", "Sundays remaining",
"workdays remaining" and "next week I'll start". One module covers each
source file:

- `Calc` (`calc.dfy`): the Next.js variant's headline counters.
  - The band gives 70, 80 or 90 years.
  - Health and eating shift that age, then it is rounded half-up and kept within 50..105.
  - Remaining weeks are 52 per remaining year.
  - Sundays, coffees, workdays and postponed weeks are all derived from the remaining weeks.
- `AssumptionCalc` (`assumption_calc.dfy`): valuation of a catalogue item.
  - Six clamped factors, and a rate table keyed by id with a weekly or a yearly rate.
  - The running product of the factors an item's tags select.
  - A floored, non-negative result.
  - `GetFactor`/`MultiplyIn` keep the source's step-by-step product and are proved equal to the product function.
- `Catalogue` (`catalogue.dfy`): the forty catalogue rows, and the facts that tie them to the rate table.
- `HintFactors` and `CalculationHints` (`hints.dfy`): reading each row's calculation hint back as a rate and a list of factors.
- `Copy` (`copy.dfy`): the wording around each counter.
  - The tone prefix and the subtext.
  - The explanation and the formula.
  - The list of assumptions in use.
  - The value each counter kind shows.
- `Standalone` (`standalone.dfy`): the single-page variant in `App.tsx`.
  - It follows its own convention: the raw band age, 365.25 days and 52.1429 weeks per year, and a "next week" count that grows with optimism.
  - Its tone copy.
  - Its details panel.
  - A class for its state: the snapshot list, which grows by appending, and the reset handlers.
- `Page` (`page.dfy`): the Next.js home page.
  - The defaults.
  - The load-time merge of a saved record over the defaults.
  - A class holding the draft and committed assumptions and a snapshot list of at most three, newest first.
- `Lamp` (`lamp.dfy`): the "steps to the next lamp" remainder rule.

**Numbers.**
- JavaScript numbers are exact `real`s here. `Math.floor` is `.Floor`. `Math.round` is `(x + 0.5).Floor`.
- The sliders and the age are `int`s (see "## Left out" for fractional ages).
- JavaScript's `%` truncates toward zero, and is written out as `Lamp.Remainder`.

**Where the sources differ.**
- Only four tags occur in the catalogue: age, lifestyle, habits and optimism. No row is tagged "health" or "nutrition" (`Catalogue.TagsKnown`).
- `calc.ts` counts 52 weeks per year and applies the health and eating adjustment. `App.tsx` counts 52.1429 weeks per year from the raw band age. Both are modelled, side by side.
- The age field of `App.tsx` (350) stores `Math.max(0, parseInt(text))`, which is NaN for text that is not a number (`Standalone.EditedAge`).
- `next-mui-mvp/types.ts` lists only three counter kinds and lacks the health, eating and workday fields. The model follows the fields and the four kinds that `calc.ts`, `assumptionCalc.ts` and `copy.ts` actually use.

## Model

| member | source | states |
|---|---|---|
| Calc.LifeExpectancyAge | next-mui-mvp/lib/calc.ts:3-10 | short, average and optimistic map to 70, 80 and 90: ten years per band step |
| Calc.LifeExpectancyAgeIncreasing | next-mui-mvp/lib/calc.ts:3-10 | a higher band always gives a later expectancy age |
| Calc.Clamp | next-mui-mvp/lib/calc.ts:12-13 | the result lies in [lo, hi] when lo <= hi; a value inside is kept; one outside becomes the nearer bound |
| Calc.ClampInt | next-mui-mvp/lib/calc.ts:12-13 | the same clamp over whole numbers |
| Calc.Round | next-mui-mvp/lib/calc.ts:31 | Math.round gives the integer within half a unit, halves rounding up |
| Calc.HealthDeltaYears | next-mui-mvp/lib/calc.ts:15-18 | the delta is in [-4, 4]; it is -4 for a slider of 1 or less, 4 for 5 or more, and 0 at 3 |
| Calc.EatingHabitsDeltaYears | next-mui-mvp/lib/calc.ts:20-23 | the delta is in [-3, 3]; it is -3 for 1 or less, 3 for 5 or more, and 0 at 3 |
| Calc.AdjustedLifeExpectancyAge | next-mui-mvp/lib/calc.ts:25-32 | the adjusted age is always in [50, 105] and within 7 years of the band age |
| Calc.AdjustedMonotone | next-mui-mvp/lib/calc.ts:15-32 | better health and eating never lower the adjusted age |
| Calc.GetHealthProfile | next-mui-mvp/lib/calc.ts:34-64 | always one of the five profiles; equal sliders s in 1..5 give profile s; extreme sums give the first or last profile |
| Calc.WeeksRemaining | next-mui-mvp/lib/calc.ts:66-70 | weeks are >= 0 and a multiple of 52; 0 exactly when age >= adjusted age; otherwise age + weeks/52 is the adjusted age; at most 105 × 52 for age >= 0 |
| Calc.WeeksNonIncreasingInAge | next-mui-mvp/lib/calc.ts:66-70 | growing older never adds weeks |
| Calc.WeeksNonDecreasingInExpectancy | next-mui-mvp/lib/calc.ts:66-70 | at the same age, a later adjusted age never removes weeks |
| Calc.SundaysRemaining | next-mui-mvp/lib/calc.ts:72-73 | one Sunday per remaining week |
| Calc.WholeCount | next-mui-mvp/lib/calc.ts:77-80 | max(0, floor(x × y)) of non-negative whole numbers is their exact product, and 0 only when one factor is 0 |
| Calc.CoffeesLeft | next-mui-mvp/lib/calc.ts:75-81 | coffees are weeks × 7 × coffeesPerDay; 0 exactly when no weeks remain or the rate is <= 0 |
| Calc.WorkdaysRemaining | next-mui-mvp/lib/calc.ts:83-89 | workdays are weeks × workdaysPerWeek; 0 exactly when no weeks remain or the rate is <= 0 |
| Calc.PostponedWeeks | next-mui-mvp/lib/calc.ts:92-94 | the share is between 0 and the weeks; all the weeks at optimism <= 0, none at optimism >= 10; it equals floor(weeks × (10 − clamped optimism) / 10) |
| Calc.PostponedTenths | next-mui-mvp/lib/calc.ts:93-94 | weeks × (1 − clamp(optimism/10, 0, 1)) is a whole number of tenths |
| Calc.PostponedWeeksNonIncreasing | next-mui-mvp/lib/calc.ts:92-94 | more optimism never postpones more weeks |
| Calc.NextWeekStartRemaining | next-mui-mvp/lib/calc.ts:91-95 | at most the remaining weeks; equal to them at optimism <= 0; 0 at optimism >= 10 |
| Calc.NextWeekNonIncreasingInOptimism | next-mui-mvp/lib/calc.ts:91-95 | raising optimism never raises the counter |
| Calc.CountersIgnoreTone | next-mui-mvp/lib/calc.ts:25-95 | changing only the tone changes no counter |
| Calc.WorkedExample | next-mui-mvp/lib/calc.ts:66-95 | age 30, average band, health and eating 3, 2 coffees, 5 workdays and optimism 5 give age 80, 2600 weeks, 36400 coffees, 13000 workdays and 1300 |
| AssumptionCalc.RemainingYears | next-mui-mvp/lib/assumptionCalc.ts:7-10 | years are >= 0; 0 exactly when age >= adjusted age; the weeks counter is exactly 52 × years |
| AssumptionCalc.HealthConditionFactor | next-mui-mvp/lib/assumptionCalc.ts:12-13 | always in [0.75, 1.15], and in [0.8, 1.0] on the slider range 1..5 |
| AssumptionCalc.EatingHabitsFactor | next-mui-mvp/lib/assumptionCalc.ts:15-16 | always in [0.70, 1.20], and in [0.73, 0.97] on the slider range |
| AssumptionCalc.LifestyleFactor | next-mui-mvp/lib/assumptionCalc.ts:18-26 | always in [0.55, 1.45] |
| AssumptionCalc.HabitsFactor | next-mui-mvp/lib/assumptionCalc.ts:28-36 | always in [0.45, 1.50] |
| AssumptionCalc.OptimismFactor | next-mui-mvp/lib/assumptionCalc.ts:38-39 | always in [0.8, 1.2]; 0.8 at optimism <= 0 and 1.2 at optimism >= 10 |
| AssumptionCalc.AgeFactor | next-mui-mvp/lib/assumptionCalc.ts:41-42 | always in [0.75, 1.1]; 1.1 at age <= 0 and 0.75 from age 88 on |
| AssumptionCalc.FactorsOf | next-mui-mvp/lib/assumptionCalc.ts:18-42 | the four tag-selectable factors, each within its clamp bounds, so each is strictly positive |
| AssumptionCalc.RatesMapFrom | next-mui-mvp/lib/assumptionCalc.ts:44-88 | every key of the object literal comes from an entry of the table and maps to that entry's rate |
| AssumptionCalc.RatesMapLookup | next-mui-mvp/lib/assumptionCalc.ts:44-88 | when the ids are distinct, entry k's id is a key and maps to entry k's rate |
| AssumptionCalc.RateTableKeysDistinct | next-mui-mvp/lib/assumptionCalc.ts:44-88 | the table has 40 entries with pairwise distinct ids |
| AssumptionCalc.RatesWellFormed | next-mui-mvp/lib/assumptionCalc.ts:44-88 | every rate is non-negative, and each entry sets exactly one of perWeek and perYear |
| AssumptionCalc.RateCount | next-mui-mvp/lib/assumptionCalc.ts:95-101 | a weekly rate scales the weeks and takes precedence; otherwise a yearly rate scales the years; the count is >= 0 and is 0 when nothing remains |
| AssumptionCalc.BaseCount | next-mui-mvp/lib/assumptionCalc.ts:90-102 | 0 for an id absent from the table; otherwise the rate count on the remaining weeks and years; always >= 0, and 0 once age >= adjusted age |
| AssumptionCalc.CombineIsProduct | next-mui-mvp/lib/assumptionCalc.ts:104-119 | the running product equals the product of the four factors, where a missing tag contributes 1 |
| AssumptionCalc.CombineByPresence | next-mui-mvp/lib/assumptionCalc.ts:104-119 | two tag lists with the same factor tags present give the same product, whatever their order, repeats or other tags |
| AssumptionCalc.FactorIgnoresOtherTags | next-mui-mvp/lib/assumptionCalc.ts:104-119 | a tag that names no factor contributes 1 |
| AssumptionCalc.FactorIgnoresRepeats | next-mui-mvp/lib/assumptionCalc.ts:104-119 | a duplicated tag multiplies its factor in only once |
| AssumptionCalc.CombineBounds | next-mui-mvp/lib/assumptionCalc.ts:104-119 | given factor bounds, the product lies between the product of the lower bounds and the product of the upper bounds |
| AssumptionCalc.FactorBounds | next-mui-mvp/lib/assumptionCalc.ts:104-119 | the combined factor is in [0.75·0.55·0.45·0.8, 1.1·1.45·1.5·1.2], so it is positive; an empty tag list gives 1 |
| AssumptionCalc.MultiplyIn | next-mui-mvp/lib/assumptionCalc.ts:105-118 | four sequential tag checks, each multiplying into a running factor that starts at 1, end at the product function |
| AssumptionCalc.GetFactor | next-mui-mvp/lib/assumptionCalc.ts:104-119 | the step-by-step factor of an item equals the combined factor of its tags |
| AssumptionCalc.Scaled | next-mui-mvp/lib/assumptionCalc.ts:126 | max(0, floor(base × factor)) is >= 0; it is 0 exactly when the product is below 1; otherwise it is the floor of the product |
| AssumptionCalc.AssumptionValue | next-mui-mvp/lib/assumptionCalc.ts:121-128 | the value is a non-negative integer; 0 for an unknown id; 0 once age >= adjusted age |
| Catalogue.CatalogueFollowsRateTable | next-mui-mvp/lib/assumptionsBase.ts:3-324 | the catalogue has 40 rows, and row k carries the id of rate entry k |
| Catalogue.CatalogueIdsDistinct | next-mui-mvp/lib/assumptionsBase.ts:3-324 | 40 rows with pairwise distinct ids |
| Catalogue.EveryIdRated | next-mui-mvp/lib/assumptionsBase.ts:3-324 | every row's id is in the rate table, so valuation never takes the unknown-id branch |
| Catalogue.TagsKnown | next-mui-mvp/lib/assumptionsBase.ts:3-324 | every tag is age, lifestyle, habits or optimism; no row names health or nutrition |
| Catalogue.AgeTaggedRows | next-mui-mvp/lib/assumptionsBase.ts:20-235 | exactly five rows are tagged "age": candles, shelves, plants, mugs and weekends |
| Catalogue.CatalogueValuation | next-mui-mvp/lib/assumptionsBase.ts:3-324 | row k is valued at the rate of entry k on the remaining weeks or years, times the factor of its tags |
| CalculationHints.CalculationHintsAgree | next-mui-mvp/lib/assumptionsBase.ts:3-324 | every row's hint reads back as its rate-table entry: "remainingWeeks × r" for `perWeek: r`, "remainingYears × r" for `perYear: r`, with the same coefficient; its factor list names exactly the row's tags other than "age", in the row's order |
| Copy.TonePrefix | next-mui-mvp/lib/copy.ts:10-15 | every tone has a non-empty prefix |
| Copy.TonePrefixInjective | next-mui-mvp/lib/copy.ts:10-15 | the four tones have four different prefixes, so the subtext shows which tone is set |
| Copy.IntToStringRoundTrip | next-mui-mvp/lib/copy.ts:21 | a number rendered into a template literal reads back as the same number |
| Copy.IntToStringInjective | next-mui-mvp/lib/copy.ts:21 | two numbers render alike only when they are equal |
| Copy.Subtext | next-mui-mvp/lib/copy.ts:17-31 | empty exactly for a kind other than the four; otherwise the text starts with the tone's prefix |
| Copy.SubtextReadsAdjustedAge | next-mui-mvp/lib/copy.ts:17-31 | the subtext depends on the band only through the adjusted age: assumptions agreeing on it and on the quoted rates read alike |
| Copy.SundaysSubtextShowsAdjustedAge | next-mui-mvp/lib/copy.ts:22-23 | conversely, equal Sundays subtexts under one tone quote the same adjusted age |
| Copy.HowCalculated | next-mui-mvp/lib/copy.ts:33-46 | a fixed explanation for each of the four kinds; empty exactly for any other kind; no assumptions are read |
| Copy.Formula | next-mui-mvp/lib/copy.ts:48-61 | a fixed formula for each of the four kinds, each starting with the 52-weeks-per-year term; empty exactly for any other kind |
| Copy.WeeksFollowFormula | next-mui-mvp/lib/copy.ts:50-57 | the weeks counter is the formulas' term (adjusted age − age) × 52 when positive, and 0 otherwise |
| Copy.AssumptionsUsed | next-mui-mvp/lib/copy.ts:63-71 | exactly seven lines, each starting with its label, in the order age, expectancy, health, eating, coffees, workdays, optimism |
| Copy.ValueForKind | next-mui-mvp/lib/copy.ts:73-86 | each of the four kinds shows its counter; any other kind shows 0; never negative |
| Copy.ValueIgnoresTone | next-mui-mvp/lib/copy.ts:73-86 | changing only the tone leaves every value unchanged |
| Standalone.YearsRemaining | App.tsx:228-229 | years are >= 0; 0 exactly when age >= band age; otherwise age + years is the band age |
| Standalone.FlooredCount | App.tsx:233-236 | max(0, floor(x)) is >= 0; for x >= 0 it is the floor of x; below 1 it is 0 |
| Standalone.FlooredCountMonotone | App.tsx:233-236 | a larger amount never floors to a smaller count |
| Standalone.CoffeesOver | App.tsx:230-233 | the count is the floor of years × 365.25 × rate; it is 0 for a rate <= 0 |
| Standalone.CoffeesLeft | App.tsx:228-233 | coffees are 0 for a rate <= 0; otherwise they are the floor of years × 365.25 × rate |
| Standalone.CoffeesNonDecreasingInRate | App.tsx:230-233 | more coffees per day never leaves fewer coffees |
| Standalone.SundaysOver | App.tsx:231-234 | the floor of years × 52.1429, which lies between 52 and 53 per year |
| Standalone.SundaysRemaining | App.tsx:228-234 | the floor of years × 52.1429; between 52 × years and 53 × years |
| Standalone.SundaysNonIncreasingInAge | App.tsx:228-234 | growing older never adds Sundays |
| Standalone.YearsRemainingRounded | App.tsx:235 | flooring whole years changes nothing: it equals the remaining years |
| Standalone.OptimisticShare | App.tsx:236 | for optimism >= 0 the share is the floor of sundays × optimism / 10; 0 for optimism <= 0; at most the Sundays within 0..10, all of them at 10, and at least them above |
| Standalone.OptimisticShareMonotone | App.tsx:236 | a higher optimism never gives a smaller share |
| Standalone.NextWeekStarts | App.tsx:236 | for optimism >= 0 the count is the floor of Sundays × optimism / 10; 0 for optimism <= 0; at most the Sundays within 0..10, all of them at 10, and at least them above |
| Standalone.NextWeekStartsNonDecreasingInOptimism | App.tsx:236 | more optimism never lowers the count, the opposite of the Next.js counter |
| Standalone.DisplayedSundaysValue | App.tsx:238 | weekly mode shows the Sundays; yearly mode shows the whole years |
| Standalone.UnitModeOnlyChangesDisplay | App.tsx:228-238 | the unit mode changes no counter, only the displayed Sundays value |
| Standalone.CountersIgnoreAbsurdity | App.tsx:228-238 | the tone changes no counter and no displayed value |
| Standalone.DefaultCounters | App.tsx:71-78 | the defaults give 50 years, 36525 coffees, 2607 Sundays and 1564 starts |
| Standalone.EditedAge | App.tsx:350 | an empty field reads as 0; a negative number reads as 0; a non-negative number is kept; text that is not a number gives NaN (None) |
| Standalone.GetMicrocopy | App.tsx:88-123 | the dry tone keeps the base copy; each other tone replaces all three lines |
| Standalone.CoffeesSubtext | App.tsx:125-134 | every tone's line ends with "until age" and the band age |
| Standalone.SundaysSubtext | App.tsx:136-142 | the line starts with "Weeks" in weekly mode and "Years" in yearly mode, and ends with the band age |
| Standalone.NextWeekSubtext | App.tsx:144-155 | only the bureaucratic tone differs from the shared habit line |
| Standalone.GetMetricDetails | App.tsx:285-329 | no selection lists nothing; coffees lists 5 lines, Sundays and next-week 3; coffees and Sundays quote the age and the raw band age; next-week quotes the optimism |
| Standalone.SnapshotOf | App.tsx:274-279 | a snapshot records the coffees, the displayed Sundays value and the starts of the current settings, with its timestamp |
| Standalone.Latest | App.tsx:283 | none exactly for an empty list; otherwise the last element |
| Standalone.LatestAfterAppend | App.tsx:280-283 | whatever was appended last is the latest |
| Standalone.StandaloneApp.constructor | App.tsx:158-164 | the defaults, a dark theme, no snapshots and no selection |
| Standalone.StandaloneApp.LatestSnapshot | App.tsx:283 | the latest snapshot of the app's list |
| Standalone.StandaloneApp.SaveSnapshot | App.tsx:273-281 | appends exactly one reading of the current settings, which becomes the latest; nothing else changes |
| Standalone.StandaloneApp.ResetDefaults | App.tsx:240-242 | restores the default settings and nothing else |
| Standalone.StandaloneApp.ResetAll | App.tsx:244-256 | restores the defaults and the dark theme, and clears the snapshots, the selection and the details panel |
| Standalone.StandaloneApp.EditAge | App.tsx:347-351 | the age becomes the edited number, never negative; nothing else changes |
| Page.Complete | next-mui-mvp/app/page.tsx:106 | a record stands for assumptions exactly when no field is missing, and it round-trips |
| Page.CompleteWhole | next-mui-mvp/app/page.tsx:106 | filling in every field and reading them back loses nothing |
| Page.Override | next-mui-mvp/app/page.tsx:106 | in an object spread, a field the later object has wins; otherwise the earlier one is kept |
| Page.Merge | next-mui-mvp/app/page.tsx:106 | each of the eight fields is the saved one when present and the default otherwise; merging over complete defaults is complete; merging a complete record gives that record |
| Page.DefaultsAsWrittenLeaveCountersUndefined | next-mui-mvp/app/page.tsx:53-60 | the defaults as written, and their merge with any record lacking health or eating, leave no complete assumptions to count from |
| Page.DefaultCounters | next-mui-mvp/app/page.tsx:53-60 | the corrected defaults give age 80, 2600 Sundays, 36400 coffees, 13000 workdays and 1300 |
| Page.Loaded | next-mui-mvp/app/page.tsx:106 | loading gives each saved field where present and the corrected default (`Page.DefaultAssumptions`) elsewhere, and is always complete |
| Page.LoadedWhole | next-mui-mvp/app/page.tsx:106 | a record saved whole loads back unchanged |
| Page.PrependCapped | next-mui-mvp/app/page.tsx:159 | the length is min(3, n + 1); the new entry is at index 0; then the previous entries follow in order; nothing new is introduced |
| Page.PrependCappedTwice | next-mui-mvp/app/page.tsx:159 | after two saves, the two newest lead, newest first |
| Page.HomePage.constructor | next-mui-mvp/app/page.tsx:74-79 | draft and committed start at the corrected defaults (`Page.DefaultAssumptions`), with no snapshots |
| Page.HomePage.Load | next-mui-mvp/app/page.tsx:102-113 | a saved record is merged over the corrected defaults into both draft and committed; a non-empty saved list replaces the snapshots |
| Page.HomePage.EditDraft | next-mui-mvp/app/page.tsx:74-76 | an edit changes the draft only |
| Page.HomePage.Commit | next-mui-mvp/app/page.tsx:119-124 | when the debounce fires, the committed assumptions take the draft's value |
| Page.HomePage.Reset | next-mui-mvp/app/page.tsx:130-134 | both draft and committed return to the corrected defaults; the snapshots are untouched |
| Page.HomePage.SaveSnapshot | next-mui-mvp/app/page.tsx:152-162 | records the Sundays and coffees of the committed assumptions, not the draft, at the head of a list capped at 3; the assumptions are unchanged |
| Lamp.Remainder | components/LampStepsCounter.tsx:36 | JavaScript's % 100 lies in [0, 100) for a total >= 0 and in (-100, 0] below 0, and the total minus it is a multiple of 100 |
| Lamp.StepsToLamp | components/LampStepsCounter.tsx:36-37 | total + steps is a multiple of 100; the steps are in [1, 100] for a total >= 0; a multiple of 100 gives 100, not 0 |
| Lamp.StepsToLampIsNearest | components/LampStepsCounter.tsx:41-42 | no multiple of 100 is passed before the lamp the counter points at |
| Lamp.StepTowardsLamp | components/LampStepsCounter.tsx:41-42 | each step brings the lamp one closer; reaching it restarts the count at 100 |
| Lamp.StepsToLampPeriodic | components/LampStepsCounter.tsx:41-42 | walking 100 steps gives the same count again |
| Lamp.InitialIsNoSteps | components/LampStepsCounter.tsx:10 | the initial value 100 is the rule applied to no steps |
| Lamp.StepsAfterUpdate | components/LampStepsCounter.tsx:40-42 | the total is the earlier steps plus the session's steps, and the rule applies to that total |

## Left out

- Display text of catalogue rows: `label`, `unit` and `description` are not part of `Catalogue.AssumptionsBase`. No computation reads them, and each long text literal makes every proof that mentions the table far more expensive.
- A hint's wording beyond its lead, coefficient and factor list is not read. `CalculationHints.CalculationHintsAgree` reads hints only as the catalogue writes them: one-, two- or point-separated coefficients, and factor names joined by " × ". The hints of the five age-tagged rows (`Catalogue.AgeTaggedRows`) do not name the age factor, although the value applies it; the model records this and follows the code.
- `Copy.HowCalculated`: states only that the four kinds get a non-empty, fixed text and other kinds get none. The exact wording is kept in the body but not stated.
- Persistence is not modelled: `next-mui-mvp/lib/storage.ts`, `src/utils/storage.ts`, and the `localStorage` effects of `App.tsx` (167-206). A saved record arrives as a parameter of `Page.HomePage.Load`, and JSON parsing errors are not modelled.
- The step sensor is not modelled. The pedometer subscription, the platform check and the `baseStepsRef` it updates are left out, and so is the gyroscope counter. Step totals are parameters of `Lamp.StepsAfterUpdate`.
- Clock and randomness are not modelled:
  - snapshot ids, dates and timestamps are parameters;
  - the 150 ms debounce is the separate method `Page.HomePage.Commit`;
  - the random pick of catalogue rows (`next-mui-mvp/app/page.tsx:62-66`) and the message timers are left out.
- Floating point is not modelled. Dafny reals are exact, while JavaScript doubles can fall on the other side of a `floor` boundary, and this happens at ordinary inputs. For example, at optimism 3 with 2600 weeks, 2600 × (1 − 0.3) is 1819.9999999999998 in doubles, so the Next.js counter shows 1819, while `Calc.NextWeekStartRemaining` gives 1820.
- Calc.WeeksRemaining: fractional ages are not modelled. The Next.js age field (`next-mui-mvp/components/AssumptionsPanel.tsx:61-67`) is a number input without a step, storing `Number(text) || 0`, so it accepts an age such as 30.5. The model's age is an `int`. With a fractional age the weeks counter is not a multiple of 52, as `Calc.WeeksRemaining` states for whole ages.
- NaN, besides the missing-fields case under Findings, is not modelled. A missing field is `None` in `Page.PartialAssumptions`, and text that is not a number is `None` from `Standalone.EditedAge`.
- Standalone.StandaloneApp.EditAge: requires the text to be empty or a number, because a NaN age cannot be stored in an `int` field. `Standalone.EditedAge` models the NaN case itself.
- The `clamp` of `next-mui-mvp/lib/assumptionCalc.ts:4-5` is the same function as the one in `calc.ts`, and is modelled once as `Calc.Clamp`.
- `next-mui-mvp/types.ts` is not part of this model as a source of behaviour, because it is out of date.
- UI components, theming, layout, `toLocaleString` formatting and `scripts/quality-agent.js` are not part of this model.

## Findings

| source | as written | input that shows it | evidently intended | confidence | as-written member | corrected member |
|---|---|---|---|---|---|---|
| next-mui-mvp/app/page.tsx:53-60 | the default assumptions leave out `healthCondition` and `eatingHabits`, which `calc.ts:29-30` reads, so `clamp(undefined, 1, 5)` makes the adjusted age and every counter NaN | first render with nothing saved, or loading a saved record that lacks either field | defaults that include both sliders at the neutral 3, giving age 80 and 2600 weeks for the default age 30 | not executed | Page.DefaultsAsWrittenLeaveCountersUndefined | Page.DefaultCounters |
