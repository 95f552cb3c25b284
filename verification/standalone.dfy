/** The standalone single-page variant. It keeps its own, simpler
    convention beside the Next.js one: the raw band age with no health or
    eating adjustment, 365.25 days and 52.1429 weeks per year, and a "next
    week I'll start" count that GROWS with optimism. The two conventions
    are kept apart on purpose; only the band ages and the tone names are
    shared. */
module Standalone {
  import Calc
  import Copy

  datatype UnitMode = Weekly | Yearly

  datatype ThemeMode = Light | Dark

  /** The counter cards that can be selected for details. */
  datatype MetricId = CoffeesMetric | SundaysMetric | NextWeekMetric

  /** The standalone settings; `absurdity` is the tone. */
  datatype Settings = Settings(
    age: int,
    lifeExpectancyMode: Calc.LifeExpectancy,
    coffeesPerDay: int,
    optimism: int,
    unitMode: UnitMode,
    absurdity: Calc.Tone)

  const DefaultSettings: Settings := Settings(30, Calc.Average, 2, 6, Weekly, Calc.Dry)

  /** Whole years between the age and the band's expectancy age, never
      negative. */
  function YearsRemaining(s: Settings): (y: int)
    ensures y >= 0
    ensures y == 0 <==> s.age >= Calc.LifeExpectancyAge(s.lifeExpectancyMode)
    ensures y > 0 ==> s.age + y == Calc.LifeExpectancyAge(s.lifeExpectancyMode)
  {
    Calc.MaxInt(0, Calc.LifeExpectancyAge(s.lifeExpectancyMode) - s.age)
  }

  /** A floored, non-negative count: max(0, floor(x)). */
  function FlooredCount(x: real): (n: int)
    ensures n >= 0
    ensures x >= 0.0 ==> n as real <= x < n as real + 1.0
    ensures x < 1.0 ==> n == 0
  {
    Calc.MaxInt(0, x.Floor)
  }

  /** A larger amount never floors to a smaller count. */
  lemma FlooredCountMonotone(x: real, y: real)
    requires x <= y
    ensures FlooredCount(x) <= FlooredCount(y)
  {
    Calc.FloorMonotone(x, y);
  }

  /** Coffees over 365.25 days per remaining year; a rate of zero or less
      leaves none. */
  function CoffeesLeft(s: Settings): (c: int)
    ensures c >= 0
    ensures s.coffeesPerDay <= 0 ==> c == 0
    ensures s.coffeesPerDay >= 0 ==>
      c as real <= (YearsRemaining(s) * s.coffeesPerDay) as real * 365.25 < c as real + 1.0
  {
    CoffeesOver(YearsRemaining(s), s.coffeesPerDay)
  }

  /** The coffee count for a number of years and a daily rate, that is
      floor(years × 365.25 × perDay) clipped at zero. */
  function CoffeesOver(years: int, perDay: int): (c: int)
    requires years >= 0
    ensures c >= 0
    ensures perDay <= 0 ==> c == 0
    ensures perDay >= 0 ==> c as real <= (years * perDay) as real * 365.25 < c as real + 1.0
  {
    if perDay <= 0 then
      Calc.ScaleInt(years, perDay, 0);
      FlooredCount((years * perDay) as real * 365.25)
    else
      FlooredCount((years * perDay) as real * 365.25)
  }

  /** More coffees a day never leaves fewer coffees. */
  lemma CoffeesNonDecreasingInRate(s: Settings, more: int)
    requires s.coffeesPerDay <= more
    ensures CoffeesLeft(s) <= CoffeesLeft(s.(coffeesPerDay := more))
  {
    var years := YearsRemaining(s);
    assert YearsRemaining(s.(coffeesPerDay := more)) == years;
    Calc.ScaleInt(years, s.coffeesPerDay, more);
    FlooredCountMonotone((years * s.coffeesPerDay) as real * 365.25, (years * more) as real * 365.25);
  }

  /** Calendar weeks over 52.1429 weeks per remaining year: at least 52
      and fewer than 53 for every remaining year. */
  function SundaysRemaining(s: Settings): (n: int)
    ensures n >= 0
    ensures n as real <= YearsRemaining(s) as real * 52.1429 < n as real + 1.0
    ensures 52 * YearsRemaining(s) <= n <= 53 * YearsRemaining(s)
  {
    SundaysOver(YearsRemaining(s))
  }

  function SundaysOver(years: int): (n: int)
    requires years >= 0
    ensures n >= 0
    ensures n as real <= years as real * 52.1429 < n as real + 1.0
    ensures 52 * years <= n <= 53 * years
  {
    FlooredCount(years as real * 52.1429)
  }

  /** Older means no more Sundays. */
  lemma SundaysNonIncreasingInAge(s: Settings, older: int)
    requires s.age <= older
    ensures SundaysRemaining(s.(age := older)) <= SundaysRemaining(s)
  {
    var y := YearsRemaining(s.(age := older));
    var x := YearsRemaining(s);
    assert y <= x;
    Calc.ScaleMonotone(52.1429, y as real, x as real);
    assert y as real * 52.1429 <= x as real * 52.1429;
    FlooredCountMonotone(y as real * 52.1429, x as real * 52.1429);
  }

  /** The remaining years shown in yearly mode: floored, which changes
      nothing for a whole number of years. */
  function YearsRemainingRounded(s: Settings): (n: int)
    ensures n == YearsRemaining(s)
  {
    Calc.MaxInt(0, (YearsRemaining(s) as real).Floor)
  }

  /** The share optimism/10 of the Sundays: an optimist starts over more
      often. */
  function NextWeekStarts(s: Settings): (n: int)
    ensures n >= 0
    ensures 0 <= s.optimism <= 10 ==> n <= SundaysRemaining(s)
    ensures s.optimism <= 0 ==> n == 0
    ensures s.optimism == 10 ==> n == SundaysRemaining(s)
    ensures s.optimism >= 10 ==> n >= SundaysRemaining(s)
    ensures s.optimism >= 0 ==>
      n as real <= (SundaysRemaining(s) * s.optimism) as real / 10.0 < n as real + 1.0
  {
    OptimisticShare(SundaysRemaining(s), s.optimism)
  }

  /** optimism/10 of `sundays`, floored and never negative: for a
      non-negative optimism the floor of sundays × optimism / 10. */
  function OptimisticShare(sundays: int, optimism: int): (n: int)
    requires sundays >= 0
    ensures n >= 0
    ensures 0 <= optimism <= 10 ==> n <= sundays
    ensures optimism <= 0 ==> n == 0
    ensures optimism == 10 ==> n == sundays
    ensures optimism >= 10 ==> n >= sundays
    ensures optimism >= 0 ==> n as real <= (sundays * optimism) as real / 10.0 < n as real + 1.0
  {
    if optimism <= 0 then
      Calc.ScaleInt(sundays, optimism, 0);
      FlooredCount((sundays * optimism) as real / 10.0)
    else if optimism <= 10 then
      Calc.ScaleInt(sundays, 0, optimism);
      Calc.ScaleInt(sundays, optimism, 10);
      FlooredCount((sundays * optimism) as real / 10.0)
    else
      Calc.ScaleInt(sundays, 0, optimism);
      Calc.ScaleInt(sundays, 10, optimism);
      FlooredCount((sundays * optimism) as real / 10.0)
  }

  /** More optimism never lowers the count: the opposite direction to the
      Next.js counter, which postponed weeks shrink as optimism grows. */
  lemma NextWeekStartsNonDecreasingInOptimism(s: Settings, more: int)
    requires s.optimism <= more
    ensures NextWeekStarts(s) <= NextWeekStarts(s.(optimism := more))
  {
    assert SundaysRemaining(s.(optimism := more)) == SundaysRemaining(s);
    OptimisticShareMonotone(SundaysRemaining(s), s.optimism, more);
  }

  lemma OptimisticShareMonotone(sundays: int, optimism: int, more: int)
    requires sundays >= 0 && optimism <= more
    ensures OptimisticShare(sundays, optimism) <= OptimisticShare(sundays, more)
  {
    Calc.ScaleInt(sundays, optimism, more);
    FlooredCountMonotone((sundays * optimism) as real / 10.0, (sundays * more) as real / 10.0);
  }

  /** The Sundays card shows weeks in weekly mode and whole years in
      yearly mode. */
  function DisplayedSundaysValue(s: Settings): (v: int)
    ensures s.unitMode == Weekly ==> v == SundaysRemaining(s)
    ensures s.unitMode == Yearly ==> v == YearsRemaining(s)
  {
    if s.unitMode == Weekly then SundaysRemaining(s) else YearsRemainingRounded(s)
  }

  /** The unit mode changes the displayed Sundays value and no counter. */
  lemma UnitModeOnlyChangesDisplay(s: Settings, mode: UnitMode)
    ensures YearsRemaining(s.(unitMode := mode)) == YearsRemaining(s)
    ensures CoffeesLeft(s.(unitMode := mode)) == CoffeesLeft(s)
    ensures SundaysRemaining(s.(unitMode := mode)) == SundaysRemaining(s)
    ensures NextWeekStarts(s.(unitMode := mode)) == NextWeekStarts(s)
  {
    assert YearsRemaining(s.(unitMode := mode)) == YearsRemaining(s);
  }

  /** No counter and no displayed value reads the tone. */
  lemma CountersIgnoreAbsurdity(s: Settings, tone: Calc.Tone)
    ensures CoffeesLeft(s.(absurdity := tone)) == CoffeesLeft(s)
    ensures SundaysRemaining(s.(absurdity := tone)) == SundaysRemaining(s)
    ensures NextWeekStarts(s.(absurdity := tone)) == NextWeekStarts(s)
    ensures DisplayedSundaysValue(s.(absurdity := tone)) == DisplayedSundaysValue(s)
  {
    assert YearsRemaining(s.(absurdity := tone)) == YearsRemaining(s);
  }

  /** The defaults: 50 years left, 36525 coffees, 2607 Sundays, 1564 starts. */
  lemma DefaultCounters()
    ensures YearsRemaining(DefaultSettings) == 50
    ensures CoffeesLeft(DefaultSettings) == 36525
    ensures SundaysRemaining(DefaultSettings) == 2607
    ensures NextWeekStarts(DefaultSettings) == 1564
    ensures DisplayedSundaysValue(DefaultSettings) == 2607
  {
    assert YearsRemaining(DefaultSettings) == 50;
    assert (50.0 * 365.25 * 2.0).Floor == 36525;
    assert (50.0 * 52.1429).Floor == 2607;
    assert (2607.0 * (6.0 / 10.0)).Floor == 1564;
  }

  /** The age typed into the age field: an empty field reads as 0, a
      negative number as 0; text that is not a number gives NaN, which is
      None here. */
  datatype AgeText = Blank | Number(n: int) | NotANumber

  function EditedAge(text: AgeText): (age: Calc.Option<int>)
    ensures text.NotANumber? <==> age.None?
    ensures age.Some? ==> age.value >= 0
    ensures text.Blank? ==> age == Calc.Some(0)
    ensures text.Number? && text.n >= 0 ==> age == Calc.Some(text.n)
    ensures text.Number? && text.n < 0 ==> age == Calc.Some(0)
  {
    match text
    case Blank => Calc.Some(0)
    case Number(n) => Calc.Some(Calc.MaxInt(0, n))
    case NotANumber => Calc.None
  }

  /** The three lines of tone-dependent copy. */
  datatype Microcopy = Microcopy(prompt: string, disclaimer: string, about: string)

  const BaseMicrocopy: Microcopy := Microcopy(
    "Set your assumptions.",
    "This is not advice. Just math.",
    "No motivation. Just math.")

  /** The dry tone keeps the base copy; each other tone replaces all three
      lines. */
  function GetMicrocopy(tone: Calc.Tone): (m: Microcopy)
    ensures tone == Calc.Dry <==> m == BaseMicrocopy
    ensures tone != Calc.Dry ==>
      m.prompt != BaseMicrocopy.prompt && m.disclaimer != BaseMicrocopy.disclaimer
      && m.about != BaseMicrocopy.about
  {
    var base := BaseMicrocopy;
    match tone
    case Bleak =>
      base.(prompt := "Set your assumptions. The numbers will comply.",
            disclaimer := "This is not advice. It is arithmetic.",
            about := "No motivation. Just arithmetic.")
    case Bureaucratic =>
      base.(prompt := "Provide inputs to generate outputs.",
            disclaimer := "This is not advice. It is a calculation.",
            about := "No motivation. Just calculation.")
    case Cosmic =>
      base.(prompt := "Set your assumptions. The ledger unfolds.",
            disclaimer := "This is not advice. It is a ledger.",
            about := "No motivation. Just a ledger.")
    case Dry =>
      base
  }

  /** The tail every coffees and Sundays subtext ends with. */
  function UntilAge(lifeExpectancy: int): string
  {
    " until age " + Copy.IntToString(lifeExpectancy) + "."
  }

  predicate EndsWith(s: string, tail: string)
  {
    |tail| <= |s| && s[|s| - |tail|..] == tail
  }

  /** The coffees subtext: the rate, then the expectancy age at the end. */
  function CoffeesSubtext(tone: Calc.Tone, coffeesPerDay: int, lifeExpectancy: int): (t: string)
    ensures EndsWith(t, UntilAge(lifeExpectancy))
  {
    var rate := Copy.IntToString(coffeesPerDay);
    var text := "Assuming " + rate + " per day" + UntilAge(lifeExpectancy);
    if tone == Calc.Bureaucratic then "Projected at " + rate + " per day" + UntilAge(lifeExpectancy)
    else if tone == Calc.Bleak then "Assuming " + rate + "/day" + UntilAge(lifeExpectancy)
    else text
  }

  /** The Sundays subtext names the unit first and the age at the end. */
  function SundaysSubtext(tone: Calc.Tone, lifeExpectancy: int, unitMode: UnitMode): (t: string)
    ensures |t| >= 5
    ensures unitMode == Weekly ==> t[..5] == "Weeks"
    ensures unitMode == Yearly ==> t[..5] == "Years"
    ensures EndsWith(t, UntilAge(lifeExpectancy))
  {
    var unit := if unitMode == Weekly then "Weeks" else "Years";
    if tone == Calc.Bureaucratic then unit + " remaining" + UntilAge(lifeExpectancy)
    else unit + UntilAge(lifeExpectancy)
  }

  /** The next-week line of the dry tone. */
  const HabitLine: string := "Based on optimism and habit frequency."

  /** Every tone but the bureaucratic one shares the dry line. */
  function NextWeekSubtext(tone: Calc.Tone): (t: string)
    ensures tone == Calc.Bureaucratic <==> t != HabitLine
  {
    if tone == Calc.Bureaucratic then "Computed from optimism and weekly habit frequency."
    else if tone == Calc.Bleak then "Based on optimism and habit frequency."
    else if tone == Calc.Cosmic then "Based on optimism and habit frequency."
    else HabitLine
  }

  /** What the details panel shows for the selected card. */
  datatype MetricDetails = MetricDetails(title: string, formula: string, assumptions: seq<string>)

  /** Details for a card: none selected lists nothing; the coffees and
      Sundays cards quote the age and the raw band age, not an adjusted
      one; the next-week card quotes the optimism. */
  function GetMetricDetails(metric: Calc.Option<MetricId>, s: Settings): (d: MetricDetails)
    ensures metric.None? <==> |d.assumptions| == 0
    ensures metric == Calc.Some(CoffeesMetric) ==> |d.assumptions| == 5
    ensures metric == Calc.Some(SundaysMetric) || metric == Calc.Some(NextWeekMetric) ==> |d.assumptions| == 3
    ensures metric == Calc.Some(CoffeesMetric) || metric == Calc.Some(SundaysMetric) ==>
      d.assumptions[0] == "Age: " + Copy.IntToString(s.age)
      && d.assumptions[1] == "Life expectancy: " + Copy.IntToString(Calc.LifeExpectancyAge(s.lifeExpectancyMode))
    ensures metric == Calc.Some(NextWeekMetric) ==>
      d.assumptions[0] == "Optimism: " + Copy.IntToString(s.optimism) + "/10"
  {
    var lifeExpectancy := Calc.LifeExpectancyAge(s.lifeExpectancyMode);
    if metric.None? then
      MetricDetails("Select a counter", "Click a card to see its calculation.", [])
    else match metric.value
    case CoffeesMetric =>
      MetricDetails(
        "Coffees left",
        "coffeesLeft = max(0, floor((lifeExpectancy - age)"
        + " × 365.25 × coffeesPerDay))",
        [ "Age: " + Copy.IntToString(s.age),
          "Life expectancy: " + Copy.IntToString(lifeExpectancy),
          "Coffees per day: " + Copy.IntToString(s.coffeesPerDay),
          "Calendar year = 365.25 days",
          "No habit change modeled" ])
    case SundaysMetric =>
      MetricDetails(
        "Sundays remaining",
        "sundaysRemaining = max(0, floor((lifeExpectancy - age)"
        + " × 52.1429))",
        [ "Age: " + Copy.IntToString(s.age),
          "Life expectancy: " + Copy.IntToString(lifeExpectancy),
          "52.1429 weeks per year" ])
    case NextWeekMetric =>
      MetricDetails(
        "“Next week I’ll start” remaining",
        "nextWeekStarts = max(0, floor(sundaysRemaining"
        + " × (optimism ÷ 10)))",
        [ "Optimism: " + Copy.IntToString(s.optimism) + "/10",
          "Habit frequency: weekly",
          "Derived from remaining weeks" ])
  }

  /** A saved reading of the counters. */
  datatype Snapshot = Snapshot(timestamp: string, coffeesLeft: int, sundaysRemaining: int, nextWeekStarts: int)

  /** The reading of the current settings at a given time. */
  function SnapshotOf(s: Settings, timestamp: string): (snap: Snapshot)
    ensures snap.coffeesLeft == CoffeesLeft(s) && snap.nextWeekStarts == NextWeekStarts(s)
    ensures snap.sundaysRemaining == DisplayedSundaysValue(s)
    ensures snap.timestamp == timestamp
  {
    Snapshot(timestamp, CoffeesLeft(s), DisplayedSundaysValue(s), NextWeekStarts(s))
  }

  /** The last snapshot, if any. */
  function Latest(snapshots: seq<Snapshot>): (r: Calc.Option<Snapshot>)
    ensures r.None? <==> |snapshots| == 0
    ensures r.Some? ==> r.value == snapshots[|snapshots| - 1]
  {
    if |snapshots| > 0 then Calc.Some(snapshots[|snapshots| - 1]) else Calc.None
  }

  /** Whatever was appended last is the latest. */
  lemma LatestAfterAppend(snapshots: seq<Snapshot>, snap: Snapshot)
    ensures Latest(snapshots + [snap]) == Calc.Some(snap)
  {
  }

  /** The state of the single-page app that its handlers change. */
  class StandaloneApp {
    var settings: Settings
    var themeMode: ThemeMode
    var snapshots: seq<Snapshot>
    var selectedMetric: Calc.Option<MetricId>
    var detailsOpen: bool

    constructor ()
      ensures settings == DefaultSettings && themeMode == Dark && snapshots == []
      ensures selectedMetric == Calc.None && !detailsOpen
    {
      settings := DefaultSettings;
      themeMode := Dark;
      snapshots := [];
      selectedMetric := Calc.None;
      detailsOpen := false;
    }

    function LatestSnapshot(): (r: Calc.Option<Snapshot>)
      reads this
      ensures r.None? <==> |snapshots| == 0
      ensures r.Some? ==> r.value == snapshots[|snapshots| - 1]
    {
      Latest(snapshots)
    }

    /** Appends a reading of the current settings; it becomes the latest. */
    method SaveSnapshot(timestamp: string)
      modifies this
      ensures snapshots == old(snapshots) + [SnapshotOf(settings, timestamp)]
      ensures LatestSnapshot() == Calc.Some(SnapshotOf(settings, timestamp))
      ensures settings == old(settings) && themeMode == old(themeMode)
      ensures selectedMetric == old(selectedMetric) && detailsOpen == old(detailsOpen)
    {
      var snapshot := Snapshot(timestamp, CoffeesLeft(settings), DisplayedSundaysValue(settings), NextWeekStarts(settings));
      snapshots := snapshots + [snapshot];
    }

    /** Restores the default settings only. */
    method ResetDefaults()
      modifies this
      ensures settings == DefaultSettings
      ensures themeMode == old(themeMode) && snapshots == old(snapshots)
      ensures selectedMetric == old(selectedMetric) && detailsOpen == old(detailsOpen)
    {
      settings := DefaultSettings;
    }

    /** Restores the defaults, the dark theme, no snapshots and no selection. */
    method ResetAll()
      modifies this
      ensures settings == DefaultSettings && themeMode == Dark && snapshots == []
      ensures selectedMetric == Calc.None && !detailsOpen
      ensures LatestSnapshot().None?
    {
      settings := DefaultSettings;
      themeMode := Dark;
      snapshots := [];
      selectedMetric := Calc.None;
      detailsOpen := false;
    }

    /** Stores the edited age; text that is not a number leaves no number. */
    method EditAge(text: AgeText)
      requires !text.NotANumber?
      modifies this
      ensures settings == old(settings).(age := EditedAge(text).value)
      ensures settings.age >= 0
      ensures themeMode == old(themeMode) && snapshots == old(snapshots)
      ensures selectedMetric == old(selectedMetric) && detailsOpen == old(detailsOpen)
    {
      var age := EditedAge(text);
      settings := settings.(age := age.value);
    }
  }
}
