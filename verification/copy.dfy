/** The wording around the counters of the Next.js variant: the tone
    prefix, the one-line subtext under each counter, the explanation and
    formula behind it, the list of assumptions in use, and the counter
    value each kind shows. Numbers are rendered as JavaScript renders a
    whole number in a template literal. */
module Copy {
  import opened Calc

  /** The counter kinds the copy functions switch on; any other kind falls
      through to the default branch. */
  datatype CounterKind = Coffees | Sundays | Workdays | NextWeek | OtherKind(name: string)

  function TonePrefix(tone: Tone): (p: string)
    ensures |p| > 0
  {
    match tone
    case Dry => "Assuming"
    case Bleak => "Assuming, grimly,"
    case Bureaucratic => "Per current policy, assuming"
    case Cosmic => "Assuming the universe permits"
  }

  /** Each tone has its own prefix, so the subtext shows which tone is set. */
  lemma TonePrefixInjective(t1: Tone, t2: Tone)
    ensures TonePrefix(t1) == TonePrefix(t2) ==> t1 == t2
  {
  }

  function DigitChar(d: int): char
    requires 0 <= d < 10
  {
    ('0' as int + d) as char
  }

  predicate IsDigit(c: char)
  {
    '0' <= c <= '9'
  }

  /** Decimal digits of a natural number, without leading zeros. */
  function NatToString(n: nat): (s: string)
    ensures |s| > 0
    ensures forall i | 0 <= i < |s| :: IsDigit(s[i])
    decreases n
  {
    if n < 10 then [DigitChar(n)] else NatToString(n / 10) + [DigitChar(n % 10)]
  }

  /** A whole number as a template literal shows it: a minus sign, then
      the digits of its magnitude. */
  function IntToString(i: int): (s: string)
    ensures |s| > 0
  {
    if i < 0 then "-" + NatToString(-i) else NatToString(i)
  }

  /** The value of a string of decimal digits. */
  function ParseNat(s: string): int
    requires |s| > 0
    requires forall i | 0 <= i < |s| :: IsDigit(s[i])
  {
    var last := s[|s| - 1] as int - '0' as int;
    if |s| == 1 then last else 10 * ParseNat(s[..|s| - 1]) + last
  }

  /** Reads back what IntToString writes. */
  function ParseInt(s: string): int
    requires |s| > 0
  {
    if s[0] == '-' && |s| > 1 && (forall i | 1 <= i < |s| :: IsDigit(s[i])) then -ParseNat(s[1..])
    else if forall i | 0 <= i < |s| :: IsDigit(s[i]) then ParseNat(s)
    else 0
  }

  lemma {:induction false} NatToStringRoundTrip(n: nat)
    ensures ParseNat(NatToString(n)) == n
    decreases n
  {
    if n >= 10 {
      var s := NatToString(n);
      NatToStringRoundTrip(n / 10);
      assert s[..|s| - 1] == NatToString(n / 10);
    }
  }

  /** Rendering loses nothing: the number can be read back. */
  lemma IntToStringRoundTrip(i: int)
    ensures ParseInt(IntToString(i)) == i
  {
    if i < 0 {
      var s := IntToString(i);
      assert s[1..] == NatToString(-i);
      NatToStringRoundTrip(-i);
    } else {
      NatToStringRoundTrip(i);
    }
  }

  /** Two numbers render alike only when they are equal. */
  lemma IntToStringInjective(i: int, j: int)
    ensures IntToString(i) == IntToString(j) ==> i == j
  {
    IntToStringRoundTrip(i);
    IntToStringRoundTrip(j);
  }

  /** The line under a counter: the tone's prefix, then the assumption the
      counter rests on, quoting the adjusted expectancy age. */
  function Subtext(kind: CounterKind, a: Assumptions): (s: string)
    ensures kind.OtherKind? <==> s == ""
    ensures !kind.OtherKind? ==> |TonePrefix(a.tone)| < |s| && s[..|TonePrefix(a.tone)|] == TonePrefix(a.tone)
  {
    var prefix := TonePrefix(a.tone);
    var age := IntToString(AdjustedLifeExpectancyAge(a));
    match kind
    case Coffees => prefix + " " + IntToString(a.coffeesPerDay) + " coffees/day until age " + age + "."
    case Sundays => prefix + " weeks until age " + age + ", one Sunday each."
    case Workdays => prefix + " " + IntToString(a.workdaysPerWeek) + " workdays/week until age " + age + "."
    case NextWeek => prefix + " optimism " + IntToString(a.optimism) + "/10 delays the start."
    case OtherKind(_) => ""
  }

  /** The subtext reads the band only through the adjusted age: two sets of
      assumptions that agree on tone, the shown rates and the adjusted age
      get the same subtext, whatever their bands. */
  lemma SubtextReadsAdjustedAge(kind: CounterKind, a: Assumptions, b: Assumptions)
    requires a.tone == b.tone && a.coffeesPerDay == b.coffeesPerDay
    requires a.workdaysPerWeek == b.workdaysPerWeek && a.optimism == b.optimism
    requires AdjustedLifeExpectancyAge(a) == AdjustedLifeExpectancyAge(b)
    ensures Subtext(kind, a) == Subtext(kind, b)
  {
  }

  /** Conversely, the Sundays subtext tells the adjusted ages apart. */
  lemma SundaysSubtextShowsAdjustedAge(a: Assumptions, b: Assumptions)
    requires a.tone == b.tone
    requires Subtext(Sundays, a) == Subtext(Sundays, b)
    ensures AdjustedLifeExpectancyAge(a) == AdjustedLifeExpectancyAge(b)
  {
    var head := TonePrefix(a.tone) + " weeks until age ";
    var tail := ", one Sunday each.";
    var x := IntToString(AdjustedLifeExpectancyAge(a));
    var y := IntToString(AdjustedLifeExpectancyAge(b));
    assert head + x + tail == head + y + tail;
    assert |x| == |y|;
    assert x == (head + x + tail)[|head|..|head| + |x|];
    assert y == (head + y + tail)[|head|..|head| + |y|];
    IntToStringInjective(AdjustedLifeExpectancyAge(a), AdjustedLifeExpectancyAge(b));
  }

  /** A fixed explanation per kind, and none for any other kind. */
  function HowCalculated(kind: CounterKind): (s: string)
    ensures kind.OtherKind? <==> s == ""
  {
    match kind
    case Coffees =>
      "Coffees left is the total remaining weeks "
      + "(adjusted by health and eating habits) multiplied "
      + "by 7 days and your coffees per day."
    case Sundays =>
      "Sundays remaining is the number of weeks left "
      + "until your adjusted life expectancy."
    case Workdays =>
      "Workdays remaining is the adjusted remaining weeks "
      + "multiplied by your workdays per week."
    case NextWeek =>
      "Next week I’ll start is the portion of adjusted "
      + "remaining weeks postponed by your optimism score."
    case OtherKind(_) => ""
  }

  /** The remaining-weeks term every formula starts with: 52 weeks per
      year, as the weeks counter counts them. */
  const WeeksTerm: string := "(adjustedLifeExpectancyAge - age) × 52"

  /** A fixed formula per kind, and none for any other kind. */
  function Formula(kind: CounterKind): (s: string)
    ensures kind.OtherKind? <==> s == ""
    ensures !kind.OtherKind? ==> |WeeksTerm| <= |s| && s[..|WeeksTerm|] == WeeksTerm
  {
    match kind
    case Coffees => WeeksTerm + " × 7 × coffeesPerDay"
    case Sundays => WeeksTerm
    case Workdays => WeeksTerm + " × workdaysPerWeek"
    case NextWeek => WeeksTerm + " × (1 - optimism/10)"
    case OtherKind(_) => ""
  }

  /** The weeks counter is the formula's term evaluated: 52 weeks for each
      year left before the adjusted expectancy age, none once it is reached. */
  lemma WeeksFollowFormula(a: Assumptions)
    ensures a.age < AdjustedLifeExpectancyAge(a) ==>
      WeeksRemaining(a) == (AdjustedLifeExpectancyAge(a) - a.age) * 52
    ensures a.age >= AdjustedLifeExpectancyAge(a) ==> WeeksRemaining(a) == 0
  {
    var w := WeeksRemaining(a);
    if a.age < AdjustedLifeExpectancyAge(a) {
      assert w == w / 52 * 52;
    }
  }

  function BandName(band: LifeExpectancy): string
  {
    match band
    case Short => "short"
    case Average => "average"
    case Optimistic => "optimistic"
  }

  /** The label of each line of the assumptions list, in order. */
  const UsedLabels: seq<string> := [
    "Age: ", "Life expectancy: ", "Health condition: ", "Eating habits: ",
    "Coffees/day: ", "Workdays/week: ", "Optimism: "]

  /** Seven lines, one per assumption, each starting with its label. */
  function AssumptionsUsed(a: Assumptions): (lines: seq<string>)
    ensures |lines| == |UsedLabels| == 7
    ensures forall i | 0 <= i < 7 ::
      |UsedLabels[i]| < |lines[i]| && lines[i][..|UsedLabels[i]|] == UsedLabels[i]
  {
    [ UsedLabels[0] + IntToString(a.age),
      UsedLabels[1] + BandName(a.lifeExpectancy),
      UsedLabels[2] + IntToString(a.healthCondition) + "/5",
      UsedLabels[3] + IntToString(a.eatingHabits) + "/5",
      UsedLabels[4] + IntToString(a.coffeesPerDay),
      UsedLabels[5] + IntToString(a.workdaysPerWeek),
      UsedLabels[6] + IntToString(a.optimism) + "/10" ]
  }

  /** The number a counter of the given kind shows; 0 for any other kind. */
  function ValueForKind(kind: CounterKind, a: Assumptions): (v: int)
    ensures v >= 0
    ensures kind == Coffees ==> v == CoffeesLeft(a)
    ensures kind == Sundays ==> v == SundaysRemaining(a)
    ensures kind == Workdays ==> v == WorkdaysRemaining(a)
    ensures kind == NextWeek ==> v == NextWeekStartRemaining(a)
    ensures kind.OtherKind? ==> v == 0
  {
    match kind
    case Coffees => CoffeesLeft(a)
    case Sundays => SundaysRemaining(a)
    case Workdays => WorkdaysRemaining(a)
    case NextWeek => NextWeekStartRemaining(a)
    case OtherKind(_) => 0
  }

  /** The tone selects wording only: changing it leaves every value as it was. */
  lemma ValueIgnoresTone(kind: CounterKind, a: Assumptions, tone: Tone)
    ensures ValueForKind(kind, a.(tone := tone)) == ValueForKind(kind, a)
  {
    CountersIgnoreTone(a, tone);
  }
}
