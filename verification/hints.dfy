/** The factor list of a calculation hint: " × <tag>Factor" for each tag
    the hint names. The age factor is never named. */
module HintFactors {
  const Times: string := " × "

  /** The factor names a hint lists for some tags: " × <tag>Factor" each. */
  function FactorText(tags: seq<string>): string
  {
    if tags == [] then "" else Times + tags[0] + "Factor" + FactorText(tags[1..])
  }

  /** The tags without "age": the hints leave the age factor unnamed. */
  function WithoutAge(tags: seq<string>): seq<string>
  {
    if tags == [] then [] else (if tags[0] == "age" then [] else [tags[0]]) + WithoutAge(tags[1..])
  }

  /** The factor lists of the three rows that name two factors. */
  lemma TwoFactorsLifestyleHabits()
    ensures FactorText(WithoutAge(["lifestyle", "habits"])) == " × lifestyleFactor × habitsFactor"
  {
    assert WithoutAge(["lifestyle", "habits"]) == ["lifestyle", "habits"];
    var first := FactorText(["lifestyle"]);
    var second := FactorText(["habits"]);
    assert first == " × lifestyleFactor";
    assert second == " × habitsFactor";
    assert FactorText(["lifestyle", "habits"]) == first + second;
    assert " × lifestyleFactor" + " × habitsFactor" == " × lifestyleFactor × habitsFactor";
  }

  lemma TwoFactorsHabitsLifestyle()
    ensures FactorText(WithoutAge(["habits", "lifestyle"])) == " × habitsFactor × lifestyleFactor"
  {
    assert WithoutAge(["habits", "lifestyle"]) == ["habits", "lifestyle"];
    var first := FactorText(["habits"]);
    var second := FactorText(["lifestyle"]);
    assert first == " × habitsFactor";
    assert second == " × lifestyleFactor";
    assert FactorText(["habits", "lifestyle"]) == first + second;
    assert " × habitsFactor" + " × lifestyleFactor" == " × habitsFactor × lifestyleFactor";
  }

  lemma TwoFactorsOptimismHabits()
    ensures FactorText(WithoutAge(["optimism", "habits"])) == " × optimismFactor × habitsFactor"
  {
    assert WithoutAge(["optimism", "habits"]) == ["optimism", "habits"];
    var first := FactorText(["optimism"]);
    var second := FactorText(["habits"]);
    assert first == " × optimismFactor";
    assert second == " × habitsFactor";
    assert FactorText(["optimism", "habits"]) == first + second;
    assert " × optimismFactor" + " × habitsFactor" == " × optimismFactor × habitsFactor";
  }
}

/** Reading a catalogue row's calculation hint back: the hint names the
    quantity the rate applies to ("remainingWeeks" or "remainingYears"),
    the rate's coefficient and the factors the count is scaled by, joined
    by " × ". Every hint of the catalogue reads back as its rate-table entry
    and the row's factor tags other than "age". */
module CalculationHints {
  import opened Calc
  import opened AssumptionCalc
  import opened Catalogue
  import Copy
  import opened HintFactors

  function DigitValue(c: char): real
    requires Copy.IsDigit(c)
  {
    (c as int - '0' as int) as real
  }

  /** A coefficient as the hints write it: one digit, two digits, or a
      digit, a point and a digit. */
  function ReadCoefficient(w: string): (r: Option<real>)
    ensures r.Some? ==> r.value >= 0.0
    ensures r.Some? ==> 1 <= |w| <= 3
  {
    if |w| == 1 && Copy.IsDigit(w[0]) then Some(DigitValue(w[0]))
    else if |w| == 2 && Copy.IsDigit(w[0]) && Copy.IsDigit(w[1]) then
      Some(10.0 * DigitValue(w[0]) + DigitValue(w[1]))
    else if |w| == 3 && Copy.IsDigit(w[0]) && w[1] == '.' && Copy.IsDigit(w[2]) then
      Some(DigitValue(w[0]) + DigitValue(w[2]) / 10.0)
    else None
  }

  /** The length of a coefficient of at most three characters at the head
      of `s`: the characters before the first space, or 0 when no space
      follows in time. */
  function CoefficientLength(s: string): (n: nat)
    ensures n <= 3 && n <= |s|
    ensures 0 < n < |s| ==> s[n] == ' ' && forall i | 0 <= i < n :: s[i] != ' '
  {
    if |s| >= 2 && s[0] != ' ' && s[1] == ' ' then 1
    else if |s| >= 3 && s[0] != ' ' && s[1] != ' ' && s[2] == ' ' then 2
    else if |s| >= 4 && s[0] != ' ' && s[1] != ' ' && s[2] != ' ' && s[3] == ' ' then 3
    else 0
  }

  const WeeksLead: string := "remainingWeeks × "
  const YearsLead: string := "remainingYears × "

  /** What a hint says: the rate, weekly or yearly, and the text naming
      the factors. */
  datatype HintReading = HintReading(rate: Rate, factorText: string)

  function ReadHint(hint: string): Option<HintReading>
  {
    if |hint| < |WeeksLead| || (hint[..|WeeksLead|] != WeeksLead && hint[..|WeeksLead|] != YearsLead) then None
    else
      var rest := hint[|WeeksLead|..];
      var n := CoefficientLength(rest);
      match ReadCoefficient(rest[..n])
      case None => None
      case Some(c) =>
        Some(HintReading(if hint[..|WeeksLead|] == WeeksLead then PerWeek(c) else PerYear(c), rest[n..]))
  }

  /** A lead, a coefficient and a factor list read back as written. */
  lemma ReadHintOf(lead: string, w: string, tail: string)
    requires lead == WeeksLead || lead == YearsLead
    requires 1 <= |w| <= 3 && forall i | 0 <= i < |w| :: w[i] != ' '
    requires ReadCoefficient(w).Some?
    requires |tail| > 0 && tail[0] == ' '
    ensures ReadHint(lead + w + tail) ==
      Some(HintReading((if lead == WeeksLead then PerWeek else PerYear)(ReadCoefficient(w).value), tail))
  {
    var hint := lead + w + tail;
    assert hint[..|WeeksLead|] == lead;
    assert hint[|WeeksLead|..] == w + tail;
    assert (w + tail)[..|w|] == w;
    assert (w + tail)[|w|..] == tail;
  }

  /** Row k's hint reads as rate-table entry k, and its factor list names
      exactly the row's tags other than "age", in the row's order. */
  predicate HintAgrees(k: int)
    requires 0 <= k < |AssumptionsBase| && |RateTable| == |AssumptionsBase|
  {
    ReadHint(AssumptionsBase[k].calculationHint) ==
      Some(HintReading(RateTable[k].1, FactorText(WithoutAge(AssumptionsBase[k].affectedBy))))
  }

  lemma HintOfRow(k: int, lead: string, w: string, tail: string, tags: seq<string>)
    requires 0 <= k < |AssumptionsBase| && |RateTable| == |AssumptionsBase|
    requires lead == WeeksLead || lead == YearsLead
    requires 1 <= |w| <= 3 && forall i | 0 <= i < |w| :: w[i] != ' '
    requires ReadCoefficient(w).Some?
    requires RateTable[k].1 == (if lead == WeeksLead then PerWeek else PerYear)(ReadCoefficient(w).value)
    requires AssumptionsBase[k].affectedBy == tags
    requires |tail| > 0 && tail[0] == ' ' && tail == FactorText(WithoutAge(tags))
    requires AssumptionsBase[k].calculationHint == lead + w + tail
    ensures HintAgrees(k)
  {
    ReadHintOf(lead, w, tail);
  }

  lemma HintRow0()
    ensures HintAgrees(0)
  {
    TwoFactorsLifestyleHabits();
    HintOfRow(0, WeeksLead, "1.1", " × lifestyleFactor × habitsFactor", ["lifestyle", "habits"]);
  }

  lemma HintRow1()
    ensures HintAgrees(1)
  {
    HintOfRow(1, WeeksLead, "2.6", " × habitsFactor", ["habits"]);
  }

  lemma HintRow2()
    ensures HintAgrees(2)
  {
    HintOfRow(2, YearsLead, "1.8", " × lifestyleFactor", ["lifestyle", "age"]);
  }

  lemma HintRow3()
    ensures HintAgrees(3)
  {
    HintOfRow(3, WeeksLead, "0.7", " × lifestyleFactor", ["lifestyle"]);
  }

  lemma HintRow4()
    ensures HintAgrees(4)
  {
    HintOfRow(4, YearsLead, "6.2", " × lifestyleFactor", ["lifestyle"]);
  }

  lemma HintRow5()
    ensures HintAgrees(5)
  {
    HintOfRow(5, YearsLead, "4.1", " × lifestyleFactor", ["lifestyle"]);
  }

  lemma HintRow6()
    ensures HintAgrees(6)
  {
    HintOfRow(6, WeeksLead, "4.0", " × habitsFactor", ["habits"]);
  }

  lemma HintRow7()
    ensures HintAgrees(7)
  {
    TwoFactorsHabitsLifestyle();
    HintOfRow(7, WeeksLead, "5.0", " × habitsFactor × lifestyleFactor", ["habits", "lifestyle"]);
  }

  lemma HintRow8()
    ensures HintAgrees(8)
  {
    HintOfRow(8, WeeksLead, "3.1", " × lifestyleFactor", ["lifestyle"]);
  }

  lemma HintRow9()
    ensures HintAgrees(9)
  {
    HintOfRow(9, WeeksLead, "1.4", " × lifestyleFactor", ["lifestyle"]);
  }

  lemma HintRow10()
    ensures HintAgrees(10)
  {
    HintOfRow(10, WeeksLead, "1.1", " × lifestyleFactor", ["lifestyle"]);
  }

  lemma HintRow11()
    ensures HintAgrees(11)
  {
    HintOfRow(11, WeeksLead, "2.0", " × lifestyleFactor", ["lifestyle"]);
  }

  lemma HintRow12()
    ensures HintAgrees(12)
  {
    HintOfRow(12, WeeksLead, "3.2", " × lifestyleFactor", ["lifestyle"]);
  }

  lemma HintRow13()
    ensures HintAgrees(13)
  {
    HintOfRow(13, WeeksLead, "4.0", " × lifestyleFactor", ["lifestyle"]);
  }

  lemma HintRow14()
    ensures HintAgrees(14)
  {
    HintOfRow(14, WeeksLead, "1.0", " × lifestyleFactor", ["lifestyle"]);
  }

  lemma HintRow15()
    ensures HintAgrees(15)
  {
    HintOfRow(15, WeeksLead, "0.8", " × lifestyleFactor", ["lifestyle"]);
  }

  lemma HintRow16()
    ensures HintAgrees(16)
  {
    HintOfRow(16, WeeksLead, "2.2", " × lifestyleFactor", ["lifestyle"]);
  }

  lemma HintRow17()
    ensures HintAgrees(17)
  {
    HintOfRow(17, YearsLead, "8.0", " × lifestyleFactor", ["lifestyle", "age"]);
  }

  lemma HintRow18()
    ensures HintAgrees(18)
  {
    HintOfRow(18, YearsLead, "1.0", " × lifestyleFactor", ["lifestyle", "age"]);
  }

  lemma HintRow19()
    ensures HintAgrees(19)
  {
    HintOfRow(19, YearsLead, "1.6", " × lifestyleFactor", ["lifestyle", "age"]);
  }

  lemma HintRow20()
    ensures HintAgrees(20)
  {
    HintOfRow(20, WeeksLead, "12", " × habitsFactor", ["habits"]);
  }

  lemma HintRow21()
    ensures HintAgrees(21)
  {
    HintOfRow(21, WeeksLead, "3.1", " × habitsFactor", ["habits"]);
  }

  lemma HintRow22()
    ensures HintAgrees(22)
  {
    TwoFactorsOptimismHabits();
    HintOfRow(22, WeeksLead, "5.0", " × optimismFactor × habitsFactor", ["optimism", "habits"]);
  }

  lemma HintRow23()
    ensures HintAgrees(23)
  {
    HintOfRow(23, WeeksLead, "1.2", " × optimismFactor", ["optimism"]);
  }

  lemma HintRow24()
    ensures HintAgrees(24)
  {
    HintOfRow(24, WeeksLead, "0.9", " × optimismFactor", ["optimism"]);
  }

  lemma HintRow25()
    ensures HintAgrees(25)
  {
    HintOfRow(25, WeeksLead, "4.2", " × optimismFactor", ["optimism"]);
  }

  lemma HintRow26()
    ensures HintAgrees(26)
  {
    HintOfRow(26, WeeksLead, "1.5", " × habitsFactor", ["habits"]);
  }

  lemma HintRow27()
    ensures HintAgrees(27)
  {
    HintOfRow(27, WeeksLead, "1.0", " × optimismFactor", ["optimism"]);
  }

  lemma HintRow28()
    ensures HintAgrees(28)
  {
    HintOfRow(28, YearsLead, "20", " × lifestyleFactor", ["lifestyle", "age"]);
  }

  lemma HintRow29()
    ensures HintAgrees(29)
  {
    HintOfRow(29, WeeksLead, "1.0", " × habitsFactor", ["habits"]);
  }

  lemma HintRow30()
    ensures HintAgrees(30)
  {
    HintOfRow(30, WeeksLead, "2.2", " × lifestyleFactor", ["lifestyle"]);
  }

  lemma HintRow31()
    ensures HintAgrees(31)
  {
    HintOfRow(31, WeeksLead, "1.2", " × lifestyleFactor", ["lifestyle"]);
  }

  lemma HintRow32()
    ensures HintAgrees(32)
  {
    HintOfRow(32, WeeksLead, "1.0", " × lifestyleFactor", ["lifestyle"]);
  }

  lemma HintRow33()
    ensures HintAgrees(33)
  {
    HintOfRow(33, WeeksLead, "3.0", " × lifestyleFactor", ["lifestyle"]);
  }

  lemma HintRow34()
    ensures HintAgrees(34)
  {
    HintOfRow(34, WeeksLead, "4.0", " × lifestyleFactor", ["lifestyle"]);
  }

  lemma HintRow35()
    ensures HintAgrees(35)
  {
    HintOfRow(35, WeeksLead, "2.3", " × lifestyleFactor", ["lifestyle"]);
  }

  lemma HintRow36()
    ensures HintAgrees(36)
  {
    HintOfRow(36, WeeksLead, "2.8", " × optimismFactor", ["optimism"]);
  }

  lemma HintRow37()
    ensures HintAgrees(37)
  {
    HintOfRow(37, WeeksLead, "1.3", " × optimismFactor", ["optimism"]);
  }

  lemma HintRow38()
    ensures HintAgrees(38)
  {
    HintOfRow(38, WeeksLead, "2.5", " × optimismFactor", ["optimism"]);
  }

  lemma HintRow39()
    ensures HintAgrees(39)
  {
    HintOfRow(39, WeeksLead, "1.1", " × optimismFactor", ["optimism"]);
  }

  lemma HintRows0To9()
    ensures |AssumptionsBase| == |RateTable| == 40
    ensures forall k | 0 <= k < 10 :: HintAgrees(k)
  {
    CatalogueFollowsRateTable();
    forall k | 0 <= k < 10
      ensures HintAgrees(k)
    {
      if k == 0 { HintRow0(); }
      else if k == 1 { HintRow1(); }
      else if k == 2 { HintRow2(); }
      else if k == 3 { HintRow3(); }
      else if k == 4 { HintRow4(); }
      else if k == 5 { HintRow5(); }
      else if k == 6 { HintRow6(); }
      else if k == 7 { HintRow7(); }
      else if k == 8 { HintRow8(); }
      else { HintRow9(); }
    }
  }

  lemma HintRows10To19()
    ensures |AssumptionsBase| == |RateTable| == 40
    ensures forall k | 10 <= k < 20 :: HintAgrees(k)
  {
    CatalogueFollowsRateTable();
    forall k | 10 <= k < 20
      ensures HintAgrees(k)
    {
      if k == 10 { HintRow10(); }
      else if k == 11 { HintRow11(); }
      else if k == 12 { HintRow12(); }
      else if k == 13 { HintRow13(); }
      else if k == 14 { HintRow14(); }
      else if k == 15 { HintRow15(); }
      else if k == 16 { HintRow16(); }
      else if k == 17 { HintRow17(); }
      else if k == 18 { HintRow18(); }
      else { HintRow19(); }
    }
  }

  lemma HintRows20To29()
    ensures |AssumptionsBase| == |RateTable| == 40
    ensures forall k | 20 <= k < 30 :: HintAgrees(k)
  {
    CatalogueFollowsRateTable();
    forall k | 20 <= k < 30
      ensures HintAgrees(k)
    {
      if k == 20 { HintRow20(); }
      else if k == 21 { HintRow21(); }
      else if k == 22 { HintRow22(); }
      else if k == 23 { HintRow23(); }
      else if k == 24 { HintRow24(); }
      else if k == 25 { HintRow25(); }
      else if k == 26 { HintRow26(); }
      else if k == 27 { HintRow27(); }
      else if k == 28 { HintRow28(); }
      else { HintRow29(); }
    }
  }

  lemma HintRows30To39()
    ensures |AssumptionsBase| == |RateTable| == 40
    ensures forall k | 30 <= k < 40 :: HintAgrees(k)
  {
    CatalogueFollowsRateTable();
    forall k | 30 <= k < 40
      ensures HintAgrees(k)
    {
      if k == 30 { HintRow30(); }
      else if k == 31 { HintRow31(); }
      else if k == 32 { HintRow32(); }
      else if k == 33 { HintRow33(); }
      else if k == 34 { HintRow34(); }
      else if k == 35 { HintRow35(); }
      else if k == 36 { HintRow36(); }
      else if k == 37 { HintRow37(); }
      else if k == 38 { HintRow38(); }
      else { HintRow39(); }
    }
  }

  /** Every hint of the catalogue agrees with the rate table and the
      row's tags. */
  lemma CalculationHintsAgree()
    ensures |AssumptionsBase| == |RateTable| == 40
    ensures forall k | 0 <= k < |AssumptionsBase| :: HintAgrees(k)
  {
    HintRows0To9();
    HintRows10To19();
    HintRows20To29();
    HintRows30To39();
  }
}
