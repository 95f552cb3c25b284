/** The state of the Next.js home page: the draft assumptions the panel
    edits, the committed assumptions the counters read, and the list of at
    most three saved snapshots, newest first. */
module Page {
  import opened Calc

  /** An assumptions object whose fields may be missing, as a stored
      record read back from storage, or an object literal that leaves a
      field out. */
  datatype PartialAssumptions = PartialAssumptions(
    age: Option<int>,
    lifeExpectancy: Option<LifeExpectancy>,
    healthCondition: Option<int>,
    eatingHabits: Option<int>,
    coffeesPerDay: Option<int>,
    workdaysPerWeek: Option<int>,
    optimism: Option<int>,
    tone: Option<Tone>)

  /** Every field present. */
  function Whole(a: Assumptions): PartialAssumptions
  {
    PartialAssumptions(Some(a.age), Some(a.lifeExpectancy), Some(a.healthCondition),
      Some(a.eatingHabits), Some(a.coffeesPerDay), Some(a.workdaysPerWeek),
      Some(a.optimism), Some(a.tone))
  }

  predicate HasEveryField(p: PartialAssumptions)
  {
    && p.age.Some? && p.lifeExpectancy.Some? && p.healthCondition.Some?
    && p.eatingHabits.Some? && p.coffeesPerDay.Some? && p.workdaysPerWeek.Some?
    && p.optimism.Some? && p.tone.Some?
  }

  /** The assumptions a partial record stands for, when nothing is missing.
      A missing health or eating field would make the adjusted age, and
      every counter after it, not a number. */
  function Complete(p: PartialAssumptions): (r: Option<Assumptions>)
    ensures r.Some? <==> HasEveryField(p)
    ensures r.Some? ==> Whole(r.value) == p
  {
    if HasEveryField(p) then
      Some(Assumptions(p.age.value, p.lifeExpectancy.value, p.healthCondition.value,
        p.eatingHabits.value, p.coffeesPerDay.value, p.workdaysPerWeek.value,
        p.optimism.value, p.tone.value))
    else None
  }

  /** One field of an object spread: the later object's field wins when
      it has one. */
  function Override<T>(earlier: Option<T>, later: Option<T>): (r: Option<T>)
    ensures later.Some? ==> r == later
    ensures later.None? ==> r == earlier
  {
    if later.Some? then later else earlier
  }

  /** `{ ...defaults, ...saved }`: each saved field overrides its default,
      each missing one keeps it. */
  function Merge(defaults: PartialAssumptions, saved: PartialAssumptions): (m: PartialAssumptions)
    ensures HasEveryField(defaults) ==> HasEveryField(m)
    ensures HasEveryField(saved) ==> m == saved
    ensures m.age == Override(defaults.age, saved.age)
    ensures m.lifeExpectancy == Override(defaults.lifeExpectancy, saved.lifeExpectancy)
    ensures m.healthCondition == Override(defaults.healthCondition, saved.healthCondition)
    ensures m.eatingHabits == Override(defaults.eatingHabits, saved.eatingHabits)
    ensures m.coffeesPerDay == Override(defaults.coffeesPerDay, saved.coffeesPerDay)
    ensures m.workdaysPerWeek == Override(defaults.workdaysPerWeek, saved.workdaysPerWeek)
    ensures m.optimism == Override(defaults.optimism, saved.optimism)
    ensures m.tone == Override(defaults.tone, saved.tone)
  {
    PartialAssumptions(
      Override(defaults.age, saved.age),
      Override(defaults.lifeExpectancy, saved.lifeExpectancy),
      Override(defaults.healthCondition, saved.healthCondition),
      Override(defaults.eatingHabits, saved.eatingHabits),
      Override(defaults.coffeesPerDay, saved.coffeesPerDay),
      Override(defaults.workdaysPerWeek, saved.workdaysPerWeek),
      Override(defaults.optimism, saved.optimism),
      Override(defaults.tone, saved.tone))
  }

  /** The page's defaults as its object literal writes them: no health
      and no eating field. */
  const DefaultsAsWritten: PartialAssumptions :=
    PartialAssumptions(Some(30), Some(Average), None, None, Some(2), Some(5), Some(5), Some(Dry))

  /** With those defaults the first render, and every load of a record
      that has no health field, has no complete assumptions to count
      from. */
  lemma DefaultsAsWrittenLeaveCountersUndefined(saved: PartialAssumptions)
    requires saved.healthCondition.None? || saved.eatingHabits.None?
    ensures Complete(DefaultsAsWritten).None?
    ensures Complete(Merge(DefaultsAsWritten, saved)).None?
  {
  }

  /** The defaults with the two missing fields at the neutral middle of
      their 1..5 scale, where neither shifts the expectancy. */
  const DefaultAssumptions: Assumptions := Assumptions(30, Average, 3, 3, 2, 5, 5, Dry)

  /** The counters the corrected defaults show: 80 years, 2600 weeks,
      36400 coffees, 13000 workdays and 1300 postponed weeks. */
  lemma DefaultCounters()
    ensures AdjustedLifeExpectancyAge(DefaultAssumptions) == 80
    ensures SundaysRemaining(DefaultAssumptions) == 2600
    ensures CoffeesLeft(DefaultAssumptions) == 36400
    ensures WorkdaysRemaining(DefaultAssumptions) == 13000
    ensures NextWeekStartRemaining(DefaultAssumptions) == 1300
  {
    WorkedExample();
  }

  /** The assumptions a load produces: each saved field where there is
      one, the default elsewhere. Never incomplete. */
  function Loaded(saved: PartialAssumptions): (a: Assumptions)
    ensures Complete(Merge(Whole(DefaultAssumptions), saved)) == Some(a)
    ensures a.age == if saved.age.Some? then saved.age.value else DefaultAssumptions.age
    ensures a.lifeExpectancy ==
      if saved.lifeExpectancy.Some? then saved.lifeExpectancy.value else DefaultAssumptions.lifeExpectancy
    ensures a.healthCondition ==
      if saved.healthCondition.Some? then saved.healthCondition.value else DefaultAssumptions.healthCondition
    ensures a.eatingHabits ==
      if saved.eatingHabits.Some? then saved.eatingHabits.value else DefaultAssumptions.eatingHabits
    ensures a.coffeesPerDay ==
      if saved.coffeesPerDay.Some? then saved.coffeesPerDay.value else DefaultAssumptions.coffeesPerDay
    ensures a.workdaysPerWeek ==
      if saved.workdaysPerWeek.Some? then saved.workdaysPerWeek.value else DefaultAssumptions.workdaysPerWeek
    ensures a.optimism == if saved.optimism.Some? then saved.optimism.value else DefaultAssumptions.optimism
    ensures a.tone == if saved.tone.Some? then saved.tone.value else DefaultAssumptions.tone
  {
    Complete(Merge(Whole(DefaultAssumptions), saved)).value
  }

  /** Filling in every field and reading them back loses nothing. */
  lemma CompleteWhole(a: Assumptions)
    ensures Complete(Whole(a)) == Some(a)
  {
  }

  /** A record saved whole loads back unchanged. */
  lemma LoadedWhole(a: Assumptions)
    ensures Loaded(Whole(a)) == a
  {
  }

  function Min(a: int, b: int): int
  {
    if a <= b then a else b
  }

  /** `[x, ...s].slice(0, 3)`: the new entry first, then the previous
      entries in order, the oldest dropped beyond three. */
  function PrependCapped<T>(x: T, s: seq<T>): (r: seq<T>)
    ensures |r| == Min(3, |s| + 1)
    ensures r[0] == x
    ensures r[1..] == s[..|r| - 1]
    ensures multiset(r) <= multiset([x] + s)
  {
    var whole := [x] + s;
    assert whole[..Min(3, |whole|)] + whole[Min(3, |whole|)..] == whole;
    whole[..Min(3, |whole|)]
  }

  /** Saving twice keeps the two newest first, newest at the head. */
  lemma PrependCappedTwice<T>(x: T, y: T, s: seq<T>)
    ensures PrependCapped(y, PrependCapped(x, s))[..2] == [y, x]
  {
    var once := PrependCapped(x, s);
    assert once[0] == x;
    var twice := PrependCapped(y, once);
    assert twice[1..][0] == once[0];
  }

  /** A saved reading: the id and date come from the clock. */
  datatype Snapshot = Snapshot(id: string, date: string, sundays: int, coffees: int)

  class HomePage {
    /** What the assumptions panel shows and edits. */
    var draft: Assumptions
    /** What the counters read; it catches up with the draft after a pause. */
    var committed: Assumptions
    var snapshots: seq<Snapshot>

    constructor ()
      ensures draft == DefaultAssumptions && committed == DefaultAssumptions
      ensures snapshots == []
    {
      draft := DefaultAssumptions;
      committed := DefaultAssumptions;
      snapshots := [];
    }

    /** The mount-time load: a saved record is merged over the defaults
      into both draft and committed; a non-empty saved snapshot list
      replaces the current one. */
    method Load(saved: Option<PartialAssumptions>, savedSnapshots: seq<Snapshot>)
      modifies this
      ensures saved.Some? ==> draft == Loaded(saved.value) && committed == Loaded(saved.value)
      ensures saved.None? ==> draft == old(draft) && committed == old(committed)
      ensures snapshots == if |savedSnapshots| > 0 then savedSnapshots else old(snapshots)
    {
      if saved.Some? {
        var merged := Complete(Merge(Whole(DefaultAssumptions), saved.value)).value;
        committed := merged;
        draft := merged;
      }
      if |savedSnapshots| > 0 {
        snapshots := savedSnapshots;
      }
    }

    /** The panel changes the draft only. */
    method EditDraft(a: Assumptions)
      modifies this
      ensures draft == a && committed == old(committed) && snapshots == old(snapshots)
    {
      draft := a;
    }

    /** The pause after the last edit has passed: the counters take up the
      draft. */
    method Commit()
      modifies this
      ensures committed == old(draft) && draft == old(draft) && snapshots == old(snapshots)
    {
      committed := draft;
    }

    /** Both draft and committed return to the defaults; the snapshots stay. */
    method Reset()
      modifies this
      ensures draft == DefaultAssumptions && committed == DefaultAssumptions
      ensures snapshots == old(snapshots)
    {
      draft := DefaultAssumptions;
      committed := DefaultAssumptions;
    }

    /** Records the Sundays and coffees of the committed assumptions, not
      the draft, at the head of a list of at most three. */
    method SaveSnapshot(id: string, date: string)
      modifies this
      ensures snapshots == PrependCapped(Snapshot(id, date, SundaysRemaining(committed), CoffeesLeft(committed)), old(snapshots))
      ensures |snapshots| == Min(3, |old(snapshots)| + 1) && |snapshots| <= 3
      ensures snapshots[0].sundays == SundaysRemaining(committed) && snapshots[0].coffees == CoffeesLeft(committed)
      ensures snapshots[1..] == old(snapshots)[..|snapshots| - 1]
      ensures draft == old(draft) && committed == old(committed)
    {
      var next := Snapshot(id, date, SundaysRemaining(committed), CoffeesLeft(committed));
      snapshots := PrependCapped(next, snapshots);
    }
  }
}
