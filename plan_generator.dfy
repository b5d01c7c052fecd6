/** The rule-based workout plan generator: a filter over an exercise catalog
    keyed by muscle group, a split table keyed by training days per week, and
    the response envelope built from both. The two tables are parameters. */
module PlanGenerator {
  import opened Text
  import opened WorkoutTypes

  /** One catalog entry: the levels and preference types it suits, and the
      fields copied into a plan. */
  datatype ExerciseRecord = ExerciseRecord(
    name: string,
    duration: string,
    defaultSets: string,
    defaultReps: string,
    equipment: string,
    level: seq<string>,
    exerciseTypes: seq<string>)

  /** Muscle group to its exercises, in catalog order. */
  type Catalog = map<string, seq<ExerciseRecord>>

  /** Days per week to one list of muscle groups per training day. */
  type SplitTable = map<int, seq<seq<string>>>

  /** The day labels, in the order the plan's days take them. */
  const DaysOfWeek: seq<string> := ["Monday", "Wednesday", "Friday", "Saturday", "Sunday", "Tuesday", "Thursday"]

  /** Seven labels, no two alike: the days of a plan never share a label. */
  lemma DaysOfWeekDistinct()
    ensures |DaysOfWeek| == 7
    ensures forall i, j :: 0 <= i < j < |DaysOfWeek| ==> DaysOfWeek[i] != DaysOfWeek[j]
  {
  }

  /** How many exercises are taken per muscle group when no count is given. */
  const DefaultCount: nat := 2

  const MinSplitDays := 3
  const MaxSplitDays := 6

  const SuccessStatus := "success"
  const SuccessMessage := "Workout plan generated successfully"
  const FailureMessage := "Failed to generate workout plan. Please try again."

  /** Every row has a label in DaysOfWeek. */
  predicate RowsFitWeek(splits: SplitTable) {
    forall d :: d in splits ==> |splits[d]| <= |DaysOfWeek|
  }

  /** The tables the generator is shipped with: a row for each of 3..6 days,
      none longer than the week. */
  predicate SplitsWellFormed(splits: SplitTable) {
    && (forall d :: MinSplitDays <= d <= MaxSplitDays ==> d in splits)
    && RowsFitWeek(splits)
  }

  // ---------------------------------------------------------------------
  // Selecting exercises for one muscle group

  /** The filter: the entry suits `level`, and one of its types is among the preferences. */
  predicate Eligible(e: ExerciseRecord, preferences: seq<string>, level: string)
    ensures Eligible(e, preferences, level) ==> level in e.level && preferences != [] && e.exerciseTypes != []
  {
    && level in e.level
    && exists t :: 0 <= t < |e.exerciseTypes| && e.exerciseTypes[t] in preferences
  }

  /** The catalog entries that pass the filter, in catalog order. */
  function Eligibles(entries: seq<ExerciseRecord>, preferences: seq<string>, level: string): (r: seq<ExerciseRecord>)
    ensures |r| <= |entries|
    ensures forall i :: 0 <= i < |r| ==> r[i] in entries && Eligible(r[i], preferences, level)
  {
    if entries == [] then []
    else
      var last := entries[|entries| - 1];
      Eligibles(entries[..|entries| - 1], preferences, level) + (if Eligible(last, preferences, level) then [last] else [])
  }

  /** `Array.prototype.slice(0, end)`: a negative end counts back from the end. */
  function SliceFromStart<T>(s: seq<T>, end: int): (r: seq<T>)
    ensures r <= s
    ensures end >= 0 ==> |r| == Min(end, |s|)
    ensures end < 0 ==> |r| == Max(0, |s| + end)
  {
    if end >= 0 then s[..Min(end, |s|)] else s[..Max(0, |s| + end)]
  }

  /** The record a catalog entry becomes in a plan. */
  function Project(e: ExerciseRecord): (x: WorkoutExercise)
    ensures x.name == e.name && x.duration == e.duration && x.equipment == e.equipment
    ensures x.repetitions == e.defaultReps && x.sets == e.defaultSets
  {
    WorkoutExercise(e.name, e.duration, e.defaultReps, e.defaultSets, e.equipment)
  }

  function ProjectAll(es: seq<ExerciseRecord>): (xs: seq<WorkoutExercise>)
    ensures |xs| == |es|
    ensures forall i :: 0 <= i < |es| ==> xs[i] == Project(es[i])
  {
    seq(|es|, i requires 0 <= i < |es| => Project(es[i]))
  }

  /** A muscle group absent from the catalog has no entries. */
  function Entries(catalog: Catalog, group: string): (es: seq<ExerciseRecord>)
    ensures group in catalog ==> es == catalog[group]
    ensures group !in catalog ==> es == []
  {
    if group in catalog then catalog[group] else []
  }

  ghost predicate ProjectedFrom(x: WorkoutExercise, entries: seq<ExerciseRecord>, preferences: seq<string>, level: string) {
    exists e :: e in entries && Eligible(e, preferences, level) && Project(e) == x
  }

  /** getExercisesForMuscleGroup. */
  function ExercisesForMuscleGroup(catalog: Catalog, group: string, preferences: seq<string>, level: string, count: int)
    : (r: seq<WorkoutExercise>)
    ensures count >= 0 ==> |r| <= count
    ensures group !in catalog ==> r == []
  {
    ProjectAll(SliceFromStart(Eligibles(Entries(catalog, group), preferences, level), count))
  }

  /** Every selected exercise is the projection of an eligible entry of its group. */
  lemma SelectionEligible(catalog: Catalog, group: string, preferences: seq<string>, level: string, count: int)
    ensures var r := ExercisesForMuscleGroup(catalog, group, preferences, level, count);
      forall i :: 0 <= i < |r| ==> ProjectedFrom(r[i], Entries(catalog, group), preferences, level)
  {
    var picked := SliceFromStart(Eligibles(Entries(catalog, group), preferences, level), count);
    assert forall i :: 0 <= i < |picked| ==> picked[i] in Eligibles(Entries(catalog, group), preferences, level);
  }

  /** The filter result of a prefix of the catalog is a prefix of the filter result. */
  lemma {:induction false} EligiblesOfPrefix(entries: seq<ExerciseRecord>, preferences: seq<string>, level: string, j: nat)
    requires j <= |entries|
    ensures Eligibles(entries[..j], preferences, level) <= Eligibles(entries, preferences, level)
  {
    if j < |entries| {
      var init := entries[..|entries| - 1];
      assert init[..j] == entries[..j];
      EligiblesOfPrefix(init, preferences, level, j);
    } else {
      assert entries[..j] == entries;
    }
  }

  /** An eligible entry preceded by k eligible entries is the k-th filter result. */
  lemma EligibleAt(entries: seq<ExerciseRecord>, preferences: seq<string>, level: string, j: nat)
    requires j < |entries| && Eligible(entries[j], preferences, level)
    ensures var k := |Eligibles(entries[..j], preferences, level)|;
      k < |Eligibles(entries, preferences, level)| && Eligibles(entries, preferences, level)[k] == entries[j]
  {
    var upTo := entries[..j + 1];
    assert upTo[..|upTo| - 1] == entries[..j];
    assert Eligibles(upTo, preferences, level) == Eligibles(entries[..j], preferences, level) + [entries[j]];
    EligiblesOfPrefix(entries, preferences, level, j + 1);
  }

  /** Every filter result is an eligible catalog entry, preceded by exactly
      as many eligible entries as its position. */
  lemma {:induction false} EligibleOrigin(entries: seq<ExerciseRecord>, preferences: seq<string>, level: string, k: nat)
    requires k < |Eligibles(entries, preferences, level)|
    ensures exists j :: (0 <= j < |entries| && Eligible(entries[j], preferences, level)
      && |Eligibles(entries[..j], preferences, level)| == k && Eligibles(entries, preferences, level)[k] == entries[j])
  {
    var n := |entries|;
    var init := entries[..n - 1];
    if k < |Eligibles(init, preferences, level)| {
      EligibleOrigin(init, preferences, level, k);
      var j :| 0 <= j < |init| && Eligible(init[j], preferences, level)
        && |Eligibles(init[..j], preferences, level)| == k && Eligibles(init, preferences, level)[k] == init[j];
      assert init[..j] == entries[..j];
    } else {
      assert entries[..n - 1] == init;
    }
  }

  /** In catalog order: an eligible entry that has fewer than `count` eligible
      entries before it is selected, at the position given by that number,
      with name, duration and equipment copied, defaultReps as repetitions
      and defaultSets as sets. */
  lemma SelectionInCatalogOrder(catalog: Catalog, group: string, preferences: seq<string>, level: string, count: nat, j: nat)
    requires group in catalog && j < |catalog[group]|
    requires Eligible(catalog[group][j], preferences, level)
    requires |Eligibles(catalog[group][..j], preferences, level)| < count
    ensures var r := ExercisesForMuscleGroup(catalog, group, preferences, level, count);
      var k := |Eligibles(catalog[group][..j], preferences, level)|;
      var e := catalog[group][j];
      k < |r| && r[k] == WorkoutExercise(e.name, e.duration, e.defaultReps, e.defaultSets, e.equipment)
  {
    EligibleAt(catalog[group], preferences, level, j);
  }

  /** Conversely, the k-th selected exercise comes from an eligible catalog
      entry with exactly k eligible entries before it: nothing is skipped,
      reordered or invented. */
  lemma SelectionOrigin(catalog: Catalog, group: string, preferences: seq<string>, level: string, count: int, k: nat)
    requires k < |ExercisesForMuscleGroup(catalog, group, preferences, level, count)|
    ensures group in catalog
    ensures exists j :: (0 <= j < |catalog[group]| && Eligible(catalog[group][j], preferences, level)
      && |Eligibles(catalog[group][..j], preferences, level)| == k
      && ExercisesForMuscleGroup(catalog, group, preferences, level, count)[k] == Project(catalog[group][j]))
  {
    EligibleOrigin(catalog[group], preferences, level, k);
  }

  /** Exactly `count` exercises when the group has that many eligible
      entries, otherwise all of them. */
  lemma SelectionLength(catalog: Catalog, group: string, preferences: seq<string>, level: string, count: nat)
    ensures |ExercisesForMuscleGroup(catalog, group, preferences, level, count)|
      == Min(count, |Eligibles(Entries(catalog, group), preferences, level)|)
  {
  }

  /** With no preference nothing can pass the type filter. */
  lemma {:induction false} EmptyPreferencesSelectNothing(catalog: Catalog, group: string, level: string, count: int)
    ensures ExercisesForMuscleGroup(catalog, group, [], level, count) == []
  {
    NothingEligibleWithoutPreferences(Entries(catalog, group), level);
  }

  lemma {:induction false} NothingEligibleWithoutPreferences(entries: seq<ExerciseRecord>, level: string)
    ensures Eligibles(entries, [], level) == []
  {
    if entries != [] {
      NothingEligibleWithoutPreferences(entries[..|entries| - 1], level);
    }
  }

  // ---------------------------------------------------------------------
  // Building the days

  /** The exercises of one day: the selections of its muscle groups, in group order. */
  function DayExercises(catalog: Catalog, groups: seq<string>, preferences: seq<string>, level: string)
    : (r: seq<WorkoutExercise>)
    ensures |r| <= DefaultCount * |groups|
  {
    if groups == [] then []
    else
      ExercisesForMuscleGroup(catalog, groups[0], preferences, level, DefaultCount)
        + DayExercises(catalog, groups[1..], preferences, level)
  }

  /** Every exercise of a day is an eligible catalog entry of one of the day's groups. */
  lemma {:induction false} DayExercisesOrigin(catalog: Catalog, groups: seq<string>, preferences: seq<string>, level: string, i: nat)
    requires i < |DayExercises(catalog, groups, preferences, level)|
    ensures exists k :: (0 <= k < |groups|
      && ProjectedFrom(DayExercises(catalog, groups, preferences, level)[i], Entries(catalog, groups[k]), preferences, level))
  {
    var head := ExercisesForMuscleGroup(catalog, groups[0], preferences, level, DefaultCount);
    if i < |head| {
      SelectionEligible(catalog, groups[0], preferences, level, DefaultCount);
      assert ProjectedFrom(head[i], Entries(catalog, groups[0]), preferences, level);
    } else {
      DayExercisesOrigin(catalog, groups[1..], preferences, level, i - |head|);
      var k :| 0 <= k < |groups[1..]|
        && ProjectedFrom(DayExercises(catalog, groups[1..], preferences, level)[i - |head|], Entries(catalog, groups[1..][k]), preferences, level);
      assert groups[1..][k] == groups[k + 1];
    }
  }

  /** A day of two consecutive lists of groups is the two days' exercises, concatenated. */
  lemma {:induction false} DayExercisesAppend(catalog: Catalog, g1: seq<string>, g2: seq<string>, preferences: seq<string>, level: string)
    ensures DayExercises(catalog, g1 + g2, preferences, level)
      == DayExercises(catalog, g1, preferences, level) + DayExercises(catalog, g2, preferences, level)
  {
    if g1 != [] {
      var head := ExercisesForMuscleGroup(catalog, g1[0], preferences, level, DefaultCount);
      var tail1 := DayExercises(catalog, g1[1..], preferences, level);
      var day2 := DayExercises(catalog, g2, preferences, level);
      assert (g1 + g2)[0] == g1[0] && (g1 + g2)[1..] == g1[1..] + g2;
      DayExercisesAppend(catalog, g1[1..], g2, preferences, level);
      assert DayExercises(catalog, g1 + g2, preferences, level) == head + (tail1 + day2);
      assert DayExercises(catalog, g1, preferences, level) == head + tail1;
      ConcatAssociative(head, tail1, day2);
    } else {
      assert g1 + g2 == g2;
    }
  }

  /** A day is the exercises of the groups before the k-th, then the k-th
      group's selection unchanged, then the exercises of the groups after it. */
  lemma GroupSelectionInDay(catalog: Catalog, groups: seq<string>, preferences: seq<string>, level: string, k: nat)
    requires k < |groups|
    ensures DayExercises(catalog, groups, preferences, level)
      == DayExercises(catalog, groups[..k], preferences, level)
        + ExercisesForMuscleGroup(catalog, groups[k], preferences, level, DefaultCount)
        + DayExercises(catalog, groups[k + 1..], preferences, level)
  {
    var rest := groups[k..];
    assert groups == groups[..k] + rest;
    assert rest[0] == groups[k] && rest[1..] == groups[k + 1..];
    DayExercisesAppend(catalog, groups[..k], rest, preferences, level);
    ConcatAssociative(DayExercises(catalog, groups[..k], preferences, level),
      ExercisesForMuscleGroup(catalog, groups[k], preferences, level, DefaultCount),
      DayExercises(catalog, groups[k + 1..], preferences, level));
  }

  /** No preference, no exercises on any day. */
  lemma {:induction false} EmptyPreferencesEmptyDay(catalog: Catalog, groups: seq<string>, level: string)
    ensures DayExercises(catalog, groups, [], level) == []
  {
    if groups != [] {
      EmptyPreferencesSelectNothing(catalog, groups[0], level, DefaultCount);
      EmptyPreferencesEmptyDay(catalog, groups[1..], level);
    }
  }

  /** One labelled day per row entry. */
  function WorkoutDays(catalog: Catalog, row: seq<seq<string>>, preferences: seq<string>, level: string)
    : (days: seq<DayWorkout>)
    requires |row| <= |DaysOfWeek|
    ensures |days| == |row|
    ensures forall i, j :: 0 <= i < j < |days| ==> days[i].day != days[j].day
  {
    seq(|row|, i requires 0 <= i < |row| => DayWorkout(DaysOfWeek[i], DayExercises(catalog, row[i], preferences, level)))
  }

  // ---------------------------------------------------------------------
  // The plan

  /** `Math.min(6, Math.max(3, d))`. */
  function ClampDays(d: int): (r: int)
    ensures MinSplitDays <= r <= MaxSplitDays
    ensures MinSplitDays <= d <= MaxSplitDays ==> r == d
    ensures d < MinSplitDays ==> r == MinSplitDays
    ensures d > MaxSplitDays ==> r == MaxSplitDays
  {
    Min(MaxSplitDays, Max(MinSplitDays, d))
  }

  /** "<level> <goal> Workout Plan": level and goal can be read back from it. */
  function SeoTitle(form: WorkoutFormData): (t: string)
    ensures |t| == |form.fitnessLevel| + |form.goal| + 14
    ensures t[..|form.fitnessLevel|] == form.fitnessLevel
    ensures t[|form.fitnessLevel|] == ' '
    ensures t[|form.fitnessLevel| + 1..|t| - 13] == form.goal
    ensures t[|t| - 13..] == " Workout Plan"
  {
    form.fitnessLevel + " " + form.goal + " Workout Plan"
  }

  /** The description: a fixed opening of 39 characters, the goal
      lower-cased, and the days per week right before the fixed closing
      " times a week.". */
  function SeoContent(form: WorkoutFormData): (c: string)
    ensures |c| >= 39 + |form.goal| + 14
    ensures c[..39] == "Follow this structured workout plan to "
    ensures c[39..39 + |form.goal|] == ToLower(form.goal)
    ensures var n := IntToString(form.daysPerWeek);
      |n| + 14 <= |c| && c[|c| - 14 - |n|..] == n + " times a week."
  {
    var opening := "Follow this structured workout plan to ";
    var closing := IntToString(form.daysPerWeek) + " times a week.";
    var middle := " as a " + ToLower(form.fitnessLevel) + ". Engage in " + Join(form.preferences, ", ") + " ";
    var head := opening + ToLower(form.goal);
    var c := head + (middle + closing);
    assert c[..|head|] == head && head[..39] == opening && head[39..] == ToLower(form.goal);
    assert c[|c| - |closing|..] == closing;
    c
  }

  /** The keywords: the goal and the level lower-cased, then the preferences
      joined by ", ". */
  function SeoKeywords(form: WorkoutFormData): (k: string)
    ensures var prefs := Join(form.preferences, ", ");
      && |k| == |form.goal| + |form.fitnessLevel| + |prefs| + 12
      && k[..|form.goal|] == ToLower(form.goal)
      && k[|form.goal|..|form.goal| + 2] == ", "
      && k[|form.goal| + 2..|form.goal| + 2 + |form.fitnessLevel|] == ToLower(form.fitnessLevel)
      && k[|form.goal| + 2 + |form.fitnessLevel|..|form.goal| + 12 + |form.fitnessLevel|] == " workout, "
      && k[|k| - |prefs|..] == prefs
  {
    ToLower(form.goal) + ", " + ToLower(form.fitnessLevel) + " workout, " + Join(form.preferences, ", ")
  }

  /** generateWorkoutPlan. `now` stands for the clock reading stored as
      cacheTime. A missing split row is the one failure modelled; it
      rejects with the fixed message and no partial plan. */
  function GenerateWorkoutPlan(form: WorkoutFormData, catalog: Catalog, splits: SplitTable, now: int)
    : (r: Result<WorkoutPlanResponse>)
    requires RowsFitWeek(splits)
    ensures r.Failure? <==> ClampDays(form.daysPerWeek) !in splits
    ensures r.Failure? ==> r.error == FailureMessage
    ensures r.Success? ==> r.value.status == SuccessStatus && r.value.cacheTime == now
  {
    var key := ClampDays(form.daysPerWeek);
    if key !in splits then Failure(FailureMessage)
    else
      var result := PlanResult(
        form.goal,
        form.fitnessLevel,
        form.planDurationWeeks,
        Schedule(form.daysPerWeek, form.sessionDuration),
        WorkoutDays(catalog, splits[key], form.preferences, form.fitnessLevel),
        SeoTitle(form),
        SeoContent(form),
        SeoKeywords(form));
      Success(WorkoutPlanResponse(SuccessStatus, SuccessMessage, result, now))
  }

  /** The shipped tables always produce a plan. */
  lemma WellFormedTablesSucceed(form: WorkoutFormData, catalog: Catalog, splits: SplitTable, now: int)
    requires SplitsWellFormed(splits)
    ensures GenerateWorkoutPlan(form, catalog, splits, now).Success?
  {
  }

  /** The plan echoes the request: goal and level unchanged, weeks as given,
      the unclamped days per week and the session length in the schedule,
      and the title and keyword strings built from them. */
  lemma PlanEchoesRequest(form: WorkoutFormData, catalog: Catalog, splits: SplitTable, now: int)
    requires RowsFitWeek(splits) && ClampDays(form.daysPerWeek) in splits
    ensures var p := GenerateWorkoutPlan(form, catalog, splits, now).value;
      && p.message == SuccessMessage
      && p.result.goal == form.goal
      && p.result.fitnessLevel == form.fitnessLevel
      && p.result.totalWeeks == form.planDurationWeeks
      && p.result.schedule == Schedule(form.daysPerWeek, form.sessionDuration)
      && p.result.seoTitle == form.fitnessLevel + " " + form.goal + " Workout Plan"
      && p.result.seoKeywords == ToLower(form.goal) + ", " + ToLower(form.fitnessLevel) + " workout, " + Join(form.preferences, ", ")
  {
  }

  /** One day per entry of the clamped split row, day i labelled
      DaysOfWeek[i], each holding at most two exercises per muscle group,
      every one of them an eligible entry of one of that day's groups. */
  lemma PlanDays(form: WorkoutFormData, catalog: Catalog, splits: SplitTable, now: int)
    requires RowsFitWeek(splits) && ClampDays(form.daysPerWeek) in splits
    ensures var row := splits[ClampDays(form.daysPerWeek)];
      var days := GenerateWorkoutPlan(form, catalog, splits, now).value.result.exercises;
      && |days| == |row|
      && forall i :: 0 <= i < |days| ==>
        && days[i].day == DaysOfWeek[i]
        && days[i].exercises == DayExercises(catalog, row[i], form.preferences, form.fitnessLevel)
        && |days[i].exercises| <= DefaultCount * |row[i]|
        && forall x :: x in days[i].exercises ==> exists k :: (0 <= k < |row[i]|
          && ProjectedFrom(x, Entries(catalog, row[i][k]), form.preferences, form.fitnessLevel))
  {
    var row := splits[ClampDays(form.daysPerWeek)];
    var days := GenerateWorkoutPlan(form, catalog, splits, now).value.result.exercises;
    forall i, x | 0 <= i < |days| && x in days[i].exercises
      ensures exists k :: 0 <= k < |row[i]| && ProjectedFrom(x, Entries(catalog, row[i][k]), form.preferences, form.fitnessLevel)
    {
      var n :| 0 <= n < |days[i].exercises| && days[i].exercises[n] == x;
      DayExercisesOrigin(catalog, row[i], form.preferences, form.fitnessLevel, n);
    }
  }

  /** Two requests whose days per week clamp to the same value get the same days. */
  lemma DaysDependOnClampedValue(form: WorkoutFormData, other: WorkoutFormData, catalog: Catalog, splits: SplitTable, now: int)
    requires RowsFitWeek(splits) && ClampDays(form.daysPerWeek) in splits
    requires other == form.(daysPerWeek := other.daysPerWeek)
    requires ClampDays(other.daysPerWeek) == ClampDays(form.daysPerWeek)
    ensures GenerateWorkoutPlan(other, catalog, splits, now).value.result.exercises
      == GenerateWorkoutPlan(form, catalog, splits, now).value.result.exercises
  {
  }

  /** Generation is deterministic up to cacheTime. */
  lemma DeterministicUpToCacheTime(form: WorkoutFormData, catalog: Catalog, splits: SplitTable, t1: int, t2: int)
    requires RowsFitWeek(splits)
    ensures var r1 := GenerateWorkoutPlan(form, catalog, splits, t1);
      var r2 := GenerateWorkoutPlan(form, catalog, splits, t2);
      r1.Success? == r2.Success? && (r1.Success? ==> r1.value.(cacheTime := t2) == r2.value)
  {
  }

  /** With no preference every day of the plan is empty. */
  lemma EmptyPreferencesEmptyPlan(form: WorkoutFormData, catalog: Catalog, splits: SplitTable, now: int)
    requires RowsFitWeek(splits) && ClampDays(form.daysPerWeek) in splits
    requires form.preferences == []
    ensures var days := GenerateWorkoutPlan(form, catalog, splits, now).value.result.exercises;
      forall i :: 0 <= i < |days| ==> days[i].exercises == []
  {
    var row := splits[ClampDays(form.daysPerWeek)];
    forall i | 0 <= i < |row| {
      EmptyPreferencesEmptyDay(catalog, row[i], form.fitnessLevel);
    }
  }

  /** The page shows a plan exactly when generation resolved with status
      'success'; otherwise the previous plan is cleared. */
  function DisplayedPlan(outcome: Result<WorkoutPlanResponse>): (shown: Option<WorkoutPlanResponse>)
    ensures shown.Some? <==> outcome.Success? && outcome.value.status == SuccessStatus
    ensures shown.Some? ==> shown.value == outcome.value
  {
    if outcome.Success? && outcome.value.status == SuccessStatus then Some(outcome.value) else None
  }

  /** A generated plan is displayed exactly when its split row exists. */
  lemma GeneratedPlanDisplayed(form: WorkoutFormData, catalog: Catalog, splits: SplitTable, now: int)
    requires RowsFitWeek(splits)
    ensures DisplayedPlan(GenerateWorkoutPlan(form, catalog, splits, now)).Some? <==> ClampDays(form.daysPerWeek) in splits
  {
  }
}
