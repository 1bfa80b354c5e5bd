/**
 * The workout generator of the backend: the weekly split for each training level, the goal
 * note appended to every workout, the exercise table and the per-day plan built from them.
 */
module WorkoutService {
  import opened Wrappers
  import opened Seqs
  import opened Schemas

  /** One day of a split: the day number, the muscle group, the level and a coaching note. */
  datatype Workout = Workout(day: int, muscleGroup: string, level: Level, notes: string)

  /** One row of the exercise table. */
  datatype ExerciseTemplate = ExerciseTemplate(name: string, sets: int, reps: string, restSeconds: int)

  /** An insertion-ordered dictionary from day number to workout, as Python dicts iterate. */
  type Split = seq<(int, Workout)>

  /** The day keys of a split or a plan, in iteration order. */
  function Days<T>(split: seq<(int, T)>): (days: seq<int>)
    ensures |days| == |split| && forall k :: 0 <= k < |split| ==> days[k] == split[k].0
  {
    seq(|split|, k requires 0 <= k < |split| => split[k].0)
  }

  /** The split table for one level, before any goal adjustment. */
  function BaseSplit(level: Level): Split
  {
    match level
    case Beginner => BeginnerSplit()
    case Intermediate => IntermediateSplit()
    case Advanced => AdvancedSplit()
  }

  function BeginnerSplit(): Split
  {
    [(1, Workout(1, "Full Body A", Beginner, "Focus on form and technique")),
     (3, Workout(3, "Full Body B", Beginner, "Slightly higher intensity than day 1")),
     (5, Workout(5, "Full Body C", Beginner, "Focus on progressive overload"))]
  }

  function IntermediateSplit(): Split
  {
    [(1, Workout(1, "Upper Body A", Intermediate, "Focus on pushing movements")),
     (2, Workout(2, "Lower Body A", Intermediate, "Focus on quad-dominant exercises")),
     (4, Workout(4, "Upper Body B", Intermediate, "Focus on pulling movements")),
     (5, Workout(5, "Lower Body B", Intermediate, "Focus on hip-dominant exercises"))]
  }

  function AdvancedSplit(): Split
  {
    [(1, Workout(1, "Chest & Triceps", Advanced, "High volume, moderate intensity")),
     (2, Workout(2, "Back & Biceps", Advanced, "Focus on width and thickness")),
     (3, Workout(3, "Legs", Advanced, "High intensity, compound movements")),
     (5, Workout(5, "Shoulders & Arms", Advanced, "Focus on all three deltoid heads")),
     (6, Workout(6, "Full Body (Light)", Advanced, "Active recovery, light weights"))]
  }

  /** The levels in the order the table lists them (and the goal loop visits them). */
  function LevelAt(k: nat): Level
    requires k < 3
  {
    if k == 0 then Beginner else if k == 1 then Intermediate else Advanced
  }

  function LevelIndex(level: Level): (k: nat)
    ensures k < 3 && LevelAt(k) == level
  {
    match level
    case Beginner => 0
    case Intermediate => 1
    case Advanced => 2
  }

  /** The advice each goal adds to every note; maintaining adds none. */
  function GoalAdvice(goal: Goal): string
  {
    match goal
    case LoseFat => "Add 15-20 min HIIT at the end"
    case GainMuscle => "Focus on progressive overload and time under tension"
    case Maintain => ""
  }

  /** The text appended to every note: ". " and the goal's advice, or nothing when maintaining. */
  function NoteSuffix(goal: Goal): string
  {
    if goal == Maintain then "" else ". " + GoalAdvice(goal)
  }

  /** A workout with `suffix` appended to its note. */
  function Suffixed(entry: (int, Workout), suffix: string): (int, Workout)
  {
    (entry.0, entry.1.(notes := entry.1.notes + suffix))
  }

  /** Every entry of a split with `suffix` appended to its note, days and order unchanged. */
  function WithSuffix(split: Split, suffix: string): (r: Split)
    ensures |r| == |split| && forall k :: 0 <= k < |split| ==> r[k] == Suffixed(split[k], suffix)
  {
    seq(|split|, k requires 0 <= k < |split| => Suffixed(split[k], suffix))
  }

  /** The split `get_workout_split` returns for a level and goal. */
  function SplitFor(level: Level, goal: Goal): Split
  {
    WithSuffix(BaseSplit(level), NoteSuffix(goal))
  }

  /** The goal loop: append `suffix` to the note of every workout of every level, in place. */
  method AppendToAllNotes(plans: seq<Split>, suffix: string) returns (r: seq<Split>)
    ensures |r| == |plans| && forall k :: 0 <= k < |plans| ==> r[k] == WithSuffix(plans[k], suffix)
  {
    r := plans;
    var i := 0;
    while i < |r|
      invariant 0 <= i <= |r| == |plans|
      invariant forall k :: 0 <= k < i ==> r[k] == WithSuffix(plans[k], suffix)
      invariant forall k :: i <= k < |r| ==> r[k] == plans[k]
    {
      var days := r[i];
      var j := 0;
      while j < |days|
        invariant 0 <= j <= |days| == |plans[i]|
        invariant forall m :: 0 <= m < j ==> days[m] == Suffixed(plans[i][m], suffix)
        invariant forall m :: j <= m < |days| ==> days[m] == plans[i][m]
      {
        days := days[j := (days[j].0, days[j].1.(notes := days[j].1.notes + suffix))];
        j := j + 1;
      }
      r := r[i := days];
      i := i + 1;
    }
  }

  /** `get_workout_split`: a fresh table on every call, adjusted for the goal, then the level's split. */
  method GetWorkoutSplit(level: Level, goal: Goal) returns (split: Split)
    ensures split == SplitFor(level, goal)
  {
    var plans := [BaseSplit(Beginner), BaseSplit(Intermediate), BaseSplit(Advanced)];
    if goal == LoseFat {
      plans := AppendToAllNotes(plans, NoteSuffix(LoseFat));
    } else if goal == GainMuscle {
      plans := AppendToAllNotes(plans, NoteSuffix(GainMuscle));
    }
    split := plans[LevelIndex(level)];
    if goal == Maintain {
      forall k | 0 <= k < |split| ensures split[k] == SplitFor(level, goal)[k] {
        assert split[k].1.notes + "" == split[k].1.notes;
      }
    }
  }

  /** The training days of each level: three, four or five days a week, all within 1..7. */
  function TrainingDays(level: Level): seq<int>
  {
    match level
    case Beginner => [1, 3, 5]
    case Intermediate => [1, 2, 4, 5]
    case Advanced => [1, 2, 3, 5, 6]
  }

  /** Each entry is keyed by its own day, carries the requested level, and the days are the level's. */
  lemma SplitShape(level: Level, goal: Goal)
    ensures Days(SplitFor(level, goal)) == TrainingDays(level)
    ensures forall k :: 0 <= k < |SplitFor(level, goal)| ==>
      SplitFor(level, goal)[k].1.day == SplitFor(level, goal)[k].0
      && SplitFor(level, goal)[k].1.level == level && ValidDay(SplitFor(level, goal)[k].0)
  {
    var base, split := BaseSplit(level), SplitFor(level, goal);
    BaseShape(level);
    assert Days(split) == Days(base) by {
      forall k | 0 <= k < |split| ensures Days(split)[k] == Days(base)[k] {
        assert split[k] == Suffixed(base[k], NoteSuffix(goal));
      }
    }
  }

  /** The base table of each level is keyed by day, carries its level, and covers the level's days. */
  lemma BaseShape(level: Level)
    ensures Days(BaseSplit(level)) == TrainingDays(level)
    ensures forall k :: 0 <= k < |BaseSplit(level)| ==>
      BaseSplit(level)[k].1.day == BaseSplit(level)[k].0
      && BaseSplit(level)[k].1.level == level && ValidDay(BaseSplit(level)[k].0)
  {
  }

  /** No note of the base table contains a period (one fact per note, then one per level). */
  lemma BaseNotesHaveNoPeriod(level: Level, k: nat)
    requires k < |BaseSplit(level)|
    ensures '.' !in BaseSplit(level)[k].1.notes
  {
    match level
    case Beginner => BeginnerNotesHaveNoPeriod(k);
    case Intermediate => IntermediateNotesHaveNoPeriod(k);
    case Advanced => AdvancedNotesHaveNoPeriod(k);
  }

  lemma BeginnerNotesHaveNoPeriod(k: nat)
    requires k < 3
    ensures '.' !in BaseSplit(Beginner)[k].1.notes
  {
    if k == 0 { NoPeriodBeginner0(); }
    else if k == 1 { NoPeriodBeginner1(); }
    else { NoPeriodBeginner2(); }
  }

  lemma NoPeriodBeginner0() ensures '.' !in "Focus on form and technique" {}
  lemma NoPeriodBeginner1() ensures '.' !in "Slightly higher intensity than day 1" {}
  lemma NoPeriodBeginner2() ensures '.' !in "Focus on progressive overload" {}

  lemma IntermediateNotesHaveNoPeriod(k: nat)
    requires k < 4
    ensures '.' !in BaseSplit(Intermediate)[k].1.notes
  {
    if k == 0 { NoPeriodIntermediate0(); }
    else if k == 1 { NoPeriodIntermediate1(); }
    else if k == 2 { NoPeriodIntermediate2(); }
    else { NoPeriodIntermediate3(); }
  }

  lemma NoPeriodIntermediate0() ensures '.' !in "Focus on pushing movements" {}
  lemma NoPeriodIntermediate1() ensures '.' !in "Focus on quad-dominant exercises" {}
  lemma NoPeriodIntermediate2() ensures '.' !in "Focus on pulling movements" {}
  lemma NoPeriodIntermediate3() ensures '.' !in "Focus on hip-dominant exercises" {}

  lemma AdvancedNotesHaveNoPeriod(k: nat)
    requires k < 5
    ensures '.' !in BaseSplit(Advanced)[k].1.notes
  {
    if k == 0 { NoPeriodAdvanced0(); }
    else if k == 1 { NoPeriodAdvanced1(); }
    else if k == 2 { NoPeriodAdvanced2(); }
    else if k == 3 { NoPeriodAdvanced3(); }
    else { NoPeriodAdvanced4(); }
  }

  lemma NoPeriodAdvanced0() ensures '.' !in "High volume, moderate intensity" {}
  lemma NoPeriodAdvanced1() ensures '.' !in "Focus on width and thickness" {}
  lemma NoPeriodAdvanced2() ensures '.' !in "High intensity, compound movements" {}
  lemma NoPeriodAdvanced3() ensures '.' !in "Focus on all three deltoid heads" {}
  lemma NoPeriodAdvanced4() ensures '.' !in "Active recovery, light weights" {}

  /** No goal's advice contains a period. */
  lemma AdviceHasNoPeriod(goal: Goal)
    ensures '.' !in GoalAdvice(goal)
  {
    if goal == GainMuscle {
      NoPeriodInGainAdvice();
    }
  }

  /** The muscle-gain advice has no period (checked in two halves: the literal is long). */
  lemma NoPeriodInGainAdvice()
    ensures '.' !in "Focus on progressive overload and time under tension"
  {
    var a, b := "Focus on progressive overload ", "and time under tension";
    assert '.' !in a && '.' !in b;
    assert forall i :: 0 <= i < |a + b| ==> (a + b)[i] == (if i < |a| then a[i] else b[i - |a|]);
    assert "Focus on progressive overload and time under tension" == a + b;
  }

  /** Appending a suffix with one period to a note without one gives a note with exactly one. */
  lemma {:induction false} OnePeriodAfterAppend(note: string, advice: string)
    requires '.' !in note && '.' !in advice
    ensures CountChar(note + (". " + advice), '.') == 1
  {
    CountCharAppend(note, ". " + advice, '.');
    CountCharAppend(". ", advice, '.');
    assert CountChar(". ", '.') == 1 by {
      assert ". "[1..] == " ";
      assert " "[1..] == "";
    }
  }

  /** The suffix is appended exactly once: each note ends with it and holds exactly the periods it brings. */
  lemma SuffixAppliedOnce(level: Level, goal: Goal, k: nat)
    requires k < |SplitFor(level, goal)|
    ensures SplitFor(level, goal)[k].1.notes == BaseSplit(level)[k].1.notes + NoteSuffix(goal)
    ensures CountChar(SplitFor(level, goal)[k].1.notes, '.') == if goal == Maintain then 0 else 1
  {
    var base := BaseSplit(level)[k].1.notes;
    BaseNotesHaveNoPeriod(level, k);
    if goal == Maintain {
      assert base + NoteSuffix(goal) == base;
    } else {
      AdviceHasNoPeriod(goal);
      OnePeriodAfterAppend(base, GoalAdvice(goal));
    }
  }

  /** The exercise table: for each muscle group, the exercises listed for each level. */
  function ExerciseDb(): map<string, map<Level, seq<ExerciseTemplate>>>
  {
    map[
      "Full Body A" := map[Beginner := FullBodyAExercises()],
      "Full Body B" := map[Beginner := FullBodyBExercises()],
      "Full Body C" := map[Beginner := FullBodyCExercises()],
      "Upper Body A" := map[Intermediate := UpperBodyAExercises()],
      "Lower Body A" := map[Intermediate := LowerBodyAExercises()],
      "Upper Body B" := map[Intermediate := UpperBodyBExercises()],
      "Lower Body B" := map[Intermediate := LowerBodyBExercises()],
      "Chest & Triceps" := map[Advanced := ChestAndTricepsExercises()],
      "Back & Biceps" := map[Advanced := BackAndBicepsExercises()],
      "Legs" := map[Advanced := LegsExercises()],
      "Shoulders & Arms" := map[Advanced := ShouldersAndArmsExercises()],
      "Full Body (Light)" := map[Advanced := FullBodyLightExercises()]
    ]
  }

  function FullBodyAExercises(): seq<ExerciseTemplate>
  {
    [
      ExerciseTemplate("Goblet Squat", 3, "8-12", 90),
      ExerciseTemplate("Dumbbell Bench Press", 3, "8-12", 90),
      ExerciseTemplate("Lat Pulldown", 3, "8-12", 90),
      ExerciseTemplate("Dumbbell Shoulder Press", 2, "10-15", 60),
      ExerciseTemplate("Plank", 3, "30 sec", 60)
    ]
  }

  function FullBodyBExercises(): seq<ExerciseTemplate>
  {
    [
      ExerciseTemplate("Romanian Deadlift", 3, "8-12", 90),
      ExerciseTemplate("Push-ups", 3, "8-12", 90),
      ExerciseTemplate("Seated Cable Row", 3, "8-12", 90),
      ExerciseTemplate("Dumbbell Lateral Raise", 2, "12-15", 60),
      ExerciseTemplate("Bicycle Crunches", 3, "15-20", 60)
    ]
  }

  function FullBodyCExercises(): seq<ExerciseTemplate>
  {
    [
      ExerciseTemplate("Leg Press", 3, "10-12", 90),
      ExerciseTemplate("Incline Dumbbell Press", 3, "8-12", 90),
      ExerciseTemplate("Dumbbell Row", 3, "8-12", 90),
      ExerciseTemplate("Face Pull", 3, "12-15", 60),
      ExerciseTemplate("Russian Twist", 3, "15 each side", 60)
    ]
  }

  function UpperBodyAExercises(): seq<ExerciseTemplate>
  {
    [
      ExerciseTemplate("Barbell Bench Press", 4, "6-8", 120),
      ExerciseTemplate("Weighted Pull-ups", 4, "6-8", 120),
      ExerciseTemplate("Overhead Press", 3, "8-10", 90),
      ExerciseTemplate("Cable Fly", 3, "10-12", 60),
      ExerciseTemplate("Face Pull", 3, "12-15", 60),
      ExerciseTemplate("Tricep Pushdown", 3, "10-12", 60)
    ]
  }

  function LowerBodyAExercises(): seq<ExerciseTemplate>
  {
    [
      ExerciseTemplate("Back Squat", 4, "6-8", 180),
      ExerciseTemplate("Walking Lunges", 3, "10 each leg", 90),
      ExerciseTemplate("Leg Extension", 3, "10-12", 60),
      ExerciseTemplate("Seated Leg Curl", 3, "10-12", 60),
      ExerciseTemplate("Standing Calf Raise", 4, "12-15", 60),
      ExerciseTemplate("Hanging Leg Raise", 3, "10-15", 60)
    ]
  }

  function UpperBodyBExercises(): seq<ExerciseTemplate>
  {
    [
      ExerciseTemplate("Barbell Row", 4, "6-8", 120),
      ExerciseTemplate("Incline Dumbbell Press", 4, "8-10", 90),
      ExerciseTemplate("Lat Pulldown", 3, "10-12", 90),
      ExerciseTemplate("Lateral Raise", 3, "12-15", 60),
      ExerciseTemplate("Dumbbell Curl", 3, "10-12", 60),
      ExerciseTemplate("Skull Crusher", 3, "10-12", 60)
    ]
  }

  function LowerBodyBExercises(): seq<ExerciseTemplate>
  {
    [
      ExerciseTemplate("Deadlift", 4, "5-6", 180),
      ExerciseTemplate("Bulgarian Split Squat", 3, "8-10 each leg", 90),
      ExerciseTemplate("Romanian Deadlift", 3, "8-10", 90),
      ExerciseTemplate("Leg Press (Narrow Stance)", 3, "10-12", 90),
      ExerciseTemplate("Seated Calf Raise", 4, "15-20", 60),
      ExerciseTemplate("Cable Crunch", 3, "15-20", 60)
    ]
  }

  function ChestAndTricepsExercises(): seq<ExerciseTemplate>
  {
    [
      ExerciseTemplate("Barbell Bench Press", 5, "5-8", 180),
      ExerciseTemplate("Incline Dumbbell Press", 4, "8-10", 120),
      ExerciseTemplate("Weighted Dips", 4, "8-10", 120),
      ExerciseTemplate("Cable Fly", 3, "10-12", 60),
      ExerciseTemplate("Close-Grip Bench Press", 4, "8-10", 120),
      ExerciseTemplate("Overhead Tricep Extension", 3, "10-12", 60),
      ExerciseTemplate("Tricep Pushdown", 3, "12-15", 60)
    ]
  }

  function BackAndBicepsExercises(): seq<ExerciseTemplate>
  {
    [
      ExerciseTemplate("Weighted Pull-ups", 5, "5-8", 180),
      ExerciseTemplate("Barbell Row", 4, "6-8", 120),
      ExerciseTemplate("T-Bar Row", 4, "8-10", 120),
      ExerciseTemplate("Lat Pulldown", 3, "10-12", 90),
      ExerciseTemplate("Barbell Curl", 4, "8-10", 90),
      ExerciseTemplate("Hammer Curl", 3, "10-12", 60),
      ExerciseTemplate("Cable Curl", 3, "12-15", 60)
    ]
  }

  function LegsExercises(): seq<ExerciseTemplate>
  {
    [
      ExerciseTemplate("Back Squat", 5, "5-8", 180),
      ExerciseTemplate("Romanian Deadlift", 4, "8-10", 120),
      ExerciseTemplate("Hack Squat", 4, "8-10", 120),
      ExerciseTemplate("Walking Lunges", 3, "10 each leg", 90),
      ExerciseTemplate("Leg Extension", 3, "12-15", 60),
      ExerciseTemplate("Leg Curl", 3, "12-15", 60),
      ExerciseTemplate("Standing Calf Raise", 5, "15-20", 60)
    ]
  }

  function ShouldersAndArmsExercises(): seq<ExerciseTemplate>
  {
    [
      ExerciseTemplate("Overhead Press", 5, "5-8", 180),
      ExerciseTemplate("Lateral Raise", 4, "10-12", 60),
      ExerciseTemplate("Face Pull", 4, "12-15", 60),
      ExerciseTemplate("Rear Delt Fly", 3, "12-15", 60),
      ExerciseTemplate("EZ Bar Curl", 4, "8-10", 90),
      ExerciseTemplate("Skull Crusher", 4, "8-10", 90),
      ExerciseTemplate("Cable Curl/Pushdown Superset", 3, "12-15", 45)
    ]
  }

  function FullBodyLightExercises(): seq<ExerciseTemplate>
  {
    [
      ExerciseTemplate("Goblet Squat", 3, "12-15", 60),
      ExerciseTemplate("Push-ups", 3, "15-20", 60),
      ExerciseTemplate("TRX Row", 3, "15-20", 60),
      ExerciseTemplate("Dumbbell Lateral Raise", 3, "15-20", 45),
      ExerciseTemplate("Dumbbell Curl", 3, "15-20", 45),
      ExerciseTemplate("Tricep Dips", 3, "15-20", 45)
    ]
  }

  /** Every exercise of a list has at least one set and a non-negative rest. */
  predicate ExercisesValid(exs: seq<ExerciseTemplate>)
  {
    forall e :: e in exs ==> e.sets > 0 && e.restSeconds >= 0
  }

  /** Every list of a muscle group's entry is valid. */
  predicate GroupValid(levels: map<Level, seq<ExerciseTemplate>>)
  {
    forall lv :: lv in levels ==> ExercisesValid(levels[lv])
  }

  /** The muscle groups of the table. */
  lemma ExerciseDbKeys(mg: string)
    requires mg in ExerciseDb()
    ensures mg == "Full Body A" || mg == "Full Body B" || mg == "Full Body C" || mg == "Upper Body A" || mg == "Lower Body A" || mg == "Upper Body B" || mg == "Lower Body B" || mg == "Chest & Triceps" || mg == "Back & Biceps" || mg == "Legs" || mg == "Shoulders & Arms" || mg == "Full Body (Light)"
  {
  }

  lemma FullBodyAEntry()
    ensures "Full Body A" in ExerciseDb() && ExerciseDb()["Full Body A"] == map[Beginner := FullBodyAExercises()]
    ensures ListsAt(ExerciseDb(), "Full Body A", Beginner)
    ensures |ExerciseDb()["Full Body A"]| == 1 && GroupValid(ExerciseDb()["Full Body A"])
  {
    assert ExercisesValid(FullBodyAExercises());
  }

  lemma FullBodyBEntry()
    ensures "Full Body B" in ExerciseDb() && ExerciseDb()["Full Body B"] == map[Beginner := FullBodyBExercises()]
    ensures ListsAt(ExerciseDb(), "Full Body B", Beginner)
    ensures |ExerciseDb()["Full Body B"]| == 1 && GroupValid(ExerciseDb()["Full Body B"])
  {
    assert ExercisesValid(FullBodyBExercises());
  }

  lemma FullBodyCEntry()
    ensures "Full Body C" in ExerciseDb() && ExerciseDb()["Full Body C"] == map[Beginner := FullBodyCExercises()]
    ensures ListsAt(ExerciseDb(), "Full Body C", Beginner)
    ensures |ExerciseDb()["Full Body C"]| == 1 && GroupValid(ExerciseDb()["Full Body C"])
  {
    assert ExercisesValid(FullBodyCExercises());
  }

  lemma UpperBodyAEntry()
    ensures "Upper Body A" in ExerciseDb() && ExerciseDb()["Upper Body A"] == map[Intermediate := UpperBodyAExercises()]
    ensures ListsAt(ExerciseDb(), "Upper Body A", Intermediate)
    ensures |ExerciseDb()["Upper Body A"]| == 1 && GroupValid(ExerciseDb()["Upper Body A"])
  {
    assert ExercisesValid(UpperBodyAExercises());
  }

  lemma LowerBodyAEntry()
    ensures "Lower Body A" in ExerciseDb() && ExerciseDb()["Lower Body A"] == map[Intermediate := LowerBodyAExercises()]
    ensures ListsAt(ExerciseDb(), "Lower Body A", Intermediate)
    ensures |ExerciseDb()["Lower Body A"]| == 1 && GroupValid(ExerciseDb()["Lower Body A"])
  {
    assert ExercisesValid(LowerBodyAExercises());
  }

  lemma UpperBodyBEntry()
    ensures "Upper Body B" in ExerciseDb() && ExerciseDb()["Upper Body B"] == map[Intermediate := UpperBodyBExercises()]
    ensures ListsAt(ExerciseDb(), "Upper Body B", Intermediate)
    ensures |ExerciseDb()["Upper Body B"]| == 1 && GroupValid(ExerciseDb()["Upper Body B"])
  {
    assert ExercisesValid(UpperBodyBExercises());
  }

  lemma LowerBodyBEntry()
    ensures "Lower Body B" in ExerciseDb() && ExerciseDb()["Lower Body B"] == map[Intermediate := LowerBodyBExercises()]
    ensures ListsAt(ExerciseDb(), "Lower Body B", Intermediate)
    ensures |ExerciseDb()["Lower Body B"]| == 1 && GroupValid(ExerciseDb()["Lower Body B"])
  {
    assert ExercisesValid(LowerBodyBExercises());
  }

  lemma ChestAndTricepsEntry()
    ensures "Chest & Triceps" in ExerciseDb() && ExerciseDb()["Chest & Triceps"] == map[Advanced := ChestAndTricepsExercises()]
    ensures ListsAt(ExerciseDb(), "Chest & Triceps", Advanced)
    ensures |ExerciseDb()["Chest & Triceps"]| == 1 && GroupValid(ExerciseDb()["Chest & Triceps"])
  {
    assert ExercisesValid(ChestAndTricepsExercises());
  }

  lemma BackAndBicepsEntry()
    ensures "Back & Biceps" in ExerciseDb() && ExerciseDb()["Back & Biceps"] == map[Advanced := BackAndBicepsExercises()]
    ensures ListsAt(ExerciseDb(), "Back & Biceps", Advanced)
    ensures |ExerciseDb()["Back & Biceps"]| == 1 && GroupValid(ExerciseDb()["Back & Biceps"])
  {
    assert ExercisesValid(BackAndBicepsExercises());
  }

  lemma LegsEntry()
    ensures "Legs" in ExerciseDb() && ExerciseDb()["Legs"] == map[Advanced := LegsExercises()]
    ensures ListsAt(ExerciseDb(), "Legs", Advanced)
    ensures |ExerciseDb()["Legs"]| == 1 && GroupValid(ExerciseDb()["Legs"])
  {
    assert ExercisesValid(LegsExercises());
  }

  lemma ShouldersAndArmsEntry()
    ensures "Shoulders & Arms" in ExerciseDb() && ExerciseDb()["Shoulders & Arms"] == map[Advanced := ShouldersAndArmsExercises()]
    ensures ListsAt(ExerciseDb(), "Shoulders & Arms", Advanced)
    ensures |ExerciseDb()["Shoulders & Arms"]| == 1 && GroupValid(ExerciseDb()["Shoulders & Arms"])
  {
    assert ExercisesValid(ShouldersAndArmsExercises());
  }

  lemma FullBodyLightEntry()
    ensures "Full Body (Light)" in ExerciseDb() && ExerciseDb()["Full Body (Light)"] == map[Advanced := FullBodyLightExercises()]
    ensures ListsAt(ExerciseDb(), "Full Body (Light)", Advanced)
    ensures |ExerciseDb()["Full Body (Light)"]| == 1 && GroupValid(ExerciseDb()["Full Body (Light)"])
  {
    assert ExercisesValid(FullBodyLightExercises());
  }

  /** Each muscle group of the table lists exercises for exactly one level, and they are all valid. */
  lemma ExerciseDbValid()
    ensures forall mg :: mg in ExerciseDb() ==> |ExerciseDb()[mg]| == 1
    ensures forall mg :: mg in ExerciseDb() ==> GroupValid(ExerciseDb()[mg])
  {
    forall mg | mg in ExerciseDb() ensures |ExerciseDb()[mg]| == 1 && GroupValid(ExerciseDb()[mg]) {
      ExerciseDbKeys(mg);
      if mg == "Full Body A" { FullBodyAEntry(); }
      else if mg == "Full Body B" { FullBodyBEntry(); }
      else if mg == "Full Body C" { FullBodyCEntry(); }
      else if mg == "Upper Body A" { UpperBodyAEntry(); }
      else if mg == "Lower Body A" { LowerBodyAEntry(); }
      else if mg == "Upper Body B" { UpperBodyBEntry(); }
      else if mg == "Lower Body B" { LowerBodyBEntry(); }
      else if mg == "Chest & Triceps" { ChestAndTricepsEntry(); }
      else if mg == "Back & Biceps" { BackAndBicepsEntry(); }
      else if mg == "Legs" { LegsEntry(); }
      else if mg == "Shoulders & Arms" { ShouldersAndArmsEntry(); }
      else if mg == "Full Body (Light)" { FullBodyLightEntry(); }
    }
  }

  /**
   * `get_exercises_by_muscle_group`: the group's list for the level; failing that, its beginner
   * list; failing that, nothing.
   */
  function GetExercisesByMuscleGroup(muscleGroup: string, level: Level): (r: seq<ExerciseTemplate>)
    ensures ExercisesValid(r)
    ensures |r| > 0 ==> muscleGroup in ExerciseDb()
  {
    ExerciseDbValid();
    LookupExercises(ExerciseDb(), muscleGroup, level)
  }

  function LookupExercises(db: map<string, map<Level, seq<ExerciseTemplate>>>, muscleGroup: string, level: Level): (r: seq<ExerciseTemplate>)
  {
    if muscleGroup in db && level in db[muscleGroup] then db[muscleGroup][level]
    else if muscleGroup in db && Beginner in db[muscleGroup] then db[muscleGroup][Beginner]
    else []
  }

  /** Every muscle group a split names is in the table at that very level, with exercises. */
  lemma SplitGroupsHaveExercises(level: Level, goal: Goal, k: nat)
    requires k < |SplitFor(level, goal)|
    ensures SplitFor(level, goal)[k].1.muscleGroup in ExerciseDb()
    ensures level in ExerciseDb()[SplitFor(level, goal)[k].1.muscleGroup]
    ensures GetExercisesByMuscleGroup(SplitFor(level, goal)[k].1.muscleGroup, level)
         == ExerciseDb()[SplitFor(level, goal)[k].1.muscleGroup][level]
    ensures |GetExercisesByMuscleGroup(SplitFor(level, goal)[k].1.muscleGroup, level)| > 0
  {
    assert SplitFor(level, goal)[k].1.muscleGroup == BaseSplit(level)[k].1.muscleGroup;
    BaseGroupInTable(level, k);
  }

  /** `db` lists at least one exercise for muscle group `mg` at `level`. */
  predicate ListsAt(db: map<string, map<Level, seq<ExerciseTemplate>>>, mg: string, level: Level)
  {
    mg in db && level in db[mg] && |db[mg][level]| > 0
  }

  /** Every muscle group of the table lists exercises at the level that names it. */
  predicate AllGroupsListed(db: map<string, map<Level, seq<ExerciseTemplate>>>)
  {
    && ListsAt(db, "Full Body A", Beginner) && ListsAt(db, "Full Body B", Beginner)
    && ListsAt(db, "Full Body C", Beginner)
    && ListsAt(db, "Upper Body A", Intermediate) && ListsAt(db, "Lower Body A", Intermediate)
    && ListsAt(db, "Upper Body B", Intermediate) && ListsAt(db, "Lower Body B", Intermediate)
    && ListsAt(db, "Chest & Triceps", Advanced) && ListsAt(db, "Back & Biceps", Advanced)
    && ListsAt(db, "Legs", Advanced) && ListsAt(db, "Shoulders & Arms", Advanced)
    && ListsAt(db, "Full Body (Light)", Advanced)
  }

  lemma ExerciseDbListsGroups()
    ensures AllGroupsListed(ExerciseDb())
  {
    FullBodyAEntry();
    FullBodyBEntry();
    FullBodyCEntry();
    UpperBodyAEntry();
    LowerBodyAEntry();
    UpperBodyBEntry();
    LowerBodyBEntry();
    ChestAndTricepsEntry();
    BackAndBicepsEntry();
    LegsEntry();
    ShouldersAndArmsEntry();
    FullBodyLightEntry();
  }

  /** The muscle group of each entry of the base table has a non-empty list at the entry's level. */
  lemma BaseGroupInTable(level: Level, k: nat)
    requires k < |BaseSplit(level)|
    ensures ListsAt(ExerciseDb(), BaseSplit(level)[k].1.muscleGroup, level)
  {
    ExerciseDbListsGroups();
    BaseGroupListed(ExerciseDb(), level, k);
  }

  lemma BaseGroupListed(db: map<string, map<Level, seq<ExerciseTemplate>>>, level: Level, k: nat)
    requires AllGroupsListed(db) && k < |BaseSplit(level)|
    ensures ListsAt(db, BaseSplit(level)[k].1.muscleGroup, level)
  {
    match level
    case Beginner => BeginnerGroupsListed(db, k);
    case Intermediate => IntermediateGroupsListed(db, k);
    case Advanced => AdvancedGroupsListed(db, k);
  }

  lemma BeginnerGroupsListed(db: map<string, map<Level, seq<ExerciseTemplate>>>, k: nat)
    requires k < 3
    requires ListsAt(db, "Full Body A", Beginner) && ListsAt(db, "Full Body B", Beginner)
    requires ListsAt(db, "Full Body C", Beginner)
    ensures ListsAt(db, BaseSplit(Beginner)[k].1.muscleGroup, Beginner)
  {
    var mg := BaseSplit(Beginner)[k].1.muscleGroup;
    if k == 0 { assert mg == "Full Body A"; }
    else if k == 1 { assert mg == "Full Body B"; }
    else { assert mg == "Full Body C"; }
  }

  lemma IntermediateGroupsListed(db: map<string, map<Level, seq<ExerciseTemplate>>>, k: nat)
    requires k < 4
    requires ListsAt(db, "Upper Body A", Intermediate) && ListsAt(db, "Lower Body A", Intermediate)
    requires ListsAt(db, "Upper Body B", Intermediate) && ListsAt(db, "Lower Body B", Intermediate)
    ensures ListsAt(db, BaseSplit(Intermediate)[k].1.muscleGroup, Intermediate)
  {
    var mg := BaseSplit(Intermediate)[k].1.muscleGroup;
    if k == 0 { assert mg == "Upper Body A"; }
    else if k == 1 { assert mg == "Lower Body A"; }
    else if k == 2 { assert mg == "Upper Body B"; }
    else { assert mg == "Lower Body B"; }
  }

  lemma AdvancedGroupsListed(db: map<string, map<Level, seq<ExerciseTemplate>>>, k: nat)
    requires k < 5
    requires ListsAt(db, "Chest & Triceps", Advanced) && ListsAt(db, "Back & Biceps", Advanced)
    requires ListsAt(db, "Legs", Advanced) && ListsAt(db, "Shoulders & Arms", Advanced)
    requires ListsAt(db, "Full Body (Light)", Advanced)
    ensures ListsAt(db, BaseSplit(Advanced)[k].1.muscleGroup, Advanced)
  {
    var mg := BaseSplit(Advanced)[k].1.muscleGroup;
    if k == 0 { assert mg == "Chest & Triceps"; }
    else if k == 1 { assert mg == "Back & Biceps"; }
    else if k == 2 { assert mg == "Legs"; }
    else if k == 3 { assert mg == "Shoulders & Arms"; }
    else { assert mg == "Full Body (Light)"; }
  }

  /** Every day of every split gets at least one exercise. */
  lemma SplitDaysHaveExercises(level: Level, goal: Goal)
    ensures forall k :: 0 <= k < |SplitFor(level, goal)| ==>
      |GetExercisesByMuscleGroup(SplitFor(level, goal)[k].1.muscleGroup, level)| > 0
  {
    forall k | 0 <= k < |SplitFor(level, goal)|
      ensures |GetExercisesByMuscleGroup(SplitFor(level, goal)[k].1.muscleGroup, level)| > 0
    {
      SplitGroupsHaveExercises(level, goal, k);
    }
  }

  /**
   * The fallback at work: a beginner-only group serves every level with its beginner list, a
   * group without a beginner list gives nothing at other levels, and an unknown group gives nothing.
   */
  lemma LookupFallback(muscleGroup: string, level: Level)
    ensures GetExercisesByMuscleGroup("Full Body A", level) == FullBodyAExercises()
    ensures level != Advanced ==> GetExercisesByMuscleGroup("Legs", level) == []
    ensures muscleGroup !in ExerciseDb() ==> GetExercisesByMuscleGroup(muscleGroup, level) == []
  {
    FullBodyAEntry();
    LegsEntry();
  }

  /** The work of one day: its workout and the exercises for its muscle group. */
  datatype DayPlan = DayPlan(workout: Workout, exercises: seq<ExerciseTemplate>)

  /** The plan for a level and goal: each day of the split with the exercises for its muscle group. */
  function PlanFor(level: Level, goal: Goal): (plan: seq<(int, DayPlan)>)
    ensures |plan| == |SplitFor(level, goal)|
  {
    PlanOf(SplitFor(level, goal), level, ExerciseDb())
  }

  /** Each day of `split` with the exercises for its muscle group at `level`. */
  function PlanOf(split: Split, level: Level, db: map<string, map<Level, seq<ExerciseTemplate>>>): (plan: seq<(int, DayPlan)>)
    ensures |plan| == |split|
  {
    seq(|split|, k requires 0 <= k < |split| =>
      (split[k].0, DayPlan(split[k].1, LookupExercises(db, split[k].1.muscleGroup, level))))
  }

  /** Every planned day keeps its split entry and gets at least one valid exercise of its level. */
  lemma PlanDaysHaveExercises(level: Level, goal: Goal)
    ensures Days(SplitFor(level, goal)) == TrainingDays(level)
    ensures forall k :: 0 <= k < |PlanFor(level, goal)| ==>
      PlanFor(level, goal)[k].0 == SplitFor(level, goal)[k].0
      && PlanFor(level, goal)[k].1.workout == SplitFor(level, goal)[k].1
      && PlanFor(level, goal)[k].1.workout.level == level
      && |PlanFor(level, goal)[k].1.exercises| > 0 && ExercisesValid(PlanFor(level, goal)[k].1.exercises)
  {
    var split, plan := SplitFor(level, goal), PlanFor(level, goal);
    SplitShape(level, goal);
    forall k | 0 <= k < |plan|
      ensures plan[k].0 == split[k].0 && plan[k].1.workout == split[k].1 && plan[k].1.workout.level == level
      ensures |plan[k].1.exercises| > 0 && ExercisesValid(plan[k].1.exercises)
    {
      SplitGroupsHaveExercises(level, goal, k);
      assert plan[k].1.exercises == GetExercisesByMuscleGroup(split[k].1.muscleGroup, level);
    }
  }

  /** `generate_workout_plan`: walks the split and attaches each day's exercises. */
  method GenerateWorkoutPlan(level: Level, goal: Goal) returns (plan: seq<(int, DayPlan)>)
    ensures plan == PlanFor(level, goal)
  {
    var split := GetWorkoutSplit(level, goal);
    plan := AttachExercises(split, level, ExerciseDb());
  }

  /** The loop of `generate_workout_plan`: each day of `split`, in order, with its exercises. */
  method AttachExercises(split: Split, level: Level, db: map<string, map<Level, seq<ExerciseTemplate>>>) returns (plan: seq<(int, DayPlan)>)
    ensures plan == PlanOf(split, level, db)
  {
    plan := [];
    var i := 0;
    while i < |split|
      invariant 0 <= i <= |split| && plan == PlanOf(split, level, db)[..i]
    {
      var muscleGroup := split[i].1.muscleGroup;
      var exercises := LookupExercises(db, muscleGroup, level);
      plan := plan + [(split[i].0, DayPlan(split[i].1, exercises))];
      i := i + 1;
    }
  }
}
