/**
 * The workout endpoints: generating and reading a user's weekly plan, and the premium edits of
 * plans and exercises. Regeneration deletes the user's plans and their exercises one row at a
 * time, then stores each generated day and its exercises.
 */
module WorkoutEndpoints {
  import opened Wrappers
  import opened Seqs
  import opened Schemas
  import opened Store
  import opened WorkoutService

  /** Whether a plan row belongs to user `uid`. */
  function OwnedBy(uid: int): Row<WorkoutPlanRow> -> bool
  {
    (p: Row<WorkoutPlanRow>) => p.value.userId == uid
  }

  /** Whether an exercise row belongs to a plan whose key is in `planKeys`. */
  function InPlans(planKeys: set<int>): Row<ExerciseRow> -> bool
  {
    (e: Row<ExerciseRow>) => e.value.workoutPlanId in planKeys
  }

  /** `get_workout_plans`: the user's plan rows, in key order. */
  function PlansOf(plans: Table<WorkoutPlanRow>, uid: int): (r: seq<Row<WorkoutPlanRow>>)
    ensures forall i :: 0 <= i < |r| ==> r[i] in plans.rows && r[i].value.userId == uid
    ensures forall i :: 0 <= i < |plans.rows| && plans.rows[i].value.userId == uid ==> plans.rows[i] in r
  {
    plans.Where(OwnedBy(uid))
  }

  /** The two tables a generation writes. */
  datatype PlanTables = PlanTables(plans: Table<WorkoutPlanRow>, exercises: Table<ExerciseRow>)

  /** The user's plans and the exercises of those plans, deleted. */
  function ClearPlans(t: PlanTables, uid: int): PlanTables
  {
    PlanTables(t.plans.Delete(OwnedBy(uid)), t.exercises.Delete(InPlans(KeysOf(PlansOf(t.plans, uid)))))
  }

  /** The inner loop of the cascade: each exercise of plan `planId` deleted in turn (`plan.exercises`). */
  method DeleteExercisesOf(db: Database, planId: int)
    requires db.Valid()
    modifies db
    ensures db.Valid()
    ensures db.exercises == old(db.exercises).Delete(InPlans({planId}))
    ensures db.users == old(db.users) && db.profiles == old(db.profiles) && db.workoutPlans == old(db.workoutPlans)
    ensures db.mealPlans == old(db.mealPlans) && db.meals == old(db.meals)
    ensures db.foodItems == old(db.foodItems) && db.subscriptions == old(db.subscriptions)
  {
    var after := DeleteEach(db.exercises, InPlans({planId}));
    DeleteKeyed(db.exercises, InPlans({planId}));
    db.exercises := after;
  }

  /** One step of the cascade: the plan's exercises, then the plan itself. */
  method DeletePlan(db: Database, planId: int)
    requires db.Valid()
    modifies db
    ensures db.Valid()
    ensures db.workoutPlans == Remove(old(db.workoutPlans), planId)
    ensures db.exercises == old(db.exercises).Delete(InPlans({planId}))
    ensures db.users == old(db.users) && db.profiles == old(db.profiles)
    ensures db.mealPlans == old(db.mealPlans) && db.meals == old(db.meals)
    ensures db.foodItems == old(db.foodItems) && db.subscriptions == old(db.subscriptions)
  {
    DeleteExercisesOf(db, planId);
    RemoveEffect(db.workoutPlans, planId);
    db.workoutPlans := Remove(db.workoutPlans, planId);
  }

  /**
   * The cascade of a premium regeneration: for each of the user's plans, its exercises and then
   * the plan itself are deleted.
   */
  method DeleteUserPlans(db: Database, uid: int)
    requires db.Valid()
    modifies db
    ensures db.Valid()
    ensures PlanTables(db.workoutPlans, db.exercises) == ClearPlans(PlanTables(old(db.workoutPlans), old(db.exercises)), uid)
    ensures db.users == old(db.users) && db.profiles == old(db.profiles)
    ensures db.mealPlans == old(db.mealPlans) && db.meals == old(db.meals)
    ensures db.foodItems == old(db.foodItems) && db.subscriptions == old(db.subscriptions)
  {
    var existing := PlansOf(db.workoutPlans, uid);
    ghost var plans0 := db.workoutPlans;
    ghost var exercises0 := db.exercises;
    ghost var deleted: set<int> := {};
    RemoveNoKeys(plans0);
    DeleteNothing(exercises0, InPlans(deleted));
    var i := 0;
    while i < |existing|
      invariant 0 <= i <= |existing|
      invariant deleted == KeysOf(existing[..i])
      invariant db.workoutPlans == RemoveKeys(plans0, deleted)
      invariant db.exercises == exercises0.Delete(InPlans(deleted))
      invariant db.Valid()
      invariant db.users == old(db.users) && db.profiles == old(db.profiles)
      invariant db.mealPlans == old(db.mealPlans) && db.meals == old(db.meals)
      invariant db.foodItems == old(db.foodItems) && db.subscriptions == old(db.subscriptions)
    {
      var plan := existing[i];
      DeletePlan(db, plan.id);
      DeleteDelete(exercises0, InPlans(deleted), InPlans({plan.id}), InPlans(deleted + {plan.id}));
      RemoveOneMore(plans0, deleted, plan.id);
      KeysOfSnoc(existing, i);
      deleted := deleted + {plan.id};
      i := i + 1;
    }
    assert existing[..|existing|] == existing;
    DeleteByKeys(plans0, OwnedBy(uid));
  }

  // ----- storing a generated plan -----

  /** The plan row stored for one generated day. */
  function PlanRow(uid: int, w: Workout): WorkoutPlanRow
  {
    WorkoutPlanRow(uid, w.day, w.muscleGroup, w.level, Some(w.notes))
  }

  /** The plan rows stored for the generated days, in order. */
  function PlanRows(uid: int, days: seq<(int, DayPlan)>): (rows: seq<WorkoutPlanRow>)
    ensures |rows| == |days|
  {
    seq(|days|, k requires 0 <= k < |days| => PlanRow(uid, days[k].1.workout))
  }

  /** The exercise rows stored for one generated day under plan key `planId`; templates carry no notes. */
  function ExerciseRows(planId: int, exs: seq<ExerciseTemplate>): (rows: seq<ExerciseRow>)
    ensures |rows| == |exs|
  {
    seq(|exs|, k requires 0 <= k < |exs| =>
      ExerciseRow(planId, exs[k].name, exs[k].sets, exs[k].reps, exs[k].restSeconds, None))
  }

  /** The exercise rows of all generated days, the plan of day `k` having key `base + k`. */
  function AllExerciseRows(base: int, days: seq<(int, DayPlan)>): (rows: seq<ExerciseRow>)
    ensures forall i :: 0 <= i < |rows| ==> base <= rows[i].workoutPlanId < base + |days|
  {
    if |days| == 0 then []
    else
      var n := |days| - 1;
      AllExerciseRows(base, days[..n]) + ExerciseRows(base + n, days[n].1.exercises)
  }

  /** One generated day stored: its plan row, then its exercises under the plan's new key. */
  function StoreDay(t: PlanTables, uid: int, day: (int, DayPlan)): PlanTables
  {
    PlanTables(t.plans.Add(PlanRow(uid, day.1.workout)), t.exercises.AddAll(ExerciseRows(t.plans.nextId, day.1.exercises)))
  }

  /** The tables after storing the generated days in order. */
  function StoreDays(t: PlanTables, uid: int, days: seq<(int, DayPlan)>): PlanTables
  {
    if |days| == 0 then t else StoreDay(StoreDays(t, uid, days[..|days| - 1]), uid, days[|days| - 1])
  }

  /** The keys of `n` consecutive inserts starting at `base`. */
  function NewIds(base: int, n: nat): (ids: seq<int>)
    ensures |ids| == n && forall k :: 0 <= k < n ==> ids[k] == base + k
  {
    seq(n, k requires 0 <= k < n => base + k)
  }

  lemma StoreDaysStep(t: PlanTables, uid: int, days: seq<(int, DayPlan)>, i: int)
    requires 0 <= i < |days|
    ensures StoreDays(t, uid, days[..i + 1]) == StoreDay(StoreDays(t, uid, days[..i]), uid, days[i])
  {
    assert days[..i + 1][..i] == days[..i];
  }

  /**
   * Storing the days inserts one plan row per day, copying its workout, and after them the
   * exercises of every day under that day's new key.
   */
  lemma {:induction false} StoreDaysInserts(t: PlanTables, uid: int, days: seq<(int, DayPlan)>)
    ensures StoreDays(t, uid, days).plans == t.plans.AddAll(PlanRows(uid, days))
    ensures StoreDays(t, uid, days).exercises == t.exercises.AddAll(AllExerciseRows(t.plans.nextId, days))
  {
    if |days| == 0 {
      assert t.plans.AddAll([]).rows == t.plans.rows;
      assert t.exercises.AddAll([]).rows == t.exercises.rows;
    } else {
      var n := |days| - 1;
      StoreDaysInserts(t, uid, days[..n]);
      var prev := StoreDays(t, uid, days[..n]);
      AddAllSnoc(t.plans, PlanRows(uid, days[..n]), PlanRow(uid, days[n].1.workout));
      assert PlanRows(uid, days) == PlanRows(uid, days[..n]) + [PlanRow(uid, days[n].1.workout)];
      AddAllAppend(t.exercises, AllExerciseRows(t.plans.nextId, days[..n]), ExerciseRows(prev.plans.nextId, days[n].1.exercises));
    }
  }

  /**
   * The inner creation loop: the exercises of one day, added to the session in order under plan
   * key `planId`; `exercises` is the table as the session sees it.
   */
  method StoreExercises(exercises: Table<ExerciseRow>, planId: int, templates: seq<ExerciseTemplate>)
    returns (after: Table<ExerciseRow>)
    ensures after == exercises.AddAll(ExerciseRows(planId, templates))
  {
    ghost var rows := ExerciseRows(planId, templates);
    after := exercises;
    assert exercises.AddAll([]) == exercises;
    var j := 0;
    while j < |templates|
      invariant 0 <= j <= |templates|
      invariant after == exercises.AddAll(rows[..j])
    {
      var t := templates[j];
      after := after.Add(ExerciseRow(planId, t.name, t.sets, t.reps, t.restSeconds, None));
      AddAllSnoc(exercises, rows[..j], rows[j]);
      assert rows[..j + 1] == rows[..j] + [rows[j]];
      j := j + 1;
    }
    assert rows[..|templates|] == rows;
  }

  /**
   * The creation loops: one plan row per day, committed to learn its key, then its exercises;
   * `tables` is the plan and exercise tables as the session sees them.
   */
  method StorePlanRows(tables: PlanTables, uid: int, days: seq<(int, DayPlan)>) returns (after: PlanTables, ids: seq<int>)
    ensures after == StoreDays(tables, uid, days)
    ensures ids == NewIds(tables.plans.nextId, |days|)
  {
    after := tables;
    ids := [];
    var i := 0;
    while i < |days|
      invariant 0 <= i <= |days|
      invariant after == StoreDays(tables, uid, days[..i])
      invariant after.plans.nextId == tables.plans.nextId + i
      invariant ids == NewIds(tables.plans.nextId, i)
    {
      StoreDaysStep(tables, uid, days, i);
      var workout := days[i].1.workout;
      var planId := after.plans.nextId;
      var plans := after.plans.Add(PlanRow(uid, workout));
      ids := ids + [planId];
      var exercises := StoreExercises(after.exercises, planId, days[i].1.exercises);
      after := PlanTables(plans, exercises);
      i := i + 1;
    }
    assert days[..|days|] == days;
  }

  /** Storing a generated plan into the database. */
  method StoreWorkoutPlan(db: Database, uid: int, days: seq<(int, DayPlan)>) returns (ids: seq<int>)
    requires db.Valid()
    modifies db
    ensures db.Valid()
    ensures PlanTables(db.workoutPlans, db.exercises) == StoreDays(PlanTables(old(db.workoutPlans), old(db.exercises)), uid, days)
    ensures ids == NewIds(old(db.workoutPlans.nextId), |days|)
    ensures db.users == old(db.users) && db.profiles == old(db.profiles)
    ensures db.mealPlans == old(db.mealPlans) && db.meals == old(db.meals)
    ensures db.foodItems == old(db.foodItems) && db.subscriptions == old(db.subscriptions)
  {
    var after;
    after, ids := StorePlanRows(PlanTables(db.workoutPlans, db.exercises), uid, days);
    StoreDaysInserts(PlanTables(db.workoutPlans, db.exercises), uid, days);
    AddAllKeyed(db.workoutPlans, PlanRows(uid, days));
    AddAllKeyed(db.exercises, AllExerciseRows(db.workoutPlans.nextId, days));
    db.CommitPlanTables(after.plans, after.exercises);
  }

  // ----- generate_user_workout_plan -----

  /** The reply of a generation: a message, the new plans' keys and the split's days. */
  datatype GenerateReply = GenerateReply(message: string, workoutPlanIds: seq<int>, days: seq<int>)

  /** The refusal of a regeneration by a user who is not premium. */
  const PlanExistsError: HttpError :=
    HttpError(400, "Workout plan already exists. Premium subscription required to regenerate.")

  /** The tables a generation stores into: the user's plans cleared when there are any. */
  function ClearedFor(t: PlanTables, uid: int): PlanTables
  {
    if |PlansOf(t.plans, uid)| > 0 then ClearPlans(t, uid) else t
  }

  /** A successful generation: the new tables and the reply. */
  datatype Generated = Generated(tables: PlanTables, reply: GenerateReply)

  /** `generate_workout_plan` at `level`, as a function of the profile's goal. */
  function Generator(level: Level): Goal -> seq<(int, DayPlan)>
  {
    (g: Goal) => PlanFor(level, g)
  }

  /** Storing a generated plan into `base`, and the reply that lists it. */
  function GenerateFrom(base: PlanTables, uid: int, days: seq<(int, DayPlan)>): Generated
  {
    Generated(StoreDays(base, uid, days),
              GenerateReply("Workout plan generated successfully", NewIds(base.plans.nextId, |days|), Days(days)))
  }

  /**
   * The outcome of `generate_user_workout_plan` for `current`, with `gen` the plan generator at
   * the requested level: the new plan and exercise tables and the reply, or the error it ends with.
   */
  function Generate(t: PlanTables, profiles: Table<ProfileRow>, current: Row<UserRow>, gen: Goal -> seq<(int, DayPlan)>)
    : (r: Result<Generated, HttpError>)
    ensures ProfileOf(profiles, current.id).None? ==> r == Err(NoProfileError)
    ensures ProfileOf(profiles, current.id).Some? ==>
      (r.Err? <==> |PlansOf(t.plans, current.id)| > 0 && current.value.role != "premium")
    ensures r.Err? && ProfileOf(profiles, current.id).Some? ==> r.error == PlanExistsError
  {
    match ProfileOf(profiles, current.id)
    case None => Err(NoProfileError)
    case Some(profile) =>
      if |PlansOf(t.plans, current.id)| > 0 && current.value.role != "premium" then Err(PlanExistsError)
      else Ok(GenerateFrom(ClearedFor(t, current.id), current.id, gen(profile.value.goal)))
  }

  /**
   * `generate_user_workout_plan` for the active user `current`: a refusal changes nothing; otherwise
   * the tables become those of `Generate` with `generate_workout_plan` at the requested level.
   */
  method GenerateUserWorkoutPlan(db: Database, current: Row<UserRow>, level: Level) returns (r: Result<GenerateReply, HttpError>)
    requires current.value.isActive && db.Valid()
    modifies db
    ensures db.Valid()
    ensures var out := Generate(PlanTables(old(db.workoutPlans), old(db.exercises)), old(db.profiles), current, Generator(level));
      (out.Err? ==> r == Err(out.error) && db.workoutPlans == old(db.workoutPlans) && db.exercises == old(db.exercises))
      && (out.Ok? ==> r == Ok(out.value.reply) && PlanTables(db.workoutPlans, db.exercises) == out.value.tables)
    ensures db.users == old(db.users) && db.profiles == old(db.profiles)
    ensures db.mealPlans == old(db.mealPlans) && db.meals == old(db.meals)
    ensures db.foodItems == old(db.foodItems) && db.subscriptions == old(db.subscriptions)
  {
    r := GenerateWith(db, current, Generator(level));
  }

  /** The body of `generate_user_workout_plan`, with the plan generator `gen` at the requested level. */
  method GenerateWith(db: Database, current: Row<UserRow>, gen: Goal -> seq<(int, DayPlan)>) returns (r: Result<GenerateReply, HttpError>)
    requires current.value.isActive && db.Valid()
    modifies db
    ensures db.Valid()
    ensures var out := Generate(PlanTables(old(db.workoutPlans), old(db.exercises)), old(db.profiles), current, gen);
      (out.Err? ==> r == Err(out.error) && db.workoutPlans == old(db.workoutPlans) && db.exercises == old(db.exercises))
      && (out.Ok? ==> r == Ok(out.value.reply) && PlanTables(db.workoutPlans, db.exercises) == out.value.tables)
    ensures db.users == old(db.users) && db.profiles == old(db.profiles)
    ensures db.mealPlans == old(db.mealPlans) && db.meals == old(db.meals)
    ensures db.foodItems == old(db.foodItems) && db.subscriptions == old(db.subscriptions)
  {
    var profile := ProfileOf(db.profiles, current.id);
    if profile.None? {
      return Err(NoProfileError);
    }
    var existing := PlansOf(db.workoutPlans, current.id);
    if |existing| > 0 {
      if current.value.role == "premium" {
        DeleteUserPlans(db, current.id);
      } else {
        return Err(PlanExistsError);
      }
    }
    var days := gen(profile.value.value.goal);
    var ids := StoreWorkoutPlan(db, current.id, days);
    r := Ok(GenerateReply("Workout plan generated successfully", ids, Days(days)));
  }

  // ----- properties of a generation -----

  /**
   * What a generation relies on from the generated plan: one entry per training day of the level,
   * in order, each keyed by its workout's day and each with at least one exercise.
   */
  predicate DaysMatch(days: seq<(int, DayPlan)>, level: Level)
  {
    Days(days) == TrainingDays(level)
    && forall k :: 0 <= k < |days| ==> days[k].1.workout.day == days[k].0 && |days[k].1.exercises| > 0
  }

  /** The generator at `level` yields such a plan for every goal. */
  predicate GeneratesLevel(gen: Goal -> seq<(int, DayPlan)>, level: Level)
  {
    forall g :: DaysMatch(gen(g), level)
  }

  /** A split keyed by its own days, the level's, each with exercises in `db`, yields such a plan. */
  lemma PlanOfMatches(split: Split, level: Level, db: map<string, map<Level, seq<ExerciseTemplate>>>)
    requires Days(split) == TrainingDays(level)
    requires forall k :: 0 <= k < |split| ==>
      split[k].1.day == split[k].0 && |LookupExercises(db, split[k].1.muscleGroup, level)| > 0
    ensures DaysMatch(PlanOf(split, level, db), level)
  {
    assert Days(PlanOf(split, level, db)) == Days(split);
  }

  /** `generate_workout_plan` meets what a generation relies on, for every level and goal. */
  lemma PlanForMatches(level: Level, goal: Goal)
    ensures DaysMatch(PlanFor(level, goal), level)
  {
    SplitShape(level, goal);
    SplitDaysHaveExercises(level, goal);
    PlanOfMatches(SplitFor(level, goal), level, ExerciseDb());
  }

  /** The generator at each level meets what a generation relies on. */
  lemma GeneratorMatches(level: Level)
    ensures GeneratesLevel(Generator(level), level)
  {
    forall g ensures DaysMatch(Generator(level)(g), level) {
      PlanForMatches(level, g);
    }
  }

  /** The plan rows a generation inserts, keyed from `base` on. */
  function NewPlanRows(base: int, uid: int, days: seq<(int, DayPlan)>): (rows: seq<Row<WorkoutPlanRow>>)
    ensures |rows| == |days|
  {
    seq(|days|, k requires 0 <= k < |days| => Row(base + k, PlanRow(uid, days[k].1.workout)))
  }

  /** After storing the days, `uid` owns its earlier plans and then the new ones; other users own what they owned. */
  lemma StoreDaysPlansOf(t: PlanTables, uid: int, days: seq<(int, DayPlan)>, u: int)
    ensures PlansOf(StoreDays(t, uid, days).plans, u)
         == PlansOf(t.plans, u) + (if u == uid then NewPlanRows(t.plans.nextId, uid, days) else [])
  {
    StoreDaysInserts(t, uid, days);
    var added := t.plans.AddAll(PlanRows(uid, days));
    AddAllWhere(t.plans, PlanRows(uid, days), OwnedBy(u));
    var newRows := added.rows[|t.plans.rows|..];
    assert newRows == NewPlanRows(t.plans.nextId, uid, days) by {
      forall k | 0 <= k < |days| ensures newRows[k] == NewPlanRows(t.plans.nextId, uid, days)[k] {
        assert newRows[k] == added.rows[|t.plans.rows| + k];
      }
    }
    if u == uid {
      FilterAll(newRows, OwnedBy(u));
    } else {
      FilterNone(newRows, OwnedBy(u));
    }
  }

  /**
   * The key the first plan of a generation for `uid` receives: SQLite's next key once the user's
   * plans are deleted.
   */
  function FirstNewPlanKey(plans: Table<WorkoutPlanRow>, uid: int): int
  {
    NextKey(plans.Delete(OwnedBy(uid)).rows)
  }

  /**
   * The first new key is one past the largest key of another user's plan, or 1 when no other user
   * has a plan: the keys of the user's deleted plans are handed out again.
   */
  lemma FirstNewPlanKeyIs(plans: Table<WorkoutPlanRow>, uid: int)
    requires Keyed(plans)
    ensures forall i :: 0 <= i < |plans.rows| && plans.rows[i].value.userId != uid ==> plans.rows[i].id < FirstNewPlanKey(plans, uid)
    ensures FirstNewPlanKey(plans, uid) == 1
         || exists i :: 0 <= i < |plans.rows| && plans.rows[i].value.userId != uid && plans.rows[i].id + 1 == FirstNewPlanKey(plans, uid)
    ensures (forall i :: 0 <= i < |plans.rows| ==> plans.rows[i].value.userId == uid) ==> FirstNewPlanKey(plans, uid) == 1
  {
    var left := plans.Delete(OwnedBy(uid));
    DeleteKeyed(plans, OwnedBy(uid));
    forall i | 0 <= i < |plans.rows| && plans.rows[i].value.userId != uid
      ensures plans.rows[i].id < FirstNewPlanKey(plans, uid)
    {
      assert plans.rows[i] in left.rows;
    }
    if |left.rows| > 0 {
      var last := left.rows[|left.rows| - 1];
      assert last in plans.rows;
    }
    if forall i :: 0 <= i < |plans.rows| ==> plans.rows[i].value.userId == uid {
      FilterNone(plans.rows, (r: Row<WorkoutPlanRow>) => !OwnedBy(uid)(r));
    }
  }

  /** Clearing leaves `uid` no plans and every other user the plans they had; the next key is SQLite's. */
  lemma ClearedForPlansOf(t: PlanTables, uid: int, u: int)
    requires Keyed(t.plans)
    ensures PlansOf(ClearedFor(t, uid).plans, u) == if u == uid then [] else PlansOf(t.plans, u)
    ensures ClearedFor(t, uid).plans.nextId == FirstNewPlanKey(t.plans, uid)
  {
    if |PlansOf(t.plans, uid)| > 0 {
      if u == uid {
        DeleteEmptiesWhere(t.plans, OwnedBy(uid));
      } else {
        DeleteKeepsWhere(t.plans, OwnedBy(uid), OwnedBy(u));
      }
    } else {
      DeleteNothing(t.plans, OwnedBy(uid));
    }
  }

  /** A successful generation stores the generated plan for the profile's goal into the cleared tables. */
  lemma GenerateOk(t: PlanTables, profiles: Table<ProfileRow>, current: Row<UserRow>, gen: Goal -> seq<(int, DayPlan)>)
    requires Generate(t, profiles, current, gen).Ok?
    ensures ProfileOf(profiles, current.id).Some?
    ensures Generate(t, profiles, current, gen).value
         == GenerateFrom(ClearedFor(t, current.id), current.id, gen(ProfileOf(profiles, current.id).value.value.goal))
  {
  }

  /** The reply lists the level's training days and the keys of the new plans, one per day. */
  lemma GenerateReplyShape(t: PlanTables, profiles: Table<ProfileRow>, current: Row<UserRow>,
                           gen: Goal -> seq<(int, DayPlan)>, level: Level)
    requires Keyed(t.plans) && GeneratesLevel(gen, level) && Generate(t, profiles, current, gen).Ok?
    ensures Generate(t, profiles, current, gen).value.reply
         == GenerateReply("Workout plan generated successfully",
                          NewIds(FirstNewPlanKey(t.plans, current.id), |TrainingDays(level)|), TrainingDays(level))
  {
    GenerateOk(t, profiles, current, gen);
    ClearedForPlansOf(t, current.id, current.id);
    var days := gen(ProfileOf(profiles, current.id).value.value.goal);
    assert DaysMatch(days, level);
  }

  /** A regeneration while no other user has a plan hands out the plan keys from 1 again. */
  lemma RegenerationRestartsKeys(t: PlanTables, profiles: Table<ProfileRow>, current: Row<UserRow>,
                                 gen: Goal -> seq<(int, DayPlan)>, level: Level)
    requires Keyed(t.plans) && GeneratesLevel(gen, level) && Generate(t, profiles, current, gen).Ok?
    requires forall i :: 0 <= i < |t.plans.rows| ==> t.plans.rows[i].value.userId == current.id
    ensures Generate(t, profiles, current, gen).value.reply.workoutPlanIds == NewIds(1, |TrainingDays(level)|)
  {
    GenerateReplyShape(t, profiles, current, gen, level);
    FirstNewPlanKeyIs(t.plans, current.id);
  }

  /** When every stored plan is the user's, so is every plan after a generation, and the keys stay in order. */
  lemma GenerateKeepsSoleOwner(t: PlanTables, profiles: Table<ProfileRow>, current: Row<UserRow>, gen: Goal -> seq<(int, DayPlan)>)
    requires Keyed(t.plans) && Generate(t, profiles, current, gen).Ok?
    requires forall i :: 0 <= i < |t.plans.rows| ==> t.plans.rows[i].value.userId == current.id
    ensures var plans := Generate(t, profiles, current, gen).value.tables.plans;
      Keyed(plans) && forall i :: 0 <= i < |plans.rows| ==> plans.rows[i].value.userId == current.id
  {
    GenerateOk(t, profiles, current, gen);
    var days := gen(ProfileOf(profiles, current.id).value.value.goal);
    var base := ClearedFor(t, current.id);
    if |PlansOf(t.plans, current.id)| == 0 {
      DeleteNothing(t.plans, OwnedBy(current.id));
    }
    FilterNone(t.plans.rows, (r: Row<WorkoutPlanRow>) => !OwnedBy(current.id)(r));
    assert base.plans.rows == [];
    StoreDaysInserts(base, current.id, days);
    AddAllKeyed(base.plans, PlanRows(current.id, days));
  }

  /** On a fresh database a premium user who generates twice receives the same reply, keys included. */
  lemma RegenerateSameReply(profiles: Table<ProfileRow>, current: Row<UserRow>, gen: Goal -> seq<(int, DayPlan)>, level: Level)
    requires GeneratesLevel(gen, level) && current.value.role == "premium" && ProfileOf(profiles, current.id).Some?
    ensures var first := Generate(PlanTables(EmptyTable(), EmptyTable()), profiles, current, gen);
      first.Ok? && Generate(first.value.tables, profiles, current, gen).Ok?
      && Generate(first.value.tables, profiles, current, gen).value.reply == first.value.reply
      && first.value.reply.workoutPlanIds == NewIds(1, |TrainingDays(level)|)
  {
    var t: PlanTables := PlanTables(EmptyTable(), EmptyTable());
    var first := Generate(t, profiles, current, gen);
    RegenerationRestartsKeys(t, profiles, current, gen, level);
    GenerateReplyShape(t, profiles, current, gen, level);
    GenerateKeepsSoleOwner(t, profiles, current, gen);
    var t2 := first.value.tables;
    RegenerationRestartsKeys(t2, profiles, current, gen, level);
    GenerateReplyShape(t2, profiles, current, gen, level);
  }

  /**
   * After a successful generation the user's plans are exactly the new rows, one per day of the
   * generated plan, each copying that day's workout; every other user's plans are untouched.
   */
  lemma GenerateReplacesPlans(t: PlanTables, profiles: Table<ProfileRow>, current: Row<UserRow>,
                              gen: Goal -> seq<(int, DayPlan)>, u: int)
    requires Keyed(t.plans) && Generate(t, profiles, current, gen).Ok?
    ensures var plans := Generate(t, profiles, current, gen).value.tables.plans;
      PlansOf(plans, current.id)
        == NewPlanRows(FirstNewPlanKey(t.plans, current.id), current.id, gen(ProfileOf(profiles, current.id).value.value.goal))
      && (u != current.id ==> PlansOf(plans, u) == PlansOf(t.plans, u))
  {
    GenerateOk(t, profiles, current, gen);
    var days := gen(ProfileOf(profiles, current.id).value.value.goal);
    var base := ClearedFor(t, current.id);
    ClearedForPlansOf(t, current.id, current.id);
    ClearedForPlansOf(t, current.id, u);
    StoreDaysPlansOf(base, current.id, days, current.id);
    StoreDaysPlansOf(base, current.id, days, u);
  }

  /** With plan rows `NewPlanRows(base, uid, days)` for `uid`, a day is found exactly when the plan has it. */
  lemma DayFoundAmong(plans: Table<WorkoutPlanRow>, uid: int, base: int, days: seq<(int, DayPlan)>, level: Level, day: int)
    requires PlansOf(plans, uid) == NewPlanRows(base, uid, days) && DaysMatch(days, level) && ValidDay(day)
    ensures GetWorkoutPlanByDay(plans, uid, day).Ok? <==> day in TrainingDays(level)
  {
    var mine := PlansOf(plans, uid);
    assert forall k :: 0 <= k < |mine| ==> mine[k].value.day == Days(days)[k];
    if day in TrainingDays(level) {
      var k :| 0 <= k < |TrainingDays(level)| && TrainingDays(level)[k] == day;
      assert mine[k] in plans.rows && mine[k].value.userId == uid && mine[k].value.day == day;
    }
    var found := GetWorkoutPlanByDay(plans, uid, day);
    if found.Ok? {
      assert found.value in mine;
    }
  }

  /**
   * After a successful generation the user has a plan for a day exactly when the day is one of the
   * level's training days.
   */
  lemma GeneratedDaysFound(t: PlanTables, profiles: Table<ProfileRow>, current: Row<UserRow>,
                           gen: Goal -> seq<(int, DayPlan)>, level: Level, day: int)
    requires Keyed(t.plans) && GeneratesLevel(gen, level) && Generate(t, profiles, current, gen).Ok? && ValidDay(day)
    ensures GetWorkoutPlanByDay(Generate(t, profiles, current, gen).value.tables.plans, current.id, day).Ok?
        <==> day in TrainingDays(level)
  {
    var days := gen(ProfileOf(profiles, current.id).value.value.goal);
    GenerateReplacesPlans(t, profiles, current, gen, current.id);
    DayFoundAmong(Generate(t, profiles, current, gen).value.tables.plans, current.id, FirstNewPlanKey(t.plans, current.id), days, level, day);
  }

  /** Every day with a template contributes an exercise row under its plan key. */
  lemma {:induction false} AllExerciseRowsCover(base: int, days: seq<(int, DayPlan)>, k: int)
    requires 0 <= k < |days| && |days[k].1.exercises| > 0
    ensures exists i :: 0 <= i < |AllExerciseRows(base, days)| && AllExerciseRows(base, days)[i].workoutPlanId == base + k
  {
    var n := |days| - 1;
    var prev := AllExerciseRows(base, days[..n]);
    if k == n {
      assert AllExerciseRows(base, days)[|prev|] == ExerciseRows(base + n, days[n].1.exercises)[0];
    } else {
      AllExerciseRowsCover(base, days[..n], k);
      var i :| 0 <= i < |prev| && prev[i].workoutPlanId == base + k;
      assert AllExerciseRows(base, days)[i] == prev[i];
    }
  }

  /** A stored day with templates leaves an exercise under its new plan key. */
  lemma StoredPlansHaveExercises(base: PlanTables, uid: int, days: seq<(int, DayPlan)>, k: int)
    requires 0 <= k < |days| && |days[k].1.exercises| > 0
    ensures var exercises := StoreDays(base, uid, days).exercises;
      exists i :: 0 <= i < |exercises.rows| && exercises.rows[i].value.workoutPlanId == base.plans.nextId + k
  {
    StoreDaysInserts(base, uid, days);
    AllExerciseRowsCover(base.plans.nextId, days, k);
    var rows := AllExerciseRows(base.plans.nextId, days);
    var i :| 0 <= i < |rows| && rows[i].workoutPlanId == base.plans.nextId + k;
    assert StoreDays(base, uid, days).exercises.rows[|base.exercises.rows| + i].value == rows[i];
  }

  /** Every plan a successful generation creates has at least one exercise. */
  lemma GeneratedPlansHaveExercises(t: PlanTables, profiles: Table<ProfileRow>, current: Row<UserRow>,
                                    gen: Goal -> seq<(int, DayPlan)>, level: Level, k: int)
    requires GeneratesLevel(gen, level) && Generate(t, profiles, current, gen).Ok?
    requires 0 <= k < |Generate(t, profiles, current, gen).value.reply.workoutPlanIds|
    ensures var out := Generate(t, profiles, current, gen).value;
      exists i :: 0 <= i < |out.tables.exercises.rows|
        && out.tables.exercises.rows[i].value.workoutPlanId == out.reply.workoutPlanIds[k]
  {
    GenerateOk(t, profiles, current, gen);
    var days := gen(ProfileOf(profiles, current.id).value.value.goal);
    assert DaysMatch(days, level);
    StoredPlansHaveExercises(ClearedFor(t, current.id), current.id, days, k);
  }

  /**
   * Storing the days keeps every earlier exercise and files each new one under one of the keys the
   * new plans receive.
   */
  lemma StoreDaysExercises(base: PlanTables, uid: int, days: seq<(int, DayPlan)>)
    ensures var exercises := StoreDays(base, uid, days).exercises;
      |base.exercises.rows| <= |exercises.rows|
      && (forall i :: |base.exercises.rows| <= i < |exercises.rows| ==>
            base.plans.nextId <= exercises.rows[i].value.workoutPlanId < base.plans.nextId + |days|)
      && exercises.rows[..|base.exercises.rows|] == base.exercises.rows
  {
    StoreDaysInserts(base, uid, days);
    var exercises := StoreDays(base, uid, days).exercises;
    var newRows := AllExerciseRows(base.plans.nextId, days);
    forall i | |base.exercises.rows| <= i < |exercises.rows|
      ensures base.plans.nextId <= exercises.rows[i].value.workoutPlanId < base.plans.nextId + |days|
    {
      assert exercises.rows[i].value == newRows[i - |base.exercises.rows|];
    }
  }

  /**
   * After a successful generation every exercise is either an earlier exercise of a plan that was
   * not the user's, or a new one filed under one of the keys in the reply (which may be keys of the
   * user's deleted plans); every exercise of any other plan survives.
   */
  lemma GenerateExercises(t: PlanTables, profiles: Table<ProfileRow>, current: Row<UserRow>, gen: Goal -> seq<(int, DayPlan)>)
    requires Keyed(t.plans) && Generate(t, profiles, current, gen).Ok?
    ensures var out := Generate(t, profiles, current, gen).value;
      var exercises := out.tables.exercises;
      var oldKeys := KeysOf(PlansOf(t.plans, current.id));
      (forall i :: 0 <= i < |exercises.rows| ==>
         (exercises.rows[i] in t.exercises.rows && exercises.rows[i].value.workoutPlanId !in oldKeys)
         || exercises.rows[i].value.workoutPlanId in out.reply.workoutPlanIds)
      && (forall i :: 0 <= i < |t.exercises.rows| && t.exercises.rows[i].value.workoutPlanId !in oldKeys
            ==> t.exercises.rows[i] in exercises.rows)
  {
    GenerateOk(t, profiles, current, gen);
    var days := gen(ProfileOf(profiles, current.id).value.value.goal);
    var out := Generate(t, profiles, current, gen).value;
    var exercises := out.tables.exercises;
    var oldKeys := KeysOf(PlansOf(t.plans, current.id));
    var base := ClearedFor(t, current.id);
    ClearedForPlansOf(t, current.id, current.id);
    StoreDaysExercises(base, current.id, days);
    forall i | 0 <= i < |exercises.rows|
      ensures (exercises.rows[i] in t.exercises.rows && exercises.rows[i].value.workoutPlanId !in oldKeys)
           || exercises.rows[i].value.workoutPlanId in out.reply.workoutPlanIds
    {
      if i < |base.exercises.rows| {
        assert exercises.rows[i] == base.exercises.rows[i];
        assert base.exercises.rows[i] in base.exercises.rows;
      } else {
        var k := exercises.rows[i].value.workoutPlanId - base.plans.nextId;
        assert out.reply.workoutPlanIds[k] == exercises.rows[i].value.workoutPlanId;
      }
    }
    forall i | 0 <= i < |t.exercises.rows| && t.exercises.rows[i].value.workoutPlanId !in oldKeys
      ensures t.exercises.rows[i] in exercises.rows
    {
      assert t.exercises.rows[i] in base.exercises.rows;
    }
  }

  // ----- get_workout_plan_by_day -----

  /** `get_workout_plan_by_day`: the user's first plan for a day of the week. */
  function GetWorkoutPlanByDay(plans: Table<WorkoutPlanRow>, uid: int, day: int): (r: Result<Row<WorkoutPlanRow>, HttpError>)
    ensures !ValidDay(day) ==> r == Err(DayRangeError)
    ensures ValidDay(day) ==>
      (r.Err? <==> forall i :: 0 <= i < |plans.rows| ==> plans.rows[i].value.userId != uid || plans.rows[i].value.day != day)
    ensures ValidDay(day) && r.Err? ==> r.error == HttpError(404, "No workout plan found for day " + DayText(day))
    ensures r.Ok? ==> r.value in plans.rows && r.value.value.userId == uid && r.value.value.day == day
  {
    if day < 1 || day > 7 then Err(DayRangeError)
    else
      match plans.First((p: Row<WorkoutPlanRow>) => p.value.userId == uid && p.value.day == day)
      case None => Err(HttpError(404, "No workout plan found for day " + DayText(day)))
      case Some(p) => Ok(p)
  }

  // ----- the premium edits -----

  const PlanAccessError: HttpError := HttpError(404, "Workout plan not found or you don't have access to it")
  const ExerciseAccessError: HttpError := HttpError(404, "Exercise not found or you don't have access to it")

  /** The plan with key `planId` if `uid` owns it. */
  function OwnedPlan(plans: Table<WorkoutPlanRow>, planId: int, uid: int): (r: Option<Row<WorkoutPlanRow>>)
    ensures r.Some? ==> r.value in plans.rows && r.value.id == planId && r.value.value.userId == uid
    ensures r.None? <==> forall i :: 0 <= i < |plans.rows| ==> plans.rows[i].id != planId || plans.rows[i].value.userId != uid
  {
    plans.First((p: Row<WorkoutPlanRow>) => p.id == planId && p.value.userId == uid)
  }

  /** The join of an exercise with its plan: the plan exists and belongs to `uid`. */
  predicate InOwnedPlan(plans: Table<WorkoutPlanRow>, e: Row<ExerciseRow>, uid: int)
  {
    exists i :: 0 <= i < |plans.rows| && plans.rows[i].id == e.value.workoutPlanId && plans.rows[i].value.userId == uid
  }

  /** The exercise with key `exerciseId` if its plan belongs to `uid`. */
  function OwnedExercise(exercises: Table<ExerciseRow>, plans: Table<WorkoutPlanRow>, exerciseId: int, uid: int)
    : (r: Option<Row<ExerciseRow>>)
    ensures r.Some? ==> r.value in exercises.rows && r.value.id == exerciseId && InOwnedPlan(plans, r.value, uid)
    ensures r.None? <==> forall i :: 0 <= i < |exercises.rows| ==>
      exercises.rows[i].id != exerciseId || !InOwnedPlan(plans, exercises.rows[i], uid)
  {
    exercises.First((e: Row<ExerciseRow>) => e.id == exerciseId && InOwnedPlan(plans, e, uid))
  }

  /** The `setattr` loop of `update_workout_plan`: each supplied field overwrites the stored one. */
  function PatchPlan(row: WorkoutPlanRow, u: WorkoutPlanUpdate): (r: WorkoutPlanRow)
    ensures r.userId == row.userId
  {
    row.(day := PatchOr(u.day, row.day), muscleGroup := PatchOr(u.muscleGroup, row.muscleGroup),
         level := PatchOr(u.level, row.level), notes := PatchOr(u.notes, row.notes))
  }

  /** An update that supplies nothing changes nothing, and applying an update twice is applying it once. */
  lemma PatchPlanLaws(row: WorkoutPlanRow, u: WorkoutPlanUpdate)
    ensures PatchPlan(row, WorkoutPlanUpdate(Unset, Unset, Unset, Unset)) == row
    ensures PatchPlan(PatchPlan(row, u), u) == PatchPlan(row, u)
  {
  }

  /** A validated update keeps the plan's day within the week. */
  lemma PatchPlanKeepsDay(row: WorkoutPlanRow, u: WorkoutPlanUpdate)
    requires ValidDay(row.day) && WorkoutPlanUpdateValid(u)
    ensures ValidDay(PatchPlan(row, u).day)
  {
  }

  /** `update_workout_plan` for the premium user `current`. */
  method UpdateWorkoutPlan(db: Database, current: Row<UserRow>, planId: int, u: WorkoutPlanUpdate)
    returns (r: Result<Row<WorkoutPlanRow>, HttpError>)
    requires current.value.role == "premium" && db.Valid()
    modifies db
    ensures db.Valid()
    ensures OwnedPlan(old(db.workoutPlans), planId, current.id).None? ==>
      r == Err(PlanAccessError) && db.workoutPlans == old(db.workoutPlans)
    ensures OwnedPlan(old(db.workoutPlans), planId, current.id).Some? ==>
      var found := OwnedPlan(old(db.workoutPlans), planId, current.id).value;
      r == Ok(Row(planId, PatchPlan(found.value, u)))
      && db.workoutPlans == old(db.workoutPlans).Put(planId, PatchPlan(found.value, u))
    ensures db.users == old(db.users) && db.profiles == old(db.profiles) && db.exercises == old(db.exercises)
    ensures db.mealPlans == old(db.mealPlans) && db.meals == old(db.meals)
    ensures db.foodItems == old(db.foodItems) && db.subscriptions == old(db.subscriptions)
  {
    var found := OwnedPlan(db.workoutPlans, planId, current.id);
    if found.None? {
      return Err(PlanAccessError);
    }
    var plan := found.value.value;
    if u.day.Set? {
      plan := plan.(day := u.day.value);
    }
    if u.muscleGroup.Set? {
      plan := plan.(muscleGroup := u.muscleGroup.value);
    }
    if u.level.Set? {
      plan := plan.(level := u.level.value);
    }
    if u.notes.Set? {
      plan := plan.(notes := u.notes.value);
    }
    assert plan == PatchPlan(found.value.value, u);
    var k :| 0 <= k < |db.workoutPlans.rows| && db.workoutPlans.rows[k] == found.value;
    PutAt(db.workoutPlans, k, plan);
    db.CommitPlanTables(db.workoutPlans.Put(planId, plan), db.exercises);
    r := Ok(Row(planId, plan));
  }

  /**
   * An update of one of the user's plans rewrites that row only: the plan keeps its key and owner,
   * and every other user's plans are unchanged.
   */
  lemma UpdatePlanKeepsOthers(plans: Table<WorkoutPlanRow>, planId: int, uid: int, upd: WorkoutPlanUpdate, u: int)
    requires Keyed(plans) && OwnedPlan(plans, planId, uid).Some? && u != uid
    ensures var found := OwnedPlan(plans, planId, uid).value;
      PlansOf(plans.Put(planId, PatchPlan(found.value, upd)), u) == PlansOf(plans, u)
      && OwnedPlan(plans.Put(planId, PatchPlan(found.value, upd)), planId, uid) == Some(Row(planId, PatchPlan(found.value, upd)))
  {
    var found := OwnedPlan(plans, planId, uid).value;
    var k :| 0 <= k < |plans.rows| && plans.rows[k] == found;
    PutKeepsWhere(plans, k, PatchPlan(found.value, upd), OwnedBy(u));
    PutAt(plans, k, PatchPlan(found.value, upd));
    var after := plans.Put(planId, PatchPlan(found.value, upd));
    assert after.rows[k] == Row(planId, PatchPlan(found.value, upd));
    var r := OwnedPlan(after, planId, uid);
    assert r.Some?;
    var j :| 0 <= j < |after.rows| && after.rows[j] == r.value;
    assert j == k;
  }

  /** The exercise row `add_exercise_to_plan` stores. */
  function NewExercise(planId: int, e: ExerciseCreate): ExerciseRow
  {
    ExerciseRow(planId, e.name, e.sets, e.reps, e.restSeconds, e.notes)
  }

  /** `add_exercise_to_plan` for the premium user `current`. */
  method AddExerciseToPlan(db: Database, current: Row<UserRow>, planId: int, e: ExerciseCreate)
    returns (r: Result<Row<ExerciseRow>, HttpError>)
    requires current.value.role == "premium" && db.Valid()
    modifies db
    ensures db.Valid()
    ensures OwnedPlan(old(db.workoutPlans), planId, current.id).None? ==>
      r == Err(PlanAccessError) && db.exercises == old(db.exercises)
    ensures OwnedPlan(old(db.workoutPlans), planId, current.id).Some? ==>
      r == Ok(Row(old(db.exercises.nextId), NewExercise(planId, e)))
      && db.exercises == old(db.exercises).Add(NewExercise(planId, e))
    ensures db.users == old(db.users) && db.profiles == old(db.profiles) && db.workoutPlans == old(db.workoutPlans)
    ensures db.mealPlans == old(db.mealPlans) && db.meals == old(db.meals)
    ensures db.foodItems == old(db.foodItems) && db.subscriptions == old(db.subscriptions)
  {
    var found := OwnedPlan(db.workoutPlans, planId, current.id);
    if found.None? {
      return Err(PlanAccessError);
    }
    var row := NewExercise(found.value.id, e);
    AddKeyed(db.exercises, row);
    r := Ok(Row(db.exercises.nextId, row));
    db.CommitPlanTables(db.workoutPlans, db.exercises.Add(row));
  }

  /** An added exercise is found again by its new key, through the user's plan. */
  lemma AddedExerciseOwned(plans: Table<WorkoutPlanRow>, exercises: Table<ExerciseRow>, planId: int, uid: int, e: ExerciseCreate)
    requires Keyed(exercises) && OwnedPlan(plans, planId, uid).Some?
    ensures OwnedExercise(exercises.Add(NewExercise(planId, e)), plans, exercises.nextId, uid)
         == Some(Row(exercises.nextId, NewExercise(planId, e)))
  {
    var found := OwnedPlan(plans, planId, uid).value;
    var j :| 0 <= j < |plans.rows| && plans.rows[j] == found;
    var after := exercises.Add(NewExercise(planId, e));
    assert InOwnedPlan(plans, after.rows[|exercises.rows|], uid);
  }

  /** The `setattr` loop of `update_exercise`. */
  function PatchExercise(row: ExerciseRow, u: ExerciseUpdate): (r: ExerciseRow)
    ensures r.workoutPlanId == row.workoutPlanId
  {
    row.(name := PatchOr(u.name, row.name), sets := PatchOr(u.sets, row.sets), reps := PatchOr(u.reps, row.reps),
         restSeconds := PatchOr(u.restSeconds, row.restSeconds), notes := PatchOr(u.notes, row.notes))
  }

  /** A validated update keeps an exercise valid: at least one set and a non-negative rest. */
  lemma PatchExerciseKeepsValid(row: ExerciseRow, u: ExerciseUpdate)
    requires row.sets > 0 && row.restSeconds >= 0 && ExerciseUpdateValid(u)
    ensures PatchExercise(row, u).sets > 0 && PatchExercise(row, u).restSeconds >= 0
  {
  }

  /** `update_exercise` for the premium user `current`. */
  method UpdateExercise(db: Database, current: Row<UserRow>, exerciseId: int, u: ExerciseUpdate)
    returns (r: Result<Row<ExerciseRow>, HttpError>)
    requires current.value.role == "premium" && db.Valid()
    modifies db
    ensures db.Valid()
    ensures OwnedExercise(old(db.exercises), old(db.workoutPlans), exerciseId, current.id).None? ==>
      r == Err(ExerciseAccessError) && db.exercises == old(db.exercises)
    ensures OwnedExercise(old(db.exercises), old(db.workoutPlans), exerciseId, current.id).Some? ==>
      var found := OwnedExercise(old(db.exercises), old(db.workoutPlans), exerciseId, current.id).value;
      r == Ok(Row(exerciseId, PatchExercise(found.value, u)))
      && db.exercises == old(db.exercises).Put(exerciseId, PatchExercise(found.value, u))
    ensures db.users == old(db.users) && db.profiles == old(db.profiles) && db.workoutPlans == old(db.workoutPlans)
    ensures db.mealPlans == old(db.mealPlans) && db.meals == old(db.meals)
    ensures db.foodItems == old(db.foodItems) && db.subscriptions == old(db.subscriptions)
  {
    var found := OwnedExercise(db.exercises, db.workoutPlans, exerciseId, current.id);
    if found.None? {
      return Err(ExerciseAccessError);
    }
    var exercise := found.value.value;
    if u.name.Set? {
      exercise := exercise.(name := u.name.value);
    }
    if u.sets.Set? {
      exercise := exercise.(sets := u.sets.value);
    }
    if u.reps.Set? {
      exercise := exercise.(reps := u.reps.value);
    }
    if u.restSeconds.Set? {
      exercise := exercise.(restSeconds := u.restSeconds.value);
    }
    if u.notes.Set? {
      exercise := exercise.(notes := u.notes.value);
    }
    assert exercise == PatchExercise(found.value.value, u);
    var k :| 0 <= k < |db.exercises.rows| && db.exercises.rows[k] == found.value;
    PutAt(db.exercises, k, exercise);
    db.CommitPlanTables(db.workoutPlans, db.exercises.Put(exerciseId, exercise));
    r := Ok(Row(exerciseId, exercise));
  }

  /** `delete_exercise` for the premium user `current`. */
  method DeleteExercise(db: Database, current: Row<UserRow>, exerciseId: int) returns (r: Result<string, HttpError>)
    requires current.value.role == "premium" && db.Valid()
    modifies db
    ensures db.Valid()
    ensures OwnedExercise(old(db.exercises), old(db.workoutPlans), exerciseId, current.id).None? ==>
      r == Err(ExerciseAccessError) && db.exercises == old(db.exercises)
    ensures OwnedExercise(old(db.exercises), old(db.workoutPlans), exerciseId, current.id).Some? ==>
      r == Ok("Exercise deleted successfully") && db.exercises == Remove(old(db.exercises), exerciseId)
    ensures db.users == old(db.users) && db.profiles == old(db.profiles) && db.workoutPlans == old(db.workoutPlans)
    ensures db.mealPlans == old(db.mealPlans) && db.meals == old(db.meals)
    ensures db.foodItems == old(db.foodItems) && db.subscriptions == old(db.subscriptions)
  {
    var found := OwnedExercise(db.exercises, db.workoutPlans, exerciseId, current.id);
    if found.None? {
      return Err(ExerciseAccessError);
    }
    RemoveEffect(db.exercises, found.value.id);
    db.CommitPlanTables(db.workoutPlans, Remove(db.exercises, found.value.id));
    r := Ok("Exercise deleted successfully");
  }

  /**
   * A deleted exercise is gone, so deleting it again is a 404, and every other exercise stays.
   */
  lemma DeleteExerciseEffect(exercises: Table<ExerciseRow>, plans: Table<WorkoutPlanRow>, exerciseId: int, uid: int)
    requires Keyed(exercises) && OwnedExercise(exercises, plans, exerciseId, uid).Some?
    ensures OwnedExercise(Remove(exercises, exerciseId), plans, exerciseId, uid).None?
    ensures forall e :: e in Remove(exercises, exerciseId).rows <==> e in exercises.rows && e.id != exerciseId
  {
    RemoveEffect(exercises, exerciseId);
    var after := Remove(exercises, exerciseId);
    forall i | 0 <= i < |after.rows| ensures after.rows[i].id != exerciseId {
      assert after.rows[i] in after.rows;
    }
  }
}
