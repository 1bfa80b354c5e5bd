/**
 * The nutrition endpoints: the nutrition targets of a profile, the user's daily meal plans, their
 * generation (with the premium regeneration that deletes the day's plan, its meals and their
 * foods first), and the premium additions of a meal to a plan and of a food to a meal, which
 * keep the stored running totals in step.
 */
module NutritionEndpoints {
  import opened Wrappers
  import opened Seqs
  import opened Schemas
  import opened Store
  import opened MealService

  // ----- get_nutrition_plan -----

  /** The reply of `get_nutrition_plan`. */
  datatype NutritionPlanReply = NutritionPlanReply(bmr: real, tdee: real, proteinGram: real, carbGram: real,
                                                   fatGram: real, dailyCalories: real)

  /** `get_nutrition_plan`: the profile's stored targets; the daily calories are the TDEE. */
  function GetNutritionPlan(profiles: Table<ProfileRow>, current: Row<UserRow>): (r: Result<NutritionPlanReply, HttpError>)
    ensures r.Err? <==> ProfileOf(profiles, current.id).None?
    ensures r.Err? ==> r.error == NoProfileError
    ensures r.Ok? ==> var p := ProfileOf(profiles, current.id).value.value;
      r.value.dailyCalories == r.value.tdee == p.tdee && r.value.bmr == p.bmr
      && r.value.proteinGram == p.proteinGram && r.value.carbGram == p.carbGram && r.value.fatGram == p.fatGram
  {
    match ProfileOf(profiles, current.id)
    case None => Err(NoProfileError)
    case Some(profile) =>
      var p := profile.value;
      Ok(NutritionPlanReply(p.bmr, p.tdee, p.proteinGram, p.carbGram, p.fatGram, p.tdee))
  }

  // ----- get_meal_plans and get_meal_plan_by_day -----

  /** Whether a meal plan row belongs to user `uid`. */
  function OwnedBy(uid: int): Row<MealPlanRow> -> bool
  {
    (p: Row<MealPlanRow>) => p.value.userId == uid
  }

  /** `get_meal_plans`: the user's meal plan rows, in key order. */
  function MealPlansOf(plans: Table<MealPlanRow>, uid: int): (r: seq<Row<MealPlanRow>>)
    ensures forall i :: 0 <= i < |r| ==> r[i] in plans.rows && r[i].value.userId == uid
    ensures forall i :: 0 <= i < |plans.rows| && plans.rows[i].value.userId == uid ==> plans.rows[i] in r
  {
    plans.Where(OwnedBy(uid))
  }

  /** Whether a meal plan row is user `uid`'s plan for `day`. */
  function OnDay(uid: int, day: int): Row<MealPlanRow> -> bool
  {
    (p: Row<MealPlanRow>) => p.value.userId == uid && p.value.day == day
  }

  /** The user's first meal plan for `day`, as the endpoints look it up. */
  function MealPlanOfDay(plans: Table<MealPlanRow>, uid: int, day: int): (r: Option<Row<MealPlanRow>>)
    ensures r.Some? ==> r.value in plans.rows && r.value.value.userId == uid && r.value.value.day == day
    ensures r.None? <==> forall i :: 0 <= i < |plans.rows| ==> plans.rows[i].value.userId != uid || plans.rows[i].value.day != day
  {
    plans.First(OnDay(uid, day))
  }

  /** The 404 of a day without a meal plan. */
  function NoMealPlanError(day: int): HttpError
    requires ValidDay(day)
  {
    HttpError(404, "No meal plan found for day " + DayText(day))
  }

  /** `get_meal_plan_by_day`: the user's first meal plan for a day of the week. */
  function GetMealPlanByDay(plans: Table<MealPlanRow>, uid: int, day: int): (r: Result<Row<MealPlanRow>, HttpError>)
    ensures !ValidDay(day) ==> r == Err(DayRangeError)
    ensures ValidDay(day) ==>
      (r.Err? <==> forall i :: 0 <= i < |plans.rows| ==> plans.rows[i].value.userId != uid || plans.rows[i].value.day != day)
    ensures ValidDay(day) && r.Err? ==> r.error == NoMealPlanError(day)
    ensures r.Ok? ==> r.value in plans.rows && r.value.value.userId == uid && r.value.value.day == day
  {
    if day < 1 || day > 7 then Err(DayRangeError)
    else
      match MealPlanOfDay(plans, uid, day)
      case None => Err(NoMealPlanError(day))
      case Some(plan) => Ok(plan)
  }

  // ----- the premium regeneration's cascade -----

  /** The three tables a generation writes. */
  datatype MealTables = MealTables(plans: Table<MealPlanRow>, meals: Table<MealRow>, foods: Table<FoodItemRow>)

  /** Whether a meal row belongs to meal plan `planId`. */
  function InPlan(planId: int): Row<MealRow> -> bool
  {
    (m: Row<MealRow>) => m.value.mealPlanId == planId
  }

  /** Whether a food row belongs to a meal whose key is in `mealKeys`. */
  function InMeals(mealKeys: set<int>): Row<FoodItemRow> -> bool
  {
    (f: Row<FoodItemRow>) => f.value.mealId in mealKeys
  }

  /** Meal plan `planId` deleted, with its meals and their foods. */
  function ClearMealPlan(t: MealTables, planId: int): MealTables
  {
    MealTables(Remove(t.plans, planId), t.meals.Delete(InPlan(planId)),
               t.foods.Delete(InMeals(KeysOf(t.meals.Where(InPlan(planId))))))
  }

  /**
   * The cascade of a premium regeneration: for each meal of the plan its foods and then the meal
   * are deleted, then the plan; one commit at the end, so the loops work on the session's view.
   */
  method DeleteMealPlan(t: MealTables, planId: int) returns (after: MealTables)
    requires Keyed(t.plans) && Keyed(t.meals) && Keyed(t.foods)
    ensures after == ClearMealPlan(t, planId)
  {
    var meals := t.meals.Where(InPlan(planId));
    var mealsLeft := t.meals;
    var foodsLeft := t.foods;
    ghost var deleted: set<int> := {};
    RemoveNoKeys(t.meals);
    DeleteNothing(t.foods, InMeals(deleted));
    var i := 0;
    while i < |meals|
      invariant 0 <= i <= |meals|
      invariant deleted == KeysOf(meals[..i])
      invariant mealsLeft == RemoveKeys(t.meals, deleted)
      invariant foodsLeft == t.foods.Delete(InMeals(deleted))
    {
      var meal := meals[i];
      DeleteKeyed(t.foods, InMeals(deleted));
      foodsLeft := DeleteEach(foodsLeft, InMeals({meal.id}));
      DeleteDelete(t.foods, InMeals(deleted), InMeals({meal.id}), InMeals(deleted + {meal.id}));
      mealsLeft := Remove(mealsLeft, meal.id);
      RemoveOneMore(t.meals, deleted, meal.id);
      KeysOfSnoc(meals, i);
      deleted := deleted + {meal.id};
      i := i + 1;
    }
    assert meals[..|meals|] == meals;
    DeleteByKeys(t.meals, InPlan(planId));
    after := MealTables(Remove(t.plans, planId), mealsLeft, foodsLeft);
  }

  // ----- storing a generated plan -----

  /** The meal plan row stored for a generated plan: the user, the day and the plan's totals. */
  function PlanRowOf(uid: int, day: int, plan: MealPlan): MealPlanRow
  {
    MealPlanRow(uid, day, plan.totalCalories, plan.totalProtein, plan.totalCarbs, plan.totalFat)
  }

  /** The meal row stored for a generated meal under plan key `planId`. */
  function MealRowOf(planId: int, m: Meal): MealRow
  {
    MealRow(planId, m.name, m.calories, m.protein, m.carbs, m.fat, Some(m.description))
  }

  /** The food rows stored for a generated meal's foods under meal key `mealId`, in order. */
  function FoodRows(mealId: int, items: seq<FoodItem>): (rows: seq<FoodItemRow>)
    ensures |rows| == |items|
  {
    seq(|items|, k requires 0 <= k < |items| =>
      FoodItemRow(mealId, items[k].name, items[k].quantity, items[k].unit, items[k].calories,
                  items[k].protein, items[k].carbs, items[k].fat))
  }

  /** The meal rows stored for the generated meals, in order. */
  function MealRows(planId: int, meals: seq<Meal>): (rows: seq<MealRow>)
    ensures |rows| == |meals|
  {
    seq(|meals|, k requires 0 <= k < |meals| => MealRowOf(planId, meals[k]))
  }

  /** The food rows of all generated meals, the meal at position `k` having key `base + k`. */
  function AllFoodRows(base: int, meals: seq<Meal>): seq<FoodItemRow>
  {
    if |meals| == 0 then []
    else
      var n := |meals| - 1;
      AllFoodRows(base, meals[..n]) + FoodRows(base + n, meals[n].foodItems)
  }

  /** One generated meal stored: its row, committed to learn its key, then its foods. */
  function StoreMeal(t: MealTables, planId: int, m: Meal): MealTables
  {
    MealTables(t.plans, t.meals.Add(MealRowOf(planId, m)), t.foods.AddAll(FoodRows(t.meals.nextId, m.foodItems)))
  }

  /** The tables after storing the generated meals in order. */
  function StoreMeals(t: MealTables, planId: int, meals: seq<Meal>): MealTables
  {
    if |meals| == 0 then t else StoreMeal(StoreMeals(t, planId, meals[..|meals| - 1]), planId, meals[|meals| - 1])
  }

  /** A generated plan stored: its row first, then its meals under the new key. */
  function StorePlan(t: MealTables, uid: int, day: int, plan: MealPlan): MealTables
  {
    StoreMeals(MealTables(t.plans.Add(PlanRowOf(uid, day, plan)), t.meals, t.foods), t.plans.nextId, plan.meals)
  }

  lemma StoreMealsStep(t: MealTables, planId: int, meals: seq<Meal>, i: int)
    requires 0 <= i < |meals|
    ensures StoreMeals(t, planId, meals[..i + 1]) == StoreMeal(StoreMeals(t, planId, meals[..i]), planId, meals[i])
  {
    assert meals[..i + 1][..i] == meals[..i];
  }

  /** Storing the meals leaves the plans alone. */
  lemma {:induction false} StoreMealsPlans(t: MealTables, planId: int, meals: seq<Meal>)
    ensures StoreMeals(t, planId, meals).plans == t.plans
  {
    if |meals| > 0 {
      StoreMealsPlans(t, planId, meals[..|meals| - 1]);
    }
  }

  /** Storing the meals inserts one meal row per meal, in order. */
  lemma {:induction false} StoreMealsMealRows(t: MealTables, planId: int, meals: seq<Meal>)
    ensures StoreMeals(t, planId, meals).meals == t.meals.AddAll(MealRows(planId, meals))
  {
    if |meals| == 0 {
      assert t.meals.AddAll([]).rows == t.meals.rows;
    } else {
      var n := |meals| - 1;
      StoreMealsMealRows(t, planId, meals[..n]);
      AddAllSnoc(t.meals, MealRows(planId, meals[..n]), MealRowOf(planId, meals[n]));
      assert MealRows(planId, meals) == MealRows(planId, meals[..n]) + [MealRowOf(planId, meals[n])];
    }
  }

  /** The last meal's foods go in under the key that meal takes. */
  lemma StoreMealsFoodStep(t: MealTables, planId: int, meals: seq<Meal>)
    requires |meals| > 0
    ensures var n := |meals| - 1;
      StoreMeals(t, planId, meals).foods
        == StoreMeals(t, planId, meals[..n]).foods.AddAll(FoodRows(t.meals.nextId + n, meals[n].foodItems))
  {
    StoreMealsMealRows(t, planId, meals[..|meals| - 1]);
  }

  /** Storing the meals inserts the foods of every meal, in order, under that meal's new key. */
  lemma {:induction false} StoreMealsFoodRows(t: MealTables, planId: int, meals: seq<Meal>)
    ensures StoreMeals(t, planId, meals).foods == t.foods.AddAll(AllFoodRows(t.meals.nextId, meals))
  {
    if |meals| == 0 {
      assert t.foods.AddAll([]).rows == t.foods.rows;
    } else {
      var n := |meals| - 1;
      var earlier, last := AllFoodRows(t.meals.nextId, meals[..n]), FoodRows(t.meals.nextId + n, meals[n].foodItems);
      assert AllFoodRows(t.meals.nextId, meals) == earlier + last;
      StoreMealsFoodRows(t, planId, meals[..n]);
      StoreMealsFoodStep(t, planId, meals);
      AddAllAppend(t.foods, earlier, last);
    }
  }

  /** The inner creation loop: a meal's foods added in order under meal key `mealId`, one commit after. */
  method StoreFoodItems(foods: Table<FoodItemRow>, mealId: int, items: seq<FoodItem>) returns (after: Table<FoodItemRow>)
    ensures after == foods.AddAll(FoodRows(mealId, items))
  {
    ghost var rows := FoodRows(mealId, items);
    after := foods;
    assert foods.AddAll([]) == foods;
    var j := 0;
    while j < |items|
      invariant 0 <= j <= |items|
      invariant after == foods.AddAll(rows[..j])
    {
      var f := items[j];
      after := after.Add(FoodItemRow(mealId, f.name, f.quantity, f.unit, f.calories, f.protein, f.carbs, f.fat));
      AddAllSnoc(foods, rows[..j], rows[j]);
      assert rows[..j + 1] == rows[..j] + [rows[j]];
      j := j + 1;
    }
    assert rows[..|items|] == rows;
  }

  /** The outer creation loop: each meal committed to learn its key, then its foods. */
  method StoreMealRows(t: MealTables, planId: int, meals: seq<Meal>) returns (after: MealTables)
    ensures after == StoreMeals(t, planId, meals)
  {
    after := t;
    var i := 0;
    while i < |meals|
      invariant 0 <= i <= |meals|
      invariant after == StoreMeals(t, planId, meals[..i])
    {
      StoreMealsStep(t, planId, meals, i);
      var m := meals[i];
      var mealId := after.meals.nextId;
      var mealTable := after.meals.Add(MealRow(planId, m.name, m.calories, m.protein, m.carbs, m.fat, Some(m.description)));
      var foods := StoreFoodItems(after.foods, mealId, m.foodItems);
      after := MealTables(after.plans, mealTable, foods);
      i := i + 1;
    }
    assert meals[..|meals|] == meals;
  }

  // ----- generate_user_meal_plan -----

  /** The reply of a generation: a message and the new plan's key. */
  datatype MealReply = MealReply(message: string, mealPlanId: int)

  /** A successful generation: the new tables and the reply. */
  datatype MealGenerated = MealGenerated(tables: MealTables, reply: MealReply)

  const MealPlanExistsError: HttpError :=
    HttpError(400, "Meal plan already exists for this day. Premium subscription required to regenerate.")

  /** The tables a generation stores into: the day's first plan cleared when there is one. */
  function ClearedFor(t: MealTables, uid: int, day: int): MealTables
  {
    match MealPlanOfDay(t.plans, uid, day)
    case None => t
    case Some(existing) => ClearMealPlan(t, existing.id)
  }

  /** `generate_meal_plan` fed with a profile's targets and goal, over the food table of the service. */
  function MealGenerator(hash: string -> int): ProfileRow -> MealPlan
  {
    FoodDatabaseStocked();
    (p: ProfileRow) => MealPlanFor(p.tdee, p.proteinGram, p.carbGram, p.fatGram, p.goal, hash, FoodDatabase)
  }

  /**
   * The outcome of `generate_user_meal_plan` for `current` and `day`, with `gen` the meal plan
   * generator: the new tables and the reply, or the error it ends with.
   */
  function GenerateMeals(t: MealTables, profiles: Table<ProfileRow>, current: Row<UserRow>, day: int,
                         gen: ProfileRow -> MealPlan): (r: Result<MealGenerated, HttpError>)
    ensures !ValidDay(day) ==> r == Err(DayRangeError)
    ensures ValidDay(day) && ProfileOf(profiles, current.id).None? ==> r == Err(NoProfileError)
    ensures ValidDay(day) && ProfileOf(profiles, current.id).Some? ==>
      (r.Err? <==> MealPlanOfDay(t.plans, current.id, day).Some? && current.value.role != "premium")
    ensures ValidDay(day) && ProfileOf(profiles, current.id).Some? && r.Err? ==> r.error == MealPlanExistsError
  {
    if day < 1 || day > 7 then Err(DayRangeError)
    else
      match ProfileOf(profiles, current.id)
      case None => Err(NoProfileError)
      case Some(profile) =>
        if MealPlanOfDay(t.plans, current.id, day).Some? && current.value.role != "premium" then Err(MealPlanExistsError)
        else
          var base := ClearedFor(t, current.id, day);
          Ok(MealGenerated(StorePlan(base, current.id, day, gen(profile.value)),
                           MealReply("Meal plan generated successfully", base.plans.nextId)))
  }

  /**
   * `generate_user_meal_plan` for the active user `current`, with `hash` the string hash that
   * picks the foods: a refusal changes nothing; otherwise the tables become those of `GenerateMeals`.
   */
  method GenerateUserMealPlan(db: Database, current: Row<UserRow>, day: int, hash: string -> int)
    returns (r: Result<MealReply, HttpError>)
    requires current.value.isActive && db.Valid()
    modifies db
    ensures db.Valid()
    ensures var out := GenerateMeals(MealTables(old(db.mealPlans), old(db.meals), old(db.foodItems)), old(db.profiles),
                                     current, day, MealGenerator(hash));
      (out.Err? ==> r == Err(out.error) && db.mealPlans == old(db.mealPlans) && db.meals == old(db.meals)
                    && db.foodItems == old(db.foodItems))
      && (out.Ok? ==> r == Ok(out.value.reply) && MealTables(db.mealPlans, db.meals, db.foodItems) == out.value.tables)
    ensures db.users == old(db.users) && db.profiles == old(db.profiles)
    ensures db.workoutPlans == old(db.workoutPlans) && db.exercises == old(db.exercises)
    ensures db.subscriptions == old(db.subscriptions)
  {
    r := GenerateMealsWith(db, current, day, MealGenerator(hash));
  }

  /** The body of `generate_user_meal_plan`, with the meal plan generator `gen`. */
  method GenerateMealsWith(db: Database, current: Row<UserRow>, day: int, gen: ProfileRow -> MealPlan)
    returns (r: Result<MealReply, HttpError>)
    requires current.value.isActive && db.Valid()
    modifies db
    ensures db.Valid()
    ensures var out := GenerateMeals(MealTables(old(db.mealPlans), old(db.meals), old(db.foodItems)), old(db.profiles),
                                     current, day, gen);
      (out.Err? ==> r == Err(out.error) && db.mealPlans == old(db.mealPlans) && db.meals == old(db.meals)
                    && db.foodItems == old(db.foodItems))
      && (out.Ok? ==> r == Ok(out.value.reply) && MealTables(db.mealPlans, db.meals, db.foodItems) == out.value.tables)
    ensures db.users == old(db.users) && db.profiles == old(db.profiles)
    ensures db.workoutPlans == old(db.workoutPlans) && db.exercises == old(db.exercises)
    ensures db.subscriptions == old(db.subscriptions)
  {
    var t := MealTables(db.mealPlans, db.meals, db.foodItems);
    var out := GenerateMealsOn(t, db.profiles, current, day, gen);
    if out.Err? {
      return Err(out.error);
    }
    GeneratedKeyed(t, db.profiles, current, day, gen);
    var after := out.value.tables;
    db.CommitMealTables(after.plans, after.meals, after.foods);
    r := Ok(out.value.reply);
  }

  /** The checks, the cascade and the creation loops of `generate_user_meal_plan`, on the session's view. */
  method GenerateMealsOn(t: MealTables, profiles: Table<ProfileRow>, current: Row<UserRow>, day: int,
                         gen: ProfileRow -> MealPlan) returns (r: Result<MealGenerated, HttpError>)
    requires Keyed(t.plans) && Keyed(t.meals) && Keyed(t.foods)
    ensures r == GenerateMeals(t, profiles, current, day, gen)
  {
    if day < 1 || day > 7 {
      return Err(DayRangeError);
    }
    var profile := ProfileOf(profiles, current.id);
    if profile.None? {
      return Err(NoProfileError);
    }
    var tables := t;
    var existing := MealPlanOfDay(t.plans, current.id, day);
    if existing.Some? {
      if current.value.role == "premium" {
        tables := DeleteMealPlan(t, existing.value.id);
      } else {
        return Err(MealPlanExistsError);
      }
    }
    var plan := gen(profile.value.value);
    var planId := tables.plans.nextId;
    tables := StoreMealPlan(tables, current.id, day, plan);
    r := Ok(MealGenerated(tables, MealReply("Meal plan generated successfully", planId)));
  }

  /** The creation of a generated plan: its row committed to learn its key, then its meals. */
  method StoreMealPlan(t: MealTables, uid: int, day: int, plan: MealPlan) returns (after: MealTables)
    ensures after == StorePlan(t, uid, day, plan)
  {
    var planId := t.plans.nextId;
    var plans := t.plans.Add(MealPlanRow(uid, day, plan.totalCalories, plan.totalProtein, plan.totalCarbs, plan.totalFat));
    after := StoreMealRows(MealTables(plans, t.meals, t.foods), planId, plan.meals);
  }

  /** A generation keeps every key increasing and below its counter. */
  lemma GeneratedKeyed(t: MealTables, profiles: Table<ProfileRow>, current: Row<UserRow>, day: int, gen: ProfileRow -> MealPlan)
    requires Keyed(t.plans) && Keyed(t.meals) && Keyed(t.foods)
    ensures var r := GenerateMeals(t, profiles, current, day, gen);
      r.Ok? ==> Keyed(r.value.tables.plans) && Keyed(r.value.tables.meals) && Keyed(r.value.tables.foods)
  {
    if GenerateMeals(t, profiles, current, day, gen).Ok? {
      TablesKeyedAfter(t, current.id, day, gen(ProfileOf(profiles, current.id).value.value));
    }
  }

  /** Clearing the day and storing a plan keep every key increasing and below its counter. */
  lemma TablesKeyedAfter(t: MealTables, uid: int, day: int, plan: MealPlan)
    requires Keyed(t.plans) && Keyed(t.meals) && Keyed(t.foods)
    ensures var after := StorePlan(ClearedFor(t, uid, day), uid, day, plan);
      Keyed(after.plans) && Keyed(after.meals) && Keyed(after.foods)
  {
    var base := ClearedFor(t, uid, day);
    match MealPlanOfDay(t.plans, uid, day) {
      case None =>
      case Some(existing) =>
        RemoveEffect(t.plans, existing.id);
        DeleteKeyed(t.meals, InPlan(existing.id));
        DeleteKeyed(t.foods, InMeals(KeysOf(t.meals.Where(InPlan(existing.id)))));
    }
    var added := MealTables(base.plans.Add(PlanRowOf(uid, day, plan)), base.meals, base.foods);
    AddKeyed(base.plans, PlanRowOf(uid, day, plan));
    StoreMealsPlans(added, base.plans.nextId, plan.meals);
    StoreMealsMealRows(added, base.plans.nextId, plan.meals);
    StoreMealsFoodRows(added, base.plans.nextId, plan.meals);
    AddAllKeyed(base.meals, MealRows(base.plans.nextId, plan.meals));
    AddAllKeyed(base.foods, AllFoodRows(base.meals.nextId, plan.meals));
  }

  // ----- what a generation keeps -----

  /** The cascade removes the plan, its meals and the foods of those meals, and keeps every other row. */
  lemma ClearMealPlanEffect(t: MealTables, planId: int)
    requires Keyed(t.plans)
    ensures var c := ClearMealPlan(t, planId);
      (forall p :: p in c.plans.rows <==> p in t.plans.rows && p.id != planId)
      && (forall m :: m in c.meals.rows <==> m in t.meals.rows && m.value.mealPlanId != planId)
      && (forall f :: f in c.foods.rows <==> (f in t.foods.rows
            && forall m :: m in t.meals.rows && m.id == f.value.mealId ==> m.value.mealPlanId != planId))
  {
    RemoveEffect(t.plans, planId);
    var doomed := t.meals.Where(InPlan(planId));
    forall f | f in t.foods.rows
      ensures (f.value.mealId in KeysOf(doomed))
          == exists m :: m in t.meals.rows && m.id == f.value.mealId && m.value.mealPlanId == planId
    {
      if f.value.mealId in KeysOf(doomed) {
        var i :| 0 <= i < |doomed| && doomed[i].id == f.value.mealId;
        assert doomed[i] in t.meals.rows;
      }
      if exists m :: m in t.meals.rows && m.id == f.value.mealId && m.value.mealPlanId == planId {
        var m :| m in t.meals.rows && m.id == f.value.mealId && m.value.mealPlanId == planId;
        var j :| 0 <= j < |t.meals.rows| && t.meals.rows[j] == m;
        var i :| 0 <= i < |doomed| && doomed[i] == m;
      }
    }
  }

  /** No user has two meal plans for one day. */
  predicate UniqueDays(plans: Table<MealPlanRow>)
  {
    forall a, b :: a in plans.rows && b in plans.rows && a.value.userId == b.value.userId && a.value.day == b.value.day
      ==> a == b
  }

  /**
   * The key a generated meal plan receives: SQLite's next key once the user's earlier plan for the
   * day, if any, is deleted.
   */
  function NewMealPlanKey(plans: Table<MealPlanRow>, uid: int, day: int): int
  {
    match MealPlanOfDay(plans, uid, day)
    case None => NextKey(plans.rows)
    case Some(existing) => NextKey(Remove(plans, existing.id).rows)
  }

  /**
   * The new key is one past the largest key of the plans that stay, or 1 when none stays: when the
   * replaced plan held the largest key, a key at or below it is handed out again.
   */
  lemma NewMealPlanKeyIs(plans: Table<MealPlanRow>, uid: int, day: int)
    requires Keyed(plans)
    ensures var prev := MealPlanOfDay(plans, uid, day);
      (forall i :: 0 <= i < |plans.rows| && (prev.None? || plans.rows[i].id != prev.value.id)
         ==> plans.rows[i].id < NewMealPlanKey(plans, uid, day))
      && (NewMealPlanKey(plans, uid, day) == 1
          || exists i :: 0 <= i < |plans.rows| && (prev.None? || plans.rows[i].id != prev.value.id)
                         && plans.rows[i].id + 1 == NewMealPlanKey(plans, uid, day))
  {
    match MealPlanOfDay(plans, uid, day) {
      case None =>
        if |plans.rows| > 0 {
          assert plans.rows[|plans.rows| - 1].id + 1 == NewMealPlanKey(plans, uid, day);
        }
      case Some(existing) =>
        var left := Remove(plans, existing.id);
        RemoveEffect(plans, existing.id);
        forall i | 0 <= i < |plans.rows| && plans.rows[i].id != existing.id
          ensures plans.rows[i].id < NewMealPlanKey(plans, uid, day)
        {
          assert plans.rows[i] in left.rows;
        }
        if |left.rows| > 0 {
          var last := left.rows[|left.rows| - 1];
          assert last in plans.rows && last.id != existing.id;
        }
    }
  }

  /** The plans a generation stores into hold none for its day, and every other day is looked up as before. */
  lemma ClearedForPlans(t: MealTables, uid: int, day: int)
    requires Keyed(t.plans) && UniqueDays(t.plans)
    ensures var b := ClearedFor(t, uid, day).plans;
      Keyed(b) && b.nextId == NewMealPlanKey(t.plans, uid, day) && UniqueDays(b)
      && (forall p :: p in b.rows ==> p.value.userId != uid || p.value.day != day)
      && forall u, d :: u != uid || d != day ==> MealPlanOfDay(b, u, d) == MealPlanOfDay(t.plans, u, d)
  {
    match MealPlanOfDay(t.plans, uid, day) {
      case None =>
      case Some(existing) =>
        RemoveEffect(t.plans, existing.id);
        var j :| 0 <= j < |t.plans.rows| && t.plans.rows[j] == existing;
        forall u, d | u != uid || d != day
          ensures MealPlanOfDay(Remove(t.plans, existing.id), u, d) == MealPlanOfDay(t.plans, u, d)
        {
          forall i | 0 <= i < |t.plans.rows| && OnDay(u, d)(t.plans.rows[i])
            ensures t.plans.rows[i].id != existing.id
          {
            assert t.plans.rows[i] != existing;
            assert i != j;
          }
          DeleteKeepsFirst(t.plans, (r: Row<MealPlanRow>) => r.id == existing.id, OnDay(u, d));
        }
    }
  }

  /** Storing a plan where the day has none makes it the day's plan and moves no other day's plan. */
  lemma StoredPlanFound(base: MealTables, uid: int, day: int, plan: MealPlan)
    requires UniqueDays(base.plans)
    requires forall p :: p in base.plans.rows ==> p.value.userId != uid || p.value.day != day
    ensures var after := StorePlan(base, uid, day, plan).plans;
      UniqueDays(after)
      && MealPlanOfDay(after, uid, day) == Some(Row(base.plans.nextId, PlanRowOf(uid, day, plan)))
      && forall u, d :: u != uid || d != day ==> MealPlanOfDay(after, u, d) == MealPlanOfDay(base.plans, u, d)
  {
    var row := PlanRowOf(uid, day, plan);
    StoreMealsPlans(MealTables(base.plans.Add(row), base.meals, base.foods), base.plans.nextId, plan.meals);
    var after := base.plans.Add(row);
    AddFirst(base.plans, row, OnDay(uid, day));
    forall u, d | u != uid || d != day ensures MealPlanOfDay(after, u, d) == MealPlanOfDay(base.plans, u, d) {
      AddFirst(base.plans, row, OnDay(u, d));
    }
    assert after.rows == base.plans.rows + [Row(base.plans.nextId, row)];
  }

  /**
   * A generation keeps every user's days unique, makes the reply's plan, under SQLite's next key, the
   * user's plan for the day, and leaves every other user's and day's plan where it was.
   */
  lemma GeneratedPlanFound(t: MealTables, profiles: Table<ProfileRow>, current: Row<UserRow>, day: int,
                           gen: ProfileRow -> MealPlan)
    requires Keyed(t.plans) && UniqueDays(t.plans)
    ensures var r := GenerateMeals(t, profiles, current, day, gen);
      r.Ok? ==> var after := r.value.tables.plans;
        UniqueDays(after)
        && r.value.reply.mealPlanId == NewMealPlanKey(t.plans, current.id, day)
        && MealPlanOfDay(after, current.id, day)
           == Some(Row(r.value.reply.mealPlanId, PlanRowOf(current.id, day, gen(ProfileOf(profiles, current.id).value.value))))
        && forall u, d :: u != current.id || d != day ==> MealPlanOfDay(after, u, d) == MealPlanOfDay(t.plans, u, d)
  {
    if GenerateMeals(t, profiles, current, day, gen).Ok? {
      ClearedForPlans(t, current.id, day);
      StoredPlanFound(ClearedFor(t, current.id, day), current.id, day, gen(ProfileOf(profiles, current.id).value.value));
    }
  }

  /** Every meal belongs to a stored plan. */
  predicate MealsLinked(plans: Table<MealPlanRow>, meals: Table<MealRow>)
  {
    forall i :: 0 <= i < |meals.rows| ==> HasKey(plans.rows, meals.rows[i].value.mealPlanId)
  }

  /** Every food belongs to a stored meal. */
  predicate FoodsLinked(meals: Table<MealRow>, foods: Table<FoodItemRow>)
  {
    forall i :: 0 <= i < |foods.rows| ==> HasKey(meals.rows, foods.rows[i].value.mealId)
  }

  /** No meal without its plan and no food without its meal. */
  predicate Linked(t: MealTables)
  {
    MealsLinked(t.plans, t.meals) && FoodsLinked(t.meals, t.foods)
  }

  /** The cascade leaves no meal without its plan ... */
  lemma ClearKeepsMealsLinked(t: MealTables, planId: int)
    requires MealsLinked(t.plans, t.meals)
    ensures var c := ClearMealPlan(t, planId); MealsLinked(c.plans, c.meals)
  {
    var c := ClearMealPlan(t, planId);
    forall i | 0 <= i < |c.meals.rows| ensures HasKey(c.plans.rows, c.meals.rows[i].value.mealPlanId) {
      var m := c.meals.rows[i];
      var i0 :| 0 <= i0 < |t.meals.rows| && t.meals.rows[i0] == m;
      var j :| 0 <= j < |t.plans.rows| && t.plans.rows[j].id == m.value.mealPlanId;
      assert t.plans.rows[j] in c.plans.rows;
      var k :| 0 <= k < |c.plans.rows| && c.plans.rows[k] == t.plans.rows[j];
    }
  }

  /** ... and no food without its meal. */
  lemma ClearKeepsFoodsLinked(t: MealTables, planId: int)
    requires FoodsLinked(t.meals, t.foods)
    ensures var c := ClearMealPlan(t, planId); FoodsLinked(c.meals, c.foods)
  {
    var c := ClearMealPlan(t, planId);
    var doomed := t.meals.Where(InPlan(planId));
    forall i | 0 <= i < |c.foods.rows| ensures HasKey(c.meals.rows, c.foods.rows[i].value.mealId) {
      var f := c.foods.rows[i];
      var i0 :| 0 <= i0 < |t.foods.rows| && t.foods.rows[i0] == f;
      var j :| 0 <= j < |t.meals.rows| && t.meals.rows[j].id == f.value.mealId;
      assert t.meals.rows[j] in c.meals.rows;
      var k :| 0 <= k < |c.meals.rows| && c.meals.rows[k] == t.meals.rows[j];
    }
  }

  /** The foods of the generated meals go under the keys those meals take. */
  lemma {:induction false} AllFoodRowsMeals(base: int, meals: seq<Meal>)
    ensures forall k :: 0 <= k < |AllFoodRows(base, meals)| ==> base <= AllFoodRows(base, meals)[k].mealId < base + |meals|
  {
    if |meals| > 0 {
      AllFoodRowsMeals(base, meals[..|meals| - 1]);
    }
  }

  /** Storing a generated plan links its meals to it ... */
  lemma StoreKeepsMealsLinked(t: MealTables, uid: int, day: int, plan: MealPlan)
    requires MealsLinked(t.plans, t.meals)
    ensures var after := StorePlan(t, uid, day, plan); MealsLinked(after.plans, after.meals)
  {
    var planId := t.plans.nextId;
    var added := MealTables(t.plans.Add(PlanRowOf(uid, day, plan)), t.meals, t.foods);
    var after := StorePlan(t, uid, day, plan);
    StoreMealsPlans(added, planId, plan.meals);
    StoreMealsMealRows(added, planId, plan.meals);
    forall i | 0 <= i < |after.meals.rows| ensures HasKey(after.plans.rows, after.meals.rows[i].value.mealPlanId) {
      if i < |t.meals.rows| {
        var j :| 0 <= j < |t.plans.rows| && t.plans.rows[j].id == t.meals.rows[i].value.mealPlanId;
        assert after.plans.rows[j] == t.plans.rows[j];
      } else {
        assert after.plans.rows[|t.plans.rows|].id == planId;
      }
    }
  }

  /** ... and their foods to them. */
  lemma StoreKeepsFoodsLinked(t: MealTables, uid: int, day: int, plan: MealPlan)
    requires FoodsLinked(t.meals, t.foods)
    ensures var after := StorePlan(t, uid, day, plan); FoodsLinked(after.meals, after.foods)
  {
    var planId := t.plans.nextId;
    var added := MealTables(t.plans.Add(PlanRowOf(uid, day, plan)), t.meals, t.foods);
    StoreMealsMealRows(added, planId, plan.meals);
    StoreMealsFoodRows(added, planId, plan.meals);
    AllFoodRowsMeals(t.meals.nextId, plan.meals);
    AddAllKeepsFoodsLinked(t.meals, t.foods, MealRows(planId, plan.meals), AllFoodRows(t.meals.nextId, plan.meals));
  }

  /** Foods inserted under the keys of meals inserted alongside keep every food linked to its meal. */
  lemma AddAllKeepsFoodsLinked(meals: Table<MealRow>, foods: Table<FoodItemRow>, ms: seq<MealRow>, fs: seq<FoodItemRow>)
    requires FoodsLinked(meals, foods)
    requires forall k :: 0 <= k < |fs| ==> meals.nextId <= fs[k].mealId < meals.nextId + |ms|
    ensures FoodsLinked(meals.AddAll(ms), foods.AddAll(fs))
  {
    var m2 := meals.AddAll(ms);
    var f2 := foods.AddAll(fs);
    forall i | 0 <= i < |f2.rows| ensures HasKey(m2.rows, f2.rows[i].value.mealId) {
      if i < |foods.rows| {
        var j :| 0 <= j < |meals.rows| && meals.rows[j].id == foods.rows[i].value.mealId;
        assert m2.rows[j] == meals.rows[j];
      } else {
        var n := fs[i - |foods.rows|].mealId - meals.nextId;
        assert m2.rows[|meals.rows| + n].id == f2.rows[i].value.mealId;
      }
    }
  }

  /** The tables a generation stores into are linked when the old ones are. */
  lemma ClearedForLinked(t: MealTables, uid: int, day: int)
    requires Keyed(t.plans) && Linked(t)
    ensures var b := ClearedFor(t, uid, day); Linked(b) && Keyed(b.plans) && b.plans.nextId == NewMealPlanKey(t.plans, uid, day)
  {
    match MealPlanOfDay(t.plans, uid, day) {
      case None =>
      case Some(existing) =>
        RemoveEffect(t.plans, existing.id);
        ClearKeepsMealsLinked(t, existing.id);
        ClearKeepsFoodsLinked(t, existing.id);
    }
  }

  /** A generation leaves no meal without its plan and no food without its meal. */
  lemma GenerateKeepsLinked(t: MealTables, profiles: Table<ProfileRow>, current: Row<UserRow>, day: int,
                            gen: ProfileRow -> MealPlan)
    requires Keyed(t.plans) && Linked(t)
    ensures var r := GenerateMeals(t, profiles, current, day, gen); r.Ok? ==> Linked(r.value.tables)
  {
    if GenerateMeals(t, profiles, current, day, gen).Ok? {
      var plan := gen(ProfileOf(profiles, current.id).value.value);
      ClearedForLinked(t, current.id, day);
      StoreKeepsMealsLinked(ClearedFor(t, current.id, day), current.id, day, plan);
      StoreKeepsFoodsLinked(ClearedFor(t, current.id, day), current.id, day, plan);
    }
  }

  /** The meals of a newly stored plan are the plan's meals, in order. */
  lemma StoredMeals(base: MealTables, uid: int, day: int, plan: MealPlan)
    requires Keyed(base.plans) && MealsLinked(base.plans, base.meals)
    ensures var meals := StorePlan(base, uid, day, plan).meals.Where(InPlan(base.plans.nextId));
      |meals| == |plan.meals| && forall k :: 0 <= k < |meals| ==> meals[k].value == MealRowOf(base.plans.nextId, plan.meals[k])
  {
    var planId := base.plans.nextId;
    var added := MealTables(base.plans.Add(PlanRowOf(uid, day, plan)), base.meals, base.foods);
    StoreMealsMealRows(added, planId, plan.meals);
    forall i | 0 <= i < |base.meals.rows| ensures !InPlan(planId)(base.meals.rows[i]) {
      var j :| 0 <= j < |base.plans.rows| && base.plans.rows[j].id == base.meals.rows[i].value.mealPlanId;
    }
    AddAllNewPlan(base.meals, MealRows(planId, plan.meals), planId);
  }

  /** Meal rows inserted under a plan no stored meal refers to are exactly that plan's meals. */
  lemma AddAllNewPlan(meals: Table<MealRow>, rows: seq<MealRow>, planId: int)
    requires forall i :: 0 <= i < |meals.rows| ==> !InPlan(planId)(meals.rows[i])
    requires forall k :: 0 <= k < |rows| ==> rows[k].mealPlanId == planId
    ensures var found := meals.AddAll(rows).Where(InPlan(planId));
      |found| == |rows| && forall k :: 0 <= k < |found| ==> found[k].value == rows[k]
  {
    var after := meals.AddAll(rows);
    var added := after.rows[|meals.rows|..];
    assert |added| == |rows|;
    forall k | 0 <= k < |added|
      ensures added[k].value == rows[k] && InPlan(planId)(added[k])
    {
      assert added[k] == after.rows[|meals.rows| + k];
    }
    FilterNone(meals.rows, InPlan(planId));
    AddAllWhere(meals, rows, InPlan(planId));
    FilterAll(added, InPlan(planId));
  }

  /** The new plan's meals are the generated meals, in order. */
  lemma GeneratedMeals(t: MealTables, profiles: Table<ProfileRow>, current: Row<UserRow>, day: int,
                       gen: ProfileRow -> MealPlan)
    requires Keyed(t.plans) && Linked(t)
    ensures var r := GenerateMeals(t, profiles, current, day, gen);
      r.Ok? ==>
        var plan := gen(ProfileOf(profiles, current.id).value.value);
        var meals := r.value.tables.meals.Where(InPlan(r.value.reply.mealPlanId));
        |meals| == |plan.meals| && forall k :: 0 <= k < |meals| ==> meals[k].value == MealRowOf(r.value.reply.mealPlanId, plan.meals[k])
  {
    if GenerateMeals(t, profiles, current, day, gen).Ok? {
      ClearedForLinked(t, current.id, day);
      StoredMeals(ClearedFor(t, current.id, day), current.id, day, gen(ProfileOf(profiles, current.id).value.value));
    }
  }

  // ----- running totals -----

  /** The four amounts a plan, a meal and a food each carry. */
  datatype Macro = Calories | Protein | Carbs | Fat

  function PlanAmount(p: MealPlanRow, k: Macro): real
  {
    match k
    case Calories => p.totalCalories
    case Protein => p.totalProtein
    case Carbs => p.totalCarbs
    case Fat => p.totalFat
  }

  function MealAmount(m: MealRow, k: Macro): real
  {
    match k
    case Calories => m.calories
    case Protein => m.protein
    case Carbs => m.carbs
    case Fat => m.fat
  }

  function FoodAmount(f: FoodItemRow, k: Macro): real
  {
    match k
    case Calories => f.calories
    case Protein => f.protein
    case Carbs => f.carbs
    case Fat => f.fat
  }

  /** The sum of `k` over the meal rows of plan `planId`. */
  function MealsTotal(rows: seq<Row<MealRow>>, planId: int, k: Macro): real
  {
    if |rows| == 0 then 0.0
    else
      var last := rows[|rows| - 1];
      MealsTotal(rows[..|rows| - 1], planId, k) + if last.value.mealPlanId == planId then MealAmount(last.value, k) else 0.0
  }

  /** The sum of `k` over the food rows of meal `mealId`. */
  function FoodsTotal(rows: seq<Row<FoodItemRow>>, mealId: int, k: Macro): real
  {
    if |rows| == 0 then 0.0
    else
      var last := rows[|rows| - 1];
      FoodsTotal(rows[..|rows| - 1], mealId, k) + if last.value.mealId == mealId then FoodAmount(last.value, k) else 0.0
  }

  /** How far a plan's stored total of `k` is from the sum over its meals. */
  function PlanDrift(meals: seq<Row<MealRow>>, plan: Row<MealPlanRow>, k: Macro): real
  {
    PlanAmount(plan.value, k) - MealsTotal(meals, plan.id, k)
  }

  /** How far a meal's stored amount of `k` is from the sum over its foods. */
  function MealDrift(foods: seq<Row<FoodItemRow>>, meal: Row<MealRow>, k: Macro): real
  {
    MealAmount(meal.value, k) - FoodsTotal(foods, meal.id, k)
  }

  /** A plan without meals sums to zero. */
  lemma {:induction false} MealsTotalNone(rows: seq<Row<MealRow>>, planId: int, k: Macro)
    requires forall i :: 0 <= i < |rows| ==> rows[i].value.mealPlanId != planId
    ensures MealsTotal(rows, planId, k) == 0.0
  {
    if |rows| > 0 {
      MealsTotalNone(rows[..|rows| - 1], planId, k);
    }
  }

  /** The sum over two runs of rows is the sum of the sums. */
  lemma {:induction false} MealsTotalAppend(a: seq<Row<MealRow>>, b: seq<Row<MealRow>>, planId: int, k: Macro)
    ensures MealsTotal(a + b, planId, k) == MealsTotal(a, planId, k) + MealsTotal(b, planId, k)
  {
    if |b| == 0 {
      assert a + b == a;
    } else {
      assert (a + b)[..|a + b| - 1] == a + b[..|b| - 1];
      MealsTotalAppend(a, b[..|b| - 1], planId, k);
    }
  }

  /** Rewriting one meal row moves the sum by the change in that row's share. */
  lemma {:induction false} MealsTotalUpdate(rows: seq<Row<MealRow>>, i: int, r: Row<MealRow>, planId: int, k: Macro)
    requires 0 <= i < |rows|
    ensures MealsTotal(rows[i := r], planId, k)
         == MealsTotal(rows, planId, k)
            - (if rows[i].value.mealPlanId == planId then MealAmount(rows[i].value, k) else 0.0)
            + (if r.value.mealPlanId == planId then MealAmount(r.value, k) else 0.0)
  {
    var n := |rows| - 1;
    if i < n {
      assert rows[i := r][..n] == rows[..n][i := r];
      MealsTotalUpdate(rows[..n], i, r, planId, k);
    } else {
      assert rows[i := r][..n] == rows[..n];
    }
  }

  /** Rewriting one food row moves the sum by the change in that row's share. */
  lemma {:induction false} FoodsTotalUpdate(rows: seq<Row<FoodItemRow>>, i: int, r: Row<FoodItemRow>, mealId: int, k: Macro)
    requires 0 <= i < |rows|
    ensures FoodsTotal(rows[i := r], mealId, k)
         == FoodsTotal(rows, mealId, k)
            - (if rows[i].value.mealId == mealId then FoodAmount(rows[i].value, k) else 0.0)
            + (if r.value.mealId == mealId then FoodAmount(r.value, k) else 0.0)
  {
    var n := |rows| - 1;
    if i < n {
      assert rows[i := r][..n] == rows[..n][i := r];
      FoodsTotalUpdate(rows[..n], i, r, mealId, k);
    } else {
      assert rows[i := r][..n] == rows[..n];
    }
  }

  /** The sum of `k` over generated meals. */
  function MealSum(meals: seq<Meal>, k: Macro): real
  {
    if |meals| == 0 then 0.0
    else
      var last := meals[|meals| - 1];
      MealSum(meals[..|meals| - 1], k)
        + match k case Calories => last.calories case Protein => last.protein case Carbs => last.carbs case Fat => last.fat
  }

  /** Meal rows stored for the generated meals sum as the meals do. */
  lemma {:induction false} MealsTotalOfRows(rows: seq<Row<MealRow>>, meals: seq<Meal>, planId: int, k: Macro)
    requires |rows| == |meals| && forall i :: 0 <= i < |rows| ==> rows[i].value == MealRowOf(planId, meals[i])
    ensures MealsTotal(rows, planId, k) == MealSum(meals, k)
  {
    if |rows| > 0 {
      MealsTotalOfRows(rows[..|rows| - 1], meals[..|meals| - 1], planId, k);
    }
  }

  /** A generated plan whose meals' calories add up to its calorie total. */
  predicate CaloriesAddUp(plan: MealPlan)
  {
    MealSum(plan.meals, Calories) == plan.totalCalories
  }

  /** The service's generator splits the daily calories over the day's meals without remainder. */
  lemma MealGeneratorCaloriesAddUp(hash: string -> int, p: ProfileRow)
    ensures CaloriesAddUp(MealGenerator(hash)(p))
  {
    FoodDatabaseStocked();
    var plan := MealPlanFor(p.tdee, p.proteinGram, p.carbGram, p.fatGram, p.goal, hash, FoodDatabase);
    MealPlanShape(p.tdee, p.proteinGram, p.carbGram, p.fatGram, p.goal, hash, FoodDatabase);
    MealPlanCalories(p.tdee, p.proteinGram, p.carbGram, p.fatGram, p.goal, hash, FoodDatabase);
    FourMealsCalories(plan.meals);
  }

  lemma FourMealsCalories(ms: seq<Meal>)
    requires |ms| == 4
    ensures MealSum(ms, Calories) == ms[0].calories + ms[1].calories + ms[2].calories + ms[3].calories
  {
    assert ms[..1][..0] == [] && ms[..2][..1] == ms[..1] && ms[..3][..2] == ms[..2] && ms[..3] == ms[..|ms| - 1];
    assert MealSum(ms[..1], Calories) == ms[0].calories;
    assert MealSum(ms[..2], Calories) == ms[0].calories + ms[1].calories;
    assert MealSum(ms[..3], Calories) == ms[0].calories + ms[1].calories + ms[2].calories;
  }

  /** No linked meal belongs to the plan key the next insert hands out. */
  lemma NoMealsOfNextPlan(plans: Table<MealPlanRow>, meals: Table<MealRow>)
    requires Keyed(plans) && MealsLinked(plans, meals)
    ensures forall i :: 0 <= i < |meals.rows| ==> meals.rows[i].value.mealPlanId != plans.nextId
  {
    forall i | 0 <= i < |meals.rows| ensures meals.rows[i].value.mealPlanId != plans.nextId {
      var j :| 0 <= j < |plans.rows| && plans.rows[j].id == meals.rows[i].value.mealPlanId;
    }
  }

  /** The meal rows of a newly stored plan sum as the plan's meals do. */
  lemma StoredMealsTotal(base: MealTables, uid: int, day: int, plan: MealPlan, k: Macro)
    requires Keyed(base.plans) && MealsLinked(base.plans, base.meals)
    ensures MealsTotal(StorePlan(base, uid, day, plan).meals.rows, base.plans.nextId, k) == MealSum(plan.meals, k)
  {
    var planId := base.plans.nextId;
    var added := MealTables(base.plans.Add(PlanRowOf(uid, day, plan)), base.meals, base.foods);
    StoreMealsMealRows(added, planId, plan.meals);
    var after := base.meals.AddAll(MealRows(planId, plan.meals));
    var tail := after.rows[|base.meals.rows|..];
    assert after.rows == base.meals.rows + tail;
    NoMealsOfNextPlan(base.plans, base.meals);
    MealsTotalNone(base.meals.rows, planId, k);
    MealsTotalAppend(base.meals.rows, tail, planId, k);
    MealsTotalOfRows(tail, plan.meals, planId, k);
  }

  /**
   * The new plan's meals sum as the generated meals do; so when the generator's calories add up,
   * the stored calorie total is the sum over the stored meals.
   */
  lemma GeneratedTotals(t: MealTables, profiles: Table<ProfileRow>, current: Row<UserRow>, day: int,
                        gen: ProfileRow -> MealPlan)
    requires Keyed(t.plans) && Linked(t)
    ensures var r := GenerateMeals(t, profiles, current, day, gen);
      r.Ok? ==>
        var plan := gen(ProfileOf(profiles, current.id).value.value);
        var stored := Row(r.value.reply.mealPlanId, PlanRowOf(current.id, day, plan));
        (forall k :: MealsTotal(r.value.tables.meals.rows, stored.id, k) == MealSum(plan.meals, k))
        && (CaloriesAddUp(plan) ==> PlanDrift(r.value.tables.meals.rows, stored, Calories) == 0.0)
  {
    if GenerateMeals(t, profiles, current, day, gen).Ok? {
      var plan := gen(ProfileOf(profiles, current.id).value.value);
      ClearedForLinked(t, current.id, day);
      forall k ensures MealsTotal(StorePlan(ClearedFor(t, current.id, day), current.id, day, plan).meals.rows,
                                  ClearedFor(t, current.id, day).plans.nextId, k)
                       == MealSum(plan.meals, k) {
        StoredMealsTotal(ClearedFor(t, current.id, day), current.id, day, plan, k);
      }
    }
  }

  /** With the service's generator, a generated plan's calorie total is the sum over its stored meals. */
  lemma GeneratedCaloriesBalance(t: MealTables, profiles: Table<ProfileRow>, current: Row<UserRow>, day: int,
                                 hash: string -> int)
    requires Keyed(t.plans) && Linked(t)
    ensures var r := GenerateMeals(t, profiles, current, day, MealGenerator(hash));
      r.Ok? ==>
        var stored := MealPlanOfDay(r.value.tables.plans, current.id, day);
        UniqueDays(t.plans) ==> stored.Some? && PlanDrift(r.value.tables.meals.rows, stored.value, Calories) == 0.0
  {
    if GenerateMeals(t, profiles, current, day, MealGenerator(hash)).Ok? {
      MealGeneratorCaloriesAddUp(hash, ProfileOf(profiles, current.id).value.value);
      GeneratedTotals(t, profiles, current, day, MealGenerator(hash));
      if UniqueDays(t.plans) {
        GeneratedPlanFound(t, profiles, current, day, MealGenerator(hash));
      }
    }
  }

  // ----- add_meal_to_plan -----

  /** The meal row stored for a custom meal under plan key `planId`. */
  function NewMeal(planId: int, m: MealCreate): MealRow
  {
    MealRow(planId, m.name, m.calories, m.protein, m.carbs, m.fat, m.description)
  }

  /** A plan's totals each raised by an amount. */
  function RaiseTotals(p: MealPlanRow, calories: real, protein: real, carbs: real, fat: real): MealPlanRow
  {
    p.(totalCalories := p.totalCalories + calories, totalProtein := p.totalProtein + protein,
       totalCarbs := p.totalCarbs + carbs, totalFat := p.totalFat + fat)
  }

  /** A successful addition of a meal: the new tables and the stored meal. */
  datatype MealAdded = MealAdded(tables: MealTables, meal: Row<MealRow>)

  /**
   * `add_meal_to_plan`: the meal is stored under the user's plan for the day, and the plan's totals
   * are raised by the meal's amounts.
   */
  function AddMeal(t: MealTables, uid: int, day: int, m: MealCreate): (r: Result<MealAdded, HttpError>)
    ensures !ValidDay(day) ==> r == Err(DayRangeError)
    ensures ValidDay(day) ==> (r.Err? <==> MealPlanOfDay(t.plans, uid, day).None?)
    ensures ValidDay(day) && r.Err? ==> r.error == NoMealPlanError(day)
    ensures r.Ok? ==> r.value.meal == Row(t.meals.nextId, NewMeal(MealPlanOfDay(t.plans, uid, day).value.id, m))
                      && r.value.tables.meals == t.meals.Add(r.value.meal.value) && r.value.tables.foods == t.foods
  {
    if day < 1 || day > 7 then Err(DayRangeError)
    else
      match MealPlanOfDay(t.plans, uid, day)
      case None => Err(NoMealPlanError(day))
      case Some(plan) =>
        var row := NewMeal(plan.id, m);
        Ok(MealAdded(MealTables(t.plans.Put(plan.id, RaiseTotals(plan.value, m.calories, m.protein, m.carbs, m.fat)),
                                t.meals.Add(row), t.foods),
                     Row(t.meals.nextId, row)))
  }

  /** The added meal joins the day's plan, after its earlier meals; no other plan's meals change. */
  lemma AddedMealInPlan(t: MealTables, uid: int, day: int, m: MealCreate)
    ensures var r := AddMeal(t, uid, day, m);
      r.Ok? ==>
        var planId := MealPlanOfDay(t.plans, uid, day).value.id;
        r.value.tables.meals.Where(InPlan(planId)) == t.meals.Where(InPlan(planId)) + [r.value.meal]
        && forall p :: p != planId ==> r.value.tables.meals.Where(InPlan(p)) == t.meals.Where(InPlan(p))
  {
    if AddMeal(t, uid, day, m).Ok? {
      var row := Row(t.meals.nextId, NewMeal(MealPlanOfDay(t.plans, uid, day).value.id, m));
      FilterAppend(t.meals.rows, [row], InPlan(row.value.mealPlanId));
      forall p | p != row.value.mealPlanId
        ensures t.meals.Add(row.value).Where(InPlan(p)) == t.meals.Where(InPlan(p))
      {
        FilterAppend(t.meals.rows, [row], InPlan(p));
      }
    }
  }

  /**
   * Adding a meal keeps every plan's drift between its stored totals and the sum over its meals:
   * a plan whose totals were the sum of its meals stays so.
   */
  lemma AddMealKeepsDrift(t: MealTables, uid: int, day: int, m: MealCreate)
    requires Keyed(t.plans)
    ensures var r := AddMeal(t, uid, day, m);
      r.Ok? ==>
        var after := r.value.tables;
        |after.plans.rows| == |t.plans.rows|
        && forall i, k :: 0 <= i < |t.plans.rows| ==>
             after.plans.rows[i].id == t.plans.rows[i].id
             && PlanDrift(after.meals.rows, after.plans.rows[i], k) == PlanDrift(t.meals.rows, t.plans.rows[i], k)
  {
    if AddMeal(t, uid, day, m).Ok? {
      var plan := MealPlanOfDay(t.plans, uid, day).value;
      var j :| 0 <= j < |t.plans.rows| && t.plans.rows[j] == plan;
      var raised := RaiseTotals(plan.value, m.calories, m.protein, m.carbs, m.fat);
      PutAt(t.plans, j, raised);
      var row := Row(t.meals.nextId, NewMeal(plan.id, m));
      assert (t.meals.rows + [row])[..|t.meals.rows|] == t.meals.rows;
    }
  }

  /** `add_meal_to_plan` for the premium user `current`: a refusal changes nothing. */
  method AddMealToPlan(db: Database, current: Row<UserRow>, day: int, m: MealCreate)
    returns (r: Result<Row<MealRow>, HttpError>)
    requires current.value.role == "premium" && db.Valid()
    modifies db
    ensures db.Valid()
    ensures var out := AddMeal(MealTables(old(db.mealPlans), old(db.meals), old(db.foodItems)), current.id, day, m);
      (out.Err? ==> r == Err(out.error) && db.mealPlans == old(db.mealPlans) && db.meals == old(db.meals)
                    && db.foodItems == old(db.foodItems))
      && (out.Ok? ==> r == Ok(out.value.meal) && MealTables(db.mealPlans, db.meals, db.foodItems) == out.value.tables)
    ensures db.users == old(db.users) && db.profiles == old(db.profiles)
    ensures db.workoutPlans == old(db.workoutPlans) && db.exercises == old(db.exercises)
    ensures db.subscriptions == old(db.subscriptions)
  {
    if day < 1 || day > 7 {
      return Err(DayRangeError);
    }
    var plan := MealPlanOfDay(db.mealPlans, current.id, day);
    if plan.None? {
      return Err(NoMealPlanError(day));
    }
    var row := MealRow(plan.value.id, m.name, m.calories, m.protein, m.carbs, m.fat, m.description);
    var mealId := db.meals.nextId;
    var meals := db.meals.Add(row);
    AddKeyed(db.meals, row);
    var totals := RaiseTotals(plan.value.value, m.calories, m.protein, m.carbs, m.fat);
    var plans := db.mealPlans.Put(plan.value.id, totals);
    PutKeyed(db.mealPlans, plan.value.id, totals);
    db.CommitMealTables(plans, meals, db.foodItems);
    r := Ok(Row(mealId, row));
  }

  // ----- add_food_to_meal -----

  const MealAccessError: HttpError := HttpError(404, "Meal not found or you don't have access to it")

  /** The join of a meal with its plan: the plan exists and belongs to `uid`. */
  predicate InOwnedMealPlan(plans: Table<MealPlanRow>, m: Row<MealRow>, uid: int)
  {
    exists i :: 0 <= i < |plans.rows| && plans.rows[i].id == m.value.mealPlanId && plans.rows[i].value.userId == uid
  }

  /** The meal with key `mealId` if its plan belongs to `uid`. */
  function OwnedMeal(meals: Table<MealRow>, plans: Table<MealPlanRow>, mealId: int, uid: int): (r: Option<Row<MealRow>>)
    ensures r.Some? ==> r.value in meals.rows && r.value.id == mealId && InOwnedMealPlan(plans, r.value, uid)
    ensures r.None? <==> forall i :: 0 <= i < |meals.rows| ==>
      meals.rows[i].id != mealId || !InOwnedMealPlan(plans, meals.rows[i], uid)
  {
    meals.First((m: Row<MealRow>) => m.id == mealId && InOwnedMealPlan(plans, m, uid))
  }

  /** The food row stored for a custom food under meal key `mealId`. */
  function NewFood(mealId: int, f: FoodItemCreate): FoodItemRow
  {
    FoodItemRow(mealId, f.name, f.quantity, f.unit, f.calories, f.protein, f.carbs, f.fat)
  }

  /** A meal's amounts each raised by a food's. */
  function RaiseMeal(m: MealRow, f: FoodItemCreate): MealRow
  {
    m.(calories := m.calories + f.calories, protein := m.protein + f.protein, carbs := m.carbs + f.carbs, fat := m.fat + f.fat)
  }

  /** The reply of `add_food_to_meal`: a message and the new food's key. */
  datatype FoodReply = FoodReply(message: string, foodItemId: int)

  /** A successful addition of a food: the new tables and the reply. */
  datatype FoodAdded = FoodAdded(tables: MealTables, reply: FoodReply)

  /**
   * `add_food_to_meal`: the food is stored under a meal of one of the user's plans, and both the
   * meal's amounts and its plan's totals are raised by the food's.
   */
  function AddFood(t: MealTables, uid: int, mealId: int, f: FoodItemCreate): (r: Result<FoodAdded, HttpError>)
    ensures r.Err? <==> OwnedMeal(t.meals, t.plans, mealId, uid).None?
    ensures r.Err? ==> r.error == MealAccessError
    ensures r.Ok? ==> r.value.reply == FoodReply("Food item added successfully", t.foods.nextId)
                      && r.value.tables.foods == t.foods.Add(NewFood(mealId, f))
  {
    match OwnedMeal(t.meals, t.plans, mealId, uid)
    case None => Err(MealAccessError)
    case Some(meal) =>
      var plan := t.plans.Get(meal.value.mealPlanId).value;
      Ok(FoodAdded(MealTables(t.plans.Put(plan.id, RaiseTotals(plan.value, f.calories, f.protein, f.carbs, f.fat)),
                              t.meals.Put(meal.id, RaiseMeal(meal.value, f)),
                              t.foods.Add(NewFood(meal.id, f))),
                   FoodReply("Food item added successfully", t.foods.nextId)))
  }

  /** The plan a meal found by `OwnedMeal` belongs to, which the join guarantees exists. */
  lemma OwnedMealPlan(t: MealTables, uid: int, mealId: int)
    requires OwnedMeal(t.meals, t.plans, mealId, uid).Some?
    ensures t.plans.Get(OwnedMeal(t.meals, t.plans, mealId, uid).value.value.mealPlanId).Some?
  {
  }

  /** Adding a food keeps every plan's drift from the sum over its meals. */
  lemma AddFoodKeepsPlanDrift(t: MealTables, uid: int, mealId: int, f: FoodItemCreate)
    requires Keyed(t.plans) && Keyed(t.meals)
    ensures var r := AddFood(t, uid, mealId, f);
      r.Ok? ==>
        var after := r.value.tables;
        |after.plans.rows| == |t.plans.rows|
        && forall i, k :: 0 <= i < |t.plans.rows| ==>
              after.plans.rows[i].id == t.plans.rows[i].id
              && PlanDrift(after.meals.rows, after.plans.rows[i], k) == PlanDrift(t.meals.rows, t.plans.rows[i], k)
  {
    if AddFood(t, uid, mealId, f).Ok? {
      var meal := OwnedMeal(t.meals, t.plans, mealId, uid).value;
      var plan := t.plans.Get(meal.value.mealPlanId).value;
      var j :| 0 <= j < |t.plans.rows| && t.plans.rows[j] == plan;
      var q :| 0 <= q < |t.meals.rows| && t.meals.rows[q] == meal;
      PutAt(t.meals, q, RaiseMeal(meal.value, f));
      forall i, k | 0 <= i < |t.plans.rows|
        ensures PlanDrift(t.meals.Put(meal.id, RaiseMeal(meal.value, f)).rows,
                          t.plans.Put(plan.id, RaiseTotals(plan.value, f.calories, f.protein, f.carbs, f.fat)).rows[i], k)
             == PlanDrift(t.meals.rows, t.plans.rows[i], k)
      {
        assert t.plans.rows[i].id == plan.id ==> i == j;
        RaiseKeepsPlanDrift(t.meals.rows, q, f, t.plans.rows[i], k);
      }
    }
  }

  /** Raising a meal and its plan by the same food leaves every plan's drift where it was. */
  lemma RaiseKeepsPlanDrift(meals: seq<Row<MealRow>>, q: int, f: FoodItemCreate, plan: Row<MealPlanRow>, k: Macro)
    requires 0 <= q < |meals|
    ensures var raisedPlan := if plan.id == meals[q].value.mealPlanId
                              then Row(plan.id, RaiseTotals(plan.value, f.calories, f.protein, f.carbs, f.fat))
                              else plan;
      PlanDrift(meals[q := Row(meals[q].id, RaiseMeal(meals[q].value, f))], raisedPlan, k) == PlanDrift(meals, plan, k)
  {
    MealsTotalUpdate(meals, q, Row(meals[q].id, RaiseMeal(meals[q].value, f)), plan.id, k);
  }

  /** Adding a food keeps every meal's drift from the sum over its foods. */
  lemma AddFoodKeepsMealDrift(t: MealTables, uid: int, mealId: int, f: FoodItemCreate)
    requires Keyed(t.meals)
    ensures var r := AddFood(t, uid, mealId, f);
      r.Ok? ==>
        var after := r.value.tables;
        |after.meals.rows| == |t.meals.rows|
        && forall i, k :: 0 <= i < |t.meals.rows| ==>
              after.meals.rows[i].id == t.meals.rows[i].id
              && MealDrift(after.foods.rows, after.meals.rows[i], k) == MealDrift(t.foods.rows, t.meals.rows[i], k)
  {
    if AddFood(t, uid, mealId, f).Ok? {
      var meal := OwnedMeal(t.meals, t.plans, mealId, uid).value;
      var q :| 0 <= q < |t.meals.rows| && t.meals.rows[q] == meal;
      PutAt(t.meals, q, RaiseMeal(meal.value, f));
      var food := Row(t.foods.nextId, NewFood(meal.id, f));
      forall i, k | 0 <= i < |t.meals.rows|
        ensures MealDrift(t.foods.rows + [food], t.meals.rows[q := Row(meal.id, RaiseMeal(meal.value, f))][i], k)
             == MealDrift(t.foods.rows, t.meals.rows[i], k)
      {
        assert t.meals.rows[i].id == meal.id ==> i == q;
        RaiseKeepsMealDrift(t.foods.rows, food, t.meals.rows[i], f, k);
      }
    }
  }

  /** Appending a food and raising its meal by it leaves every meal's drift where it was. */
  lemma RaiseKeepsMealDrift(foods: seq<Row<FoodItemRow>>, food: Row<FoodItemRow>, meal: Row<MealRow>,
                            f: FoodItemCreate, k: Macro)
    requires food.value == NewFood(food.value.mealId, f)
    ensures var raised := if meal.id == food.value.mealId then Row(meal.id, RaiseMeal(meal.value, f)) else meal;
      MealDrift(foods + [food], raised, k) == MealDrift(foods, meal, k)
  {
    assert (foods + [food])[..|foods|] == foods;
  }

  /** `add_food_to_meal` for the premium user `current`: a refusal changes nothing. */
  method AddFoodToMeal(db: Database, current: Row<UserRow>, mealId: int, f: FoodItemCreate)
    returns (r: Result<FoodReply, HttpError>)
    requires current.value.role == "premium" && db.Valid()
    modifies db
    ensures db.Valid()
    ensures var out := AddFood(MealTables(old(db.mealPlans), old(db.meals), old(db.foodItems)), current.id, mealId, f);
      (out.Err? ==> r == Err(out.error) && db.mealPlans == old(db.mealPlans) && db.meals == old(db.meals)
                    && db.foodItems == old(db.foodItems))
      && (out.Ok? ==> r == Ok(out.value.reply) && MealTables(db.mealPlans, db.meals, db.foodItems) == out.value.tables)
    ensures db.users == old(db.users) && db.profiles == old(db.profiles)
    ensures db.workoutPlans == old(db.workoutPlans) && db.exercises == old(db.exercises)
    ensures db.subscriptions == old(db.subscriptions)
  {
    var meal := OwnedMeal(db.meals, db.mealPlans, mealId, current.id);
    if meal.None? {
      return Err(MealAccessError);
    }
    var food := FoodItemRow(meal.value.id, f.name, f.quantity, f.unit, f.calories, f.protein, f.carbs, f.fat);
    var foodId := db.foodItems.nextId;
    var foods := db.foodItems.Add(food);
    AddKeyed(db.foodItems, food);
    var raised := RaiseMeal(meal.value.value, f);
    var meals := db.meals.Put(meal.value.id, raised);
    PutKeyed(db.meals, meal.value.id, raised);
    OwnedMealPlan(MealTables(db.mealPlans, db.meals, db.foodItems), current.id, mealId);
    var plan := db.mealPlans.Get(meal.value.value.mealPlanId);
    var totals := RaiseTotals(plan.value.value, f.calories, f.protein, f.carbs, f.fat);
    var plans := db.mealPlans.Put(plan.value.id, totals);
    PutKeyed(db.mealPlans, plan.value.id, totals);
    db.CommitMealTables(plans, meals, foods);
    r := Ok(FoodReply("Food item added successfully", foodId));
  }

  // ----- what every write keeps -----

  /** What the meal endpoints keep of their three tables: keys, one plan per user and day, no orphans. */
  predicate Consistent(t: MealTables)
  {
    Keyed(t.plans) && Keyed(t.meals) && Keyed(t.foods) && UniqueDays(t.plans) && Linked(t)
  }

  /** A generation keeps the tables consistent. */
  lemma GenerateKeepsConsistent(t: MealTables, profiles: Table<ProfileRow>, current: Row<UserRow>, day: int,
                                gen: ProfileRow -> MealPlan)
    requires Consistent(t)
    ensures var r := GenerateMeals(t, profiles, current, day, gen); r.Ok? ==> Consistent(r.value.tables)
  {
    GeneratedKeyed(t, profiles, current, day, gen);
    GeneratedPlanFound(t, profiles, current, day, gen);
    GenerateKeepsLinked(t, profiles, current, day, gen);
  }

  /** Rewriting a plan's totals, leaving its user and day, keeps one plan per user and day. */
  lemma PutKeepsUniqueDays(plans: Table<MealPlanRow>, j: int, v: MealPlanRow)
    requires Keyed(plans) && UniqueDays(plans) && 0 <= j < |plans.rows|
    requires v.userId == plans.rows[j].value.userId && v.day == plans.rows[j].value.day
    ensures UniqueDays(plans.Put(plans.rows[j].id, v))
  {
    var after := plans.Put(plans.rows[j].id, v);
    PutAt(plans, j, v);
    forall a, b | a in after.rows && b in after.rows && a.value.userId == b.value.userId && a.value.day == b.value.day
      ensures a == b
    {
      var ia :| 0 <= ia < |after.rows| && after.rows[ia] == a;
      var ib :| 0 <= ib < |after.rows| && after.rows[ib] == b;
      assert plans.rows[ia] in plans.rows && plans.rows[ib] in plans.rows;
      assert plans.rows[ia] == plans.rows[ib];
    }
  }

  /** Rewriting rows of the plans keeps every meal's plan. */
  lemma PutKeepsMealsLinked(t: MealTables, id: int, v: MealPlanRow)
    requires MealsLinked(t.plans, t.meals)
    ensures MealsLinked(t.plans.Put(id, v), t.meals)
  {
    forall i | 0 <= i < |t.meals.rows| ensures HasKey(t.plans.Put(id, v).rows, t.meals.rows[i].value.mealPlanId) {
      PutKeepsKey(t.plans, id, v, t.meals.rows[i].value.mealPlanId);
    }
  }

  /** Rewriting rows of the meals keeps every food's meal. */
  lemma PutKeepsFoodsLinked(t: MealTables, id: int, v: MealRow)
    requires FoodsLinked(t.meals, t.foods)
    ensures FoodsLinked(t.meals.Put(id, v), t.foods)
  {
    forall i | 0 <= i < |t.foods.rows| ensures HasKey(t.meals.Put(id, v).rows, t.foods.rows[i].value.mealId) {
      PutKeepsKey(t.meals, id, v, t.foods.rows[i].value.mealId);
    }
  }

  /** Adding a meal keeps the tables consistent. */
  lemma AddMealKeepsConsistent(t: MealTables, uid: int, day: int, m: MealCreate)
    requires Consistent(t)
    ensures var r := AddMeal(t, uid, day, m); r.Ok? ==> Consistent(r.value.tables)
  {
    if AddMeal(t, uid, day, m).Ok? {
      var plan := MealPlanOfDay(t.plans, uid, day).value;
      var j :| 0 <= j < |t.plans.rows| && t.plans.rows[j] == plan;
      var raised := RaiseTotals(plan.value, m.calories, m.protein, m.carbs, m.fat);
      var plans := t.plans.Put(plan.id, raised);
      PutKeepsUniqueDays(t.plans, j, raised);
      PutKeyed(t.plans, plan.id, raised);
      PutKeepsMealsLinked(t, plan.id, raised);
      PutKeepsKey(t.plans, plan.id, raised, plan.id);
      var row := NewMeal(plan.id, m);
      AddKeyed(t.meals, row);
      AddKeepsLinks(MealTables(plans, t.meals, t.foods), row);
    }
  }

  /** A meal added under a stored plan keeps every meal's plan and every food's meal. */
  lemma AddKeepsLinks(t: MealTables, row: MealRow)
    requires Linked(t) && HasKey(t.plans.rows, row.mealPlanId)
    ensures Linked(MealTables(t.plans, t.meals.Add(row), t.foods))
  {
    forall i | 0 <= i < |t.foods.rows| ensures HasKey(t.meals.Add(row).rows, t.foods.rows[i].value.mealId) {
      AddKeepsKey(t.meals, row, t.foods.rows[i].value.mealId);
    }
  }

  /** Adding a food keeps the tables consistent. */
  lemma AddFoodKeepsConsistent(t: MealTables, uid: int, mealId: int, f: FoodItemCreate)
    requires Consistent(t)
    ensures var r := AddFood(t, uid, mealId, f); r.Ok? ==> Consistent(r.value.tables)
  {
    if AddFood(t, uid, mealId, f).Ok? {
      var meal := OwnedMeal(t.meals, t.plans, mealId, uid).value;
      var plan := t.plans.Get(meal.value.mealPlanId).value;
      var j :| 0 <= j < |t.plans.rows| && t.plans.rows[j] == plan;
      var q :| 0 <= q < |t.meals.rows| && t.meals.rows[q] == meal;
      FoodWriteKeepsConsistent(t, j, q, f);
    }
  }

  /** The three writes of `add_food_to_meal`, on a meal and its plan, keep the tables consistent. */
  lemma FoodWriteKeepsConsistent(t: MealTables, j: int, q: int, f: FoodItemCreate)
    requires Consistent(t) && 0 <= j < |t.plans.rows| && 0 <= q < |t.meals.rows|
    requires t.plans.rows[j].id == t.meals.rows[q].value.mealPlanId
    ensures var plan := t.plans.rows[j];
      var meal := t.meals.rows[q];
      Consistent(MealTables(t.plans.Put(plan.id, RaiseTotals(plan.value, f.calories, f.protein, f.carbs, f.fat)),
                            t.meals.Put(meal.id, RaiseMeal(meal.value, f)), t.foods.Add(NewFood(meal.id, f))))
  {
    var plan := t.plans.rows[j];
    var meal := t.meals.rows[q];
    var raised := RaiseTotals(plan.value, f.calories, f.protein, f.carbs, f.fat);
    var raisedMeal := RaiseMeal(meal.value, f);
    PutKeepsUniqueDays(t.plans, j, raised);
    PutKeyed(t.plans, plan.id, raised);
    PutKeyed(t.meals, meal.id, raisedMeal);
    AddKeyed(t.foods, NewFood(meal.id, f));
    PutKeepsMealsLinked(t, plan.id, raised);
    var t1 := MealTables(t.plans.Put(plan.id, raised), t.meals, t.foods);
    MealPutKeepsMealsLinked(t1, q, raisedMeal);
    PutKeepsFoodsLinked(t1, meal.id, raisedMeal);
    PutKeepsKey(t.meals, meal.id, raisedMeal, meal.id);
    FoodAddKeepsLinks(MealTables(t1.plans, t.meals.Put(meal.id, raisedMeal), t.foods), NewFood(meal.id, f));
  }

  /** Rewriting a meal without moving it to another plan keeps every meal's plan. */
  lemma MealPutKeepsMealsLinked(t: MealTables, q: int, v: MealRow)
    requires MealsLinked(t.plans, t.meals) && Keyed(t.meals) && 0 <= q < |t.meals.rows|
    requires v.mealPlanId == t.meals.rows[q].value.mealPlanId
    ensures MealsLinked(t.plans, t.meals.Put(t.meals.rows[q].id, v))
  {
    PutAt(t.meals, q, v);
  }

  /** A food added under a stored meal keeps every food's meal. */
  lemma FoodAddKeepsLinks(t: MealTables, row: FoodItemRow)
    requires FoodsLinked(t.meals, t.foods) && HasKey(t.meals.rows, row.mealId)
    ensures FoodsLinked(t.meals, t.foods.Add(row))
  {
  }
}
