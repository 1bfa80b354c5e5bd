/**
 * The nutrition calculations of the backend: age from a date of birth, the Mifflin-St Jeor
 * basal metabolic rate, total daily energy expenditure, and the goal-driven macronutrient split.
 * Numbers are exact reals; the `round(..)` applied to the returned values is not modelled.
 */
module NutritionService {
  import opened Wrappers
  import opened Schemas

  /** Whole years from `birth` to `today`: the year difference, less one before this year's birthday. */
  function CalculateAge(birth: Date, today: Date): int
  {
    var years := today.year - birth.year;
    if today.month < birth.month || (today.month == birth.month && today.day < birth.day) then years - 1 else years
  }

  /** The age is the number of birthday anniversaries (same month and day) reached by `today`. */
  lemma AgeCountsAnniversaries(birth: Date, today: Date)
    ensures DateLeq(Date(birth.year + CalculateAge(birth, today), birth.month, birth.day), today)
    ensures !DateLeq(Date(birth.year + CalculateAge(birth, today) + 1, birth.month, birth.day), today)
  {
  }

  /** Someone born on or before `today` has a non-negative age. */
  lemma AgeNonNegative(birth: Date, today: Date)
    requires DateLeq(birth, today)
    ensures CalculateAge(birth, today) >= 0
  {
  }

  /** Mifflin-St Jeor: 10 w + 6.25 h - 5 a, plus 5 for men and minus 161 otherwise. */
  function CalculateBmr(gender: Gender, weightKg: real, heightCm: real, age: int): real
  {
    if gender == Male then 10.0 * weightKg + 6.25 * heightCm - 5.0 * age as real + 5.0
    else 10.0 * weightKg + 6.25 * heightCm - 5.0 * age as real - 161.0
  }

  /** Men get 166 kcal more than women for the same body; `Other` uses the female formula. */
  lemma BmrGenderOffset(weightKg: real, heightCm: real, age: int)
    ensures CalculateBmr(Male, weightKg, heightCm, age) - CalculateBmr(Female, weightKg, heightCm, age) == 166.0
    ensures CalculateBmr(Other, weightKg, heightCm, age) == CalculateBmr(Female, weightKg, heightCm, age)
  {
  }

  /** The rate grows with weight and height and falls with age. */
  lemma BmrMonotone(g: Gender, w1: real, w2: real, h1: real, h2: real, a1: int, a2: int)
    requires w1 <= w2 && h1 <= h2 && a2 <= a1
    ensures CalculateBmr(g, w1, h1, a1) <= CalculateBmr(g, w2, h2, a2)
  {
  }

  /** The activity multipliers of `calculate_tdee`. */
  function ActivityMultiplier(a: ActivityLevel): (m: real)
    ensures 1.2 <= m <= 1.725
  {
    match a
    case Sedentary => 1.2
    case Light => 1.375
    case Moderate => 1.55
    case Intense => 1.725
  }

  /** A more active level never has a smaller multiplier. */
  lemma MultipliersOrdered()
    ensures ActivityMultiplier(Sedentary) < ActivityMultiplier(Light) < ActivityMultiplier(Moderate) < ActivityMultiplier(Intense)
  {
  }

  function CalculateTdee(bmr: real, a: ActivityLevel): (tdee: real)
    ensures bmr >= 0.0 ==> bmr <= tdee <= 1.725 * bmr
  {
    bmr * ActivityMultiplier(a)
  }

  /** Daily calories: a 20% deficit to lose fat, a 10% surplus to gain muscle, TDEE otherwise. */
  function DailyCalories(tdee: real, goal: Goal): real
  {
    match goal
    case LoseFat => tdee * 0.8
    case GainMuscle => tdee * 1.1
    case Maintain => tdee
  }

  /** For a non-negative TDEE the goals order the intake: lose fat <= maintain <= gain muscle. */
  lemma DailyCaloriesOrdered(tdee: real)
    requires tdee >= 0.0
    ensures DailyCalories(tdee, LoseFat) <= DailyCalories(tdee, Maintain) <= DailyCalories(tdee, GainMuscle)
  {
  }

  /** Grams of protein per kilogram of body weight for each goal. */
  function ProteinMultiplier(goal: Goal): real
  {
    match goal
    case GainMuscle => 2.0
    case Maintain => 1.6
    case LoseFat => 1.8
  }

  datatype Macros = Macros(proteinGram: real, carbGram: real, fatGram: real, dailyCalories: real, bmr: real, tdee: real)

  /** The exception `calculate_macros` raises as written. */
  datatype PyError = NameError(name: string)

  /**
   * `calculate_macros` as written: it computes the split, then builds its result with a `bmr`
   * entry that reads `activity_multipliers` and `activity_level`, names that do not exist in
   * that function, so every call raises `NameError`.
   */
  function CalculateMacrosAsWritten(weightKg: real, tdee: real, goal: Goal): Result<Macros, PyError>
  {
    var daily := DailyCalories(tdee, goal);
    var protein := weightKg * ProteinMultiplier(goal);
    var fat := daily * 0.25 / 9.0;
    var carb := (daily - protein * 4.0 - fat * 9.0) / 4.0;
    Err(NameError("activity_multipliers"))
  }

  lemma MacrosAsWrittenAlwaysFail(weightKg: real, tdee: real, goal: Goal)
    ensures CalculateMacrosAsWritten(weightKg, tdee, goal) == Err(NameError("activity_multipliers"))
  {
  }

  /**
   * `calculate_macros` with the activity level the `bmr` entry needs passed in: the goal-adjusted
   * calories, protein by body weight, a quarter of the calories from fat and the rest from carbs.
   */
  function CalculateMacros(weightKg: real, tdee: real, goal: Goal, activity: ActivityLevel): (m: Macros)
    ensures m.dailyCalories == DailyCalories(tdee, goal) && m.tdee == tdee
    ensures m.proteinGram == weightKg * ProteinMultiplier(goal)
    ensures 9.0 * m.fatGram == m.dailyCalories / 4.0
    ensures 4.0 * m.proteinGram + 4.0 * m.carbGram + 9.0 * m.fatGram == m.dailyCalories
    ensures m.bmr * ActivityMultiplier(activity) == tdee
  {
    var daily := DailyCalories(tdee, goal);
    var protein := weightKg * ProteinMultiplier(goal);
    var fat := daily * 0.25 / 9.0;
    var carb := (daily - protein * 4.0 - fat * 9.0) / 4.0;
    Macros(protein, carb, fat, daily, tdee / ActivityMultiplier(activity), tdee)
  }

  /** The `bmr` entry recovers the rate the TDEE was computed from. */
  lemma MacrosRecoverBmr(bmr: real, a: ActivityLevel, weightKg: real, goal: Goal)
    ensures CalculateMacros(weightKg, CalculateTdee(bmr, a), goal, a).bmr == bmr
  {
    var m := CalculateMacros(weightKg, CalculateTdee(bmr, a), goal, a);
    assert m.bmr * ActivityMultiplier(a) == bmr * ActivityMultiplier(a);
  }

  /** Lean body mass for a body-fat percentage. */
  function LeanMass(weightKg: real, bodyFatPercent: real): real
  {
    weightKg * (1.0 - bodyFatPercent / 100.0)
  }

  datatype NutritionPlan = NutritionPlan(macros: Macros, leanMassKg: Option<real>)

  /** `calculate_nutrition_plan` as written fails with the error of `calculate_macros`. */
  function CalculateNutritionPlanAsWritten(
    gender: Gender, dateOfBirth: Date, today: Date, weightKg: real, heightCm: real,
    activity: ActivityLevel, goal: Goal, bodyFatPercent: Option<real>): Result<NutritionPlan, PyError>
  {
    var age := CalculateAge(dateOfBirth, today);
    var bmr := CalculateBmr(gender, weightKg, heightCm, age);
    var tdee := CalculateTdee(bmr, activity);
    match CalculateMacrosAsWritten(weightKg, tdee, goal)
    case Err(e) => Err(e)
    case Ok(m) =>
      var lean := if bodyFatPercent.Some? then LeanMass(weightKg, bodyFatPercent.value) else 0.0;
      Ok(NutritionPlan(m, if lean != 0.0 then Some(lean) else None))
  }

  lemma NutritionPlanAsWrittenAlwaysFails(
    gender: Gender, dateOfBirth: Date, today: Date, weightKg: real, heightCm: real,
    activity: ActivityLevel, goal: Goal, bodyFatPercent: Option<real>)
    ensures CalculateNutritionPlanAsWritten(gender, dateOfBirth, today, weightKg, heightCm, activity, goal, bodyFatPercent).Err?
  {
  }

  /**
   * `calculate_nutrition_plan` over the corrected macros. The lean mass is attached only when it
   * is truthy, so a body-fat percentage of exactly 100 (lean mass 0.0) leaves it out.
   */
  function CalculateNutritionPlan(
    gender: Gender, dateOfBirth: Date, today: Date, weightKg: real, heightCm: real,
    activity: ActivityLevel, goal: Goal, bodyFatPercent: Option<real>): (r: NutritionPlan)
    ensures r.macros.bmr == CalculateBmr(gender, weightKg, heightCm, CalculateAge(dateOfBirth, today))
    ensures r.macros.tdee == CalculateTdee(r.macros.bmr, activity)
    ensures r.macros == CalculateMacros(weightKg, r.macros.tdee, goal, activity)
    ensures r.macros.dailyCalories == DailyCalories(r.macros.tdee, goal)
    ensures r.leanMassKg.Some? ==> bodyFatPercent.Some? && r.leanMassKg.value == LeanMass(weightKg, bodyFatPercent.value)
    ensures weightKg > 0.0 ==> (r.leanMassKg.Some? <==> bodyFatPercent.Some? && bodyFatPercent.value != 100.0)
  {
    var age := CalculateAge(dateOfBirth, today);
    var bmr := CalculateBmr(gender, weightKg, heightCm, age);
    var tdee := CalculateTdee(bmr, activity);
    MacrosRecoverBmr(bmr, activity, weightKg, goal);
    var m := CalculateMacros(weightKg, tdee, goal, activity);
    var lean := if bodyFatPercent.Some? then LeanMass(weightKg, bodyFatPercent.value) else 0.0;
    if bodyFatPercent.Some? && weightKg > 0.0 then
      LeanMassZero(weightKg, bodyFatPercent.value);
      NutritionPlan(m, if lean != 0.0 then Some(lean) else None)
    else
      NutritionPlan(m, if lean != 0.0 then Some(lean) else None)
  }

  /** For a positive weight the lean mass is zero exactly at 100% body fat. */
  lemma LeanMassZero(weightKg: real, bodyFatPercent: real)
    requires weightKg > 0.0
    ensures LeanMass(weightKg, bodyFatPercent) == 0.0 <==> bodyFatPercent == 100.0
  {
    var f := 1.0 - bodyFatPercent / 100.0;
    assert LeanMass(weightKg, bodyFatPercent) == weightKg * f;
    assert f != 0.0 ==> weightKg * f != 0.0;
  }
}
