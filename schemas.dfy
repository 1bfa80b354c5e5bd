/**
 * The request/response vocabulary of the backend: the string enums and the field
 * constraints Pydantic enforces on request bodies before a handler runs.
 */
module Schemas {
  import opened Wrappers

  datatype Gender = Male | Female | Other
  datatype ActivityLevel = Sedentary | Light | Moderate | Intense
  datatype Goal = LoseFat | Maintain | GainMuscle
  datatype Level = Beginner | Intermediate | Advanced
  datatype Role = Free | Premium

  /** The wire value of each enum member. */
  function GenderValue(g: Gender): string
  {
    match g
    case Male => "male"
    case Female => "female"
    case Other => "other"
  }

  function ActivityValue(a: ActivityLevel): string
  {
    match a
    case Sedentary => "sedentary"
    case Light => "light"
    case Moderate => "moderate"
    case Intense => "intense"
  }

  function GoalValue(g: Goal): string
  {
    match g
    case LoseFat => "lose_fat"
    case Maintain => "maintain"
    case GainMuscle => "gain_muscle"
  }

  function LevelValue(l: Level): string
  {
    match l
    case Beginner => "beginner"
    case Intermediate => "intermediate"
    case Advanced => "advanced"
  }

  function RoleValue(r: Role): string
  {
    match r
    case Free => "free"
    case Premium => "premium"
  }

  /** Pydantic's coercion of a string into each enum: the member with that value, or a 422. */
  function ParseGender(s: string): (r: Option<Gender>)
    ensures r.Some? ==> GenderValue(r.value) == s
    ensures r.None? ==> forall g: Gender :: GenderValue(g) != s
  {
    if s == "male" then Some(Male)
    else if s == "female" then Some(Female)
    else if s == "other" then Some(Other)
    else None
  }

  function ParseActivity(s: string): (r: Option<ActivityLevel>)
    ensures r.Some? ==> ActivityValue(r.value) == s
    ensures r.None? ==> forall a: ActivityLevel :: ActivityValue(a) != s
  {
    if s == "sedentary" then Some(Sedentary)
    else if s == "light" then Some(Light)
    else if s == "moderate" then Some(Moderate)
    else if s == "intense" then Some(Intense)
    else None
  }

  function ParseGoal(s: string): (r: Option<Goal>)
    ensures r.Some? ==> GoalValue(r.value) == s
    ensures r.None? ==> forall g: Goal :: GoalValue(g) != s
  {
    if s == "lose_fat" then Some(LoseFat)
    else if s == "maintain" then Some(Maintain)
    else if s == "gain_muscle" then Some(GainMuscle)
    else None
  }

  function ParseLevel(s: string): (r: Option<Level>)
    ensures r.Some? ==> LevelValue(r.value) == s
    ensures r.None? ==> forall l: Level :: LevelValue(l) != s
  {
    if s == "beginner" then Some(Beginner)
    else if s == "intermediate" then Some(Intermediate)
    else if s == "advanced" then Some(Advanced)
    else None
  }

  function ParseRole(s: string): (r: Option<Role>)
    ensures r.Some? ==> RoleValue(r.value) == s
    ensures r.None? ==> forall x: Role :: RoleValue(x) != s
  {
    if s == "free" then Some(Free)
    else if s == "premium" then Some(Premium)
    else None
  }

  /** Every member survives the trip to its wire value and back. */
  lemma EnumRoundTrips(g: Gender, a: ActivityLevel, o: Goal, l: Level, r: Role)
    ensures ParseGender(GenderValue(g)) == Some(g)
    ensures ParseActivity(ActivityValue(a)) == Some(a)
    ensures ParseGoal(GoalValue(o)) == Some(o)
    ensures ParseLevel(LevelValue(l)) == Some(l)
    ensures ParseRole(RoleValue(r)) == Some(r)
  {
  }

  // ----- request bodies and their field constraints -----

  datatype UserCreate = UserCreate(email: string, password: string)

  /** `UserCreate.password` has at least 8 characters. */
  predicate UserCreateValid(u: UserCreate)
  {
    |u.password| >= 8
  }

  datatype ProfileCreate = ProfileCreate(
    gender: Gender, dateOfBirth: Date, heightCm: real, weightKg: real,
    activityLevel: ActivityLevel, goal: Goal, bodyFatPercent: Option<real>)

  /** A body-fat percentage, when given, lies in [0, 100]. */
  predicate BodyFatValid(bf: Option<real>)
  {
    bf.Some? ==> 0.0 <= bf.value <= 100.0
  }

  /** Height and weight are positive; body fat, when given, lies in [0, 100]. */
  predicate ProfileCreateValid(p: ProfileCreate)
  {
    p.heightCm > 0.0 && p.weightKg > 0.0 && BodyFatValid(p.bodyFatPercent)
  }

  /**
   * The profile update body. Body fat is nullable: sending `null` is a supplied value
   * `Set(None)`, which Pydantic accepts without applying the range constraint.
   */
  datatype ProfileUpdate = ProfileUpdate(
    gender: Patch<Gender>, dateOfBirth: Patch<Date>, heightCm: Patch<real>, weightKg: Patch<real>,
    activityLevel: Patch<ActivityLevel>, goal: Patch<Goal>, bodyFatPercent: Patch<Option<real>>)

  predicate ProfileUpdateValid(u: ProfileUpdate)
  {
    (u.heightCm.Set? ==> u.heightCm.value > 0.0)
    && (u.weightKg.Set? ==> u.weightKg.value > 0.0)
    && (u.bodyFatPercent.Set? ==> BodyFatValid(u.bodyFatPercent.value))
  }

  /** The update that supplies every field of a create body. */
  function FullUpdate(p: ProfileCreate): ProfileUpdate
  {
    ProfileUpdate(Set(p.gender), Set(p.dateOfBirth), Set(p.heightCm), Set(p.weightKg),
                  Set(p.activityLevel), Set(p.goal), Set(p.bodyFatPercent))
  }

  /** The update variant applies the create constraints, field by field, to what is supplied. */
  lemma UpdateConstraintsMatchCreate(p: ProfileCreate)
    ensures ProfileCreateValid(p) <==> ProfileUpdateValid(FullUpdate(p))
    ensures ProfileUpdateValid(ProfileUpdate(Unset, Unset, Unset, Unset, Unset, Unset, Unset))
  {
  }

  datatype ExerciseCreate = ExerciseCreate(name: string, sets: int, reps: string, restSeconds: int, notes: Option<string>)

  /** At least one set, and a non-negative rest. */
  predicate ExerciseCreateValid(e: ExerciseCreate)
  {
    e.sets > 0 && e.restSeconds >= 0
  }

  datatype ExerciseUpdate = ExerciseUpdate(
    name: Patch<string>, sets: Patch<int>, reps: Patch<string>, restSeconds: Patch<int>, notes: Patch<Option<string>>)

  predicate ExerciseUpdateValid(u: ExerciseUpdate)
  {
    (u.sets.Set? ==> u.sets.value > 0) && (u.restSeconds.Set? ==> u.restSeconds.value >= 0)
  }

  /** A plan day is a day of the week numbered 1 to 7. */
  predicate ValidDay(day: int)
  {
    1 <= day <= 7
  }

  /** The refusal of a day outside the week, by every endpoint that takes a day. */
  const DayRangeError: HttpError := HttpError(400, "Day must be between 1 and 7")

  /** The decimal text of a single-digit day, as an f-string prints it. */
  function DayText(day: int): (r: string)
    requires 0 <= day <= 9
    ensures |r| == 1 && '0' <= r[0] <= '9'
  {
    [('0' as int + day) as char]
  }

  datatype WorkoutPlanCreate = WorkoutPlanCreate(day: int, muscleGroup: string, level: Level, notes: Option<string>)

  predicate WorkoutPlanCreateValid(w: WorkoutPlanCreate)
  {
    ValidDay(w.day)
  }

  datatype WorkoutPlanUpdate = WorkoutPlanUpdate(
    day: Patch<int>, muscleGroup: Patch<string>, level: Patch<Level>, notes: Patch<Option<string>>)

  predicate WorkoutPlanUpdateValid(u: WorkoutPlanUpdate)
  {
    u.day.Set? ==> ValidDay(u.day.value)
  }

  datatype FoodItemCreate = FoodItemCreate(
    name: string, quantity: real, unit: string, calories: real, protein: real, carbs: real, fat: real)

  /** A positive quantity and non-negative energy and macros. */
  predicate FoodItemCreateValid(f: FoodItemCreate)
  {
    f.quantity > 0.0 && f.calories >= 0.0 && f.protein >= 0.0 && f.carbs >= 0.0 && f.fat >= 0.0
  }

  datatype MealCreate = MealCreate(
    name: string, calories: real, protein: real, carbs: real, fat: real, description: Option<string>)

  predicate MealCreateValid(m: MealCreate)
  {
    m.calories >= 0.0 && m.protein >= 0.0 && m.carbs >= 0.0 && m.fat >= 0.0
  }

  datatype MealPlanCreate = MealPlanCreate(day: int, totalCalories: real, totalProtein: real, totalCarbs: real, totalFat: real)

  predicate MealPlanCreateValid(m: MealPlanCreate)
  {
    ValidDay(m.day) && m.totalCalories >= 0.0 && m.totalProtein >= 0.0 && m.totalCarbs >= 0.0 && m.totalFat >= 0.0
  }

  /** `TokenData`: the subject and role read from a token, both optional. */
  datatype TokenData = TokenData(email: Option<string>, role: Option<string>)
}
