/**
 * The meal generator of the backend: the food table, the per-meal templates for each goal, the
 * choice of foods for one meal and the four-meal day built from them.
 */
module MealService {
  import opened Wrappers
  import opened Schemas

  /** The category a food is listed under. */
  datatype Category = ProteinFood | CarbFood | FatFood | Vegetable | Fruit

  /** One food of the table: values per serving of `servingSize` units. */
  datatype Food = Food(name: string, calories: real, protein: real, carbs: real, fat: real,
                       servingSize: real, unit: string, category: Category)

  /** An insertion-ordered dictionary from food key to food. */
  type FoodTable = seq<(string, Food)>

  /** `get_food_database`: the table, in its listed order (proteins, carbs, fats, vegetables, fruits). */
  const FoodDatabase: FoodTable := ProteinEntries + CarbEntries + FatEntries + VegetableEntries + FruitEntries

  /** The table's entries, one list per category. */
  const ProteinEntries: FoodTable :=
    [("chicken_breast", Food("Chicken Breast", 165.0, 31.0, 0.0, 3.6, 100.0, "g", ProteinFood)),
     ("salmon", Food("Salmon", 208.0, 20.0, 0.0, 13.0, 100.0, "g", ProteinFood)),
     ("eggs", Food("Whole Eggs", 143.0, 13.0, 0.7, 9.5, 100.0, "g", ProteinFood)),
     ("greek_yogurt", Food("Greek Yogurt", 59.0, 10.0, 3.6, 0.4, 100.0, "g", ProteinFood)),
     ("tofu", Food("Tofu", 76.0, 8.0, 1.9, 4.8, 100.0, "g", ProteinFood))]

  const CarbEntries: FoodTable :=
    [("brown_rice", Food("Brown Rice (cooked)", 112.0, 2.6, 23.0, 0.9, 100.0, "g", CarbFood)),
     ("sweet_potato", Food("Sweet Potato", 86.0, 1.6, 20.0, 0.1, 100.0, "g", CarbFood)),
     ("oats", Food("Oats", 389.0, 16.9, 66.3, 6.9, 100.0, "g", CarbFood)),
     ("quinoa", Food("Quinoa (cooked)", 120.0, 4.4, 21.3, 1.9, 100.0, "g", CarbFood)),
     ("whole_wheat_bread", Food("Whole Wheat Bread", 247.0, 13.0, 41.0, 3.4, 100.0, "g", CarbFood))]

  const FatEntries: FoodTable :=
    [("avocado", Food("Avocado", 160.0, 2.0, 8.5, 14.7, 100.0, "g", FatFood)),
     ("olive_oil", Food("Olive Oil", 884.0, 0.0, 0.0, 100.0, 100.0, "ml", FatFood)),
     ("almonds", Food("Almonds", 579.0, 21.2, 21.7, 49.9, 100.0, "g", FatFood)),
     ("peanut_butter", Food("Peanut Butter", 588.0, 25.0, 20.0, 50.0, 100.0, "g", FatFood))]

  const VegetableEntries: FoodTable :=
    [("broccoli", Food("Broccoli", 34.0, 2.8, 6.6, 0.4, 100.0, "g", Vegetable)),
     ("spinach", Food("Spinach", 23.0, 2.9, 3.6, 0.4, 100.0, "g", Vegetable))]

  const FruitEntries: FoodTable :=
    [("banana", Food("Banana", 89.0, 1.1, 22.8, 0.3, 100.0, "g", Fruit)),
     ("apple", Food("Apple", 52.0, 0.3, 13.8, 0.2, 100.0, "g", Fruit)),
     ("berries", Food("Mixed Berries", 57.0, 0.7, 13.8, 0.3, 100.0, "g", Fruit))]

  /** The entries listed under one category. */
  function CategoryEntries(cat: Category): FoodTable
  {
    match cat
    case ProteinFood => ProteinEntries
    case CarbFood => CarbEntries
    case FatFood => FatEntries
    case Vegetable => VegetableEntries
    case Fruit => FruitEntries
  }

  /** `food_db.values()`, in order. */
  function Values(table: FoodTable): (foods: seq<Food>)
    ensures |foods| == |table| && forall i :: 0 <= i < |table| ==> foods[i] == table[i].1
  {
    seq(|table|, i requires 0 <= i < |table| => table[i].1)
  }

  /** The foods of `foods` in category `cat`, in order. */
  function OfCategory(foods: seq<Food>, cat: Category): (r: seq<Food>)
    ensures |r| <= |foods|
    ensures forall i :: 0 <= i < |r| ==> r[i].category == cat
  {
    if |foods| == 0 then []
    else if foods[0].category == cat then [foods[0]] + OfCategory(foods[1..], cat)
    else OfCategory(foods[1..], cat)
  }

  lemma {:induction false} OfCategoryAppend(a: seq<Food>, b: seq<Food>, cat: Category)
    ensures OfCategory(a + b, cat) == OfCategory(a, cat) + OfCategory(b, cat)
  {
    if |a| == 0 {
      assert a + b == b;
    } else {
      assert (a + b)[1..] == a[1..] + b;
      OfCategoryAppend(a[1..], b, cat);
    }
  }

  /** A list whose foods all share one category keeps them all for that category and none for another. */
  lemma {:induction false} OfCategoryUniform(foods: seq<Food>, c: Category, cat: Category)
    requires forall i :: 0 <= i < |foods| ==> foods[i].category == c
    ensures OfCategory(foods, cat) == if c == cat then foods else []
  {
    if |foods| > 0 {
      OfCategoryUniform(foods[1..], c, cat);
      if c == cat {
        assert [foods[0]] + foods[1..] == foods;
      }
    }
  }

  lemma ValuesAppend(a: FoodTable, b: FoodTable)
    ensures Values(a + b) == Values(a) + Values(b)
  {
  }

  /** Every entry of a category's list is filed under that category. */
  lemma CategoryEntriesUniform(c: Category)
    ensures forall i :: 0 <= i < |Values(CategoryEntries(c))| ==> Values(CategoryEntries(c))[i].category == c
  {
  }

  /** The foods of the whole table are the foods of its five category lists, in order. */
  lemma DatabaseValues()
    ensures Values(FoodDatabase) == Values(ProteinEntries) + Values(CarbEntries)
      + Values(FatEntries) + Values(VegetableEntries) + Values(FruitEntries)
  {
    ValuesAppend(ProteinEntries, CarbEntries);
    ValuesAppend(ProteinEntries + CarbEntries, FatEntries);
    ValuesAppend(ProteinEntries + CarbEntries + FatEntries, VegetableEntries);
    ValuesAppend(ProteinEntries + CarbEntries + FatEntries + VegetableEntries, FruitEntries);
  }

  /** Filtering five uniform lists laid end to end picks out the one list of the category asked for. */
  lemma OfCategoryOfFive(p: seq<Food>, c: seq<Food>, f: seq<Food>, v: seq<Food>, fr: seq<Food>, cat: Category)
    requires forall i :: 0 <= i < |p| ==> p[i].category == ProteinFood
    requires forall i :: 0 <= i < |c| ==> c[i].category == CarbFood
    requires forall i :: 0 <= i < |f| ==> f[i].category == FatFood
    requires forall i :: 0 <= i < |v| ==> v[i].category == Vegetable
    requires forall i :: 0 <= i < |fr| ==> fr[i].category == Fruit
    ensures OfCategory(p + c + f + v + fr, cat)
      == match cat case ProteinFood => p case CarbFood => c case FatFood => f case Vegetable => v case Fruit => fr
  {
    OfCategoryAppend(p + c + f + v, fr, cat);
    OfCategoryAppend(p + c + f, v, cat);
    OfCategoryAppend(p + c, f, cat);
    OfCategoryAppend(p, c, cat);
    OfCategoryUniform(p, ProteinFood, cat);
    OfCategoryUniform(c, CarbFood, cat);
    OfCategoryUniform(f, FatFood, cat);
    OfCategoryUniform(v, Vegetable, cat);
    OfCategoryUniform(fr, Fruit, cat);
    var all := p + c + f + v + fr;
    match cat {
      case ProteinFood => assert OfCategory(all, cat) == p + [] + [] + [] + [];
      case CarbFood => assert OfCategory(all, cat) == [] + c + [] + [] + [];
      case FatFood => assert OfCategory(all, cat) == [] + [] + f + [] + [];
      case Vegetable => assert OfCategory(all, cat) == [] + [] + [] + v + [];
      case Fruit => assert OfCategory(all, cat) == [] + [] + [] + [] + fr;
    }
  }

  /** `[food for food in food_db.values() if food["category"] == cat]`. */
  function FoodsOf(db: FoodTable, cat: Category): (foods: seq<Food>)
    ensures forall i :: 0 <= i < |foods| ==> foods[i].category == cat
  {
    OfCategory(Values(db), cat)
  }

  /** The foods of a category are exactly the ones listed under it, in their listed order. */
  lemma FoodsOfCategory(cat: Category)
    ensures FoodsOf(FoodDatabase, cat) == Values(CategoryEntries(cat))
  {
    DatabaseValues();
    CategoryEntriesUniform(ProteinFood);
    CategoryEntriesUniform(CarbFood);
    CategoryEntriesUniform(FatFood);
    CategoryEntriesUniform(Vegetable);
    CategoryEntriesUniform(Fruit);
    OfCategoryOfFive(Values(ProteinEntries), Values(CarbEntries), Values(FatEntries),
                     Values(VegetableEntries), Values(FruitEntries), cat);
  }

  /**
   * A table a meal can be picked from: every category has foods, and every protein, carb and fat
   * food carries that macro, so the amounts computed from it never divide by zero.
   */
  predicate Stocked(db: FoodTable)
  {
    (forall cat :: |FoodsOf(db, cat)| > 0)
    && (forall i :: 0 <= i < |FoodsOf(db, ProteinFood)| ==> FoodsOf(db, ProteinFood)[i].protein > 0.0)
    && (forall i :: 0 <= i < |FoodsOf(db, CarbFood)| ==> FoodsOf(db, CarbFood)[i].carbs > 0.0)
    && (forall i :: 0 <= i < |FoodsOf(db, FatFood)| ==> FoodsOf(db, FatFood)[i].fat > 0.0)
  }

  /** How many foods each category of the table has. */
  lemma CategorySizes(cat: Category)
    ensures |FoodsOf(FoodDatabase, cat)| == match cat case ProteinFood => 5 case CarbFood => 5 case FatFood => 4
                                                        case Vegetable => 2 case Fruit => 3
  {
    FoodsOfCategory(cat);
  }

  /** The table is stocked: no pick is out of range and no amount divides by zero. */
  lemma FoodDatabaseStocked()
    ensures Stocked(FoodDatabase)
  {
    forall cat ensures |FoodsOf(FoodDatabase, cat)| > 0 {
      CategorySizes(cat);
    }
    FoodsOfCategory(ProteinFood);
    FoodsOfCategory(CarbFood);
    FoodsOfCategory(FatFood);
  }

  /**
   * `foods[hash(key) % len(foods)]` for the category's list: Python's `%` by a positive length is
   * never negative, so the index is always in range whatever the hash.
   */
  function Pick(db: FoodTable, cat: Category, h: int): (food: Food)
    requires Stocked(db)
    ensures food.category == cat
    ensures cat == ProteinFood ==> food.protein > 0.0
    ensures cat == CarbFood ==> food.carbs > 0.0
    ensures cat == FatFood ==> food.fat > 0.0
  {
    FoodsOf(db, cat)[h % |FoodsOf(db, cat)|]
  }

  /** A meal template: its display name, how it splits the day's targets, and a description. */
  datatype Template = Template(name: string, proteinPercent: real, carbPercent: real,
                               fatPercent: real, caloriePercent: real, description: string)

  /** The templates' descriptions. */
  const BreakfastLoseFatDescription: string := "High protein breakfast to keep you full"
  const BreakfastMaintainDescription: string := "Balanced breakfast with moderate carbs"
  const BreakfastGainMuscleDescription: string := "Carb-rich breakfast to fuel morning workouts"
  const LunchLoseFatDescription: string := "Protein-focused lunch with moderate fats"
  const LunchMaintainDescription: string := "Balanced lunch with lean protein and complex carbs"
  const LunchGainMuscleDescription: string := "High-calorie lunch with focus on protein and carbs"
  const DinnerLoseFatDescription: string := "Protein-rich dinner with lower carbs"
  const DinnerMaintainDescription: string := "Balanced dinner with moderate carbs"
  const DinnerGainMuscleDescription: string := "Protein and carb-rich dinner to support muscle growth"
  const SnackLoseFatDescription: string := "Protein-rich snack to maintain satiety"
  const SnackMaintainDescription: string := "Balanced snack with moderate carbs"
  const SnackGainMuscleDescription: string := "Carb-rich snack to fuel workouts and recovery"

  function BreakfastTemplate(goal: Goal): Template
  {
    match goal
    case LoseFat => Template("Breakfast", 0.35, 0.40, 0.25, 0.25, BreakfastLoseFatDescription)
    case Maintain => Template("Breakfast", 0.30, 0.45, 0.25, 0.25, BreakfastMaintainDescription)
    case GainMuscle => Template("Breakfast", 0.30, 0.50, 0.20, 0.25, BreakfastGainMuscleDescription)
  }

  function LunchTemplate(goal: Goal): Template
  {
    match goal
    case LoseFat => Template("Lunch", 0.40, 0.30, 0.30, 0.35, LunchLoseFatDescription)
    case Maintain => Template("Lunch", 0.35, 0.40, 0.25, 0.30, LunchMaintainDescription)
    case GainMuscle => Template("Lunch", 0.35, 0.45, 0.20, 0.30, LunchGainMuscleDescription)
  }

  function DinnerTemplate(goal: Goal): Template
  {
    match goal
    case LoseFat => Template("Dinner", 0.45, 0.25, 0.30, 0.30, DinnerLoseFatDescription)
    case Maintain => Template("Dinner", 0.40, 0.35, 0.25, 0.30, DinnerMaintainDescription)
    case GainMuscle => Template("Dinner", 0.40, 0.40, 0.20, 0.30, DinnerGainMuscleDescription)
  }

  function SnackTemplate(goal: Goal): Template
  {
    match goal
    case LoseFat => Template("Snack", 0.40, 0.20, 0.40, 0.10, SnackLoseFatDescription)
    case Maintain => Template("Snack", 0.30, 0.40, 0.30, 0.15, SnackMaintainDescription)
    case GainMuscle => Template("Snack", 0.25, 0.50, 0.25, 0.15, SnackGainMuscleDescription)
  }

  /**
   * `create_meal_template`: the entry for the meal type and goal. Every known meal type has an
   * entry for every goal, so only an unknown meal type falls back to the maintenance snack.
   */
  function CreateMealTemplate(mealType: string, goal: Goal): (t: Template)
    ensures t.proteinPercent + t.carbPercent + t.fatPercent == 1.0
    ensures 0.0 < t.caloriePercent < 1.0
  {
    if mealType == "breakfast" then BreakfastTemplate(goal)
    else if mealType == "lunch" then LunchTemplate(goal)
    else if mealType == "dinner" then DinnerTemplate(goal)
    else if mealType == "snack" then SnackTemplate(goal)
    else SnackTemplate(Maintain)
  }

  /** The four meal types in the order a day's plan lists them. */
  function MealTypes(): seq<string>
  {
    ["breakfast", "lunch", "dinner", "snack"]
  }

  /** Which template each meal type gets, and the fallback for a type the table does not know. */
  lemma TemplateLookup(mealType: string, goal: Goal)
    ensures CreateMealTemplate("breakfast", goal).name == "Breakfast"
    ensures CreateMealTemplate("lunch", goal).name == "Lunch"
    ensures CreateMealTemplate("dinner", goal).name == "Dinner"
    ensures CreateMealTemplate("snack", goal).name == "Snack"
    ensures mealType !in MealTypes() ==> CreateMealTemplate(mealType, goal) == CreateMealTemplate("snack", Maintain)
  {
  }

  /** One line of a meal: a food, how much of it, and what that much provides. */
  datatype FoodItem = FoodItem(name: string, quantity: real, unit: string,
                               calories: real, protein: real, carbs: real, fat: real)

  /** `amount` units of `food`, its values scaled from the 100-unit serving. */
  function Portion(food: Food, amount: real): FoodItem
  {
    FoodItem(food.name, amount, food.unit, amount / 100.0 * food.calories, amount / 100.0 * food.protein,
             amount / 100.0 * food.carbs, amount / 100.0 * food.fat)
  }

  /** One standard 100-unit serving of `food`, its listed values as they are. */
  function Serving(food: Food): FoodItem
  {
    FoodItem(food.name, 100.0, food.unit, food.calories, food.protein, food.carbs, food.fat)
  }

  /** A meal: its name, its targets, a description and the foods that make it up. */
  datatype Meal = Meal(name: string, calories: real, protein: real, carbs: real, fat: real,
                       description: string, foodItems: seq<FoodItem>)

  /** The amount of a food that carries `target` of a macro the food has `perServing` of per 100 units. */
  function AmountFor(target: real, perServing: real): real
    requires perServing != 0.0
  {
    target / perServing * 100.0
  }

  lemma {:induction false} AmountMeetsTarget(target: real, perServing: real)
    requires perServing != 0.0
    ensures AmountFor(target, perServing) / 100.0 * perServing == target
  {
    assert AmountFor(target, perServing) / 100.0 == target / perServing;
    assert target / perServing * perServing == target;
  }

  /** Lunch and dinner get a vegetable serving. */
  predicate GetsVegetable(name: string)
  {
    name == "Lunch" || name == "Dinner"
  }

  /** Breakfast and snack get a fruit serving. */
  predicate GetsFruit(name: string)
  {
    name == "Breakfast" || name == "Snack"
  }

  /** The meal `select_foods_for_meal` builds for a template and the day's targets. */
  function MealFor(template: Template, dailyCalories: real, dailyProtein: real, dailyCarbs: real,
                   dailyFat: real, hash: string -> int, db: FoodTable): Meal
    requires Stocked(db)
  {
    var protein, carbs, fat := dailyProtein * template.proteinPercent, dailyCarbs * template.carbPercent,
                               dailyFat * template.fatPercent;
    Meal(template.name, dailyCalories * template.caloriePercent, protein, carbs, fat, template.description,
         MealFoods(template.name, protein, carbs, fat, hash, db))
  }

  /** The foods of meal `name` with the given targets: the three macro portions, then the side serving. */
  function MealFoods(name: string, protein: real, carbs: real, fat: real, hash: string -> int, db: FoodTable)
    : seq<FoodItem>
    requires Stocked(db)
  {
    var proteinFood := Pick(db, ProteinFood, hash(name));
    var carbFood := Pick(db, CarbFood, hash(name + "carb"));
    var fatFood := Pick(db, FatFood, hash(name + "fat"));
    [Portion(proteinFood, AmountFor(protein, proteinFood.protein)),
     Portion(carbFood, AmountFor(carbs, carbFood.carbs)),
     Portion(fatFood, AmountFor(fat, fatFood.fat))]
    + (if GetsVegetable(name) then [Serving(Pick(db, Vegetable, hash(name + "veg")))] else [])
    + (if GetsFruit(name) then [Serving(Pick(db, Fruit, hash(name + "fruit")))] else [])
  }

  /** A meal's targets are the day's values times the template's shares; name and description are the template's. */
  lemma MealTargets(template: Template, dailyCalories: real, dailyProtein: real, dailyCarbs: real,
                    dailyFat: real, hash: string -> int, db: FoodTable)
    requires Stocked(db)
    ensures var meal := MealFor(template, dailyCalories, dailyProtein, dailyCarbs, dailyFat, hash, db);
      meal.name == template.name && meal.description == template.description
      && meal.calories == dailyCalories * template.caloriePercent
      && meal.protein == dailyProtein * template.proteinPercent
      && meal.carbs == dailyCarbs * template.carbPercent
      && meal.fat == dailyFat * template.fatPercent
  {
  }

  /**
   * The first three foods are a protein, a carb and a fat food, each sized to carry exactly the
   * meal's target of its macro.
   */
  lemma MealFoodsMeetTargets(template: Template, dailyCalories: real, dailyProtein: real, dailyCarbs: real,
                             dailyFat: real, hash: string -> int, db: FoodTable)
    requires Stocked(db)
    ensures var meal := MealFor(template, dailyCalories, dailyProtein, dailyCarbs, dailyFat, hash, db);
      |meal.foodItems| >= 3
      && meal.foodItems[0] == Portion(Pick(db, ProteinFood, hash(template.name)), meal.foodItems[0].quantity)
      && meal.foodItems[1] == Portion(Pick(db, CarbFood, hash(template.name + "carb")), meal.foodItems[1].quantity)
      && meal.foodItems[2] == Portion(Pick(db, FatFood, hash(template.name + "fat")), meal.foodItems[2].quantity)
      && meal.foodItems[0].protein == meal.protein
      && meal.foodItems[1].carbs == meal.carbs
      && meal.foodItems[2].fat == meal.fat
  {
    var meal := MealFor(template, dailyCalories, dailyProtein, dailyCarbs, dailyFat, hash, db);
    AmountMeetsTarget(meal.protein, Pick(db, ProteinFood, hash(template.name)).protein);
    AmountMeetsTarget(meal.carbs, Pick(db, CarbFood, hash(template.name + "carb")).carbs);
    AmountMeetsTarget(meal.fat, Pick(db, FatFood, hash(template.name + "fat")).fat);
  }

  /** A vegetable serving follows iff the meal is lunch or dinner, a fruit serving iff breakfast or snack. */
  lemma MealSides(template: Template, dailyCalories: real, dailyProtein: real, dailyCarbs: real,
                  dailyFat: real, hash: string -> int, db: FoodTable)
    requires Stocked(db)
    ensures var meal := MealFor(template, dailyCalories, dailyProtein, dailyCarbs, dailyFat, hash, db);
      |meal.foodItems| == 3 + (if GetsVegetable(template.name) then 1 else 0) + (if GetsFruit(template.name) then 1 else 0)
      && (GetsVegetable(template.name) ==> meal.foodItems[3] == Serving(Pick(db, Vegetable, hash(template.name + "veg"))))
      && (GetsFruit(template.name) ==> meal.foodItems[3] == Serving(Pick(db, Fruit, hash(template.name + "fruit"))))
  {
  }

  /**
   * `select_foods_for_meal` over the food table `db` (the caller passes `FoodDatabase`): sets the
   * targets, picks the foods, then appends the items one by one.
   */
  method SelectFoodsForMeal(template: Template, dailyCalories: real, dailyProtein: real,
                            dailyCarbs: real, dailyFat: real, hash: string -> int, db: FoodTable) returns (meal: Meal)
    requires Stocked(db)
    ensures meal == MealFor(template, dailyCalories, dailyProtein, dailyCarbs, dailyFat, hash, db)
  {
    var mealCalories := dailyCalories * template.caloriePercent;
    var mealProtein := dailyProtein * template.proteinPercent;
    var mealCarbs := dailyCarbs * template.carbPercent;
    var mealFat := dailyFat * template.fatPercent;
    var items := SelectFoodItems(template.name, mealProtein, mealCarbs, mealFat, hash, db);
    meal := Meal(template.name, mealCalories, mealProtein, mealCarbs, mealFat, template.description, items);
  }

  /** The picking and appending part of `select_foods_for_meal`, for meal `name` with the given targets. */
  method SelectFoodItems(name: string, mealProtein: real, mealCarbs: real, mealFat: real, hash: string -> int,
                         db: FoodTable) returns (items: seq<FoodItem>)
    requires Stocked(db)
    ensures items == MealFoods(name, mealProtein, mealCarbs, mealFat, hash, db)
  {
    items := [];
    var proteinFood := Pick(db, ProteinFood, hash(name));
    var proteinAmount := AmountFor(mealProtein, proteinFood.protein);
    var carbFood := Pick(db, CarbFood, hash(name + "carb"));
    var carbAmount := AmountFor(mealCarbs, carbFood.carbs);
    var fatFood := Pick(db, FatFood, hash(name + "fat"));
    var fatAmount := AmountFor(mealFat, fatFood.fat);

    var vegetable: Option<Food> := None;
    if GetsVegetable(name) {
      vegetable := Some(Pick(db, Vegetable, hash(name + "veg")));
    }
    var fruit: Option<Food> := None;
    if GetsFruit(name) {
      fruit := Some(Pick(db, Fruit, hash(name + "fruit")));
    }

    items := items + [Portion(proteinFood, proteinAmount)];
    items := items + [Portion(carbFood, carbAmount)];
    items := items + [Portion(fatFood, fatAmount)];
    ghost var base := items;
    assert base == [Portion(proteinFood, proteinAmount), Portion(carbFood, carbAmount), Portion(fatFood, fatAmount)];
    if vegetable.Some? {
      items := items + [Serving(vegetable.value)];
    }
    ghost var vegetables := if vegetable.Some? then [Serving(vegetable.value)] else [];
    assert items == base + vegetables;
    if fruit.Some? {
      items := items + [Serving(fruit.value)];
    }
    assert items == base + vegetables + (if fruit.Some? then [Serving(fruit.value)] else []);
    assert items == MealFoods(name, mealProtein, mealCarbs, mealFat, hash, db);
  }

  /** A day's plan: its totals and its meals. */
  datatype MealPlan = MealPlan(totalCalories: real, totalProtein: real, totalCarbs: real, totalFat: real,
                               meals: seq<Meal>)

  /** The four templates `generate_meal_plan` asks for, in its order. */
  function DayTemplates(goal: Goal): (ts: seq<Template>)
    ensures |ts| == 4
    ensures ts[0].name == "Breakfast" && ts[1].name == "Lunch" && ts[2].name == "Dinner" && ts[3].name == "Snack"
    ensures ts[0].caloriePercent + ts[1].caloriePercent + ts[2].caloriePercent + ts[3].caloriePercent == 1.0
  {
    TemplateLookup("breakfast", goal);
    TemplateLookup("lunch", goal);
    TemplateLookup("dinner", goal);
    TemplateLookup("snack", goal);
    [CreateMealTemplate("breakfast", goal), CreateMealTemplate("lunch", goal),
     CreateMealTemplate("dinner", goal), CreateMealTemplate("snack", goal)]
  }

  /** The plan `generate_meal_plan` returns: one meal per template of the day. */
  function MealPlanFor(dailyCalories: real, dailyProtein: real, dailyCarbs: real, dailyFat: real,
                       goal: Goal, hash: string -> int, db: FoodTable): MealPlan
    requires Stocked(db)
  {
    var ts := DayTemplates(goal);
    MealPlan(dailyCalories, dailyProtein, dailyCarbs, dailyFat,
             [MealFor(ts[0], dailyCalories, dailyProtein, dailyCarbs, dailyFat, hash, db),
              MealFor(ts[1], dailyCalories, dailyProtein, dailyCarbs, dailyFat, hash, db),
              MealFor(ts[2], dailyCalories, dailyProtein, dailyCarbs, dailyFat, hash, db),
              MealFor(ts[3], dailyCalories, dailyProtein, dailyCarbs, dailyFat, hash, db)])
  }

  /** Shares of a whole that add up to one give parts that add up to the whole. */
  lemma SharesOfWhole(whole: real, a: real, b: real, c: real, d: real)
    requires a + b + c + d == 1.0
    ensures whole * a + whole * b + whole * c + whole * d == whole
  {
    assert whole * a + whole * b + whole * c + whole * d == whole * (a + b + c + d);
  }

  /**
   * Breakfast, lunch, dinner and snack in that order; the totals are the day's targets as given.
   */
  lemma MealPlanShape(dailyCalories: real, dailyProtein: real, dailyCarbs: real, dailyFat: real,
                      goal: Goal, hash: string -> int, db: FoodTable)
    requires Stocked(db)
    ensures var plan := MealPlanFor(dailyCalories, dailyProtein, dailyCarbs, dailyFat, goal, hash, db);
      plan.totalCalories == dailyCalories && plan.totalProtein == dailyProtein
      && plan.totalCarbs == dailyCarbs && plan.totalFat == dailyFat
    ensures var meals := MealPlanFor(dailyCalories, dailyProtein, dailyCarbs, dailyFat, goal, hash, db).meals;
      |meals| == 4 && meals[0].name == "Breakfast" && meals[1].name == "Lunch" && meals[2].name == "Dinner"
      && meals[3].name == "Snack"
  {
    var ts := DayTemplates(goal);
    MealTargets(ts[0], dailyCalories, dailyProtein, dailyCarbs, dailyFat, hash, db);
    MealTargets(ts[1], dailyCalories, dailyProtein, dailyCarbs, dailyFat, hash, db);
    MealTargets(ts[2], dailyCalories, dailyProtein, dailyCarbs, dailyFat, hash, db);
    MealTargets(ts[3], dailyCalories, dailyProtein, dailyCarbs, dailyFat, hash, db);
  }

  /** A breakfast, lunch, dinner or snack holds four foods: the three macro picks and one side. */
  lemma DayMealFoodCount(template: Template, dailyCalories: real, dailyProtein: real, dailyCarbs: real,
                         dailyFat: real, hash: string -> int, db: FoodTable)
    requires Stocked(db)
    requires template.name == "Breakfast" || template.name == "Lunch" || template.name == "Dinner"
          || template.name == "Snack"
    ensures |MealFor(template, dailyCalories, dailyProtein, dailyCarbs, dailyFat, hash, db).foodItems| == 4
  {
    MealSides(template, dailyCalories, dailyProtein, dailyCarbs, dailyFat, hash, db);
  }

  /** Every meal of the plan holds four foods. */
  lemma MealPlanFoodCounts(dailyCalories: real, dailyProtein: real, dailyCarbs: real, dailyFat: real,
                           goal: Goal, hash: string -> int, db: FoodTable)
    requires Stocked(db)
    ensures var meals := MealPlanFor(dailyCalories, dailyProtein, dailyCarbs, dailyFat, goal, hash, db).meals;
      forall i :: 0 <= i < |meals| ==> |meals[i].foodItems| == 4
  {
    var ts := DayTemplates(goal);
    DayMealFoodCount(ts[0], dailyCalories, dailyProtein, dailyCarbs, dailyFat, hash, db);
    DayMealFoodCount(ts[1], dailyCalories, dailyProtein, dailyCarbs, dailyFat, hash, db);
    DayMealFoodCount(ts[2], dailyCalories, dailyProtein, dailyCarbs, dailyFat, hash, db);
    DayMealFoodCount(ts[3], dailyCalories, dailyProtein, dailyCarbs, dailyFat, hash, db);
  }

  /** The four meals' calorie targets add up to the day's calories. */
  lemma MealPlanCalories(dailyCalories: real, dailyProtein: real, dailyCarbs: real, dailyFat: real,
                         goal: Goal, hash: string -> int, db: FoodTable)
    requires Stocked(db)
    ensures var meals := MealPlanFor(dailyCalories, dailyProtein, dailyCarbs, dailyFat, goal, hash, db).meals;
      meals[0].calories + meals[1].calories + meals[2].calories + meals[3].calories == dailyCalories
  {
    var ts := DayTemplates(goal);
    MealTargets(ts[0], dailyCalories, dailyProtein, dailyCarbs, dailyFat, hash, db);
    MealTargets(ts[1], dailyCalories, dailyProtein, dailyCarbs, dailyFat, hash, db);
    MealTargets(ts[2], dailyCalories, dailyProtein, dailyCarbs, dailyFat, hash, db);
    MealTargets(ts[3], dailyCalories, dailyProtein, dailyCarbs, dailyFat, hash, db);
    SharesOfWhole(dailyCalories, ts[0].caloriePercent, ts[1].caloriePercent, ts[2].caloriePercent, ts[3].caloriePercent);
  }

  /** `generate_meal_plan`: the four templates for the goal, then one meal per template. */
  method GenerateMealPlan(dailyCalories: real, dailyProtein: real, dailyCarbs: real, dailyFat: real,
                          goal: Goal, hash: string -> int) returns (plan: MealPlan)
    ensures Stocked(FoodDatabase) && plan == MealPlanFor(dailyCalories, dailyProtein, dailyCarbs, dailyFat, goal, hash, FoodDatabase)
  {
    var db := FoodDatabase;
    FoodDatabaseStocked();
    var breakfastTemplate := CreateMealTemplate("breakfast", goal);
    var lunchTemplate := CreateMealTemplate("lunch", goal);
    var dinnerTemplate := CreateMealTemplate("dinner", goal);
    var snackTemplate := CreateMealTemplate("snack", goal);

    var breakfast := SelectFoodsForMeal(breakfastTemplate, dailyCalories, dailyProtein, dailyCarbs, dailyFat, hash, db);
    var lunch := SelectFoodsForMeal(lunchTemplate, dailyCalories, dailyProtein, dailyCarbs, dailyFat, hash, db);
    var dinner := SelectFoodsForMeal(dinnerTemplate, dailyCalories, dailyProtein, dailyCarbs, dailyFat, hash, db);
    var snack := SelectFoodsForMeal(snackTemplate, dailyCalories, dailyProtein, dailyCarbs, dailyFat, hash, db);

    plan := MealPlan(dailyCalories, dailyProtein, dailyCarbs, dailyFat, [breakfast, lunch, dinner, snack]);
    ghost var ts := DayTemplates(goal);
    assert ts == [breakfastTemplate, lunchTemplate, dinnerTemplate, snackTemplate];
  }
}
