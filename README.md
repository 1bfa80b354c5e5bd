# Planova in Dafny

Planova is a fitness and nutrition planner. A FastAPI backend stores users, their body
profile, generated workout plans and meal plans, and a premium subscription. A Next.js
frontend signs users in, keeps their session and shows the plans. This project models the
core of both sides and proves what that core promises.

The backend part covers:

- the nutrition service: age, Mifflin-St Jeor BMR, TDEE, macro split and lean mass;
- the workout service: the split for a level and goal, and the exercise catalogue;
- the meal service: the food table, the meal templates, food selection and the day plan;
- token handling and the user dependencies in `core/security.py`;
- the Pydantic schemas, modelled as validity predicates over the request bodies;
- the subscription, workout, nutrition and user-profile endpoints, over a database of
  tables held by one `Database` object (`Store`).

The frontend part covers:

- `apiRequest`: how the URL, headers and body are built, and how a fetch outcome becomes
  a value or a thrown error;
- the auth provider and its route guard;
- the premium gate;
- the login page;
- the profile create and edit pages, with the form rules they share (`ProfileForm`);
- the workouts page.

Every handler and every page effect that updates state step by step is a `method`. It is
proved equal to a specification `function` of the old state. Lemmas then state what the
endpoint or the page promises about that function. The backend's database is a class whose
fields are the tables. Each table is a value: its rows in primary-key order, plus the key
the next insert receives. A query's `.first()` is therefore the lowest-keyed matching row.
The keys are SQLite rowids without AUTOINCREMENT: an insert receives the largest key present
plus one, or 1 in an empty table. Every valid table's next key is exactly that
(`Store.Keyed`), and a delete recomputes it from the rows left, so the keys of deleted last
rows are handed out again. A premium user who regenerates a workout plan on an otherwise
empty database receives the same plan keys twice (`WorkoutEndpoints.RegenerateSameReply`).
The frontend components are classes whose fields are their React state. The environment
enters as parameters: `fetch` is a function from request to outcome, `localStorage` is a
single optional string, and navigation is a log of the routes pushed.

Numbers are exact reals and integers. Dates are `(year, month, day)` triples. "Now" and
"today" are parameters. Python's `hash` is a parameter of the meal generator.

### Where the code and its description differ (the model follows the code)

- `apiRequest` is described as always rejecting with `{status, message}`. The missing-token
  `Error` is thrown before the `try`, so it escapes as a plain `Error`
  (`ApiClient.MissingTokenEscapes`).
- An undecodable stored token is described as treated as absent. The auth provider clears
  storage but keeps the token in its state, so `isAuthenticated` stays true
  (`AuthContext.MountUndecodable`, `AuthContext.LoginKeepsUndecodableToken`).
- Clearing `body_fat_percent` in a profile update leaves the old `lean_mass_kg` in place
  (`UserEndpoints.ClearingBodyFatKeepsLeanMass`).
- `calculate_nutrition_plan` drops a lean mass of exactly 0 kg, at 100% body fat, because
  it tests the value for truthiness (`NutritionService.LeanMassZero`).
- Of the profile form's options, only the first activity level and the last two goals are
  values the backend's enums accept. The default activity level is rejected
  (`ProfileForm.OptionsAgainstBackend`).
- The profile form's messages say "less than", but its bounds are inclusive
  (`ProfileForm.NumericRanges`).
- The form's age check subtracts calendar years, so it accepts users the backend reckons
  are 17 (`ProfileForm.AgeRuleLooserThanBackend`).
- The workouts page tolerates an error whose message contains "404". No error that
  `apiRequest` produces has such a message, so a missing plan is always reported
  (`WorkoutsPage.ToleranceNeverFires`).

## Model

| member | source | states |
|---|---|---|
| Schemas.ParseGender | planova/backend/app/schemas/schemas.py:7-11 | a string parses to the gender whose wire value it is, and fails exactly when no gender has that value |
| Schemas.ParseActivity | planova/backend/app/schemas/schemas.py:13-18 | a string parses to the activity level whose wire value it is, and fails exactly when no level has it |
| Schemas.ParseGoal | planova/backend/app/schemas/schemas.py:20-24 | a string parses to the goal whose wire value it is, and fails exactly when no goal has it |
| Schemas.ParseLevel | planova/backend/app/schemas/schemas.py:26-30 | a string parses to the training level whose wire value it is, and fails exactly when no level has it |
| Schemas.ParseRole | planova/backend/app/schemas/schemas.py:32-36 | a string parses to the role whose wire value it is, and fails exactly when no role has it |
| Schemas.EnumRoundTrips | planova/backend/app/schemas/schemas.py:7-36 | every enum member's wire value parses back to that member |
| Schemas.UpdateConstraintsMatchCreate | planova/backend/app/schemas/schemas.py:69-90 | the profile update schema, with every field supplied, accepts exactly the bodies the create schema accepts; the empty update is valid |
| NutritionService.AgeCountsAnniversaries | planova/backend/app/services/nutrition_service.py:6-15 | the age is the number of birthdays passed by today: the age-th anniversary is on or before today and the next one is after it |
| NutritionService.AgeNonNegative | planova/backend/app/services/nutrition_service.py:6-15 | nobody born on or before today has a negative age |
| NutritionService.BmrGenderOffset | planova/backend/app/services/nutrition_service.py:18-28 | the male BMR exceeds the female one by 166 kcal for equal inputs; "other" uses the female formula |
| NutritionService.BmrMonotone | planova/backend/app/services/nutrition_service.py:18-28 | the BMR grows with weight and height and falls with age |
| NutritionService.ActivityMultiplier | planova/backend/app/services/nutrition_service.py:36-41 | every activity multiplier lies between 1.2 and 1.725 |
| NutritionService.MultipliersOrdered | planova/backend/app/services/nutrition_service.py:36-41 | the multipliers strictly increase from sedentary to intense |
| NutritionService.CalculateTdee | planova/backend/app/services/nutrition_service.py:31-43 | for a non-negative BMR, the TDEE is at least the BMR and at most 1.725 times it |
| NutritionService.DailyCaloriesOrdered | planova/backend/app/services/nutrition_service.py:53-61 | the fat-loss target is at most maintenance, which is at most the muscle-gain target |
| NutritionService.MacrosAsWrittenAlwaysFail | planova/backend/app/services/nutrition_service.py:46-94 | as written, `calculate_macros` raises NameError on every input, because line 92 reads names that are not in scope |
| NutritionService.CalculateMacros | planova/backend/app/services/nutrition_service.py:46-94 | corrected: the daily target follows the goal; protein is weight times the goal's g/kg factor; fat supplies a quarter of the calories; the macros' calories add up exactly to the target; the reported BMR times the multiplier gives back the TDEE |
| NutritionService.MacrosRecoverBmr | planova/backend/app/services/nutrition_service.py:92 | with the activity level supplied, the reported BMR is the BMR the TDEE was computed from |
| NutritionService.NutritionPlanAsWrittenAlwaysFails | planova/backend/app/services/nutrition_service.py:97-128 | as written, `calculate_nutrition_plan` always fails, through `calculate_macros` |
| NutritionService.CalculateNutritionPlan | planova/backend/app/services/nutrition_service.py:97-128 | corrected: the BMR is the one for the age on `today`, the TDEE is that BMR times the activity multiplier, and the macros (protein, carbs, fat, daily calories) are `CalculateMacros` of that TDEE for the goal; for a positive weight a lean mass is reported iff a body fat other than 100% is given, and it is weight times (1 - bf/100) |
| NutritionService.LeanMassZero | planova/backend/app/services/nutrition_service.py:117-126 | for a positive weight the lean mass is 0 exactly at 100% body fat, the one case the truthiness test drops |
| WorkoutService.Days | planova/backend/app/services/workout_service.py:5-50 | the days of a split are its keys, in order |
| WorkoutService.WithSuffix | planova/backend/app/services/workout_service.py:40-48 | appending the goal's advice changes every day's entry by that suffix alone |
| WorkoutService.AppendToAllNotes | planova/backend/app/services/workout_service.py:38-48 | the nested loops append the suffix to the notes of every day of every level's split |
| WorkoutService.GetWorkoutSplit | planova/backend/app/services/workout_service.py:5-50 | the method returns the split of the chosen level, with the goal's suffix applied |
| WorkoutService.SplitShape | planova/backend/app/services/workout_service.py:13-35 | the days are 1,3,5 for beginners, 1,2,4,5 for intermediates and 1,2,3,5,6 for advanced users; each entry's day equals its key, carries the level, and is a valid weekday |
| WorkoutService.BaseShape | planova/backend/app/services/workout_service.py:13-35 | the split table before any suffix has the days, levels and day keys listed for `SplitShape` |
| WorkoutService.AdviceHasNoPeriod | planova/backend/app/services/workout_service.py:42-48 | neither goal's advice text contains a period |
| WorkoutService.OnePeriodAfterAppend | planova/backend/app/services/workout_service.py:42-48 | appending ". advice" to a note without periods leaves exactly one period |
| WorkoutService.SuffixAppliedOnce | planova/backend/app/services/workout_service.py:38-50 | each day's note is the base note plus the goal's suffix, and it holds one period for fat loss or muscle gain and none for maintenance, so the suffix is applied exactly once |
| WorkoutService.ExerciseDbValid | planova/backend/app/services/workout_service.py:58-183 | every muscle group lists exercises for one level only, and every exercise has positive sets and non-negative rest |
| WorkoutService.GetExercisesByMuscleGroup | planova/backend/app/services/workout_service.py:53-194 | the exercises returned are valid, and a non-empty list means the group is in the catalogue |
| WorkoutService.SplitGroupsHaveExercises | planova/backend/app/services/workout_service.py:185-187 | every group named by a split is catalogued at the split's own level, so the direct lookup answers, with a non-empty list |
| WorkoutService.SplitDaysHaveExercises | planova/backend/app/services/workout_service.py:53-194 | every day of every split gets at least one exercise |
| WorkoutService.LookupFallback | planova/backend/app/services/workout_service.py:185-194 | "Full Body A", catalogued for beginners only, answers every level with its beginner list; "Legs", catalogued for advanced users only, answers the other levels with nothing; an unknown group gives the empty list |
| WorkoutService.PlanFor | planova/backend/app/services/workout_service.py:197-218 | the plan has one entry per day of the split |
| WorkoutService.PlanOf | planova/backend/app/services/workout_service.py:208-216 | attaching exercises keeps one entry per day |
| WorkoutService.PlanDaysHaveExercises | planova/backend/app/services/workout_service.py:197-218 | the plan's days are the training days of the level, each carrying its split entry and a non-empty list of valid exercises |
| WorkoutService.GenerateWorkoutPlan | planova/backend/app/services/workout_service.py:197-218 | the loop builds exactly `PlanFor(level, goal)`, the plan `PlanDaysHaveExercises` describes |
| WorkoutService.AttachExercises | planova/backend/app/services/workout_service.py:208-216 | the loop pairs each day's entry with the lookup of its muscle group at the level |
| MealService.Values | planova/backend/app/services/meal_service.py:5-212 | `food_db.values()` lists the foods in table order |
| MealService.OfCategory | planova/backend/app/services/meal_service.py:365 | the category filter keeps only foods of that category |
| MealService.FoodsOf | planova/backend/app/services/meal_service.py:365-391 | every food the category list comprehension yields has that category |
| MealService.FoodsOfCategory | planova/backend/app/services/meal_service.py:5-212 | the foods of a category are that category's entries of the table, in table order |
| MealService.CategorySizes | planova/backend/app/services/meal_service.py:5-212 | the table holds 5 protein, 5 carb, 4 fat, 2 vegetable and 3 fruit foods |
| MealService.FoodDatabaseStocked | planova/backend/app/services/meal_service.py:365-392 | every category the selection draws from is non-empty, and each protein, carb or fat food has that macro, so no modulo or division fails |
| MealService.Pick | planova/backend/app/services/meal_service.py:366-392 | the food chosen by `hash(...) % len(...)` has the wanted category and a positive amount of the macro it is chosen for |
| MealService.CreateMealTemplate | planova/backend/app/services/meal_service.py:215-329 | every template's macro percentages add up to 1, and its calorie share is strictly between 0 and 1 |
| MealService.TemplateLookup | planova/backend/app/services/meal_service.py:329 | the four known meal types get their named template; any other type gets the maintenance snack template |
| MealService.AmountMeetsTarget | planova/backend/app/services/meal_service.py:367-377 | the grams computed for a food supply exactly the target amount of its macro |
| MealService.MealTargets | planova/backend/app/services/meal_service.py:345-362 | a meal's targets are the daily totals times the template's shares; its name and description come from the template |
| MealService.MealFoodsMeetTargets | planova/backend/app/services/meal_service.py:364-424 | the first three items are the hashed protein, carb and fat picks, sized so that they supply exactly the meal's protein, carbs and fat |
| MealService.MealSides | planova/backend/app/services/meal_service.py:379-446 | lunch and dinner get one standard vegetable serving and breakfast and snack one fruit serving, as the fourth item |
| MealService.SelectFoodsForMeal | planova/backend/app/services/meal_service.py:332-448 | the method builds exactly `MealFor`, the meal `MealTargets`, `MealFoodsMeetTargets` and `MealSides` describe |
| MealService.SelectFoodItems | planova/backend/app/services/meal_service.py:395-446 | the appends build exactly `MealFoods`: the three macro picks, then the vegetable or fruit serving |
| MealService.DayTemplates | planova/backend/app/services/meal_service.py:465-468 | a day has breakfast, lunch, dinner and snack, whose calorie shares add up to 1 for every goal |
| MealService.SharesOfWhole | planova/backend/app/services/meal_service.py:471-474 | shares adding up to 1 split a total without remainder |
| MealService.MealPlanShape | planova/backend/app/services/meal_service.py:451-485 | the plan's totals are the daily targets given, and its meals are breakfast, lunch, dinner and snack, in that order |
| MealService.DayMealFoodCount | planova/backend/app/services/meal_service.py:379-446 | each of the four named meals has exactly four food items |
| MealService.MealPlanFoodCounts | planova/backend/app/services/meal_service.py:451-485 | every meal of a generated day has four food items |
| MealService.MealPlanCalories | planova/backend/app/services/meal_service.py:451-485 | the four meals' calories add up to the daily calories |
| MealService.GenerateMealPlan | planova/backend/app/services/meal_service.py:451-485 | the method builds exactly `MealPlanFor` over the food table, whose shape, food counts and calories `MealPlanShape`, `MealPlanFoodCounts` and `MealPlanCalories` state |
| Store.Database.constructor | planova/backend/app/models/models.py:1-145 | a fresh database has every table empty, with its first key 1 |
| Store.Database.CommitPlanTables | planova/backend/app/api/endpoints/workout.py:56-114 | a commit of the workout tables replaces the plans and exercises and touches no other table |
| Store.Database.CommitAccount | planova/backend/app/api/endpoints/subscription.py:56-59 | a commit of a subscription change replaces the users and subscriptions tables and touches no other table |
| Store.Database.CommitMealTables | planova/backend/app/api/endpoints/nutrition.py:129-164 | a commit of the meal tables replaces those three tables and touches no other |
| Store.ProfileOf | planova/backend/app/api/endpoints/users.py:28 | the profile lookup finds a profile of the user, and finds none exactly when the user has none |
| Store.AddKeyed | planova/backend/app/models/models.py:11 | an insert under SQLite's next key takes a key no row had and keeps the keys increasing, with the next key one higher |
| Store.DeleteKeyed | planova/backend/app/models/models.py:11 | after a delete the keys still increase and the next key is SQLite's over the rows left: one past the largest remaining key, or 1 |
| Security.CreateAccessToken | planova/backend/app/core/security.py:35-47 | the claims keep every key of the data except `exp` and add none; they expire at now plus the delta, or after 30 minutes when no delta or a zero delta is given |
| Security.UserByEmail | planova/backend/app/core/security.py:70 | the user lookup finds a user with that email, and finds none exactly when there is none |
| Security.GetCurrentUser | planova/backend/app/core/security.py:50-75 | the user is found iff the token decodes, carries a subject and a user has that email; every failure is the same 401 "Could not validate credentials" |
| Security.GetCurrentActiveUser | planova/backend/app/core/security.py:78-82 | an active user passes through, an inactive one gets 400 "Inactive user", and an earlier error is kept |
| Security.GetPremiumUser | planova/backend/app/core/security.py:85-92 | a user passes iff the role is "premium"; any other role gets 403 "Premium subscription required for this feature" |
| Security.IssuedTokenResolves | planova/backend/app/core/security.py:35-75 | a token issued for an email resolves to the user with that email, or to 401 when there is no such user |
| Security.InactivePremiumPasses | planova/backend/app/core/security.py:78-92 | the premium check does not check activity: an inactive premium user passes it but fails the active-user check |
| Security.AdminIsNotPremium | planova/backend/app/core/security.py:85-92 | the admin role does not pass the premium check |
| SubscriptionEndpoints.SubscriptionOf | planova/backend/app/api/endpoints/subscription.py:28 | the lookup finds a subscription of the user, and finds none exactly when there is none |
| SubscriptionEndpoints.Subscribe | planova/backend/app/api/endpoints/subscription.py:18-63 | subscribing is refused iff the user already has an active premium subscription, with 400 "User already has an active premium subscription" |
| SubscriptionEndpoints.Cancel | planova/backend/app/api/endpoints/subscription.py:86-115 | cancelling is refused iff the user has no subscription or an inactive one, with 400 "No active subscription found" |
| SubscriptionEndpoints.GetSubscription | planova/backend/app/api/endpoints/subscription.py:67-82 | the read fails iff the user has no subscription, with 404 "No subscription found"; otherwise it returns the user's own subscription |
| SubscriptionEndpoints.SubscribeToPremium | planova/backend/app/api/endpoints/subscription.py:18-63 | on refusal nothing changes; otherwise the subscriptions become those `Subscribe` gives, the user's role becomes "premium", the returned row is stored and starts now, and the other tables are untouched; every table stays valid |
| SubscriptionEndpoints.CancelSubscription | planova/backend/app/api/endpoints/subscription.py:86-115 | on refusal nothing changes; otherwise the subscription becomes inactive and ends now, the role becomes "free", and the other tables are untouched; every table stays valid |
| SubscriptionEndpoints.PremiumRow | planova/backend/app/api/endpoints/subscription.py:36-53 | the row written for a user without an active premium subscription is their existing row rewritten or a new row, exactly as `Subscribe` gives; it is premium, active, starts now and ends 30 days later, and the table stays keyed |
| SubscriptionEndpoints.SubscribeEffect | planova/backend/app/api/endpoints/subscription.py:37-55 | subscribing leaves each user with at most one subscription, gives this user an active premium one, and leaves every other user's subscription as it was |
| SubscriptionEndpoints.CancelEffect | planova/backend/app/api/endpoints/subscription.py:105-107 | cancelling deactivates this user's subscription, ends it now, and leaves every other user's subscription as it was |
| SubscriptionEndpoints.SubscribeThenCancel | planova/backend/app/api/endpoints/subscription.py:18-115 | after subscribing and cancelling, the subscription is inactive and a second cancel is refused |
| SubscriptionEndpoints.RoleFollowsSubscription | planova/backend/app/api/endpoints/subscription.py:57-110 | subscribing sets the role to "premium" and cancelling sets it back to "free", and no other user changes |
| SubscriptionEndpoints.RewriteOwnRow | planova/backend/app/api/endpoints/subscription.py:40-45 | rewriting a user's own subscription row keeps one subscription per user, makes the lookup return the new row, and leaves other users' lookups unchanged |
| WorkoutEndpoints.PlansOf | planova/backend/app/api/endpoints/workout.py:52-53 | the query returns exactly the user's plans |
| WorkoutEndpoints.DeleteExercisesOf | planova/backend/app/api/endpoints/workout.py:59-60 | deleting a plan's exercises removes exactly the exercises of that plan |
| WorkoutEndpoints.DeletePlan | planova/backend/app/api/endpoints/workout.py:57-62 | deleting a plan removes it and its exercises and nothing else |
| WorkoutEndpoints.DeleteUserPlans | planova/backend/app/api/endpoints/workout.py:56-63 | the regeneration cascade removes the user's plans and their exercises |
| WorkoutEndpoints.StoreExercises | planova/backend/app/api/endpoints/workout.py:95-105 | the loop inserts one exercise row per template, in order |
| WorkoutEndpoints.StorePlanRows | planova/backend/app/api/endpoints/workout.py:76-107 | the loop stores each day's plan and its exercises, and collects the new plan keys |
| WorkoutEndpoints.StoreWorkoutPlan | planova/backend/app/api/endpoints/workout.py:76-107 | storing the plan changes the two workout tables as `StoreDays` does, touches no other table, and returns consecutive new keys |
| WorkoutEndpoints.StoreDaysInserts | planova/backend/app/api/endpoints/workout.py:76-107 | storing days appends one plan row per day, and appends the exercises with their plan keys |
| WorkoutEndpoints.Generate | planova/backend/app/api/endpoints/workout.py:35-114 | without a profile: 404 "Profile not found, please create a profile first"; with one, refused iff plans exist and the role is not premium, with 400 "Workout plan already exists. Premium subscription required to regenerate." |
| WorkoutEndpoints.GenerateUserWorkoutPlan | planova/backend/app/api/endpoints/workout.py:35-114 | on refusal the workout tables are unchanged; otherwise they become the tables `Generate` gives and its reply is returned; no other table changes |
| WorkoutEndpoints.GenerateWith | planova/backend/app/api/endpoints/workout.py:35-114 | the same, for any generator of the plan days |
| WorkoutEndpoints.GeneratorMatches | planova/backend/app/api/endpoints/workout.py:72-74 | the workout service generates the level's training days, each with exercises |
| WorkoutEndpoints.GenerateOk | planova/backend/app/api/endpoints/workout.py:43-107 | a successful generation clears the user's plans, then stores the plan generated for the profile's goal |
| WorkoutEndpoints.GenerateReplyShape | planova/backend/app/api/endpoints/workout.py:56-114 | the reply says "Workout plan generated successfully", lists the level's training days, and lists consecutive plan keys from `FirstNewPlanKey`: SQLite's next key once the user's old plans are deleted |
| WorkoutEndpoints.GenerateReplacesPlans | planova/backend/app/api/endpoints/workout.py:43-107 | afterwards the user's plans are exactly the new rows, keyed consecutively from `FirstNewPlanKey`; every other user's plans are unchanged |
| WorkoutEndpoints.GeneratedDaysFound | planova/backend/app/api/endpoints/workout.py:118-145 | after generation, reading a valid day succeeds iff it is one of the level's training days |
| WorkoutEndpoints.GeneratedPlansHaveExercises | planova/backend/app/api/endpoints/workout.py:76-107 | every plan key in the reply has at least one stored exercise |
| WorkoutEndpoints.GenerateExercises | planova/backend/app/api/endpoints/workout.py:56-107 | afterwards every exercise is either an earlier exercise of a plan that was not the user's or a new one filed under a plan key of the reply (which may be a reused key of a deleted plan); every exercise of another plan is kept |
| WorkoutEndpoints.StoreDaysPlansOf | planova/backend/app/api/endpoints/workout.py:76-90 | storing days adds the new rows to that user's plans only |
| WorkoutEndpoints.ClearedForPlansOf | planova/backend/app/api/endpoints/workout.py:56-63 | clearing leaves the user no plans and keeps other users' plans; the next key becomes `FirstNewPlanKey`, SQLite's key over the plans left |
| WorkoutEndpoints.FirstNewPlanKeyIs | planova/backend/app/api/endpoints/workout.py:56-91 | the first key of a regenerated plan is above every key of another user's plan and is either 1 or one past such a key; with no other user's plan it is 1, so the deleted plans' keys are handed out again |
| WorkoutEndpoints.RegenerationRestartsKeys | planova/backend/app/api/endpoints/workout.py:56-114 | when every stored plan is the user's, a generation's reply lists the keys 1, 2, ... again |
| WorkoutEndpoints.GenerateKeepsSoleOwner | planova/backend/app/api/endpoints/workout.py:56-107 | when every stored plan is the user's, so is every plan after a generation, and the keys stay increasing with SQLite's next key |
| WorkoutEndpoints.RegenerateSameReply | planova/backend/app/api/endpoints/workout.py:56-114 | on a fresh database a premium user who generates twice gets the same reply both times, with plan keys 1, 2, ... |
| WorkoutEndpoints.GetWorkoutPlanByDay | planova/backend/app/api/endpoints/workout.py:118-145 | a day outside 1..7 gets 400 "Day must be between 1 and 7"; a valid day fails iff the user has no plan for it, with 404 "No workout plan found for day N"; a hit is the user's plan for that day |
| WorkoutEndpoints.OwnedPlan | planova/backend/app/api/endpoints/workout.py:159-162 | the lookup finds the plan with that key iff it belongs to the user |
| WorkoutEndpoints.OwnedExercise | planova/backend/app/api/endpoints/workout.py:231-234 | the lookup finds the exercise with that key iff its plan belongs to the user |
| WorkoutEndpoints.PatchPlan | planova/backend/app/api/endpoints/workout.py:171-173 | a patch never moves a plan to another user |
| WorkoutEndpoints.PatchPlanLaws | planova/backend/app/api/endpoints/workout.py:171-173 | the empty patch changes nothing, and applying a patch twice is the same as once |
| WorkoutEndpoints.PatchPlanKeepsDay | planova/backend/app/api/endpoints/workout.py:171-173 | a valid patch keeps the day within 1..7 |
| WorkoutEndpoints.UpdateWorkoutPlan | planova/backend/app/api/endpoints/workout.py:149-178 | without an owned plan: 404 "Workout plan not found or you don't have access to it" and no change; otherwise the plan row is patched in place and returned |
| WorkoutEndpoints.UpdatePlanKeepsOthers | planova/backend/app/api/endpoints/workout.py:171-175 | patching a plan leaves every other user's plans unchanged, and the patched plan is still found as the user's |
| WorkoutEndpoints.AddExerciseToPlan | planova/backend/app/api/endpoints/workout.py:182-217 | without an owned plan: 404 and no change; otherwise one exercise row is inserted under SQLite's next key (one past the largest exercise key, or 1) and returned |
| WorkoutEndpoints.AddedExerciseOwned | planova/backend/app/api/endpoints/workout.py:203-217 | the added exercise is found again as the user's |
| WorkoutEndpoints.PatchExercise | planova/backend/app/api/endpoints/workout.py:243-245 | a patch never moves an exercise to another plan |
| WorkoutEndpoints.PatchExerciseKeepsValid | planova/backend/app/api/endpoints/workout.py:243-245 | a valid patch keeps positive sets and non-negative rest |
| WorkoutEndpoints.UpdateExercise | planova/backend/app/api/endpoints/workout.py:221-250 | without an owned exercise: 404 "Exercise not found or you don't have access to it" and no change; otherwise the row is patched in place and returned |
| WorkoutEndpoints.DeleteExercise | planova/backend/app/api/endpoints/workout.py:254-278 | without an owned exercise: 404 and no change; otherwise the row is removed and the reply is "Exercise deleted successfully" |
| WorkoutEndpoints.DeleteExerciseEffect | planova/backend/app/api/endpoints/workout.py:275-276 | after deletion the exercise is no longer found, and exactly the rows with other keys remain |
| NutritionEndpoints.GetNutritionPlan | planova/backend/app/api/endpoints/nutrition.py:23-46 | fails iff the user has no profile, with 404; otherwise it reports the stored BMR and macros, with the daily calories equal to the stored TDEE |
| NutritionEndpoints.MealPlansOf | planova/backend/app/api/endpoints/nutrition.py:57 | the query returns exactly the user's meal plans |
| NutritionEndpoints.MealPlanOfDay | planova/backend/app/api/endpoints/nutrition.py:86-89 | the lookup finds a plan of the user for that day, and finds none exactly when there is none |
| NutritionEndpoints.GetMealPlanByDay | planova/backend/app/api/endpoints/nutrition.py:171-198 | a day outside 1..7 gets 400; a valid day fails iff the user has no plan for it, with 404 "No meal plan found for day N"; a hit is the user's plan for that day |
| NutritionEndpoints.DeleteMealPlan | planova/backend/app/api/endpoints/nutrition.py:93-103 | the cascade's loops compute `ClearMealPlan`: the plan, its meals and their foods are deleted |
| NutritionEndpoints.ClearMealPlanEffect | planova/backend/app/api/endpoints/nutrition.py:93-103 | exactly that plan, the meals in it and the foods in those meals are removed |
| NutritionEndpoints.GenerateMeals | planova/backend/app/api/endpoints/nutrition.py:62-167 | a bad day gets 400; no profile gets 404; otherwise refused iff a plan exists for the day and the role is not premium, with 400 "Meal plan already exists for this day. Premium subscription required to regenerate." |
| NutritionEndpoints.GenerateUserMealPlan | planova/backend/app/api/endpoints/nutrition.py:62-167 | on refusal the meal tables are unchanged; otherwise they become the tables `GenerateMeals` gives and its reply is returned; no other table changes |
| NutritionEndpoints.GenerateMealsWith | planova/backend/app/api/endpoints/nutrition.py:62-167 | the same, for any meal generator |
| NutritionEndpoints.GenerateMealsOn | planova/backend/app/api/endpoints/nutrition.py:71-164 | the handler's steps compute exactly `GenerateMeals` on the meal tables |
| NutritionEndpoints.StoreMealPlan | planova/backend/app/api/endpoints/nutrition.py:119-164 | storing inserts the plan row, then each meal and its food items |
| NutritionEndpoints.StoreMealRows | planova/backend/app/api/endpoints/nutrition.py:134-164 | the loop inserts each meal, then its food items |
| NutritionEndpoints.StoreFoodItems | planova/backend/app/api/endpoints/nutrition.py:150-162 | the loop inserts one food row per item, in order |
| NutritionEndpoints.GeneratedKeyed | planova/backend/app/api/endpoints/nutrition.py:62-167 | generation keeps every meal table's keys increasing, with SQLite's next key |
| NutritionEndpoints.ClearedForPlans | planova/backend/app/api/endpoints/nutrition.py:91-103 | clearing removes the user's plan for that day, keeps every other user's and day's plan, and leaves `NewMealPlanKey` as the next key |
| NutritionEndpoints.NewMealPlanKeyIs | planova/backend/app/api/endpoints/nutrition.py:91-131 | a regenerated day's plan key is above every key of the plans that stay and is either 1 or one past such a key, so the replaced plan's key may be handed out again |
| NutritionEndpoints.GeneratedPlanFound | planova/backend/app/api/endpoints/nutrition.py:91-167 | after generation the reply's key is `NewMealPlanKey` and the user's plan for the day is the new row under it; every other user's and day's plan is unchanged |
| NutritionEndpoints.GenerateKeepsLinked | planova/backend/app/api/endpoints/nutrition.py:91-164 | generation leaves no meal without its plan and no food without its meal |
| NutritionEndpoints.GeneratedMeals | planova/backend/app/api/endpoints/nutrition.py:134-146 | the new plan's meals are the generated meals, in order |
| NutritionEndpoints.GeneratedTotals | planova/backend/app/api/endpoints/nutrition.py:110-164 | the stored meals of the new plan add up to the generated meals' totals; when the generator's calories add up, the plan's calorie total equals its meals' sum |
| NutritionEndpoints.MealGeneratorCaloriesAddUp | planova/backend/app/api/endpoints/nutrition.py:111-117 | the service's plan splits the profile's daily calories over its meals without remainder |
| NutritionEndpoints.GeneratedCaloriesBalance | planova/backend/app/api/endpoints/nutrition.py:62-167 | after a generation, the user's plan for the day exists and its calorie total equals the sum of its meals' calories |
| NutritionEndpoints.AddMeal | planova/backend/app/api/endpoints/nutrition.py:202-254 | a bad day gets 400; the add fails iff the user has no plan for the day, with 404; otherwise one meal row is inserted under the table's next key (SQLite's, in a valid table) and returned |
| NutritionEndpoints.AddedMealInPlan | planova/backend/app/api/endpoints/nutrition.py:230-242 | the plan's meals grow by exactly the new meal; other plans' meals are unchanged |
| NutritionEndpoints.AddMealKeepsDrift | planova/backend/app/api/endpoints/nutrition.py:244-251 | raising the plan totals by the meal's values keeps, for every plan and macro, the gap between the plan total and its meals' sum |
| NutritionEndpoints.AddMealToPlan | planova/backend/app/api/endpoints/nutrition.py:202-254 | on failure nothing changes; otherwise the meal tables become those `AddMeal` gives; no other table changes |
| NutritionEndpoints.OwnedMeal | planova/backend/app/api/endpoints/nutrition.py:267-271 | the lookup finds the meal with that key iff its plan belongs to the user |
| NutritionEndpoints.AddFood | planova/backend/app/api/endpoints/nutrition.py:258-312 | fails iff the meal is not the user's, with 404 "Meal not found or you don't have access to it"; otherwise one food row is inserted under the table's next key (SQLite's, in a valid table) and the reply is "Food item added successfully" with that key |
| NutritionEndpoints.AddFoodKeepsPlanDrift | planova/backend/app/api/endpoints/nutrition.py:294-310 | raising the meal and the plan by the food's values keeps every plan's gap to its meals' sum |
| NutritionEndpoints.AddFoodKeepsMealDrift | planova/backend/app/api/endpoints/nutrition.py:294-300 | raising the meal by the food's values keeps every meal's gap to its foods' sum |
| NutritionEndpoints.AddFoodToMeal | planova/backend/app/api/endpoints/nutrition.py:258-312 | on failure nothing changes; otherwise the meal tables become those `AddFood` gives; no other table changes |
| NutritionEndpoints.GenerateKeepsConsistent | planova/backend/app/api/endpoints/nutrition.py:62-167 | generation keeps the meal tables keyed, with one plan per user and day and no orphans |
| NutritionEndpoints.AddMealKeepsConsistent | planova/backend/app/api/endpoints/nutrition.py:202-254 | adding a meal keeps the same invariant |
| NutritionEndpoints.AddFoodKeepsConsistent | planova/backend/app/api/endpoints/nutrition.py:258-312 | adding a food keeps the same invariant |
| UserEndpoints.NewProfile | planova/backend/app/api/endpoints/users.py:34-74 | the stored profile copies the submitted fields; its age is the age today; its BMR and TDEE follow the formulas; its macros' calories add up to the goal's target; a lean mass is stored iff a body fat is given |
| UserEndpoints.NewProfileConsistent | planova/backend/app/api/endpoints/users.py:34-74 | a new profile's energy and lean-mass columns agree with its inputs |
| UserEndpoints.CreateProfile | planova/backend/app/api/endpoints/users.py:19-80 | creation is refused iff the user already has a profile, with 400 "Profile already exists" |
| UserEndpoints.CreateAsWrittenNeverStores | planova/backend/app/api/endpoints/users.py:19-80 | as written, creation either is refused or raises NameError, so no profile is ever stored |
| UserEndpoints.CreateThenGet | planova/backend/app/api/endpoints/users.py:19-98 | after creation, reading returns the new profile, other users' profiles are unchanged, and a second creation is refused |
| UserEndpoints.CreateKeepsUnique | planova/backend/app/api/endpoints/users.py:19-80 | creation keeps at most one profile per user |
| UserEndpoints.GetUserProfile | planova/backend/app/api/endpoints/users.py:84-98 | the read fails iff the user has no profile, with 404 "Profile not found"; otherwise it returns the user's own profile |
| UserEndpoints.BuildUpdateData | planova/backend/app/api/endpoints/users.py:118-160 | the method builds exactly `UpdateDataFor`: the supplied fields, the new age, the recomputed energy columns and lean mass |
| UserEndpoints.UpdateTakesSupplied | planova/backend/app/api/endpoints/users.py:163-165 | each supplied field takes the new value, each unset field keeps the stored one, and the owner never changes |
| UserEndpoints.UpdateAge | planova/backend/app/api/endpoints/users.py:121-122 | the age is recomputed iff the date of birth is supplied |
| UserEndpoints.UpdateEnergy | planova/backend/app/api/endpoints/users.py:125-152 | when an input of the formulas is supplied, BMR, TDEE and macros are recomputed from the merged profile; otherwise they are kept |
| UserEndpoints.UpdateLeanMass | planova/backend/app/api/endpoints/users.py:155-160 | the lean mass is recomputed when body fat or weight is supplied and a body fat is then set; otherwise the stored one is kept |
| UserEndpoints.ClearingBodyFatKeepsLeanMass | planova/backend/app/api/endpoints/users.py:155-160 | clearing the body fat leaves the stale lean mass in place |
| UserEndpoints.UpdateKeepsConsistent | planova/backend/app/api/endpoints/users.py:118-165 | an update keeps the energy and lean-mass columns consistent with the profile's inputs |
| UserEndpoints.UpdateProfile | planova/backend/app/api/endpoints/users.py:102-169 | the update fails iff the user has no profile, with 404 "Profile not found" |
| UserEndpoints.UpdateThenGet | planova/backend/app/api/endpoints/users.py:102-169 | after an update, reading returns the updated profile under the same key, and other users' profiles are unchanged |
| UserEndpoints.UpdateAsWrittenFailsIffRecalculating | planova/backend/app/api/endpoints/users.py:125-145 | as written, an update raises NameError exactly when it has to recompute the macros, and otherwise succeeds |
| UserEndpoints.CreateUserProfile | planova/backend/app/api/endpoints/users.py:19-80 | on refusal nothing changes; otherwise the profile table gains the new profile, which is returned under the next key; every table stays valid |
| UserEndpoints.UpdateUserProfile | planova/backend/app/api/endpoints/users.py:102-169 | on failure nothing changes; otherwise the user's row is replaced by the updated profile, which is returned; every table stays valid |
| ApiClient.OrDefault | planova/frontend/lib/api/api.ts:82-106 | a string with a fallback for when it is falsy, as for the status text (line 82) and a network error's message (line 106): the result is the value or the fallback, and it is the fallback iff the value is empty or already equals the fallback |
| ApiClient.Member | planova/frontend/lib/api/api.ts:94-97 | reading a property of null or undefined fails; a missing key reads as undefined |
| ApiClient.BuildUrl | planova/frontend/lib/api/api.ts:40 | the URL is the base followed by the endpoint, with exactly one "/" between them |
| ApiClient.UrlIgnoresLeadingSlash | planova/frontend/lib/api/api.ts:40 | an endpoint with or without its leading "/" gives the same URL |
| ApiClient.PrepareRequest | planova/frontend/lib/api/api.ts:32-70 | the steps build exactly `RequestFor`: the request `PreparedHeaders` and `BodyCases` describe, or the missing-token error |
| ApiClient.MissingTokenEscapes | planova/frontend/lib/api/api.ts:46-52 | without a stored token an authenticated request throws the plain `Error`, before `fetch` is called and outside the `catch` |
| ApiClient.PreparedHeaders | planova/frontend/lib/api/api.ts:43-70 | the request carries the caller's headers, the Bearer token when auth is required, the JSON content type for a JSON body, and credentials "include" |
| ApiClient.BodyCases | planova/frontend/lib/api/api.ts:62-70 | a form body is sent as-is; any other truthy body is sent as JSON; a falsy body sends no body |
| ApiClient.ApiRequest | planova/frontend/lib/api/api.ts:28-111 | the method resolves or rejects exactly as `Perform` does, whose outcomes `ThrownValues` and `ResolvesOnlyOk` describe |
| ApiClient.ThrownValues | planova/frontend/lib/api/api.ts:73-110 | a rejection is the auth error, a network failure with status 0, or a non-ok response carrying its own status |
| ApiClient.ResolvesOnlyOk | planova/frontend/lib/api/api.ts:77-100 | the request resolves only for an ok response, and does resolve for every ok response it can read |
| ApiClient.ErrorDetailPassedThrough | planova/frontend/lib/api/api.ts:92-98 | a JSON error response rejects with its status, its truthy `detail` or "Request failed", and the body as details |
| ApiClient.LoginRequestShape | planova/frontend/lib/api/api.ts:117-127 | login posts a form with `username` and `password` and no token |
| ApiClient.RegisterRequestShape | planova/frontend/lib/api/api.ts:129-134 | register posts the email and password as JSON |
| AuthContext.RoleOr | planova/frontend/lib/auth/auth-context.tsx:41 | a missing role defaults to "user" |
| AuthContext.PayloadSegment | planova/frontend/lib/auth/auth-context.tsx:38 | the decoder reads the second dot-separated segment of the token |
| AuthContext.UrlAlphabetNeverDecodes | planova/frontend/lib/auth/auth-context.tsx:38 | a payload in the base64url alphabet never decodes with `atob` |
| AuthContext.AuthProvider.constructor | planova/frontend/lib/auth/auth-context.tsx:25-27 | the provider starts loading, with no token and no user |
| AuthContext.AuthProvider.Mount | planova/frontend/lib/auth/auth-context.tsx:31-50 | mounting takes the session to `Mounted`, which `MountWithoutToken`, `MountDecodable` and `MountUndecodable` describe |
| AuthContext.AuthProvider.Login | planova/frontend/lib/auth/auth-context.tsx:52-78 | login takes the session and the outcome to `LoggedIn`, which `LoginSucceeds`, `LoginRequestFails` and `LoginKeepsUndecodableToken` describe |
| AuthContext.AuthProvider.Register | planova/frontend/lib/auth/auth-context.tsx:80-93 | registration takes the session and the outcome to `Registered`, which `RegisterKeepsSession` describes |
| AuthContext.AuthProvider.Logout | planova/frontend/lib/auth/auth-context.tsx:95-100 | logout takes the session to `LoggedOut`, which `LogoutIdempotent` describes |
| AuthContext.MountWithoutToken | planova/frontend/lib/auth/auth-context.tsx:31-50 | with nothing stored, mounting only stops loading and leaves the user signed out |
| AuthContext.MountDecodable | planova/frontend/lib/auth/auth-context.tsx:33-42 | a decodable stored token restores the user and the token |
| AuthContext.MountUndecodable | planova/frontend/lib/auth/auth-context.tsx:43-46 | an undecodable stored token is removed from storage but stays in state, so the session still counts as authenticated without a user |
| AuthContext.LoginSucceeds | planova/frontend/lib/auth/auth-context.tsx:52-78 | a decodable token is stored and kept, the user is set, and the dashboard is pushed |
| AuthContext.LoginRequestFails | planova/frontend/lib/auth/auth-context.tsx:52-78 | a failed request rethrows its error and only stops loading |
| AuthContext.LoginKeepsUndecodableToken | planova/frontend/lib/auth/auth-context.tsx:60-64 | a token that does not decode is stored before the decode fails; the login then rejects without navigating |
| AuthContext.RegisterKeepsSession | planova/frontend/lib/auth/auth-context.tsx:80-93 | registration never touches the session; it navigates to the login page iff the request succeeds |
| AuthContext.LogoutIdempotent | planova/frontend/lib/auth/auth-context.tsx:95-100 | logout leaves no token, no user and nothing stored, and a second logout only pushes the login page again |
| AuthContext.GuardDecision | planova/frontend/lib/auth/auth-context.tsx:128-150 | the guard redirects exactly when it renders nothing, and shows its children iff loading is over and the session is authenticated |
| AuthContext.GuardAfterLoginAndLogout | planova/frontend/lib/auth/auth-context.tsx:52-150 | after a successful login the guard shows its children; after a logout it redirects |
| PremiumGate.Gate.constructor | planova/frontend/components/premium-gate.tsx:21 | the gate starts idle, with no navigation |
| PremiumGate.Gate.HandleUpgradeClick | planova/frontend/components/premium-gate.tsx:25-28 | a click starts loading and pushes the subscription page |
| PremiumGate.GateChoice | planova/frontend/components/premium-gate.tsx:23-72 | children show iff the user is premium; the fallback shows iff the user is not premium and a fallback is given; otherwise the upgrade prompt shows, disabled while loading |
| PremiumGate.PremiumFromClaims | planova/frontend/components/premium-gate.tsx:23 | a signed-in user is premium iff the token's `role` claim is the backend's "premium" value |
| PremiumGate.ClickDisablesButton | planova/frontend/components/premium-gate.tsx:64-69 | the button reads "Redirecting..." and is disabled while loading, and reads "Upgrade to Premium" otherwise |
| LoginPage.EmailMatchesPattern | planova/frontend/app/login/page.tsx:100 | the executable email check accepts exactly the strings the pattern describes |
| LoginPage.EmailRule | planova/frontend/app/login/page.tsx:97-103 | the email is accepted iff it matches the pattern; it is reported as required iff it is empty |
| LoginPage.PasswordRule | planova/frontend/app/login/page.tsx:118-124 | the password is accepted iff JavaScript counts at least 8 UTF-16 code units; every password the backend's `UserCreate` rule accepts passes, and the two agree on passwords without characters above U+FFFF |
| LoginPage.PasswordRuleLooserThanBackend | planova/frontend/app/login/page.tsx:118-124 | four emoji pass the page's 8-character rule but not the backend's, which counts 4 characters |
| LoginPage.BrowserStricterThanPattern | planova/frontend/app/login/page.tsx:93-103 | "a@-b.cc" passes the page's pattern, but the browser's `type="email"` check blocks it |
| LoginPage.BrowserAcceptsOrdinaryEmail | planova/frontend/app/login/page.tsx:93-95 | the browser's `type="email"` check lets "a@b.cc" through |
| LoginPage.ErrorTextForResponses | planova/frontend/app/login/page.tsx:50-55 | a non-empty string `detail` from the backend is shown as-is; a validation list shows the generic message |
| LoginPage.ErrorTextForRejection | planova/frontend/app/login/page.tsx:50-55 | a network failure's message is shown as-is |
| LoginPage.LoginForm.constructor | planova/frontend/app/login/page.tsx:20-22 | the form starts idle, with no error and no message |
| LoginPage.LoginForm.CheckArrival | planova/frontend/app/login/page.tsx:31-41 | arriving with `registered=true` shows the success message; an authenticated visitor is sent to the dashboard |
| LoginPage.LoginForm.OnSubmit | planova/frontend/app/login/page.tsx:43-59 | run only once the browser's email check and both validators pass; submitting runs the provider's login and shows the failure's text, or no error on success |
| ProfileForm.DigitsRoundTrip | planova/frontend/app/dashboard/profile/page.tsx:78-80 | a zero-padded number reads back as itself |
| ProfileForm.IsoDateRoundTrip | planova/frontend/app/dashboard/profile/page.tsx:78-80 | a calendar date written as "YYYY-MM-DD" parses back to itself |
| ProfileForm.NumericRanges | planova/frontend/app/dashboard/profile/create/page.tsx:148-212 | height is accepted iff within 100..250, weight iff within 30..300, and body fat iff absent or within 3..50, all bounds inclusive |
| ProfileForm.StepStricterThanRange | planova/frontend/app/dashboard/profile/create/page.tsx:144-162 | a height of 175.25 passes the range check but the browser's `step="0.1"` check blocks it; 175.3 passes both |
| ProfileForm.AgeRule | planova/frontend/app/dashboard/profile/create/page.tsx:124-131 | a date of birth is accepted iff the difference of calendar years is between 18 and 100 |
| ProfileForm.AgeRuleLooserThanBackend | planova/frontend/app/dashboard/profile/create/page.tsx:124-131 | the backend's age is the year difference or one less; a user born 2000-12-31 passes the form on 2018-01-01 with a backend age of 17 |
| ProfileForm.AcceptedMeetsBackendRanges | planova/frontend/app/dashboard/profile/create/page.tsx:37-54 | every form the page accepts has a parseable date and numbers inside the backend's profile ranges |
| ProfileForm.OptionsAgainstBackend | planova/frontend/app/dashboard/profile/create/page.tsx:14-34 | the backend accepts only the first activity option and all but the first goal option; the default activity is rejected and the default goal is "maintain" |
| ProfileForm.ErrorBodyCases | planova/frontend/app/dashboard/profile/create/page.tsx:56-59 | a non-empty `detail` is shown; an error body without one shows the page's fallback |
| CreateProfilePage.CreateForm.constructor | planova/frontend/app/dashboard/profile/create/page.tsx:21-22 | the page starts idle, with no error, no request and no navigation |
| CreateProfilePage.CreateForm.OnSubmit | planova/frontend/app/dashboard/profile/create/page.tsx:37-68 | without a token: "Not authenticated" and no request; otherwise one POST; an unreachable server shows its message, a non-ok reply shows its error body, and success pushes the dashboard |
| ProfilePage.ResetDateValidates | planova/frontend/app/dashboard/profile/page.tsx:78-86 | the form is reset with the date in ISO form, which the form's own age rule judges by calendar years |
| ProfilePage.ProfileView.constructor | planova/frontend/app/dashboard/profile/page.tsx:33-37 | the page starts loading, with no profile, no form and no requests |
| ProfilePage.ProfileView.FetchProfile | planova/frontend/app/dashboard/profile/page.tsx:47-96 | without a token the page goes to login; a 404 goes to the create page; other failures show an error; success stores the profile and resets the form from it |
| ProfilePage.ProfileView.OnSubmit | planova/frontend/app/dashboard/profile/page.tsx:98-142 | without a token: "Not authenticated"; otherwise one PUT; a failure shows an error and keeps the profile; success shows "Profile updated successfully" and the new profile |
| WorkoutsPage.TodayName | planova/frontend/app/dashboard/workouts/page.tsx:61 | today's name is one of the seven day names |
| WorkoutsPage.ActiveDayChoice | planova/frontend/app/dashboard/workouts/page.tsx:62-69 | today is active if a plan day has its name; otherwise the first day is, and no day is active when there are none |
| WorkoutsPage.ActiveDayShown | planova/frontend/app/dashboard/workouts/page.tsx:62-69 | the active day chosen always has a detail card |
| WorkoutsPage.DetailDaysNamed | planova/frontend/app/dashboard/workouts/page.tsx:216-217 | the detail cards shown are exactly of the active day |
| WorkoutsPage.NoFourNo404 | planova/frontend/app/dashboard/workouts/page.tsx:70-77 | a message without the digit 4 cannot contain "404" |
| WorkoutsPage.ToleranceNeverFires | planova/frontend/app/dashboard/workouts/page.tsx:70-77 | no rejection of `apiRequest` is swallowed by the "404" check |
| WorkoutsPage.MissingPlanSurfaces | planova/frontend/app/dashboard/workouts/page.tsx:70-80 | a 404 for the plan is reported with the page's fallback message |
| WorkoutsPage.WorkoutsView.constructor | planova/frontend/app/dashboard/workouts/page.tsx:39-43 | the page starts loading, with no plan, no days and no error |
| WorkoutsPage.WorkoutsView.FetchWorkoutData | planova/frontend/app/dashboard/workouts/page.tsx:45-87 | the plan is kept when it arrives; the days and the active day are set when both requests succeed; otherwise the error is shown unless it is swallowed; loading always ends |
| WorkoutsPage.WorkoutsView.GenerateWorkoutPlan | planova/frontend/app/dashboard/workouts/page.tsx:89-118 | the generated plan and its days replace the page's state and pick the active day; a failure shows its message; loading always ends |

## Left out

- NutritionService.CalculateMacros: the values are exact; the `round(x, 1)` and `round(x, 0)` of the reply are not modelled, so the proved sums hold before rounding only.
- NutritionService.CalculateNutritionPlan: `round(lean_mass_kg, 1)` is not modelled, for the same reason.
- MealService.SelectFoodsForMeal: the item quantities and macros are exact; the `round` calls of lines 398-423 are not modelled.
- Python's string `hash` is randomised per process, so it is a parameter of the meal generator; the model says which food is picked for a given hash, not which hash a run will see.
- Floating point in general: heights, weights and energies are exact reals.
- JWT signing and verification (`jwt.encode`, `jwt.decode`) and token expiry checks are a decoder parameter; `SECRET_KEY` and the algorithm are not modelled.
- Password hashing (`verify_password`, `get_password_hash`) and the auth endpoints that use them are outside this core.
- SQLAlchemy sessions, `refresh`, relationship loading and transactions are modelled only as table values and commits; concurrency between requests is not modelled.
- Pydantic runs before the handlers; a handler's body is assumed valid (a `requires` on the schema predicate). An explicit JSON `null` for a non-nullable update field is not modelled.
- The wall clock (`date.today()`, `datetime.utcnow()`, `new Date()`) is a parameter; time zones are not modelled.
- `get_workout_plans` and `get_meal_plans` are plain list queries; they are modelled by `PlansOf` and `MealPlansOf` but have no handler of their own.
- Routing, path prefixes and the agreement of frontend paths with backend routes are not modelled; `main.py` start-up seeding of an admin user is not modelled.
- The nutrition, subscription, dashboard home and layout pages are outside this core.
- UI rendering, styling and the form library's internals are not modelled; each page keeps the state its rendering reads.
- `new Error(x)` text conversion, `JSON.stringify` text, NaN and V8 error wording are not modelled; errors keep the value thrown.
- A login response without an `access_token` string, and a failing `response.text()`, are not modelled.
- `localStorage` is one optional string slot for the token; other keys and storage events are not modelled.
- LoginPage.PasswordRule: does not promise that the page and the backend's `UserCreate` rule agree on every password. JavaScript counts UTF-16 code units and Python counts characters, so they agree only on passwords without characters above U+FFFF (`LoginPage.PasswordRuleLooserThanBackend`).
- The browser's email check (`LoginPage.BrowserEmailValid`) is the HTML standard's grammar over ASCII. A browser's conversion of a non-ASCII domain to punycode before the check is not modelled; the page's own pattern admits ASCII only.
- The browser's step check (`ProfileForm.OnStep`) is exact arithmetic on tenths. The browser's floating-point tolerance is not modelled.
- SQLite's fallback, a random unused key once the largest rowid is the 64-bit maximum, is not modelled; keys are unbounded integers.

## Findings

| source | as written | input that shows it | evidently intended | confidence | as-written member | corrected member |
|---|---|---|---|---|---|---|
| planova/backend/app/services/nutrition_service.py:92 | `calculate_macros` reads `activity_multipliers` and `activity_level`, which are local to `calculate_tdee` or not parameters at all, so every call raises NameError | any call, e.g. weight 70, TDEE 2000, goal maintain | report the BMR as the TDEE divided by the multiplier of the user's activity level | not executed | NutritionService.CalculateMacrosAsWritten (NutritionService.MacrosAsWrittenAlwaysFail) | NutritionService.CalculateMacros (NutritionService.MacrosRecoverBmr) |
| planova/backend/app/services/nutrition_service.py:122 | `calculate_nutrition_plan` calls `calculate_macros`, so it always raises | any profile | return the BMR, TDEE, macros and lean mass of the profile | not executed | NutritionService.CalculateNutritionPlanAsWritten (NutritionService.NutritionPlanAsWrittenAlwaysFails) | NutritionService.CalculateNutritionPlan (NutritionService.LeanMassZero) |
| planova/backend/app/api/endpoints/users.py:50 | creating a profile calls `calculate_macros`, so a user without a profile gets a server error and no profile is stored | any user without a profile posting a valid body | store the computed profile and return it | not executed | UserEndpoints.CreateProfileAsWritten (UserEndpoints.CreateAsWrittenNeverStores) | UserEndpoints.CreateProfile (UserEndpoints.CreateThenGet) |
| planova/backend/app/api/endpoints/users.py:145 | an update touching gender, weight, height, date of birth, activity or goal calls `calculate_macros` and fails | an update that sets `weight_kg` | recompute BMR, TDEE and macros and store them | not executed | UserEndpoints.UpdateProfileAsWritten (UserEndpoints.UpdateAsWrittenFailsIffRecalculating) | UserEndpoints.UpdateProfile (UserEndpoints.UpdateThenGet) |
