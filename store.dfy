/**
 * The stored records of the backend and the session object the endpoints read and write.
 * A table keeps its rows in primary-key order together with the key its next insert receives,
 * so a query's `.first()` is the lowest-keyed matching row. The integer primary keys are SQLite
 * rowids without AUTOINCREMENT: an insert receives the largest key present plus one, or 1 in an
 * empty table, so once the last rows are deleted their keys are handed out again.
 */
module Store {
  import opened Wrappers
  import opened Seqs
  import opened Schemas

  /** A stored row: its primary key and its columns. */
  datatype Row<T> = Row(id: int, value: T)

  /** A table: its rows in key order and the key of the next insert (`NextKey(rows)` in a `Keyed` table). */
  datatype Table<T> = Table(rows: seq<Row<T>>, nextId: int)
  {
    /** `db.add(row)` then a commit: the row is stored under the next key. */
    function Add(v: T): Table<T>
    {
      Table(rows + [Row(nextId, v)], nextId + 1)
    }

    /** `query.filter(p).first()`. */
    function First(p: Row<T> -> bool): (r: Option<Row<T>>)
      ensures r.Some? ==> r.value in rows && p(r.value)
      ensures r.None? <==> forall i :: 0 <= i < |rows| ==> !p(rows[i])
    {
      Find(rows, p)
    }

    /** `query.filter(p).all()`. */
    function Where(p: Row<T> -> bool): seq<Row<T>>
    {
      Filter(rows, p)
    }

    /** `db.delete` of every row satisfying `p`: the next key is recomputed from the rows left. */
    function Delete(p: Row<T> -> bool): Table<T>
    {
      var left := Filter(rows, (r: Row<T>) => !p(r));
      Table(left, NextKey(left))
    }

    /** Writing new column values into the row with key `id` (attribute assignments then a commit). */
    function Put(id: int, v: T): Table<T>
    {
      Table(seq(|rows|, i requires 0 <= i < |rows| => if rows[i].id == id then Row(id, v) else rows[i]), nextId)
    }

    /** Several inserts in order: the rows take consecutive keys. */
    function AddAll(vs: seq<T>): (t: Table<T>)
      ensures |t.rows| == |rows| + |vs| && t.nextId == nextId + |vs| && t.rows[..|rows|] == rows
      ensures forall k :: 0 <= k < |vs| ==> t.rows[|rows| + k] == Row(nextId + k, vs[k])
    {
      Table(rows + seq(|vs|, k requires 0 <= k < |vs| => Row(nextId + k, vs[k])), nextId + |vs|)
    }

    /** The row with key `id`, if any. */
    function Get(id: int): (r: Option<Row<T>>)
      ensures r.Some? ==> r.value in rows && r.value.id == id
      ensures r.None? <==> forall i :: 0 <= i < |rows| ==> rows[i].id != id
    {
      First((r: Row<T>) => r.id == id)
    }
  }

  /** An empty table, whose first key is 1. */
  function EmptyTable<T>(): Table<T>
  {
    Table([], 1)
  }

  /** `users`: the role is free text; "free", "premium" and the seeded "admin" occur. */
  datatype UserRow = UserRow(email: string, hashedPassword: string, isActive: bool, role: string)

  /**
   * `user_profiles`. The derived columns are nullable in the table, but every profile the
   * endpoints write carries them, so the model stores them as plain values.
   */
  datatype ProfileRow = ProfileRow(
    userId: int, gender: Gender, dateOfBirth: Date, age: int, heightCm: real, weightKg: real,
    activityLevel: ActivityLevel, goal: Goal, bodyFatPercent: Option<real>, leanMassKg: Option<real>,
    bmr: real, tdee: real, proteinGram: real, carbGram: real, fatGram: real)

  /** `workout_plans`: one training day of a user. */
  datatype WorkoutPlanRow = WorkoutPlanRow(userId: int, day: int, muscleGroup: string, level: Level, notes: Option<string>)

  /** `exercises`: one exercise of a workout plan. */
  datatype ExerciseRow = ExerciseRow(workoutPlanId: int, name: string, sets: int, reps: string,
                                     restSeconds: int, notes: Option<string>)

  /** `meal_plans`: one day of meals of a user and its running totals. */
  datatype MealPlanRow = MealPlanRow(userId: int, day: int, totalCalories: real, totalProtein: real,
                                     totalCarbs: real, totalFat: real)

  /** `meals`: one meal of a meal plan. */
  datatype MealRow = MealRow(mealPlanId: int, name: string, calories: real, protein: real, carbs: real,
                             fat: real, description: Option<string>)

  /** `food_items`: one food of a meal. */
  datatype FoodItemRow = FoodItemRow(mealId: int, name: string, quantity: real, unit: string,
                                     calories: real, protein: real, carbs: real, fat: real)

  /** `subscriptions`: the tier is free text; times are seconds since the epoch. */
  datatype SubscriptionRow = SubscriptionRow(userId: int, tier: string, startDate: int, endDate: Option<int>, isActive: bool)

  /** The database session: one field per table. */
  class Database {
    var users: Table<UserRow>
    var profiles: Table<ProfileRow>
    var workoutPlans: Table<WorkoutPlanRow>
    var exercises: Table<ExerciseRow>
    var mealPlans: Table<MealPlanRow>
    var meals: Table<MealRow>
    var foodItems: Table<FoodItemRow>
    var subscriptions: Table<SubscriptionRow>

    /** A fresh database: every table empty, so every first key is 1. */
    constructor ()
      ensures users == EmptyTable() && profiles == EmptyTable() && workoutPlans == EmptyTable()
      ensures exercises == EmptyTable() && mealPlans == EmptyTable() && meals == EmptyTable()
      ensures foodItems == EmptyTable() && subscriptions == EmptyTable()
    {
      users := EmptyTable();
      profiles := EmptyTable();
      workoutPlans := EmptyTable();
      exercises := EmptyTable();
      mealPlans := EmptyTable();
      meals := EmptyTable();
      foodItems := EmptyTable();
      subscriptions := EmptyTable();
    }

    /** Every table's keys increase along its rows and its next key is SQLite's. */
    predicate Valid()
      reads this
    {
      Keyed(users) && Keyed(profiles) && Keyed(workoutPlans) && Keyed(exercises)
      && Keyed(mealPlans) && Keyed(meals) && Keyed(foodItems) && Keyed(subscriptions)
    }

    /** The commit of a subscription change: the users and subscriptions tables replaced. */
    method CommitAccount(userRows: Table<UserRow>, subs: Table<SubscriptionRow>)
      requires Valid() && Keyed(userRows) && Keyed(subs)
      modifies this
      ensures Valid()
      ensures users == userRows && subscriptions == subs
      ensures profiles == old(profiles) && workoutPlans == old(workoutPlans) && exercises == old(exercises)
      ensures mealPlans == old(mealPlans) && meals == old(meals) && foodItems == old(foodItems)
    {
      users, subscriptions := userRows, subs;
    }

    /** The commit of a workout plan generation or edit: the two workout tables replaced. */
    method CommitPlanTables(plans: Table<WorkoutPlanRow>, exerciseRows: Table<ExerciseRow>)
      requires Valid() && Keyed(plans) && Keyed(exerciseRows)
      modifies this
      ensures Valid()
      ensures workoutPlans == plans && exercises == exerciseRows
      ensures users == old(users) && profiles == old(profiles) && mealPlans == old(mealPlans)
      ensures meals == old(meals) && foodItems == old(foodItems) && subscriptions == old(subscriptions)
    {
      workoutPlans, exercises := plans, exerciseRows;
    }

    /** The commit of a meal plan generation or edit: the three meal tables replaced by the session's view. */
    method CommitMealTables(plans: Table<MealPlanRow>, mealRows: Table<MealRow>, foods: Table<FoodItemRow>)
      requires Valid() && Keyed(plans) && Keyed(mealRows) && Keyed(foods)
      modifies this
      ensures Valid()
      ensures mealPlans == plans && meals == mealRows && foodItems == foods
      ensures users == old(users) && profiles == old(profiles) && workoutPlans == old(workoutPlans)
      ensures exercises == old(exercises) && subscriptions == old(subscriptions)
    {
      mealPlans, meals, foodItems := plans, mealRows, foods;
    }
  }

  /** The profile of a user, as `query(UserProfile).filter(user_id == uid).first()` finds it. */
  function ProfileOf(profiles: Table<ProfileRow>, uid: int): (r: Option<Row<ProfileRow>>)
    ensures r.Some? ==> r.value in profiles.rows && r.value.value.userId == uid
    ensures r.None? <==> forall i :: 0 <= i < |profiles.rows| ==> profiles.rows[i].value.userId != uid
  {
    profiles.First((r: Row<ProfileRow>) => r.value.userId == uid)
  }

  /** The refusal of every endpoint that needs the user's profile when there is none. */
  const NoProfileError: HttpError := HttpError(404, "Profile not found, please create a profile first")

  /** `db.delete(row)` for the row with key `key`. */
  function Remove<T>(t: Table<T>, key: int): Table<T>
  {
    t.Delete((r: Row<T>) => r.id == key)
  }

  /** `db.delete` of every row whose key is in `keys`. */
  function RemoveKeys<T>(t: Table<T>, keys: set<int>): Table<T>
  {
    t.Delete((r: Row<T>) => r.id in keys)
  }

  /** The keys of some rows. */
  function KeysOf<T>(rows: seq<Row<T>>): (keys: set<int>)
    ensures forall i :: 0 <= i < |rows| ==> rows[i].id in keys
    ensures forall k :: k in keys ==> exists i :: 0 <= i < |rows| && rows[i].id == k
  {
    set i | 0 <= i < |rows| :: rows[i].id
  }

  /** `user.role = role` on the row with key `id`. */
  function SetRole(users: Table<UserRow>, id: int, role: string): Table<UserRow>
  {
    Table(seq(|users.rows|, i requires 0 <= i < |users.rows| =>
      if users.rows[i].id == id then Row(id, users.rows[i].value.(role := role)) else users.rows[i]), users.nextId)
  }

  /** Changing a user's role keeps every key, and so the next key. */
  lemma SetRoleKeyed(users: Table<UserRow>, id: int, role: string)
    requires Keyed(users)
    ensures Keyed(SetRole(users, id, role))
  {
  }

  /** SQLite's next rowid: one past the largest key, which is the last in key order, or 1 when empty. */
  function NextKey<T>(rows: seq<Row<T>>): int
  {
    if |rows| == 0 then 1 else rows[|rows| - 1].id + 1
  }

  /**
   * Keys strictly increase along the rows and stay below the next key, which is the one SQLite
   * hands out.
   */
  predicate Keyed<T>(t: Table<T>)
  {
    IncreasingKeys(t.rows) && (forall i :: 0 <= i < |t.rows| ==> t.rows[i].id < t.nextId)
    && t.nextId == NextKey(t.rows)
  }

  predicate IncreasingKeys<T>(rows: seq<Row<T>>)
  {
    forall i, j :: 0 <= i < j < |rows| ==> rows[i].id < rows[j].id
  }

  /** An insert keeps the keys increasing and returns a key no row had. */
  lemma AddKeyed<T>(t: Table<T>, v: T)
    requires Keyed(t)
    ensures Keyed(t.Add(v))
    ensures forall i :: 0 <= i < |t.rows| ==> t.rows[i].id != t.nextId
  {
  }

  /** With increasing keys, writing the row at `k` by its key changes that row only. */
  lemma PutAt<T>(t: Table<T>, k: int, v: T)
    requires Keyed(t) && 0 <= k < |t.rows|
    ensures t.Put(t.rows[k].id, v) == Table(t.rows[k := Row(t.rows[k].id, v)], t.nextId)
    ensures Keyed(t.Put(t.rows[k].id, v))
  {
    var u := t.Put(t.rows[k].id, v);
    assert u.rows == t.rows[k := Row(t.rows[k].id, v)] by {
      forall i | 0 <= i < |t.rows| ensures u.rows[i] == t.rows[k := Row(t.rows[k].id, v)][i] {
        if i != k {
          assert t.rows[i].id != t.rows[k].id;
        }
      }
    }
  }

  /** Deleting rows keeps the survivors in key order. */
  lemma {:induction false} FilterIncreasing<T>(rows: seq<Row<T>>, p: Row<T> -> bool)
    requires IncreasingKeys(rows)
    ensures IncreasingKeys(Filter(rows, p))
  {
    if |rows| > 0 {
      FilterIncreasing(rows[1..], p);
      var rest := Filter(rows[1..], p);
      forall i | 0 <= i < |rest| ensures rows[0].id < rest[i].id {
        assert rest[i] in rows[1..];
      }
    }
  }

  lemma DeleteKeyed<T>(t: Table<T>, p: Row<T> -> bool)
    requires Keyed(t)
    ensures Keyed(t.Delete(p))
  {
    FilterIncreasing(t.rows, (r: Row<T>) => !p(r));
    forall r | r in t.Delete(p).rows ensures r.id < t.nextId {
    }
  }

  /** One more insert after a run of inserts is a longer run. */
  lemma AddAllSnoc<T>(t: Table<T>, vs: seq<T>, v: T)
    ensures t.AddAll(vs + [v]) == t.AddAll(vs).Add(v)
  {
    assert t.AddAll(vs + [v]).rows == t.AddAll(vs).Add(v).rows;
  }

  /** Inserts keep the keys increasing and the next key SQLite's. */
  lemma AddAllKeyed<T>(t: Table<T>, vs: seq<T>)
    requires Keyed(t)
    ensures Keyed(t.AddAll(vs))
  {
  }

  /** Two deletes in a row delete what either condition selects. */
  lemma DeleteDelete<T>(t: Table<T>, p: Row<T> -> bool, q: Row<T> -> bool, pq: Row<T> -> bool)
    requires forall r :: pq(r) == (p(r) || q(r))
    ensures t.Delete(p).Delete(q) == t.Delete(pq)
  {
    FilterFilter(t.rows, (r: Row<T>) => !p(r), (r: Row<T>) => !q(r), (r: Row<T>) => !pq(r));
  }

  /**
   * With increasing keys, deleting the rows whose keys are those of the rows satisfying `p`
   * deletes exactly the rows satisfying `p`.
   */
  lemma DeleteByKeys<T>(t: Table<T>, p: Row<T> -> bool)
    requires Keyed(t)
    ensures RemoveKeys(t, KeysOf(t.Where(p))) == t.Delete(p)
  {
    var keys := KeysOf(t.Where(p));
    forall i | 0 <= i < |t.rows| ensures (t.rows[i].id in keys) == p(t.rows[i]) {
      if t.rows[i].id in keys {
        var j :| 0 <= j < |t.Where(p)| && t.Where(p)[j].id == t.rows[i].id;
        assert t.Where(p)[j] in t.rows;
      }
    }
    var byKey := (r: Row<T>) => r.id in keys;
    FilterCongruent(t.rows, (r: Row<T>) => !byKey(r), (r: Row<T>) => !p(r));
    assert t.Delete(byKey).rows == t.Delete(p).rows;
  }

  /** Deleting with a condition no row meets keeps the table. */
  lemma DeleteNothing<T>(t: Table<T>, p: Row<T> -> bool)
    requires Keyed(t)
    requires forall i :: 0 <= i < |t.rows| ==> !p(t.rows[i])
    ensures t.Delete(p) == t
  {
    FilterAll(t.rows, (r: Row<T>) => !p(r));
  }

  /** Deleting no keys keeps the table. */
  lemma RemoveNoKeys<T>(t: Table<T>)
    requires Keyed(t)
    ensures RemoveKeys(t, {}) == t
  {
    var none: set<int> := {};
    DeleteNothing(t, (r: Row<T>) => r.id in none);
  }

  /** Deleting one more row by key extends the set of deleted keys. */
  lemma RemoveOneMore<T>(t: Table<T>, keys: set<int>, key: int)
    ensures Remove(RemoveKeys(t, keys), key) == RemoveKeys(t, keys + {key})
  {
    DeleteDelete(t, (r: Row<T>) => r.id in keys, (r: Row<T>) => r.id == key, (r: Row<T>) => r.id in keys + {key});
  }

  /** The keys of a prefix grow by one key per row. */
  lemma KeysOfSnoc<T>(rows: seq<Row<T>>, j: int)
    requires 0 <= j < |rows|
    ensures KeysOf(rows[..j + 1]) == KeysOf(rows[..j]) + {rows[j].id}
  {
  }

  /** Deleting by keys keeps the keys increasing. */
  lemma RemoveKeysKeyed<T>(t: Table<T>, keys: set<int>)
    requires Keyed(t)
    ensures Keyed(RemoveKeys(t, keys))
  {
    DeleteKeyed(t, (r: Row<T>) => r.id in keys);
  }

  /** `db.delete(row)` removes exactly the rows with that key. */
  lemma RemoveEffect<T>(t: Table<T>, key: int)
    requires Keyed(t)
    ensures Keyed(Remove(t, key))
    ensures forall r :: r in Remove(t, key).rows <==> r in t.rows && r.id != key
  {
    DeleteKeyed(t, (r: Row<T>) => r.id == key);
  }

  /** Two runs of inserts are one longer run. */
  lemma AddAllAppend<T>(t: Table<T>, a: seq<T>, b: seq<T>)
    ensures t.AddAll(a).AddAll(b) == t.AddAll(a + b)
  {
    assert t.AddAll(a).AddAll(b).rows == t.AddAll(a + b).rows;
  }

  /** Deleting rows that a query cannot select leaves the query's answer unchanged. */
  lemma DeleteKeepsWhere<T>(t: Table<T>, p: Row<T> -> bool, q: Row<T> -> bool)
    requires forall r :: q(r) ==> !p(r)
    ensures t.Delete(p).Where(q) == t.Where(q)
  {
    FilterFilter(t.rows, (r: Row<T>) => !p(r), q, q);
  }

  /** After deleting the rows a query selects, the query finds nothing. */
  lemma DeleteEmptiesWhere<T>(t: Table<T>, p: Row<T> -> bool)
    ensures t.Delete(p).Where(p) == []
  {
    FilterNone(t.Delete(p).rows, p);
  }

  /** A query after inserts answers the old rows' answer followed by the new rows it selects. */
  lemma AddAllWhere<T>(t: Table<T>, vs: seq<T>, q: Row<T> -> bool)
    ensures t.AddAll(vs).Where(q) == t.Where(q) + Filter(t.AddAll(vs).rows[|t.rows|..], q)
  {
    var after := t.AddAll(vs).rows;
    assert after == t.rows + after[|t.rows|..];
    FilterAppend(t.rows, after[|t.rows|..], q);
  }

  /** Rewriting a row that a query selects neither before nor after leaves the query's answer unchanged. */
  lemma PutKeepsWhere<T>(t: Table<T>, k: int, v: T, q: Row<T> -> bool)
    requires Keyed(t) && 0 <= k < |t.rows| && !q(t.rows[k]) && !q(Row(t.rows[k].id, v))
    ensures t.Put(t.rows[k].id, v).Where(q) == t.Where(q)
  {
    PutAt(t, k, v);
    FilterUpdate(t.rows, k, Row(t.rows[k].id, v), q);
  }

  /**
   * `for row in query.filter(p): db.delete(row)`: the matching rows deleted one at a time, in key
   * order, on the session's view of the table.
   */
  method DeleteEach<T>(t: Table<T>, p: Row<T> -> bool) returns (after: Table<T>)
    requires Keyed(t)
    ensures after == t.Delete(p)
  {
    var doomed := t.Where(p);
    after := t;
    RemoveNoKeys(t);
    assert KeysOf(doomed[..0]) == {};
    var j := 0;
    while j < |doomed|
      invariant 0 <= j <= |doomed|
      invariant after == RemoveKeys(t, KeysOf(doomed[..j]))
    {
      RemoveOneMore(t, KeysOf(doomed[..j]), doomed[j].id);
      KeysOfSnoc(doomed, j);
      after := Remove(after, doomed[j].id);
      j := j + 1;
    }
    assert doomed[..|doomed|] == doomed;
    DeleteByKeys(t, p);
  }

  /** Deleting rows that cannot match keeps a query's first match. */
  lemma DeleteKeepsFirst<T>(t: Table<T>, d: Row<T> -> bool, q: Row<T> -> bool)
    requires forall i :: 0 <= i < |t.rows| && q(t.rows[i]) ==> !d(t.rows[i])
    ensures t.Delete(d).First(q) == t.First(q)
  {
    FindFilter(t.rows, (r: Row<T>) => !d(r), q);
  }

  /** After an insert a query's first match is the old one, or else the new row if it matches. */
  lemma AddFirst<T>(t: Table<T>, v: T, q: Row<T> -> bool)
    ensures t.Add(v).First(q) == if t.First(q).Some? then t.First(q) else if q(Row(t.nextId, v)) then Some(Row(t.nextId, v)) else None
  {
    FindSnoc(t.rows, Row(t.nextId, v), q);
  }

  /**
   * Rewriting row `k` with a value the query judges alike: the query finds the new row when row
   * `k` was its first match, and finds what it found before when it selects neither.
   */
  lemma PutFirst<T>(t: Table<T>, k: int, v: T, q: Row<T> -> bool)
    requires Keyed(t) && 0 <= k < |t.rows| && q(Row(t.rows[k].id, v)) == q(t.rows[k])
    requires q(t.rows[k]) ==> FirstIndex(t.rows, q) == Some(k)
    ensures t.Put(t.rows[k].id, v).First(q) == if q(t.rows[k]) then Some(Row(t.rows[k].id, v)) else t.First(q)
  {
    PutAt(t, k, v);
    FindUpdate(t.rows, k, Row(t.rows[k].id, v), q);
  }

  /** Rewriting a row by key keeps every key, and so the next key. */
  lemma PutKeyed<T>(t: Table<T>, id: int, v: T)
    requires Keyed(t)
    ensures Keyed(t.Put(id, v))
  {
  }

  /** Whether some row has key `key`. */
  predicate HasKey<T>(rows: seq<Row<T>>, key: int)
  {
    exists i :: 0 <= i < |rows| && rows[i].id == key
  }

  /** Rewriting a row keeps every key. */
  lemma PutKeepsKey<T>(t: Table<T>, id: int, v: T, key: int)
    requires HasKey(t.rows, key)
    ensures HasKey(t.Put(id, v).rows, key)
  {
    var i :| 0 <= i < |t.rows| && t.rows[i].id == key;
    assert t.Put(id, v).rows[i].id == key;
  }

  /** An insert keeps every key and adds the counter's. */
  lemma AddKeepsKey<T>(t: Table<T>, v: T, key: int)
    requires HasKey(t.rows, key) || key == t.nextId
    ensures HasKey(t.Add(v).rows, key)
  {
    if key == t.nextId {
      assert t.Add(v).rows[|t.rows|].id == key;
    } else {
      var i :| 0 <= i < |t.rows| && t.rows[i].id == key;
      assert t.Add(v).rows[i].id == key;
    }
  }
}
