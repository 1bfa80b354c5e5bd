/**
 * The subscription endpoints: subscribe, read and cancel a user's premium subscription. They
 * form a small state machine over the user's subscription row and the user's role.
 */
module SubscriptionEndpoints {
  import opened Wrappers
  import opened Seqs
  import opened Store

  /** Seconds in a day; a subscription runs for 30 of them. */
  const SecondsPerDay: int := 86400
  const SubscriptionDays: int := 30

  /** The user's subscription, as `.filter(user_id == uid).first()` finds it. */
  function SubscriptionOf(subs: Table<SubscriptionRow>, uid: int): (r: Option<Row<SubscriptionRow>>)
    ensures r.Some? ==> r.value in subs.rows && r.value.value.userId == uid
    ensures r.None? <==> forall i :: 0 <= i < |subs.rows| ==> subs.rows[i].value.userId != uid
  {
    subs.First((r: Row<SubscriptionRow>) => r.value.userId == uid)
  }

  /** Each user owns at most one subscription row (the table's unique `user_id`). */
  predicate UniqueOwners(subs: Table<SubscriptionRow>)
  {
    forall i, j :: 0 <= i < j < |subs.rows| ==> subs.rows[i].value.userId != subs.rows[j].value.userId
  }

  /** The subscription a successful subscribe leaves: premium, active, ending 30 days after `now`. */
  function PremiumFrom(uid: int, now: int): SubscriptionRow
  {
    SubscriptionRow(uid, "premium", now, Some(now + SubscriptionDays * SecondsPerDay), true)
  }

  /** An existing subscription blocks subscribing only when it is active and premium. */
  predicate HasActivePremium(subs: Table<SubscriptionRow>, uid: int)
  {
    var existing := SubscriptionOf(subs, uid);
    existing.Some? && existing.value.value.isActive && existing.value.value.tier == "premium"
  }

  /**
   * The subscriptions table after `subscribe_to_premium`: the user's existing row rewritten in
   * place, or a new row when there is none; a 400 when the existing row is active and premium.
   */
  function Subscribe(subs: Table<SubscriptionRow>, uid: int, now: int): (r: Result<Table<SubscriptionRow>, HttpError>)
    ensures r.Err? <==> HasActivePremium(subs, uid)
    ensures r.Err? ==> r.error == HttpError(400, "User already has an active premium subscription")
  {
    if HasActivePremium(subs, uid) then Err(HttpError(400, "User already has an active premium subscription"))
    else match SubscriptionOf(subs, uid)
      case Some(existing) => Ok(subs.Put(existing.id, PremiumFrom(uid, now)))
      case None => Ok(subs.Add(PremiumFrom(uid, now)))
  }

  /**
   * The subscriptions table after `cancel_subscription`: the user's row made inactive and ended at
   * `now`; a 400 when there is no row or it is already inactive. The tier is left as it was.
   */
  function Cancel(subs: Table<SubscriptionRow>, uid: int, now: int): (r: Result<Table<SubscriptionRow>, HttpError>)
    ensures r.Err? <==> SubscriptionOf(subs, uid).None? || !SubscriptionOf(subs, uid).value.value.isActive
    ensures r.Err? ==> r.error == HttpError(400, "No active subscription found")
  {
    match SubscriptionOf(subs, uid)
    case None => Err(HttpError(400, "No active subscription found"))
    case Some(existing) =>
      if !existing.value.isActive then Err(HttpError(400, "No active subscription found"))
      else Ok(subs.Put(existing.id, existing.value.(isActive := false, endDate := Some(now))))
  }

  /** `get_subscription`: the user's row unchanged, or 404. */
  function GetSubscription(subs: Table<SubscriptionRow>, uid: int): (r: Result<Row<SubscriptionRow>, HttpError>)
    ensures r.Err? <==> forall i :: 0 <= i < |subs.rows| ==> subs.rows[i].value.userId != uid
    ensures r.Err? ==> r.error == HttpError(404, "No subscription found")
    ensures r.Ok? ==> r.value in subs.rows && r.value.value.userId == uid
  {
    match SubscriptionOf(subs, uid)
    case None => Err(HttpError(404, "No subscription found"))
    case Some(s) => Ok(s)
  }

  // ----- the endpoints over the session -----

  /**
   * `subscribe_to_premium` for the active user `current` at time `now`: the user's subscription
   * row is rewritten or added and the user's role becomes "premium"; a refusal changes nothing.
   */
  method SubscribeToPremium(db: Database, current: Row<UserRow>, now: int) returns (r: Result<Row<SubscriptionRow>, HttpError>)
    requires current.value.isActive && db.Valid()
    modifies db
    ensures db.Valid()
    ensures Subscribe(old(db.subscriptions), current.id, now).Err? ==>
      r == Err(Subscribe(old(db.subscriptions), current.id, now).error)
      && db.subscriptions == old(db.subscriptions) && db.users == old(db.users)
    ensures Subscribe(old(db.subscriptions), current.id, now).Ok? ==>
      db.subscriptions == Subscribe(old(db.subscriptions), current.id, now).value
      && db.users == SetRole(old(db.users), current.id, "premium")
      && r.Ok? && r.value in db.subscriptions.rows && r.value.value == PremiumFrom(current.id, now)
    ensures db.profiles == old(db.profiles) && db.workoutPlans == old(db.workoutPlans)
    ensures db.exercises == old(db.exercises) && db.mealPlans == old(db.mealPlans)
    ensures db.meals == old(db.meals) && db.foodItems == old(db.foodItems)
  {
    var existing := SubscriptionOf(db.subscriptions, current.id);
    if existing.Some? && existing.value.value.isActive && existing.value.value.tier == "premium" {
      return Err(HttpError(400, "User already has an active premium subscription"));
    }
    var subs, row := PremiumRow(db.subscriptions, current.id, now);
    SetRoleKeyed(db.users, current.id, "premium");
    db.CommitAccount(SetRole(db.users, current.id, "premium"), subs);
    r := Ok(row);
  }

  /**
   * The row `subscribe_to_premium` writes for `uid`: the existing row rewritten in place, or a new
   * row under the next key, as `Subscribe` says.
   */
  method PremiumRow(subs: Table<SubscriptionRow>, uid: int, now: int) returns (after: Table<SubscriptionRow>, row: Row<SubscriptionRow>)
    requires Keyed(subs) && !HasActivePremium(subs, uid)
    ensures after == Subscribe(subs, uid, now).value && Keyed(after)
    ensures row in after.rows && row.value == PremiumFrom(uid, now)
  {
    var existing := SubscriptionOf(subs, uid);
    var endDate := now + SubscriptionDays * SecondsPerDay;
    if existing.Some? {
      var updated := existing.value.value.(tier := "premium", startDate := now, endDate := Some(endDate), isActive := true);
      assert updated == PremiumFrom(uid, now);
      row := Row(existing.value.id, updated);
      var k :| 0 <= k < |subs.rows| && subs.rows[k] == existing.value;
      PutAt(subs, k, updated);
      after := subs.Put(existing.value.id, updated);
      assert after.rows[k] == row;
    } else {
      row := Row(subs.nextId, SubscriptionRow(uid, "premium", now, Some(endDate), true));
      assert row.value == PremiumFrom(uid, now);
      AddKeyed(subs, row.value);
      after := subs.Add(row.value);
      assert after.rows[|after.rows| - 1] == row;
    }
  }

  /**
   * `cancel_subscription` for the active user `current` at time `now`: the subscription is made
   * inactive and ended, and the user's role becomes "free"; a refusal changes nothing.
   */
  method CancelSubscription(db: Database, current: Row<UserRow>, now: int) returns (r: Result<Row<SubscriptionRow>, HttpError>)
    requires current.value.isActive && db.Valid()
    modifies db
    ensures db.Valid()
    ensures Cancel(old(db.subscriptions), current.id, now).Err? ==>
      r == Err(Cancel(old(db.subscriptions), current.id, now).error)
      && db.subscriptions == old(db.subscriptions) && db.users == old(db.users)
    ensures Cancel(old(db.subscriptions), current.id, now).Ok? ==>
      db.subscriptions == Cancel(old(db.subscriptions), current.id, now).value
      && db.users == SetRole(old(db.users), current.id, "free")
      && r.Ok? && r.value in db.subscriptions.rows && !r.value.value.isActive && r.value.value.endDate == Some(now)
    ensures db.profiles == old(db.profiles) && db.workoutPlans == old(db.workoutPlans)
    ensures db.exercises == old(db.exercises) && db.mealPlans == old(db.mealPlans)
    ensures db.meals == old(db.meals) && db.foodItems == old(db.foodItems)
  {
    var existing := SubscriptionOf(db.subscriptions, current.id);
    if existing.None? || !existing.value.value.isActive {
      return Err(HttpError(400, "No active subscription found"));
    }
    var updated := existing.value.value.(isActive := false, endDate := Some(now));
    var row := Row(existing.value.id, updated);
    var k :| 0 <= k < |db.subscriptions.rows| && db.subscriptions.rows[k] == existing.value;
    PutAt(db.subscriptions, k, updated);
    var subs := db.subscriptions.Put(existing.value.id, updated);
    assert subs.rows[k] == row;
    SetRoleKeyed(db.users, current.id, "free");
    db.CommitAccount(SetRole(db.users, current.id, "free"), subs);
    r := Ok(row);
  }

  // ----- properties of the state machine -----

  /** The row of `uid` at `k` is the one the lookup finds, when owners are unique. */
  lemma FoundAt(subs: Table<SubscriptionRow>, uid: int, k: int)
    requires UniqueOwners(subs) && 0 <= k < |subs.rows| && subs.rows[k].value.userId == uid
    ensures SubscriptionOf(subs, uid) == Some(subs.rows[k])
  {
  }

  /**
   * Rewriting the row at `k` with a row of the same owner keeps owners unique, makes the lookup of
   * that owner find the new row, and leaves every other owner's lookup as it was.
   */
  lemma RewriteOwnRow(subs: Table<SubscriptionRow>, k: int, v: SubscriptionRow)
    requires Keyed(subs) && UniqueOwners(subs) && 0 <= k < |subs.rows| && v.userId == subs.rows[k].value.userId
    ensures var after := subs.Put(subs.rows[k].id, v);
      Keyed(after) && UniqueOwners(after)
      && SubscriptionOf(after, v.userId) == Some(Row(subs.rows[k].id, v))
      && forall u :: u != v.userId ==> SubscriptionOf(after, u) == SubscriptionOf(subs, u)
  {
    PutAt(subs, k, v);
    var after := subs.Put(subs.rows[k].id, v);
    RewriteKeepsOwners(subs, k, v);
    FoundAt(after, v.userId, k);
    forall u | u != v.userId ensures SubscriptionOf(after, u) == SubscriptionOf(subs, u) {
      RewriteKeepsOthers(subs, k, v, u);
    }
  }

  /** Rewriting a row in place with one of the same owner keeps owners unique. */
  lemma RewriteKeepsOwners(subs: Table<SubscriptionRow>, k: int, v: SubscriptionRow)
    requires UniqueOwners(subs) && 0 <= k < |subs.rows| && v.userId == subs.rows[k].value.userId
    ensures UniqueOwners(Table(subs.rows[k := Row(subs.rows[k].id, v)], subs.nextId))
  {
    var rows := subs.rows[k := Row(subs.rows[k].id, v)];
    assert forall i :: 0 <= i < |rows| ==> rows[i].value.userId == subs.rows[i].value.userId;
  }

  /** Rewriting a row in place with one of the same owner leaves every other owner's lookup alone. */
  lemma RewriteKeepsOthers(subs: Table<SubscriptionRow>, k: int, v: SubscriptionRow, u: int)
    requires UniqueOwners(subs) && 0 <= k < |subs.rows| && v.userId == subs.rows[k].value.userId && u != v.userId
    ensures SubscriptionOf(Table(subs.rows[k := Row(subs.rows[k].id, v)], subs.nextId), u) == SubscriptionOf(subs, u)
  {
    var after := Table(subs.rows[k := Row(subs.rows[k].id, v)], subs.nextId);
    RewriteKeepsOwners(subs, k, v);
    match SubscriptionOf(subs, u)
    case None =>
    case Some(found) =>
      var j :| 0 <= j < |subs.rows| && subs.rows[j] == found;
      FoundAt(subs, u, j);
      FoundAt(after, u, j);
  }

  /**
   * A subscribe that is not refused leaves owners unique and the user's one subscription premium,
   * active and ending 30 days on; every other user's subscription is unchanged.
   */
  lemma SubscribeEffect(subs: Table<SubscriptionRow>, uid: int, now: int)
    requires Keyed(subs) && UniqueOwners(subs) && !HasActivePremium(subs, uid)
    ensures Subscribe(subs, uid, now).Ok?
    ensures var after := Subscribe(subs, uid, now).value;
      Keyed(after) && UniqueOwners(after)
      && SubscriptionOf(after, uid).Some? && SubscriptionOf(after, uid).value.value == PremiumFrom(uid, now)
      && forall u :: u != uid ==> SubscriptionOf(after, u) == SubscriptionOf(subs, u)
  {
    match SubscriptionOf(subs, uid)
    case Some(existing) =>
      var k :| 0 <= k < |subs.rows| && subs.rows[k] == existing;
      RewriteOwnRow(subs, k, PremiumFrom(uid, now));
    case None =>
      AddOwnRow(subs, PremiumFrom(uid, now));
  }

  /**
   * Appending a row for a user who has none keeps owners unique, makes the lookup of that user find
   * the new row, and leaves every other user's lookup as it was.
   */
  lemma AddOwnRow(subs: Table<SubscriptionRow>, v: SubscriptionRow)
    requires Keyed(subs) && UniqueOwners(subs) && SubscriptionOf(subs, v.userId).None?
    ensures var after := subs.Add(v);
      Keyed(after) && UniqueOwners(after) && SubscriptionOf(after, v.userId) == Some(Row(subs.nextId, v))
      && forall u :: u != v.userId ==> SubscriptionOf(after, u) == SubscriptionOf(subs, u)
  {
    var after := subs.Add(v);
    AddKeyed(subs, v);
    assert after.rows == subs.rows + [Row(subs.nextId, v)];
    assert UniqueOwners(after);
    FoundAt(after, v.userId, |subs.rows|);
    AddKeepsOthers(subs, v);
  }

  /** Appending a row leaves the lookup of every other owner as it was, when owners stay unique. */
  lemma AddKeepsOthers(subs: Table<SubscriptionRow>, v: SubscriptionRow)
    requires UniqueOwners(subs) && UniqueOwners(subs.Add(v))
    ensures forall u :: u != v.userId ==> SubscriptionOf(subs.Add(v), u) == SubscriptionOf(subs, u)
  {
    var after := subs.Add(v);
    forall u | u != v.userId ensures SubscriptionOf(after, u) == SubscriptionOf(subs, u) {
      match SubscriptionOf(subs, u)
      case None =>
      case Some(found) =>
        var j :| 0 <= j < |subs.rows| && subs.rows[j] == found;
        FoundAt(subs, u, j);
        FoundAt(after, u, j);
    }
  }

  /**
   * A cancel that is not refused leaves owners unique and the user's subscription inactive and
   * ended at `now`, with its tier and start kept; every other user's subscription is unchanged.
   */
  lemma CancelEffect(subs: Table<SubscriptionRow>, uid: int, now: int)
    requires Keyed(subs) && UniqueOwners(subs)
    requires SubscriptionOf(subs, uid).Some? && SubscriptionOf(subs, uid).value.value.isActive
    ensures Cancel(subs, uid, now).Ok?
    ensures var before := SubscriptionOf(subs, uid).value.value;
      var after := Cancel(subs, uid, now).value;
      Keyed(after) && UniqueOwners(after)
      && SubscriptionOf(after, uid).Some?
      && SubscriptionOf(after, uid).value.value == before.(isActive := false, endDate := Some(now))
      && forall u :: u != uid ==> SubscriptionOf(after, u) == SubscriptionOf(subs, u)
  {
    var existing := SubscriptionOf(subs, uid).value;
    var k :| 0 <= k < |subs.rows| && subs.rows[k] == existing;
    RewriteOwnRow(subs, k, existing.value.(isActive := false, endDate := Some(now)));
  }

  /**
   * Subscribing and then cancelling ends with an inactive subscription, and a second cancel is
   * refused with 400.
   */
  lemma SubscribeThenCancel(subs: Table<SubscriptionRow>, uid: int, now1: int, now2: int)
    requires Keyed(subs) && UniqueOwners(subs) && !HasActivePremium(subs, uid)
    ensures Subscribe(subs, uid, now1).Ok?
    ensures Cancel(Subscribe(subs, uid, now1).value, uid, now2).Ok?
    ensures var cancelled := Cancel(Subscribe(subs, uid, now1).value, uid, now2).value;
      SubscriptionOf(cancelled, uid).Some? && !SubscriptionOf(cancelled, uid).value.value.isActive
      && Cancel(cancelled, uid, now2 + 1) == Err(HttpError(400, "No active subscription found"))
  {
    SubscribeEffect(subs, uid, now1);
    CancelEffect(Subscribe(subs, uid, now1).value, uid, now2);
  }

  /** After subscribing, the role is "premium"; after cancelling, "free". */
  lemma RoleFollowsSubscription(users: Table<UserRow>, k: int)
    requires Keyed(users) && 0 <= k < |users.rows|
    ensures SetRole(users, users.rows[k].id, "premium").rows[k].value.role == "premium"
    ensures SetRole(SetRole(users, users.rows[k].id, "premium"), users.rows[k].id, "free").rows[k].value.role == "free"
    ensures forall i :: 0 <= i < |users.rows| && i != k ==>
      SetRole(SetRole(users, users.rows[k].id, "premium"), users.rows[k].id, "free").rows[i] == users.rows[i]
  {
  }
}
