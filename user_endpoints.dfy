/**
 * The profile endpoints: create, read and partially update the current user's profile. A profile
 * stores the body data the user supplies and the energy figures derived from it (age, BMR,
 * TDEE, macronutrient grams, lean mass).
 */
module UserEndpoints {
  import opened Wrappers
  import opened Seqs
  import opened Schemas
  import opened NutritionService
  import opened Store

  const ProfileExistsError: HttpError := HttpError(400, "Profile already exists")
  const ProfileNotFoundError: HttpError := HttpError(404, "Profile not found")

  /** How a request ends when it does not succeed: an HTTP refusal, or an exception the handler raises. */
  datatype Failure = Refused(error: HttpError) | Raised(exception: PyError)

  /** The derived energy figures, stored and recomputed together. */
  datatype Energy = Energy(bmr: real, tdee: real, proteinGram: real, carbGram: real, fatGram: real)

  /** BMR, then TDEE, then the macro split, for the given body data (the corrected macros). */
  function EnergyFor(gender: Gender, weightKg: real, heightCm: real, age: int, activity: ActivityLevel, goal: Goal): Energy
  {
    var bmr := CalculateBmr(gender, weightKg, heightCm, age);
    var m := CalculateMacros(weightKg, CalculateTdee(bmr, activity), goal, activity);
    Energy(m.bmr, m.tdee, m.proteinGram, m.carbGram, m.fatGram)
  }

  /** The stored energy figures are the ones the profile's own body data give. */
  predicate EnergyConsistent(row: ProfileRow)
  {
    Energy(row.bmr, row.tdee, row.proteinGram, row.carbGram, row.fatGram)
      == EnergyFor(row.gender, row.weightKg, row.heightCm, row.age, row.activityLevel, row.goal)
  }

  /** A stored body-fat percentage comes with the lean mass it gives at the stored weight. */
  predicate LeanConsistent(row: ProfileRow)
  {
    row.bodyFatPercent.Some? ==> row.leanMassKg == Some(LeanMass(row.weightKg, row.bodyFatPercent.value))
  }

  /** Each user has at most one profile. */
  predicate UniqueProfiles(profiles: Table<ProfileRow>)
  {
    forall i, j :: 0 <= i < j < |profiles.rows| ==> profiles.rows[i].value.userId != profiles.rows[j].value.userId
  }

  /** The profile lookup of `uid`. */
  function OwnerIs(uid: int): Row<ProfileRow> -> bool
  {
    (r: Row<ProfileRow>) => r.value.userId == uid
  }

  // ----- create_user_profile -----

  /**
   * The profile `create_user_profile` builds for user `uid` on day `today`: the body data as
   * supplied, the age from the date of birth, the energy figures, and a lean mass exactly when a
   * body-fat percentage is given.
   */
  function NewProfile(uid: int, p: ProfileCreate, today: Date): (row: ProfileRow)
    ensures row.userId == uid && row.gender == p.gender && row.dateOfBirth == p.dateOfBirth
    ensures row.heightCm == p.heightCm && row.weightKg == p.weightKg && row.activityLevel == p.activityLevel
    ensures row.goal == p.goal && row.bodyFatPercent == p.bodyFatPercent
    ensures row.age == CalculateAge(p.dateOfBirth, today)
    ensures row.bmr == CalculateBmr(p.gender, p.weightKg, p.heightCm, row.age)
    ensures row.tdee == CalculateTdee(row.bmr, p.activityLevel)
    ensures 4.0 * row.proteinGram + 4.0 * row.carbGram + 9.0 * row.fatGram == DailyCalories(row.tdee, p.goal)
    ensures row.leanMassKg.Some? <==> p.bodyFatPercent.Some?
    ensures row.leanMassKg.Some? ==> row.leanMassKg.value == p.weightKg * (1.0 - p.bodyFatPercent.value / 100.0)
  {
    var age := CalculateAge(p.dateOfBirth, today);
    var bmr := CalculateBmr(p.gender, p.weightKg, p.heightCm, age);
    MacrosRecoverBmr(bmr, p.activityLevel, p.weightKg, p.goal);
    var e := EnergyFor(p.gender, p.weightKg, p.heightCm, age, p.activityLevel, p.goal);
    var lean := if p.bodyFatPercent.Some? then Some(LeanMass(p.weightKg, p.bodyFatPercent.value)) else None;
    ProfileRow(uid, p.gender, p.dateOfBirth, age, p.heightCm, p.weightKg, p.activityLevel, p.goal,
               p.bodyFatPercent, lean, e.bmr, e.tdee, e.proteinGram, e.carbGram, e.fatGram)
  }

  /** A created profile's derived figures agree with its body data. */
  lemma NewProfileConsistent(uid: int, p: ProfileCreate, today: Date)
    ensures EnergyConsistent(NewProfile(uid, p, today)) && LeanConsistent(NewProfile(uid, p, today))
  {
    var age := CalculateAge(p.dateOfBirth, today);
    MacrosRecoverBmr(CalculateBmr(p.gender, p.weightKg, p.heightCm, age), p.activityLevel, p.weightKg, p.goal);
  }

  /** The profiles table after `create_user_profile`: a new row, or 400 when the user has a profile. */
  function CreateProfile(profiles: Table<ProfileRow>, uid: int, p: ProfileCreate, today: Date): (r: Result<Table<ProfileRow>, HttpError>)
    ensures r.Err? <==> exists i :: 0 <= i < |profiles.rows| && profiles.rows[i].value.userId == uid
    ensures r.Err? ==> r.error == ProfileExistsError
  {
    if ProfileOf(profiles, uid).Some? then Err(ProfileExistsError)
    else Ok(profiles.Add(NewProfile(uid, p, today)))
  }

  /**
   * `create_user_profile` as written: after the existence check it calls `calculate_macros`,
   * which raises, so no profile is ever stored.
   */
  function CreateProfileAsWritten(profiles: Table<ProfileRow>, uid: int, p: ProfileCreate, today: Date): Result<Table<ProfileRow>, Failure>
  {
    if ProfileOf(profiles, uid).Some? then Err(Refused(ProfileExistsError))
    else
      var age := CalculateAge(p.dateOfBirth, today);
      var tdee := CalculateTdee(CalculateBmr(p.gender, p.weightKg, p.heightCm, age), p.activityLevel);
      match CalculateMacrosAsWritten(p.weightKg, tdee, p.goal)
      case Err(e) => Err(Raised(e))
      case Ok(m) =>
        var lean := if p.bodyFatPercent.Some? then Some(LeanMass(p.weightKg, p.bodyFatPercent.value)) else None;
        Ok(profiles.Add(ProfileRow(uid, p.gender, p.dateOfBirth, age, p.heightCm, p.weightKg, p.activityLevel,
                                   p.goal, p.bodyFatPercent, lean, m.bmr, m.tdee, m.proteinGram, m.carbGram, m.fatGram)))
  }

  /** As written, a create is refused with 400 or fails with the `NameError`; it never stores a profile. */
  lemma CreateAsWrittenNeverStores(profiles: Table<ProfileRow>, uid: int, p: ProfileCreate, today: Date)
    ensures CreateProfileAsWritten(profiles, uid, p, today)
      == if ProfileOf(profiles, uid).Some? then Err(Refused(ProfileExistsError)) else Err(Raised(NameError("activity_multipliers")))
  {
    var age := CalculateAge(p.dateOfBirth, today);
    var tdee := CalculateTdee(CalculateBmr(p.gender, p.weightKg, p.heightCm, age), p.activityLevel);
    MacrosAsWrittenAlwaysFail(p.weightKg, tdee, p.goal);
  }

  /**
   * After a create, reading the profile gives the new row, every other user's profile lookup is
   * as before, and a second create is refused.
   */
  lemma CreateThenGet(profiles: Table<ProfileRow>, uid: int, p: ProfileCreate, today: Date)
    requires ProfileOf(profiles, uid).None?
    ensures CreateProfile(profiles, uid, p, today).Ok?
    ensures var after := CreateProfile(profiles, uid, p, today).value;
      GetUserProfile(after, uid) == Ok(Row(profiles.nextId, NewProfile(uid, p, today)))
      && (forall u :: u != uid ==> ProfileOf(after, u) == ProfileOf(profiles, u))
      && CreateProfile(after, uid, p, today) == Err(ProfileExistsError)
  {
    var row := NewProfile(uid, p, today);
    AddFirst(profiles, row, OwnerIs(uid));
    forall u | u != uid ensures ProfileOf(profiles.Add(row), u) == ProfileOf(profiles, u) {
      AddFirst(profiles, row, OwnerIs(u));
    }
  }

  /** A create keeps one profile per user. */
  lemma CreateKeepsUnique(profiles: Table<ProfileRow>, uid: int, p: ProfileCreate, today: Date)
    requires UniqueProfiles(profiles)
    ensures CreateProfile(profiles, uid, p, today).Ok? ==> UniqueProfiles(CreateProfile(profiles, uid, p, today).value)
  {
    if ProfileOf(profiles, uid).None? {
      var after := profiles.Add(NewProfile(uid, p, today));
      assert forall i :: 0 <= i < |profiles.rows| ==> after.rows[i] == profiles.rows[i];
      assert after.rows[|profiles.rows|].value.userId == uid;
    }
  }

  // ----- get_user_profile -----

  /** `get_user_profile`: the user's profile row, or 404. */
  function GetUserProfile(profiles: Table<ProfileRow>, uid: int): (r: Result<Row<ProfileRow>, HttpError>)
    ensures r.Err? <==> forall i :: 0 <= i < |profiles.rows| ==> profiles.rows[i].value.userId != uid
    ensures r.Err? ==> r.error == ProfileNotFoundError
    ensures r.Ok? ==> r.value in profiles.rows && r.value.value.userId == uid
  {
    match ProfileOf(profiles, uid)
    case None => Err(ProfileNotFoundError)
    case Some(row) => Ok(row)
  }

  // ----- update_user_profile -----

  /** The supplied fields that feed the energy calculation; body fat is not among them. */
  predicate RecalculateRequired(u: ProfileUpdate)
  {
    u.gender.Set? || u.weightKg.Set? || u.heightCm.Set? || u.dateOfBirth.Set? || u.activityLevel.Set? || u.goal.Set?
  }

  /**
   * The dictionary `update_data`: the supplied body fields, plus the derived entries the handler
   * adds (age, the energy figures, lean mass), each either absent or set.
   */
  datatype UpdateData = UpdateData(body: ProfileUpdate, age: Patch<int>, energy: Patch<Energy>, leanMassKg: Patch<Option<real>>)

  /** `update_data` once the handler has added the derived entries, for stored profile `stored`. */
  function UpdateDataFor(stored: ProfileRow, u: ProfileUpdate, today: Date): UpdateData
  {
    var age := if u.dateOfBirth.Set? then Set(CalculateAge(u.dateOfBirth.value, today)) else Unset;
    var energy :=
      if RecalculateRequired(u) then
        Set(EnergyFor(PatchOr(u.gender, stored.gender), PatchOr(u.weightKg, stored.weightKg),
                      PatchOr(u.heightCm, stored.heightCm), PatchOr(age, stored.age),
                      PatchOr(u.activityLevel, stored.activityLevel), PatchOr(u.goal, stored.goal)))
      else Unset;
    var bodyFat := PatchOr(u.bodyFatPercent, stored.bodyFatPercent);
    var lean :=
      if (u.bodyFatPercent.Set? || u.weightKg.Set?) && bodyFat.Some? then
        Set(Some(LeanMass(PatchOr(u.weightKg, stored.weightKg), bodyFat.value)))
      else Unset;
    UpdateData(u, age, energy, lean)
  }

  /** Builds `update_data` step by step: age, then the energy figures, then lean mass. */
  method BuildUpdateData(stored: ProfileRow, u: ProfileUpdate, today: Date) returns (d: UpdateData)
    ensures d == UpdateDataFor(stored, u, today)
  {
    d := UpdateData(u, Unset, Unset, Unset);
    if u.dateOfBirth.Set? {
      d := d.(age := Set(CalculateAge(u.dateOfBirth.value, today)));
    }
    if RecalculateRequired(u) {
      var gender := PatchOr(u.gender, stored.gender);
      var weightKg := PatchOr(u.weightKg, stored.weightKg);
      var heightCm := PatchOr(u.heightCm, stored.heightCm);
      var age := PatchOr(d.age, stored.age);
      var activity := PatchOr(u.activityLevel, stored.activityLevel);
      var goal := PatchOr(u.goal, stored.goal);
      var bmr := CalculateBmr(gender, weightKg, heightCm, age);
      var tdee := CalculateTdee(bmr, activity);
      var m := CalculateMacros(weightKg, tdee, goal, activity);
      d := d.(energy := Set(Energy(m.bmr, m.tdee, m.proteinGram, m.carbGram, m.fatGram)));
    }
    if u.bodyFatPercent.Set? || u.weightKg.Set? {
      var bodyFat := PatchOr(u.bodyFatPercent, stored.bodyFatPercent);
      var weightKg := PatchOr(u.weightKg, stored.weightKg);
      if bodyFat.Some? {
        d := d.(leanMassKg := Set(Some(LeanMass(weightKg, bodyFat.value))));
      }
    }
  }

  /** The `setattr` loop: every entry of `update_data` overwrites its attribute; the rest stay. */
  function ApplyUpdateData(stored: ProfileRow, d: UpdateData): ProfileRow
  {
    var b := d.body;
    var e := PatchOr(d.energy, Energy(stored.bmr, stored.tdee, stored.proteinGram, stored.carbGram, stored.fatGram));
    ProfileRow(stored.userId, PatchOr(b.gender, stored.gender), PatchOr(b.dateOfBirth, stored.dateOfBirth),
               PatchOr(d.age, stored.age), PatchOr(b.heightCm, stored.heightCm), PatchOr(b.weightKg, stored.weightKg),
               PatchOr(b.activityLevel, stored.activityLevel), PatchOr(b.goal, stored.goal),
               PatchOr(b.bodyFatPercent, stored.bodyFatPercent), PatchOr(d.leanMassKg, stored.leanMassKg),
               e.bmr, e.tdee, e.proteinGram, e.carbGram, e.fatGram)
  }

  /** The profile after `update_user_profile` with body `u`. */
  function UpdatedProfile(stored: ProfileRow, u: ProfileUpdate, today: Date): ProfileRow
  {
    ApplyUpdateData(stored, UpdateDataFor(stored, u, today))
  }

  /** Supplied body fields take the supplied values; the owner and unsupplied fields keep theirs. */
  lemma UpdateTakesSupplied(stored: ProfileRow, u: ProfileUpdate, today: Date)
    ensures var n := UpdatedProfile(stored, u, today);
      n.userId == stored.userId
      && (u.gender.Set? ==> n.gender == u.gender.value) && (u.gender.Unset? ==> n.gender == stored.gender)
      && (u.dateOfBirth.Set? ==> n.dateOfBirth == u.dateOfBirth.value) && (u.dateOfBirth.Unset? ==> n.dateOfBirth == stored.dateOfBirth)
      && (u.heightCm.Set? ==> n.heightCm == u.heightCm.value) && (u.heightCm.Unset? ==> n.heightCm == stored.heightCm)
      && (u.weightKg.Set? ==> n.weightKg == u.weightKg.value) && (u.weightKg.Unset? ==> n.weightKg == stored.weightKg)
      && (u.activityLevel.Set? ==> n.activityLevel == u.activityLevel.value)
      && (u.activityLevel.Unset? ==> n.activityLevel == stored.activityLevel)
      && (u.goal.Set? ==> n.goal == u.goal.value) && (u.goal.Unset? ==> n.goal == stored.goal)
      && (u.bodyFatPercent.Set? ==> n.bodyFatPercent == u.bodyFatPercent.value)
      && (u.bodyFatPercent.Unset? ==> n.bodyFatPercent == stored.bodyFatPercent)
  {
  }

  /** The age is recomputed from the new date of birth exactly when one is supplied. */
  lemma UpdateAge(stored: ProfileRow, u: ProfileUpdate, today: Date)
    ensures UpdatedProfile(stored, u, today).age
      == if u.dateOfBirth.Set? then CalculateAge(u.dateOfBirth.value, today) else stored.age
  {
  }

  /**
   * The energy figures are recomputed from the updated body data when an input of the
   * calculation is supplied, and kept otherwise.
   */
  lemma UpdateEnergy(stored: ProfileRow, u: ProfileUpdate, today: Date)
    ensures var n := UpdatedProfile(stored, u, today);
      (RecalculateRequired(u) ==> n.bmr == CalculateBmr(n.gender, n.weightKg, n.heightCm, n.age)
                                  && n.tdee == CalculateTdee(n.bmr, n.activityLevel)
                                  && 4.0 * n.proteinGram + 4.0 * n.carbGram + 9.0 * n.fatGram == DailyCalories(n.tdee, n.goal))
      && (!RecalculateRequired(u) ==> n.bmr == stored.bmr && n.tdee == stored.tdee && n.proteinGram == stored.proteinGram
                                      && n.carbGram == stored.carbGram && n.fatGram == stored.fatGram)
  {
    var n := UpdatedProfile(stored, u, today);
    MacrosRecoverBmr(CalculateBmr(n.gender, n.weightKg, n.heightCm, n.age), n.activityLevel, n.weightKg, n.goal);
  }

  /**
   * Lean mass is recomputed when body fat or weight is supplied and the resulting body fat is
   * not null; otherwise it keeps its stored value.
   */
  lemma UpdateLeanMass(stored: ProfileRow, u: ProfileUpdate, today: Date)
    ensures var n := UpdatedProfile(stored, u, today);
      ((u.bodyFatPercent.Set? || u.weightKg.Set?) && n.bodyFatPercent.Some? ==>
         n.leanMassKg == Some(LeanMass(n.weightKg, n.bodyFatPercent.value)))
      && (!((u.bodyFatPercent.Set? || u.weightKg.Set?) && n.bodyFatPercent.Some?) ==> n.leanMassKg == stored.leanMassKg)
  {
  }

  /** Clearing the body fat keeps the old lean mass: the profile is left with a lean mass and no body fat. */
  lemma ClearingBodyFatKeepsLeanMass(stored: ProfileRow, u: ProfileUpdate, today: Date)
    requires u.bodyFatPercent == Set(None)
    ensures UpdatedProfile(stored, u, today).bodyFatPercent == None
    ensures UpdatedProfile(stored, u, today).leanMassKg == stored.leanMassKg
  {
  }

  /** An update keeps the derived figures in agreement with the body data. */
  lemma UpdateKeepsConsistent(stored: ProfileRow, u: ProfileUpdate, today: Date)
    requires EnergyConsistent(stored) && LeanConsistent(stored)
    ensures EnergyConsistent(UpdatedProfile(stored, u, today)) && LeanConsistent(UpdatedProfile(stored, u, today))
  {
    var n := UpdatedProfile(stored, u, today);
    if !RecalculateRequired(u) {
      assert n.gender == stored.gender && n.weightKg == stored.weightKg && n.heightCm == stored.heightCm;
      assert n.age == stored.age && n.activityLevel == stored.activityLevel && n.goal == stored.goal;
    }
  }

  /** The profiles table after `update_user_profile`: the user's row rewritten, or 404. */
  function UpdateProfile(profiles: Table<ProfileRow>, uid: int, u: ProfileUpdate, today: Date): (r: Result<Table<ProfileRow>, HttpError>)
    ensures r.Err? <==> forall i :: 0 <= i < |profiles.rows| ==> profiles.rows[i].value.userId != uid
    ensures r.Err? ==> r.error == ProfileNotFoundError
  {
    match ProfileOf(profiles, uid)
    case None => Err(ProfileNotFoundError)
    case Some(existing) => Ok(profiles.Put(existing.id, UpdatedProfile(existing.value, u, today)))
  }

  /**
   * After an update, reading the profile gives the updated row under the same key, and every
   * other user's profile lookup is as before.
   */
  lemma UpdateThenGet(profiles: Table<ProfileRow>, uid: int, u: ProfileUpdate, today: Date)
    requires Keyed(profiles) && ProfileOf(profiles, uid).Some?
    ensures UpdateProfile(profiles, uid, u, today).Ok?
    ensures var existing := ProfileOf(profiles, uid).value;
      var after := UpdateProfile(profiles, uid, u, today).value;
      Keyed(after)
      && GetUserProfile(after, uid) == Ok(Row(existing.id, UpdatedProfile(existing.value, u, today)))
      && forall v :: v != uid ==> ProfileOf(after, v) == ProfileOf(profiles, v)
  {
    var k := FirstIndex(profiles.rows, OwnerIs(uid)).value;
    var row := UpdatedProfile(profiles.rows[k].value, u, today);
    UpdateTakesSupplied(profiles.rows[k].value, u, today);
    PutKeyed(profiles, profiles.rows[k].id, row);
    PutFirst(profiles, k, row, OwnerIs(uid));
    forall v | v != uid ensures ProfileOf(profiles.Put(profiles.rows[k].id, row), v) == ProfileOf(profiles, v) {
      PutFirst(profiles, k, row, OwnerIs(v));
    }
  }

  /**
   * `update_user_profile` as written: the recomputation calls `calculate_macros`, which raises,
   * so an update that supplies any input of the energy calculation fails.
   */
  function UpdateProfileAsWritten(profiles: Table<ProfileRow>, uid: int, u: ProfileUpdate, today: Date): Result<Table<ProfileRow>, Failure>
  {
    match ProfileOf(profiles, uid)
    case None => Err(Refused(ProfileNotFoundError))
    case Some(existing) =>
      var stored := existing.value;
      var d := UpdateDataFor(stored, u, today);
      if RecalculateRequired(u) then
        var weightKg, goal := PatchOr(u.weightKg, stored.weightKg), PatchOr(u.goal, stored.goal);
        var tdee := CalculateTdee(CalculateBmr(PatchOr(u.gender, stored.gender), weightKg, PatchOr(u.heightCm, stored.heightCm),
                                               PatchOr(d.age, stored.age)),
                                  PatchOr(u.activityLevel, stored.activityLevel));
        match CalculateMacrosAsWritten(weightKg, tdee, goal)
        case Err(e) => Err(Raised(e))
        case Ok(m) =>
          var written := d.(energy := Set(Energy(m.bmr, m.tdee, m.proteinGram, m.carbGram, m.fatGram)));
          Ok(profiles.Put(existing.id, ApplyUpdateData(stored, written)))
      else Ok(profiles.Put(existing.id, ApplyUpdateData(stored, d)))
  }

  /**
   * As written, an update of an existing profile fails exactly when it supplies an input of the
   * energy calculation; otherwise it does what the corrected update does.
   */
  lemma UpdateAsWrittenFailsIffRecalculating(profiles: Table<ProfileRow>, uid: int, u: ProfileUpdate, today: Date)
    requires ProfileOf(profiles, uid).Some?
    ensures UpdateProfileAsWritten(profiles, uid, u, today).Err? <==> RecalculateRequired(u)
    ensures RecalculateRequired(u) ==> UpdateProfileAsWritten(profiles, uid, u, today) == Err(Raised(NameError("activity_multipliers")))
    ensures !RecalculateRequired(u) ==> UpdateProfileAsWritten(profiles, uid, u, today) == Ok(UpdateProfile(profiles, uid, u, today).value)
  {
    var stored := ProfileOf(profiles, uid).value.value;
    var d := UpdateDataFor(stored, u, today);
    var weightKg, goal := PatchOr(u.weightKg, stored.weightKg), PatchOr(u.goal, stored.goal);
    var tdee := CalculateTdee(CalculateBmr(PatchOr(u.gender, stored.gender), weightKg, PatchOr(u.heightCm, stored.heightCm),
                                           PatchOr(d.age, stored.age)),
                              PatchOr(u.activityLevel, stored.activityLevel));
    MacrosAsWrittenAlwaysFail(weightKg, tdee, goal);
  }

  // ----- the endpoints over the session -----

  /** `create_user_profile` for the active user `current` on day `today`. */
  method CreateUserProfile(db: Database, current: Row<UserRow>, p: ProfileCreate, today: Date) returns (r: Result<Row<ProfileRow>, HttpError>)
    requires current.value.isActive && ProfileCreateValid(p) && db.Valid()
    modifies db
    ensures db.Valid()
    ensures CreateProfile(old(db.profiles), current.id, p, today).Err? ==>
      r == Err(ProfileExistsError) && db.profiles == old(db.profiles)
    ensures CreateProfile(old(db.profiles), current.id, p, today).Ok? ==>
      db.profiles == CreateProfile(old(db.profiles), current.id, p, today).value
      && r == Ok(Row(old(db.profiles.nextId), NewProfile(current.id, p, today)))
    ensures db.users == old(db.users) && db.workoutPlans == old(db.workoutPlans) && db.exercises == old(db.exercises)
    ensures db.mealPlans == old(db.mealPlans) && db.meals == old(db.meals) && db.foodItems == old(db.foodItems)
    ensures db.subscriptions == old(db.subscriptions)
  {
    var existing := ProfileOf(db.profiles, current.id);
    if existing.Some? {
      return Err(ProfileExistsError);
    }
    var row := NewProfile(current.id, p, today);
    var id := db.profiles.nextId;
    AddKeyed(db.profiles, row);
    db.profiles := db.profiles.Add(row);
    r := Ok(Row(id, row));
  }

  /** `update_user_profile` for the active user `current` on day `today`. */
  method UpdateUserProfile(db: Database, current: Row<UserRow>, u: ProfileUpdate, today: Date) returns (r: Result<Row<ProfileRow>, HttpError>)
    requires current.value.isActive && ProfileUpdateValid(u) && db.Valid()
    modifies db
    ensures db.Valid()
    ensures UpdateProfile(old(db.profiles), current.id, u, today).Err? ==>
      r == Err(ProfileNotFoundError) && db.profiles == old(db.profiles)
    ensures UpdateProfile(old(db.profiles), current.id, u, today).Ok? ==>
      db.profiles == UpdateProfile(old(db.profiles), current.id, u, today).value
      && r.Ok? && r.value.value == UpdatedProfile(ProfileOf(old(db.profiles), current.id).value.value, u, today)
      && r.value.id == ProfileOf(old(db.profiles), current.id).value.id
    ensures db.users == old(db.users) && db.workoutPlans == old(db.workoutPlans) && db.exercises == old(db.exercises)
    ensures db.mealPlans == old(db.mealPlans) && db.meals == old(db.meals) && db.foodItems == old(db.foodItems)
    ensures db.subscriptions == old(db.subscriptions)
  {
    var existing := ProfileOf(db.profiles, current.id);
    if existing.None? {
      return Err(ProfileNotFoundError);
    }
    var data := BuildUpdateData(existing.value.value, u, today);
    var row := ApplyUpdateData(existing.value.value, data);
    PutKeyed(db.profiles, existing.value.id, row);
    db.profiles := db.profiles.Put(existing.value.id, row);
    r := Ok(Row(existing.value.id, row));
  }
}
