/**
 * The workouts page (app/dashboard/workouts/page.tsx): loading or generating the plan and its
 * days through `apiRequest`, choosing the active day, and which days the detail panel shows.
 */
module WorkoutsPage {
  import opened Wrappers
  import opened Seqs
  import opened ApiClient

  datatype WorkoutDay = WorkoutDay(id: int, dayName: string, focus: string)

  /** `new Date().getDay()` indexes this table: 0 is Sunday. */
  const DayNames: seq<string> := ["Sunday", "Monday", "Tuesday", "Wednesday", "Thursday", "Friday", "Saturday"]

  const FetchFallback := "An error occurred"
  const GenerateFallback := "An error occurred while generating workout plan"

  function TodayName(weekday: int): (name: string)
    requires 0 <= weekday < 7
    ensures name != "" && name in DayNames
  {
    DayNames[weekday]
  }

  function NamedAs(name: string): WorkoutDay -> bool
  {
    (d: WorkoutDay) => d.dayName == name
  }

  /**
   * The active day (lines 60-69 and 102-111): today's name if some day carries it, else the
   * first day's name when that is non-empty, else none.
   */
  function ActiveDay(days: seq<WorkoutDay>, today: string): Option<string>
  {
    if Find(days, NamedAs(today)).Some? then Some(today)
    else if |days| > 0 && days[0].dayName != "" then Some(days[0].dayName)
    else None
  }

  /** The detail panel's days: those named as the active day (lines 216-217). */
  function DetailDays(days: seq<WorkoutDay>, active: string): seq<WorkoutDay>
  {
    Filter(days, NamedAs(active))
  }

  /** The three-way choice, stated without the search. */
  lemma ActiveDayChoice(days: seq<WorkoutDay>, today: string)
    ensures (exists k :: 0 <= k < |days| && days[k].dayName == today) ==> ActiveDay(days, today) == Some(today)
    ensures (forall k :: 0 <= k < |days| ==> days[k].dayName != today) ==>
      ActiveDay(days, today) == if |days| > 0 && days[0].dayName != "" then Some(days[0].dayName) else None
    ensures days == [] ==> ActiveDay(days, today).None?
  {
    if exists k :: 0 <= k < |days| && days[k].dayName == today {
      var k :| 0 <= k < |days| && days[k].dayName == today;
      assert NamedAs(today)(days[k]);
    }
  }

  /** The active day chosen for today names a listed day, so the detail panel is never empty. */
  lemma ActiveDayShown(days: seq<WorkoutDay>, weekday: int)
    requires 0 <= weekday < 7
    ensures var active := ActiveDay(days, TodayName(weekday));
      active.Some? ==> active.value != "" && |DetailDays(days, active.value)| > 0
  {
    var active := ActiveDay(days, TodayName(weekday));
    if active.Some? {
      var k := if Find(days, NamedAs(TodayName(weekday))).Some? then FirstIndex(days, NamedAs(TodayName(weekday))).value else 0;
      assert NamedAs(active.value)(days[k]);
      assert days[k] in DetailDays(days, active.value);
    }
  }

  /** Every day in the detail panel carries the active day's name. */
  lemma DetailDaysNamed(days: seq<WorkoutDay>, active: string)
    ensures forall i :: 0 <= i < |DetailDays(days, active)| ==> DetailDays(days, active)[i].dayName == active
  {
  }

  /** `err instanceof Error && err.message.includes('404')`: the failures lines 72-76 swallow. */
  predicate Swallowed(err: Thrown)
  {
    err.ErrorObject? && Contains(err.text, "404")
  }

  /** `err instanceof Error ? err.message : fallback`. */
  function ErrorMessage(err: Thrown, fallback: string): string
  {
    if err.ErrorObject? then err.text else fallback
  }

  /** A text without the digit 4 does not contain "404". */
  lemma NoFourNo404(s: string)
    requires '4' !in s
    ensures !Contains(s, "404")
  {
    forall i | 0 <= i <= |s| - 3
      ensures !OccursAt(s, "404", i)
    {
      assert s[i] in s;
    }
  }

  /** The missing-token message has no digit 4 (checked in two halves: the literal is long). */
  lemma AuthMessageHasNoFour()
    ensures '4' !in AuthRequiredMessage
  {
    var a, b := "Authentication required.", " Please log in.";
    assert '4' !in a && '4' !in b;
    assert forall i :: 0 <= i < |a + b| ==> (a + b)[i] == (if i < |a| then a[i] else b[i - |a|]);
    assert AuthRequiredMessage == a + b;
  }

  /**
   * The 404 tolerance never fires for what `apiRequest` throws: its only `Error` is the
   * missing-token one, and HTTP failures (a 404 included) are plain objects.
   */
  lemma ToleranceNeverFires(base: string, endpoint: string, o: ApiOptions, stored: Option<string>,
                            fetch: Request -> FetchOutcome)
    ensures var r := Perform(base, endpoint, o, stored, fetch); r.Err? ==> !Swallowed(r.error)
  {
    var r := Perform(base, endpoint, o, stored, fetch);
    if r.Err? && r.error.ErrorObject? {
      ThrownValues(base, endpoint, o, stored, fetch);
      AuthMessageHasNoFour();
      NoFourNo404(AuthRequiredMessage);
    }
  }

  /** So a missing plan (HTTP 404) surfaces on the page as "An error occurred". */
  lemma MissingPlanSurfaces(f: FetchOutcome)
    requires f.Response? && !f.ok && f.status == 404
    ensures Classify(f).Err? && !Swallowed(Classify(f).error)
    ensures ErrorMessage(Classify(f).error, FetchFallback) == FetchFallback
  {
  }

  class WorkoutsView {
    var plan: Option<JsValue>
    var days: seq<WorkoutDay>
    var isLoading: bool
    var error: Option<string>
    var activeDay: Option<string>

    constructor()
      ensures plan.None? && days == [] && isLoading && error.None? && activeDay.None?
    {
      plan := None;
      days := [];
      isLoading := true;
      error := None;
      activeDay := None;
    }

    /**
     * The fetch effect (lines 45-87): the plan, then the days of that plan; a failure that is
     * not swallowed becomes the error, and loading ends whatever happens.
     */
    method FetchWorkoutData(planReply: Result<JsValue, Thrown>,
                            fetchDays: JsValue -> Result<seq<WorkoutDay>, Thrown>, weekday: int)
      requires 0 <= weekday < 7
      modifies this
      ensures !isLoading
      ensures planReply.Err? ==>
        (plan == old(plan) && days == old(days) && activeDay == old(activeDay)
         && error == (if Swallowed(planReply.error) then None else Some(ErrorMessage(planReply.error, FetchFallback))))
      ensures planReply.Ok? ==> plan == Some(planReply.value)
      ensures planReply.Ok? && fetchDays(planReply.value).Err? ==>
        var e := fetchDays(planReply.value).error;
        days == old(days) && activeDay == old(activeDay)
        && error == (if Swallowed(e) then None else Some(ErrorMessage(e, FetchFallback)))
      ensures planReply.Ok? && fetchDays(planReply.value).Ok? ==>
        days == fetchDays(planReply.value).value && activeDay == ActiveDay(days, TodayName(weekday)) && error.None?
    {
      isLoading := true;
      error := None;
      var failure: Option<Thrown> := None;
      if planReply.Err? {
        failure := Some(planReply.error);
      } else {
        plan := Some(planReply.value);
        var daysReply := fetchDays(planReply.value);
        if daysReply.Err? {
          failure := Some(daysReply.error);
        } else {
          days := daysReply.value;
          activeDay := ActiveDay(daysReply.value, TodayName(weekday));
        }
      }
      if failure.Some? && !Swallowed(failure.value) {
        error := Some(ErrorMessage(failure.value, FetchFallback));
      }
      isLoading := false;
    }

    /** `generateWorkoutPlan` (lines 89-118): the same steps, with no failure swallowed. */
    method GenerateWorkoutPlan(generated: Result<JsValue, Thrown>,
                               fetchDays: JsValue -> Result<seq<WorkoutDay>, Thrown>, weekday: int)
      requires 0 <= weekday < 7
      modifies this
      ensures !isLoading
      ensures generated.Err? ==>
        (plan == old(plan) && days == old(days) && activeDay == old(activeDay)
         && error == Some(ErrorMessage(generated.error, GenerateFallback)))
      ensures generated.Ok? ==> plan == Some(generated.value)
      ensures generated.Ok? && fetchDays(generated.value).Err? ==>
        days == old(days) && activeDay == old(activeDay)
        && error == Some(ErrorMessage(fetchDays(generated.value).error, GenerateFallback))
      ensures generated.Ok? && fetchDays(generated.value).Ok? ==>
        days == fetchDays(generated.value).value && activeDay == ActiveDay(days, TodayName(weekday)) && error.None?
    {
      isLoading := true;
      error := None;
      if generated.Err? {
        error := Some(ErrorMessage(generated.error, GenerateFallback));
      } else {
        plan := Some(generated.value);
        var daysReply := fetchDays(generated.value);
        if daysReply.Err? {
          error := Some(ErrorMessage(daysReply.error, GenerateFallback));
        } else {
          days := daysReply.value;
          activeDay := ActiveDay(daysReply.value, TodayName(weekday));
        }
      }
      isLoading := false;
    }
  }
}
