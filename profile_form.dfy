/**
 * The profile form shared by app/dashboard/profile/create/page.tsx and
 * app/dashboard/profile/page.tsx: its field values, validators, defaults and option values,
 * the "YYYY-MM-DD" date text it is reset with, and how a failed request becomes its error.
 */
module ProfileForm {
  import opened Wrappers
  import opened ApiClient
  import Schemas
  import NutritionService

  /** What the form submits; numeric fields are `None` when left empty. */
  datatype FormData = FormData(
    gender: string, dateOfBirth: string, heightCm: Option<real>, weightKg: Option<real>,
    activityLevel: string, goal: string, bodyFatPercent: Option<real>)

  /** The option values the selects offer. */
  const GenderOptions: seq<string> := ["male", "female"]
  const ActivityOptions: seq<string> := ["sedentary", "lightly_active", "moderately_active", "very_active", "extremely_active"]
  const GoalOptions: seq<string> := ["lose_weight", "maintain", "gain_muscle"]

  /** The create page's default values (create/page.tsx lines 30-34). */
  const DefaultGender := "male"
  const DefaultActivity := "moderately_active"
  const DefaultGoal := "maintain"

  // ---- "YYYY-MM-DD" date text ----

  function Pow10(n: nat): (p: nat)
    ensures p >= 1
  {
    if n == 0 then 1 else 10 * Pow10(n - 1)
  }

  predicate IsDigit(c: char) { '0' <= c <= '9' }

  predicate AllDigits(s: string) { forall i :: 0 <= i < |s| ==> IsDigit(s[i]) }

  /** `n` in decimal, zero-padded to `width` digits. */
  function Digits(n: nat, width: nat): (s: string)
    requires n < Pow10(width)
    ensures |s| == width
  {
    if width == 0 then "" else Digits(n / 10, width - 1) + [('0' as int + n % 10) as char]
  }

  /** The number a string of decimal digits spells. */
  function DecimalValue(s: string): (n: nat)
    requires AllDigits(s)
  {
    if |s| == 0 then 0 else DecimalValue(s[..|s| - 1]) * 10 + (s[|s| - 1] as int - '0' as int)
  }

  /** Reading back a zero-padded rendering gives the number. */
  lemma {:induction false} DigitsRoundTrip(n: nat, width: nat)
    requires n < Pow10(width)
    ensures AllDigits(Digits(n, width)) && DecimalValue(Digits(n, width)) == n
  {
    if width > 0 {
      DigitsRoundTrip(n / 10, width - 1);
      var s := Digits(n, width);
      assert s[..|s| - 1] == Digits(n / 10, width - 1);
    }
  }

  /** A date the backend can send: Python's year range and calendar fields. */
  predicate CalendarDate(d: Date)
  {
    1 <= d.year <= 9999 && 1 <= d.month <= 12 && 1 <= d.day <= 31
  }

  /** `new Date(d).toISOString().split('T')[0]`. */
  function IsoDate(d: Date): (s: string)
    requires CalendarDate(d)
    ensures |s| == 10 && s[4] == '-' && s[7] == '-'
  {
    Digits(d.year, 4) + "-" + Digits(d.month, 2) + "-" + Digits(d.day, 2)
  }

  /** The date a "YYYY-MM-DD" field value denotes, if it is one (`new Date(text)`). */
  function ParseIsoDate(s: string): Option<Date>
  {
    if |s| == 10 && s[4] == '-' && s[7] == '-' && AllDigits(s[..4]) && AllDigits(s[5..7]) && AllDigits(s[8..])
    then Some(Date(DecimalValue(s[..4]), DecimalValue(s[5..7]), DecimalValue(s[8..])))
    else None
  }

  /** The text the form is reset with reads back as the date it came from. */
  lemma IsoDateRoundTrip(d: Date)
    requires CalendarDate(d)
    ensures ParseIsoDate(IsoDate(d)) == Some(d)
  {
    var s := IsoDate(d);
    DigitsRoundTrip(d.year, 4);
    DigitsRoundTrip(d.month, 2);
    DigitsRoundTrip(d.day, 2);
    assert s[..4] == Digits(d.year, 4);
    assert s[5..7] == Digits(d.month, 2);
    assert s[8..] == Digits(d.day, 2);
  }

  // ---- validators ----

  const GenderRequired := "Gender is required"
  const DobRequired := "Date of birth is required"
  const DobRange := "You must be between 18 and 100 years old"
  const HeightRequired := "Height is required"
  const HeightLow := "Height must be at least 100 cm"
  const HeightHigh := "Height must be less than 250 cm"
  const WeightRequired := "Weight is required"
  const WeightLow := "Weight must be at least 30 kg"
  const WeightHigh := "Weight must be less than 300 kg"
  const BodyFatLow := "Body fat percentage must be at least 3%"
  const BodyFatHigh := "Body fat percentage must be less than 50%"

  function GenderError(gender: string): Option<string>
  {
    if gender == "" then Some(GenderRequired) else None
  }

  /**
   * The date-of-birth rule: the difference of calendar years, today's minus the birth
   * year's, lies in [18, 100]; text that is not a date fails it too.
   */
  function DobError(today: Date, text: string): Option<string>
  {
    if text == "" then Some(DobRequired)
    else match ParseIsoDate(text)
      case None => Some(DobRange)
      case Some(dob) => if 18 <= today.year - dob.year <= 100 then None else Some(DobRange)
  }

  /** A required number with inclusive bounds. */
  function RangeError(x: Option<real>, low: real, high: real, required: string, tooLow: string, tooHigh: string): Option<string>
  {
    if x.None? then Some(required)
    else if x.value < low then Some(tooLow)
    else if x.value > high then Some(tooHigh)
    else None
  }

  function HeightError(h: Option<real>): Option<string>
  {
    RangeError(h, 100.0, 250.0, HeightRequired, HeightLow, HeightHigh)
  }

  function WeightError(w: Option<real>): Option<string>
  {
    RangeError(w, 30.0, 300.0, WeightRequired, WeightLow, WeightHigh)
  }

  /** Body fat is optional: an empty field passes. */
  function BodyFatError(bf: Option<real>): Option<string>
  {
    if bf.None? then None
    else if bf.value < 3.0 then Some(BodyFatLow)
    else if bf.value > 50.0 then Some(BodyFatHigh)
    else None
  }

  /**
   * The browser's check of a number input with `step="0.1"` and no `min`: a value that is not a
   * whole number of tenths is a step mismatch. An empty field passes.
   */
  predicate OnStep(v: Option<real>)
  {
    v.None? || (v.value * 10.0).Floor as real == v.value * 10.0
  }

  /**
   * The form does not set `noValidate`, so the browser first blocks a submission whose numbers are
   * off the 0.1 step; then `handleSubmit` calls `onSubmit` only when no field has an error.
   */
  predicate Accepted(today: Date, d: FormData)
  {
    OnStep(d.heightCm) && OnStep(d.weightKg) && OnStep(d.bodyFatPercent)
    && GenderError(d.gender).None? && DobError(today, d.dateOfBirth).None? && HeightError(d.heightCm).None?
    && WeightError(d.weightKg).None? && BodyFatError(d.bodyFatPercent).None?
  }

  /** A height in hundredths passes the form's range check but not the browser's step check. */
  lemma StepStricterThanRange()
    ensures HeightError(Some(175.25)).None? && !OnStep(Some(175.25))
    ensures HeightError(Some(175.3)).None? && OnStep(Some(175.3))
  {
    assert (175.25 * 10.0).Floor == 1752;
    assert (175.3 * 10.0).Floor == 1753;
  }

  /** The numeric rules as intervals; the upper bounds are inclusive despite the messages' "less than". */
  lemma NumericRanges(d: FormData)
    ensures HeightError(d.heightCm).None? <==> d.heightCm.Some? && 100.0 <= d.heightCm.value <= 250.0
    ensures WeightError(d.weightKg).None? <==> d.weightKg.Some? && 30.0 <= d.weightKg.value <= 300.0
    ensures BodyFatError(d.bodyFatPercent).None? <==>
      (d.bodyFatPercent.Some? ==> 3.0 <= d.bodyFatPercent.value <= 50.0)
  {
  }

  /** The age rule is a difference of years: a valid date passes iff that difference is 18..100. */
  lemma AgeRule(today: Date, dob: Date)
    requires CalendarDate(dob)
    ensures DobError(today, IsoDate(dob)).None? <==> 18 <= today.year - dob.year <= 100
  {
    IsoDateRoundTrip(dob);
  }

  /**
   * The backend's age counts birthdays, so it is the year difference or one less: the form
   * lets through someone who is still 17 by the backend's count.
   */
  lemma AgeRuleLooserThanBackend(today: Date, dob: Date)
    ensures NutritionService.CalculateAge(dob, today) == today.year - dob.year
      || NutritionService.CalculateAge(dob, today) == today.year - dob.year - 1
    ensures var born := Date(2000, 12, 31);
      DobError(Date(2018, 1, 1), IsoDate(born)).None? && NutritionService.CalculateAge(born, Date(2018, 1, 1)) == 17
  {
    var born := Date(2000, 12, 31);
    IsoDateRoundTrip(born);
  }

  /**
   * Numbers the form accepts meet the backend's own constraints on a new profile
   * (positive height and weight, body fat within [0, 100]), whatever the enums are.
   */
  lemma AcceptedMeetsBackendRanges(today: Date, d: FormData, gender: Schemas.Gender,
                                   activity: Schemas.ActivityLevel, goal: Schemas.Goal)
    requires Accepted(today, d)
    ensures ParseIsoDate(d.dateOfBirth).Some?
    ensures Schemas.ProfileCreateValid(Schemas.ProfileCreate(
      gender, ParseIsoDate(d.dateOfBirth).value, d.heightCm.value, d.weightKg.value, activity, goal, d.bodyFatPercent))
  {
  }

  /**
   * Of the option values offered, the backend's enums accept only "sedentary" for the
   * activity level and "maintain" and "gain_muscle" for the goal; the create page's default
   * activity is rejected.
   */
  lemma OptionsAgainstBackend()
    ensures forall k :: 0 <= k < |ActivityOptions| ==> (Schemas.ParseActivity(ActivityOptions[k]).Some? <==> k == 0)
    ensures forall k :: 0 <= k < |GoalOptions| ==> (Schemas.ParseGoal(GoalOptions[k]).Some? <==> k != 0)
    ensures forall k :: 0 <= k < |GenderOptions| ==> Schemas.ParseGender(GenderOptions[k]).Some?
    ensures Schemas.ParseActivity(DefaultActivity).None? && Schemas.ParseGoal(DefaultGoal) == Some(Schemas.Maintain)
  {
  }

  // ---- request outcomes ----

  /** What a direct `fetch` to the profile endpoint ends in. */
  datatype Reply<T> =
    /** The fetch rejected, or an ok body could not be read: an `Error` with this message. */
    | Unreachable(message: string)
    /** A response that was not ok: its status and what `response.json()` gives or throws. */
    | NotOk(status: int, body: Result<JsValue, string>)
    | Answered(data: T)

  /**
   * `new Error(errorData.detail || fallback)` after reading the body of a not-ok response,
   * as the value the error is built from; an unreadable body gives the parser's message.
   */
  function ErrorBody(body: Result<JsValue, string>, fallback: string): JsValue
  {
    match body
    case Err(m) => Str(m)
    case Ok(data) =>
      match Member(data, "detail")
      case None => Str(NullDetailMessage)
      case Some(detail) => if Truthy(detail) then detail else Str(fallback)
  }

  /** A string detail is shown as sent; a body without one shows the fallback. */
  lemma ErrorBodyCases(fields: map<string, JsValue>, fallback: string)
    ensures "detail" in fields && fields["detail"].Str? && fields["detail"].s != "" ==>
      ErrorBody(Ok(Obj(fields)), fallback) == fields["detail"]
    ensures "detail" !in fields ==> ErrorBody(Ok(Obj(fields)), fallback) == Str(fallback)
  {
  }

  const ProfileUrl := "http://localhost:8000/api/v1/user/profile"
  const NotAuthenticated := "Not authenticated"

  /** A request the profile pages send to `ProfileUrl` with "Authorization: Bearer <token>". */
  datatype ProfileRequest = ProfileRequest(verb: string, token: string, body: Option<FormData>)
}
