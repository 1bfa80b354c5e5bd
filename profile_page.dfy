/**
 * The profile page (app/dashboard/profile/page.tsx): fetching the profile on arrival and
 * saving the edited form, each with its loading flag, error and navigation rules.
 */
module ProfilePage {
  import opened Wrappers
  import opened ApiClient
  import opened ProfileForm

  /** A profile as the backend sends it: its date of birth, and its other fields by name. */
  datatype ProfileData = ProfileData(dateOfBirth: Date, fields: map<string, JsValue>)

  const FetchFailed := "Failed to fetch profile"
  const UpdateFailed := "Failed to update profile"
  const Updated := "Profile updated successfully"
  const LoginRoute := "/login"
  const CreateRoute := "/dashboard/profile/create"

  /** `reset({...profile, date_of_birth: formattedDate})`: the profile's fields, date as text. */
  function FormValues(p: ProfileData): map<string, JsValue>
    requires CalendarDate(p.dateOfBirth)
  {
    p.fields["date_of_birth" := Str(IsoDate(p.dateOfBirth))]
  }

  /**
   * After a reset, the date-of-birth validator reads the stored date itself, so an
   * unchanged date is judged by the profile's own birth year.
   */
  lemma ResetDateValidates(today: Date, p: ProfileData)
    requires CalendarDate(p.dateOfBirth)
    ensures FormValues(p)["date_of_birth"] == Str(IsoDate(p.dateOfBirth))
    ensures DobError(today, FormValues(p)["date_of_birth"].s).None? <==> 18 <= today.year - p.dateOfBirth.year <= 100
  {
    AgeRule(today, p.dateOfBirth);
  }

  /** A reply whose profile, if any, carries a date the backend can send. */
  predicate WellDated(reply: Reply<ProfileData>)
  {
    reply.Answered? ==> CalendarDate(reply.data.dateOfBirth)
  }

  class ProfileView {
    var profile: Option<ProfileData>
    var isLoading: bool
    var isSaving: bool
    var error: Option<JsValue>
    var successMessage: Option<string>
    /** The values the form was last reset with. */
    var form: Option<map<string, JsValue>>
    var visited: seq<string>
    var sent: seq<ProfileRequest>

    constructor()
      ensures profile.None? && isLoading && !isSaving && error.None? && successMessage.None?
      ensures form.None? && visited == [] && sent == []
    {
      profile := None;
      isLoading := true;
      isSaving := false;
      error := None;
      successMessage := None;
      form := None;
      visited := [];
      sent := [];
    }

    /**
     * The fetch effect (lines 47-96): without a token go to the login page, on 404 go to the
     * create page, on another failure show "Failed to fetch profile", else load the form.
     */
    method FetchProfile(stored: Option<string>, reply: Reply<ProfileData>)
      requires WellDated(reply)
      modifies this
      ensures !isLoading && isSaving == old(isSaving) && successMessage == old(successMessage)
      ensures !Present(stored) ==>
        (visited == old(visited) + [LoginRoute] && sent == old(sent)
         && error.None? && profile == old(profile) && form == old(form))
      ensures Present(stored) ==> sent == old(sent) + [ProfileRequest("GET", stored.value, None)]
      ensures Present(stored) ==> match reply
        case Unreachable(m) =>
          error == Some(Str(m)) && visited == old(visited) && profile == old(profile) && form == old(form)
        case NotOk(status, _) =>
          if status == 404 then error.None? && visited == old(visited) + [CreateRoute] && profile == old(profile) && form == old(form)
          else error == Some(Str(FetchFailed)) && visited == old(visited) && profile == old(profile) && form == old(form)
        case Answered(p) =>
          error.None? && visited == old(visited) && profile == Some(p) && form == Some(FormValues(p))
    {
      isLoading := true;
      error := None;
      if stored.None? || stored.value == "" {
        visited := visited + [LoginRoute];
      } else {
        sent := sent + [ProfileRequest("GET", stored.value, None)];
        match reply {
          case Unreachable(m) =>
            error := Some(Str(m));
          case NotOk(status, _) =>
            if status == 404 {
              visited := visited + [CreateRoute];
            } else {
              error := Some(Str(FetchFailed));
            }
          case Answered(p) =>
            profile := Some(p);
            form := Some(FormValues(p));
        }
      }
      isLoading := false;
    }

    /**
     * `onSubmit` (lines 98-142), run once the form passes its validators: a failure shows
     * its detail or "Failed to update profile"; success shows the confirmation and reloads
     * the form from the updated profile.
     */
    method OnSubmit(today: Date, data: FormData, stored: Option<string>, reply: Reply<ProfileData>)
      requires Accepted(today, data) && WellDated(reply)
      modifies this
      ensures !isSaving && isLoading == old(isLoading) && visited == old(visited)
      ensures !Present(stored) ==>
        (error == Some(Str(NotAuthenticated)) && sent == old(sent)
         && successMessage.None? && profile == old(profile) && form == old(form))
      ensures Present(stored) ==> sent == old(sent) + [ProfileRequest("PUT", stored.value, Some(data))]
      ensures Present(stored) ==> match reply
        case Unreachable(m) =>
          error == Some(Str(m)) && successMessage.None? && profile == old(profile) && form == old(form)
        case NotOk(_, body) =>
          error == Some(ErrorBody(body, UpdateFailed)) && successMessage.None? && profile == old(profile) && form == old(form)
        case Answered(p) =>
          error.None? && successMessage == Some(Updated) && profile == Some(p) && form == Some(FormValues(p))
    {
      isSaving := true;
      error := None;
      successMessage := None;
      if stored.None? || stored.value == "" {
        error := Some(Str(NotAuthenticated));
      } else {
        sent := sent + [ProfileRequest("PUT", stored.value, Some(data))];
        match reply {
          case Unreachable(m) =>
            error := Some(Str(m));
          case NotOk(_, body) =>
            error := Some(ErrorBody(body, UpdateFailed));
          case Answered(p) =>
            profile := Some(p);
            successMessage := Some(Updated);
            form := Some(FormValues(p));
        }
      }
      isSaving := false;
    }
  }
}
