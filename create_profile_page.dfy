/**
 * The create-profile page (app/dashboard/profile/create/page.tsx): `onSubmit` posts the form
 * with the stored token and either navigates to the dashboard or shows an error.
 */
module CreateProfilePage {
  import opened Wrappers
  import opened ApiClient
  import opened ProfileForm

  const CreateFailed := "Failed to create profile"
  const DashboardRoute := "/dashboard"

  class CreateForm {
    var isLoading: bool
    var error: Option<JsValue>
    var visited: seq<string>
    /** The requests sent so far. */
    var sent: seq<ProfileRequest>

    constructor()
      ensures !isLoading && error.None? && visited == [] && sent == []
    {
      isLoading := false;
      error := None;
      visited := [];
      sent := [];
    }

    /**
     * `onSubmit` (lines 37-68), run once the form passes its validators; `reply` is what the
     * POST ends in.
     */
    method OnSubmit(today: Date, data: FormData, stored: Option<string>, reply: Reply<JsValue>)
      requires Accepted(today, data)
      modifies this
      ensures !isLoading
      ensures !Present(stored) ==> error == Some(Str(NotAuthenticated)) && sent == old(sent) && visited == old(visited)
      ensures Present(stored) ==> sent == old(sent) + [ProfileRequest("POST", stored.value, Some(data))]
      ensures Present(stored) ==> match reply
        case Unreachable(m) => error == Some(Str(m)) && visited == old(visited)
        case NotOk(_, body) => error == Some(ErrorBody(body, CreateFailed)) && visited == old(visited)
        case Answered(_) => error.None? && visited == old(visited) + [DashboardRoute]
    {
      isLoading := true;
      error := None;
      if stored.None? || stored.value == "" {
        error := Some(Str(NotAuthenticated));
      } else {
        sent := sent + [ProfileRequest("POST", stored.value, Some(data))];
        match reply {
          case Unreachable(m) =>
            error := Some(Str(m));
          case NotOk(_, body) =>
            error := Some(ErrorBody(body, CreateFailed));
          case Answered(_) =>
            visited := visited + [DashboardRoute];
        }
      }
      isLoading := false;
    }
  }
}
