/**
 * The frontend session store `AuthProvider` (lib/auth/auth-context.tsx): the persisted token
 * slot, the in-memory `token`, `user` and `isLoading`, and the pages it has navigated to.
 * Decoding a token's payload (`JSON.parse(atob(...))`) is a function parameter; the router is
 * the `visited` log.
 */
module AuthContext {
  import opened Wrappers
  import opened Seqs
  import opened ApiClient

  /** The signed-in user as the context exposes it. */
  datatype User = User(email: JsValue, role: JsValue)

  /**
   * `JSON.parse(atob(segment))`: the parsed payload, or the message of the error that
   * `atob` or `JSON.parse` throws.
   */
  type Decoder = string -> Result<JsValue, string>

  /** `atob` accepts only the base64 alphabet, so base64url's "-" and "_" make it throw. */
  ghost predicate RejectsUrlAlphabet(decode: Decoder)
  {
    forall s :: ('-' in s || '_' in s) ==> decode(s).Err?
  }

  /**
   * `token.split('.')[1]`: the text between the first and second dot (or to the end). With
   * no dot it is `undefined`, which `atob` reads as the text "undefined".
   */
  function Segment(token: string): string
  {
    match IndexOf(token, '.')
    case None => "undefined"
    case Some(i) =>
      var rest := token[i + 1..];
      match IndexOf(rest, '.')
      case None => rest
      case Some(j) => rest[..j]
  }

  const NullSubMessage := "Cannot read properties of null (reading 'sub')"
  const Dashboard := "/dashboard"
  const LoginRoute := "/login"
  const RegisteredRoute := "/login?registered=true"

  /** `payload.role || 'user'`. */
  function RoleOr(role: JsValue): (r: JsValue)
    ensures Truthy(role) ==> r == role
    ensures !Truthy(role) ==> r == Str("user")
  {
    if Truthy(role) then role else Str("user")
  }

  /** The user a token decodes to: `{email: payload.sub, role: payload.role || 'user'}`. */
  function DecodeUser(token: string, decode: Decoder): Result<User, string>
  {
    match decode(Segment(token))
    case Err(m) => Err(m)
    case Ok(payload) =>
      match Member(payload, "sub")
      case None => Err(NullSubMessage)
      case Some(sub) => Ok(User(sub, RoleOr(Member(payload, "role").value)))
  }

  /** The provider's state; `stored` is the persisted "token" slot. */
  datatype Session = Session(
    stored: Option<string>, token: Option<string>, user: Option<User>, isLoading: bool, visited: seq<string>)

  /** `isAuthenticated: !!token`. */
  predicate IsAuthenticated(s: Session)
  {
    Present(s.token)
  }

  /** The state before the mount effect runs. */
  function Initial(stored: Option<string>): Session
  {
    Session(stored, None, None, true, [])
  }

  /** The mount effect (lines 31-50). A token that fails to decode is removed from storage only. */
  function Mounted(s: Session, decode: Decoder): Session
  {
    if !Present(s.stored) then s.(isLoading := false)
    else match DecodeUser(s.stored.value, decode)
      case Ok(u) => s.(token := s.stored, user := Some(u), isLoading := false)
      case Err(_) => s.(token := s.stored, stored := None, isLoading := false)
  }

  /** What `login` rethrows: the request's failure, or the error decoding the new token. */
  datatype LoginFailure = ApiFailure(thrown: Thrown) | DecodeFailure(message: string)

  datatype Step<E> = Step(session: Session, outcome: Result<(), E>)

  /**
   * `login` (lines 52-78), given what `authApi.login` resolved with (its `access_token`) or
   * threw. The token is persisted and set before it is decoded.
   */
  function LoggedIn(s: Session, response: Result<string, Thrown>, decode: Decoder): Step<LoginFailure>
  {
    match response
    case Err(e) => Step(s.(isLoading := false), Err(ApiFailure(e)))
    case Ok(t) =>
      match DecodeUser(t, decode)
      case Err(m) => Step(s.(stored := Some(t), token := Some(t), isLoading := false), Err(DecodeFailure(m)))
      case Ok(u) =>
        Step(s.(stored := Some(t), token := Some(t), user := Some(u), visited := s.visited + [Dashboard],
                isLoading := false), Ok(()))
  }

  /** `register` (lines 80-93), given what `authApi.register` resolved with or threw. */
  function Registered(s: Session, response: Result<JsValue, Thrown>): Step<Thrown>
  {
    match response
    case Err(e) => Step(s.(isLoading := false), Err(e))
    case Ok(_) => Step(s.(visited := s.visited + [RegisteredRoute], isLoading := false), Ok(()))
  }

  /** `logout` (lines 95-100). */
  function LoggedOut(s: Session): Session
  {
    s.(stored := None, token := None, user := None, visited := s.visited + [LoginRoute])
  }

  class AuthProvider {
    var stored: Option<string>
    var token: Option<string>
    var user: Option<User>
    var isLoading: bool
    var visited: seq<string>

    function State(): Session
      reads this
    {
      Session(stored, token, user, isLoading, visited)
    }

    constructor(persisted: Option<string>)
      ensures State() == Initial(persisted)
    {
      stored := persisted;
      token := None;
      user := None;
      isLoading := true;
      visited := [];
    }

    method Mount(decode: Decoder)
      modifies this
      ensures State() == Mounted(old(State()), decode)
    {
      var storedToken := stored;
      if storedToken.Some? && storedToken.value != "" {
        token := storedToken;
        var decoded := DecodeUser(storedToken.value, decode);
        if decoded.Ok? {
          user := Some(decoded.value);
        } else {
          stored := None;
        }
      }
      isLoading := false;
    }

    method Login(response: Result<string, Thrown>, decode: Decoder) returns (r: Result<(), LoginFailure>)
      modifies this
      ensures Step(State(), r) == LoggedIn(old(State()), response, decode)
    {
      isLoading := true;
      if response.Err? {
        isLoading := false;
        return Err(ApiFailure(response.error));
      }
      var newToken := response.value;
      stored := Some(newToken);
      token := Some(newToken);
      var decoded := DecodeUser(newToken, decode);
      if decoded.Err? {
        isLoading := false;
        return Err(DecodeFailure(decoded.error));
      }
      user := Some(decoded.value);
      visited := visited + [Dashboard];
      isLoading := false;
      r := Ok(());
    }

    method Register(response: Result<JsValue, Thrown>) returns (r: Result<(), Thrown>)
      modifies this
      ensures Step(State(), r) == Registered(old(State()), response)
    {
      isLoading := true;
      if response.Err? {
        r := Err(response.error);
      } else {
        visited := visited + [RegisteredRoute];
        r := Ok(());
      }
      isLoading := false;
    }

    method Logout()
      modifies this
      ensures State() == LoggedOut(old(State()))
    {
      stored := None;
      token := None;
      user := None;
      visited := visited + [LoginRoute];
    }
  }

  /** In a compact JWS `header.payload.signature`, the decoded segment is the payload. */
  lemma PayloadSegment(header: string, payload: string, signature: string)
    requires '.' !in header && '.' !in payload
    ensures Segment(header + "." + payload + "." + signature) == payload
  {
    var token := header + "." + payload + "." + signature;
    assert token == header + ['.'] + (payload + "." + signature);
    IndexOfJoin(header, '.', payload + "." + signature);
    var rest := token[|header| + 1..];
    assert rest == payload + ['.'] + signature;
    IndexOfJoin(payload, '.', signature);
  }

  /** A base64url payload containing "-" or "_" never yields a user. */
  lemma UrlAlphabetNeverDecodes(token: string, decode: Decoder)
    requires RejectsUrlAlphabet(decode) && ('-' in Segment(token) || '_' in Segment(token))
    ensures DecodeUser(token, decode).Err?
  {
  }

  /** With nothing usable stored, mounting only ends the loading state. */
  lemma MountWithoutToken(s: Session, decode: Decoder)
    requires !Present(s.stored)
    ensures Mounted(s, decode) == s.(isLoading := false)
    ensures s == Initial(s.stored) ==> Mounted(s, decode).token.None? && Mounted(s, decode).user.None?
  {
  }

  /** A decodable stored token signs its user in and stays stored. */
  lemma MountDecodable(s: Session, decode: Decoder)
    requires Present(s.stored) && DecodeUser(s.stored.value, decode).Ok?
    ensures var m := Mounted(s, decode);
      && m.user == Some(DecodeUser(s.stored.value, decode).value)
      && m.token == s.stored && m.stored == s.stored && IsAuthenticated(m) && !m.isLoading
  {
  }

  /**
   * A stored token that fails to decode is removed from storage, but the in-memory token
   * stays set: right after mounting, the session is authenticated with no user.
   */
  lemma MountUndecodable(stored: string, decode: Decoder)
    requires stored != "" && DecodeUser(stored, decode).Err?
    ensures var m := Mounted(Initial(Some(stored)), decode);
      && m.stored.None? && m.token == Some(stored) && IsAuthenticated(m) && m.user.None? && !m.isLoading
  {
  }

  /** A successful login stores and sets the token, sets the user and goes to the dashboard. */
  lemma LoginSucceeds(s: Session, t: string, decode: Decoder)
    requires DecodeUser(t, decode).Ok?
    ensures var step := LoggedIn(s, Ok(t), decode);
      && step.outcome.Ok? && step.session.stored == Some(t) && step.session.token == Some(t)
      && step.session.user == Some(DecodeUser(t, decode).value)
      && step.session.visited == s.visited + [Dashboard] && !step.session.isLoading
  {
  }

  /** A failed request is rethrown and leaves storage, token, user and route alone. */
  lemma LoginRequestFails(s: Session, e: Thrown, decode: Decoder)
    ensures LoggedIn(s, Err(e), decode) == Step(s.(isLoading := false), Err(ApiFailure(e)))
  {
  }

  /** An undecodable new token is rethrown as an error, yet it is already persisted and set. */
  lemma LoginKeepsUndecodableToken(s: Session, t: string, decode: Decoder)
    requires DecodeUser(t, decode).Err?
    ensures var step := LoggedIn(s, Ok(t), decode);
      && step.outcome.Err? && step.outcome.error.DecodeFailure?
      && step.session.stored == Some(t) && step.session.token == Some(t)
      && step.session.user == s.user && step.session.visited == s.visited && !step.session.isLoading
  {
  }

  /** `register` never touches the token slot, the token or the user. */
  lemma RegisterKeepsSession(s: Session, response: Result<JsValue, Thrown>)
    ensures var step := Registered(s, response);
      && step.session.stored == s.stored && step.session.token == s.token && step.session.user == s.user
      && !step.session.isLoading
      && (response.Ok? <==> step.session.visited == s.visited + [RegisteredRoute])
      && (response.Err? ==> step == Step(s.(isLoading := false), Err(response.error)))
  {
  }

  /** After `logout` nothing is authenticated, and a second `logout` changes only the route log. */
  lemma LogoutIdempotent(s: Session)
    ensures !IsAuthenticated(LoggedOut(s)) && LoggedOut(s).stored.None? && LoggedOut(s).user.None?
    ensures LoggedOut(LoggedOut(s)) == LoggedOut(s).(visited := s.visited + [LoginRoute, LoginRoute])
  {
  }

  /** What `AuthGuard` renders. */
  datatype GuardView = Loading | Children | Blank

  function GuardShows(isLoading: bool, isAuthenticated: bool): GuardView
  {
    if isLoading then Loading else if isAuthenticated then Children else Blank
  }

  /** The guard's effect pushes "/login" in exactly this case. */
  predicate GuardRedirects(isLoading: bool, isAuthenticated: bool)
  {
    !isLoading && !isAuthenticated
  }

  /** The guard redirects exactly when it renders nothing; protected content needs a token. */
  lemma GuardDecision(isLoading: bool, isAuthenticated: bool)
    ensures GuardRedirects(isLoading, isAuthenticated) <==> GuardShows(isLoading, isAuthenticated) == Blank
    ensures GuardShows(isLoading, isAuthenticated) == Children <==> !isLoading && isAuthenticated
  {
  }

  /** After a successful login the guard shows the protected page; after logout it redirects. */
  lemma GuardAfterLoginAndLogout(s: Session, t: string, decode: Decoder)
    requires t != "" && DecodeUser(t, decode).Ok?
    ensures var after := LoggedIn(s, Ok(t), decode).session;
      GuardShows(after.isLoading, IsAuthenticated(after)) == Children
    ensures !s.isLoading ==> GuardRedirects(LoggedOut(s).isLoading, IsAuthenticated(LoggedOut(s)))
  {
  }
}
