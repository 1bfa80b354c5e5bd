/**
 * The frontend's request wrapper `apiRequest` (lib/api/api.ts) and the request shapes of
 * `authApi.login` / `authApi.register`. Requests and responses are values: `fetch` is a
 * function parameter from the prepared request to what the network and server answer, and
 * the persisted token is the optional contents of the one storage slot.
 */
module ApiClient {
  import opened Wrappers
  import opened Seqs

  /** A JavaScript value, as far as the request and session layers look into it. */
  datatype JsValue =
    | Undefined
    | Null
    | Bool(b: bool)
    | Num(n: real)
    | Str(s: string)
    | Arr(items: seq<JsValue>)
    | Obj(fields: map<string, JsValue>)
    /** A `URLSearchParams` instance: its name/value pairs in insertion order. */
    | Form(pairs: seq<(string, string)>)

  /** JavaScript truthiness (NaN is not modelled: numbers are exact reals). */
  predicate Truthy(v: JsValue)
  {
    match v
    case Undefined => false
    case Null => false
    case Bool(b) => b
    case Num(n) => n != 0.0
    case Str(s) => s != ""
    case _ => true
  }

  /** `x || fallback` for a string `x`. */
  function OrDefault(x: string, fallback: string): (r: string)
    ensures r == x || r == fallback
    ensures r == fallback <==> x == "" || x == fallback
  {
    if x != "" then x else fallback
  }

  /**
   * Property access `v.key`: `None` when it throws (reading a property of `null` or
   * `undefined`), otherwise the property's value, `undefined` when it is absent.
   */
  function Member(v: JsValue, key: string): (r: Option<JsValue>)
    ensures r.None? <==> v.Null? || v.Undefined?
    ensures v.Obj? && key in v.fields ==> r == Some(v.fields[key])
    ensures v.Obj? && key !in v.fields ==> r == Some(Undefined)
  {
    match v
    case Undefined => None
    case Null => None
    case Obj(fields) => if key in fields then Some(fields[key]) else Some(Undefined)
    case _ => Some(Undefined)
  }

  const AuthRequiredMessage := "Authentication required. Please log in."
  const RequestFailed := "Request failed"
  const NetworkError := "Network error"
  const JsonMime := "application/json"
  /** The message of the TypeError that reading `detail` of a `null` body throws (V8's wording). */
  const NullDetailMessage := "Cannot read properties of null (reading 'detail')"

  /** The `options` argument; `None` is an omitted (undefined) option. */
  datatype ApiOptions = ApiOptions(
    verb: Option<string>, body: JsValue, headers: Option<map<string, string>>, requiresAuth: Option<bool>)

  /** `apiRequest(endpoint)` with no options. */
  const NoOptions := ApiOptions(None, Undefined, None, None)

  /** The destructuring defaults: method "GET", headers `{}`, requiresAuth `true`. */
  function MethodOf(o: ApiOptions): string { if o.verb.Some? then o.verb.value else "GET" }
  function HeadersOf(o: ApiOptions): map<string, string> { if o.headers.Some? then o.headers.value else map[] }
  predicate RequiresAuth(o: ApiOptions) { o.requiresAuth.None? || o.requiresAuth.value }

  /** A string from storage is usable iff it is truthy: present and non-empty. */
  predicate Present(stored: Option<string>) { stored.Some? && stored.value != "" }

  /** What is sent as the request body. */
  datatype Body =
    /** A `URLSearchParams` body, sent as-is; the browser picks its Content-Type. */
    | FormBody(pairs: seq<(string, string)>)
    /** `JSON.stringify(value)`, represented by the value it serialises. */
    | JsonBody(value: JsValue)

  /** The arguments handed to `fetch`. */
  datatype Request = Request(
    url: string, verb: string, headers: map<string, string>, body: Option<Body>, credentials: string)

  /** The endpoint joined to the base URL, with a "/" inserted iff the endpoint lacks one. */
  function BuildUrl(base: string, endpoint: string): (url: string)
    ensures |url| == |base| + |endpoint| + (if StartsWith(endpoint, "/") then 0 else 1)
    ensures url[..|base|] == base && StartsWith(url[|base|..], "/")
    ensures url[|url| - |endpoint|..] == endpoint
  {
    base + (if StartsWith(endpoint, "/") then endpoint else "/" + endpoint)
  }

  /** "Bearer " followed by the token, the header value of section 2.1 of RFC 6750. */
  function Bearer(token: string): string { "Bearer " + token }

  /**
   * The request `apiRequest` hands to `fetch`, or the error it throws before reaching the
   * `try`: a required but missing token.
   */
  function RequestFor(base: string, endpoint: string, o: ApiOptions, stored: Option<string>): Result<Request, Thrown>
  {
    if RequiresAuth(o) && !Present(stored) then Err(ErrorObject(AuthRequiredMessage))
    else
      var headers := if RequiresAuth(o) then HeadersOf(o)["Authorization" := Bearer(stored.value)] else HeadersOf(o);
      var url := BuildUrl(base, endpoint);
      if !Truthy(o.body) then Ok(Request(url, MethodOf(o), headers, None, "include"))
      else if o.body.Form? then Ok(Request(url, MethodOf(o), headers, Some(FormBody(o.body.pairs)), "include"))
      else Ok(Request(url, MethodOf(o), headers["Content-Type" := JsonMime], Some(JsonBody(o.body)), "include"))
  }

  /**
   * Lines 32-70 as they run: a fresh header object is filled in step by step, and since the
   * request options hold that same object, a Content-Type added after they are built is sent.
   */
  method PrepareRequest(base: string, endpoint: string, o: ApiOptions, stored: Option<string>)
    returns (r: Result<Request, Thrown>)
    ensures r == RequestFor(base, endpoint, o, stored)
  {
    var verb := "GET";
    if o.verb.Some? {
      verb := o.verb.value;
    }
    var url := BuildUrl(base, endpoint);
    var requestHeaders: map<string, string> := map[];
    if o.headers.Some? {
      requestHeaders := o.headers.value;
    }
    if o.requiresAuth.None? || o.requiresAuth.value {
      if stored.None? || stored.value == "" {
        return Err(ErrorObject(AuthRequiredMessage));
      }
      requestHeaders := requestHeaders["Authorization" := Bearer(stored.value)];
    }
    var body: Option<Body> := None;
    if Truthy(o.body) {
      if o.body.Form? {
        body := Some(FormBody(o.body.pairs));
      } else {
        requestHeaders := requestHeaders["Content-Type" := JsonMime];
        body := Some(JsonBody(o.body));
      }
    }
    r := Ok(Request(url, verb, requestHeaders, body, "include"));
  }

  /** What `fetch` yields: a rejection (an `Error` instance) or a response. */
  datatype FetchOutcome =
    | Rejected(message: string)
    /**
     * A response: `contentType` is the Content-Type header if present, `text` what
     * `response.text()` gives and `json` what `response.json()` gives or the message of the
     * SyntaxError it throws.
     */
    | Response(ok: bool, status: int, statusText: string, contentType: Option<string>,
               text: string, json: Result<JsValue, string>)

  /** A value `apiRequest` throws. */
  datatype Thrown =
    /** An `Error` instance. */
    | ErrorObject(text: string)
    /** A plain `{status, message, details?}` object. */
    | Plain(status: int, message: JsValue, details: Option<JsValue>)

  /** The catch clause applied to an `Error` instance. */
  function Caught(message: string): Thrown
  {
    Plain(0, Str(OrDefault(message, NetworkError)), None)
  }

  /** A Content-Type that is present, non-empty and does not mention JSON. */
  predicate NonJson(contentType: Option<string>)
  {
    contentType.Some? && contentType.value != "" && !Contains(contentType.value, JsonMime)
  }

  /** The `try`/`catch` of lines 72-110 applied to what `fetch` yields. */
  function Classify(f: FetchOutcome): Result<JsValue, Thrown>
  {
    match f
    case Rejected(m) => Err(Caught(m))
    case Response(ok, status, statusText, contentType, text, json) =>
      if NonJson(contentType) then
        if !ok then Err(Plain(status, Str(OrDefault(statusText, RequestFailed)), None)) else Ok(Str(text))
      else match json
        case Err(m) => Err(Caught(m))
        case Ok(data) =>
          if ok then Ok(data)
          else match Member(data, "detail")
            case None => Err(Caught(NullDetailMessage))
            case Some(detail) => Err(Plain(status, if Truthy(detail) then detail else Str(RequestFailed), Some(data)))
  }

  /** The whole of `apiRequest`: prepare, then classify what `fetch` answers. */
  function Perform(base: string, endpoint: string, o: ApiOptions, stored: Option<string>,
                   fetch: Request -> FetchOutcome): Result<JsValue, Thrown>
  {
    match RequestFor(base, endpoint, o, stored)
    case Err(e) => Err(e)
    case Ok(request) => Classify(fetch(request))
  }

  method ApiRequest(base: string, endpoint: string, o: ApiOptions, stored: Option<string>,
                    fetch: Request -> FetchOutcome) returns (r: Result<JsValue, Thrown>)
    ensures r == Perform(base, endpoint, o, stored, fetch)
  {
    var request := PrepareRequest(base, endpoint, o, stored);
    if request.Err? {
      return Err(request.error);
    }
    r := Classify(fetch(request.value));
  }

  /** Normalising the leading "/" is idempotent: both spellings of an endpoint give one URL. */
  lemma UrlIgnoresLeadingSlash(base: string, endpoint: string)
    requires !StartsWith(endpoint, "/")
    ensures BuildUrl(base, "/" + endpoint) == BuildUrl(base, endpoint)
  {
  }

  /**
   * A required but missing token throws the `Error` before the `try`: no request is
   * prepared, whatever the server would answer, and it is not rewritten to status 0.
   */
  lemma MissingTokenEscapes(base: string, endpoint: string, o: ApiOptions, stored: Option<string>,
                            fetch: Request -> FetchOutcome)
    requires RequiresAuth(o) && !Present(stored)
    ensures RequestFor(base, endpoint, o, stored).Err?
    ensures Perform(base, endpoint, o, stored, fetch) == Err(ErrorObject(AuthRequiredMessage))
  {
  }

  /**
   * With a usable token, or without the need for one, a request is prepared. Its headers
   * are the caller's, with "Authorization: Bearer <token>" iff auth is required and
   * Content-Type overwritten iff the body is serialised as JSON; nothing else is touched.
   */
  lemma PreparedHeaders(base: string, endpoint: string, o: ApiOptions, stored: Option<string>)
    requires !RequiresAuth(o) || Present(stored)
    ensures RequestFor(base, endpoint, o, stored).Ok?
    ensures var q := RequestFor(base, endpoint, o, stored).value;
      && q.url == BuildUrl(base, endpoint) && q.verb == MethodOf(o) && q.credentials == "include"
      && (RequiresAuth(o) ==> q.headers["Authorization"] == Bearer(stored.value))
      && (q.body.Some? && q.body.value.JsonBody? ==> q.headers["Content-Type"] == JsonMime)
      && (forall k :: k != "Authorization" && k != "Content-Type" ==>
            (k in q.headers <==> k in HeadersOf(o)) && (k in q.headers ==> q.headers[k] == HeadersOf(o)[k]))
      && (!RequiresAuth(o) ==> ("Authorization" in q.headers <==> "Authorization" in HeadersOf(o)))
  {
  }

  /**
   * The three body cases: a `URLSearchParams` body is sent as-is with the caller's
   * Content-Type (if any) left alone, any other truthy body is sent as JSON, and a falsy one
   * sends no body at all.
   */
  lemma BodyCases(base: string, endpoint: string, o: ApiOptions, stored: Option<string>)
    requires !RequiresAuth(o) || Present(stored)
    ensures var q := RequestFor(base, endpoint, o, stored).value;
      && (!Truthy(o.body) <==> q.body.None?)
      && (o.body.Form? <==> q.body.Some? && q.body.value.FormBody?)
      && (o.body.Form? ==> q.body == Some(FormBody(o.body.pairs)))
      && (o.body.Form? ==> ("Content-Type" in q.headers <==> "Content-Type" in HeadersOf(o)))
      && (Truthy(o.body) && !o.body.Form? <==> q.body == Some(JsonBody(o.body)))
  {
  }

  /**
   * Every value `apiRequest` throws is a plain object except the missing-token `Error`;
   * a plain object carries status 0 (a rejected fetch or unreadable body, with a string
   * message) or the status of a response that was not ok.
   */
  lemma ThrownValues(base: string, endpoint: string, o: ApiOptions, stored: Option<string>,
                     fetch: Request -> FetchOutcome)
    ensures var r := Perform(base, endpoint, o, stored, fetch);
      && (r.Err? && r.error.ErrorObject? ==> r.error.text == AuthRequiredMessage && RequiresAuth(o) && !Present(stored))
      && (r.Err? && r.error.Plain? ==>
            var f := fetch(RequestFor(base, endpoint, o, stored).value);
            (r.error.status == 0 && r.error.message.Str? && r.error.details.None?)
            || (f.Response? && !f.ok && r.error.status == f.status))
  {
  }

  /** A resolved request always had an ok response: a not-ok response never resolves. */
  lemma ResolvesOnlyOk(f: FetchOutcome)
    ensures Classify(f).Ok? ==> f.Response? && f.ok
    ensures f.Response? && f.ok && (NonJson(f.contentType) || f.json.Ok?) ==> Classify(f).Ok?
  {
  }

  /**
   * On the JSON path a not-ok response throws its `detail` as the message, whatever its type
   * (FastAPI's validation errors send a list), and the whole body as `details`; an absent or
   * falsy detail gives "Request failed".
   */
  lemma ErrorDetailPassedThrough(f: FetchOutcome, data: JsValue)
    requires f.Response? && !f.ok && !NonJson(f.contentType) && f.json == Ok(data) && data.Obj?
    ensures var d := if "detail" in data.fields then data.fields["detail"] else Undefined;
      Classify(f) == Err(Plain(f.status, if Truthy(d) then d else Str(RequestFailed), Some(data)))
  {
  }

  /** The login form body: the password grant fields of section 4.3.2 of RFC 6749. */
  function LoginOptions(email: string, password: string): ApiOptions
  {
    ApiOptions(Some("POST"), Form([("username", email), ("password", password)]), None, Some(false))
  }

  function RegisterOptions(email: string, password: string): ApiOptions
  {
    ApiOptions(Some("POST"), Obj(map["email" := Str(email), "password" := Str(password)]), None, Some(false))
  }

  const LoginPath := "/api/v1/auth/login"
  const RegisterPath := "/api/v1/auth/register"

  /**
   * `login` posts username=email and password as a form to the login path, without an
   * Authorization header or a Content-Type of its own, whatever is in storage.
   */
  lemma LoginRequestShape(base: string, email: string, password: string, stored: Option<string>)
    ensures RequestFor(base, LoginPath, LoginOptions(email, password), stored)
      == Ok(Request(base + LoginPath, "POST", map[], Some(FormBody([("username", email), ("password", password)])), "include"))
  {
  }

  /** `register` posts the JSON object {email, password}, also without authorisation. */
  lemma RegisterRequestShape(base: string, email: string, password: string, stored: Option<string>)
    ensures RequestFor(base, RegisterPath, RegisterOptions(email, password), stored)
      == Ok(Request(base + RegisterPath, "POST", map["Content-Type" := JsonMime],
                    Some(JsonBody(Obj(map["email" := Str(email), "password" := Str(password)]))), "include"))
  {
  }
}
