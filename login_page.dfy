/**
 * The login page (app/login/page.tsx): its field validators, the text it shows for what
 * `login` throws, and its own `isLoading`/`error`/`successMessage` state.
 */
module LoginPage {
  import opened Wrappers
  import opened Seqs
  import opened ApiClient
  import opened AuthContext
  import Schemas

  /** A letter; the pattern's `i` flag lets `[A-Z]` match both cases. */
  predicate Letter(c: char) { 'A' <= c <= 'Z' || 'a' <= c <= 'z' }
  predicate Digit(c: char) { '0' <= c <= '9' }

  /** `[A-Z0-9._%+-]` */
  predicate LocalChar(c: char) { Letter(c) || Digit(c) || c in "._%+-" }
  /** `[A-Z0-9.-]` */
  predicate DomainChar(c: char) { Letter(c) || Digit(c) || c in ".-" }

  predicate LocalPart(s: string) { |s| > 0 && forall i :: 0 <= i < |s| ==> LocalChar(s[i]) }
  predicate DomainPart(s: string) { |s| > 0 && forall i :: 0 <= i < |s| ==> DomainChar(s[i]) }
  /** `[A-Z]{2,}` */
  predicate TopLevel(s: string) { |s| >= 2 && forall i :: 0 <= i < |s| ==> Letter(s[i]) }

  /** The pattern matches with its "@" at `at` and its final "." at `dot`. */
  predicate MatchesAt(s: string, at: int, dot: int)
  {
    0 <= at < dot < |s|
    && LocalPart(s[..at]) && s[at] == '@' && DomainPart(s[at + 1..dot]) && s[dot] == '.' && TopLevel(s[dot + 1..])
  }

  /** `/^[A-Z0-9._%+-]+@[A-Z0-9.-]+\.[A-Z]{2,}$/i` as a regular expression means it. */
  ghost predicate EmailPattern(s: string)
  {
    exists at, dot :: MatchesAt(s, at, dot)
  }

  /** The check as a scan: split at the first "@" and the last ".". */
  function EmailMatches(s: string): bool
  {
    match IndexOf(s, '@')
    case None => false
    case Some(at) =>
      match LastIndexOf(s, '.')
      case None => false
      case Some(dot) => at < dot && MatchesAt(s, at, dot)
  }

  /** The scan accepts exactly the strings the pattern matches. */
  lemma EmailMatchesPattern(s: string)
    ensures EmailMatches(s) <==> EmailPattern(s)
  {
    if EmailPattern(s) {
      var at, dot :| MatchesAt(s, at, dot);
      IndexOfIs(s, '@', at);
      LastIndexOfIs(s, '.', dot);
    }
  }

  // ---- the browser's own check of an `<input type="email">` ----

  /** A character the HTML standard allows in the local part of a valid e-mail address. */
  predicate HtmlLocalChar(c: char) { Letter(c) || Digit(c) || c in ".!#$%&'*+/=?^_`{|}~-" }

  /** A domain label: 1 to 63 letters, digits and hyphens, beginning and ending with a letter or digit. */
  predicate HtmlLabel(s: string)
  {
    1 <= |s| <= 63 && (Letter(s[0]) || Digit(s[0])) && (Letter(s[|s| - 1]) || Digit(s[|s| - 1]))
    && forall i :: 0 <= i < |s| ==> Letter(s[i]) || Digit(s[i]) || s[i] == '-'
  }

  /** Labels separated by single dots. */
  predicate HtmlDomain(s: string)
    decreases |s|
  {
    match IndexOf(s, '.')
    case None => HtmlLabel(s)
    case Some(i) => HtmlLabel(s[..i]) && HtmlDomain(s[i + 1..])
  }

  /**
   * The form does not set `noValidate`, so the browser blocks the submission, before the form's
   * validators run, while the email field holds a value that is not a valid e-mail address in the
   * sense of the HTML standard. An empty field passes this check.
   */
  predicate BrowserEmailValid(s: string)
  {
    s == "" ||
    match IndexOf(s, '@')
    case None => false
    case Some(at) => at > 0 && (forall i :: 0 <= i < at ==> HtmlLocalChar(s[i])) && HtmlDomain(s[at + 1..])
  }

  /** The pattern's parts of "a@-b.cc", split at its "@" and its last ".". */
  lemma HyphenLabelParts()
    ensures MatchesAt("a@-b.cc", 1, 4)
  {
    var s := "a@-b.cc";
    assert LocalPart(s[..1]) by { assert s[..1] == "a"; }
    assert DomainPart(s[2..4]) by { assert s[2..4] == "-b"; }
    assert TopLevel(s[5..]) by { assert s[5..] == "cc"; }
  }

  /** An address with a label beginning with "-" after the "@" matches the page's pattern. */
  lemma PatternAcceptsHyphenLabel()
    ensures EmailMatches("a@-b.cc")
  {
    HyphenLabelParts();
    EmailMatchesPattern("a@-b.cc");
  }

  /** A domain whose first label begins with "-" is not a valid domain. */
  lemma HyphenDomainRefused()
    ensures !HtmlDomain("-b.cc")
  {
    var d := "-b.cc";
    IndexOfIs(d, '.', 2);
    assert d[..2][0] == '-';
  }

  /** The browser refuses a domain label that begins with "-". */
  lemma BrowserRefusesHyphenLabel()
    ensures !BrowserEmailValid("a@-b.cc")
  {
    var s := "a@-b.cc";
    HyphenDomainRefused();
    IndexOfIs(s, '@', 1);
    assert s[2..] == "-b.cc";
  }

  /** The browser is stricter than the page's pattern: "a@-b.cc" passes the validator but not the browser. */
  lemma BrowserStricterThanPattern()
    ensures EmailError("a@-b.cc").None? && !BrowserEmailValid("a@-b.cc")
  {
    PatternAcceptsHyphenLabel();
    BrowserRefusesHyphenLabel();
  }

  /** "b.cc" is two valid labels. */
  lemma OrdinaryDomain()
    ensures HtmlDomain("b.cc")
  {
    var d := "b.cc";
    IndexOfIs(d, '.', 1);
    assert d[..1] == "b";
    assert d[2..] == "cc";
    assert IndexOf("cc", '.') == None by { assert '.' !in "cc"; }
  }

  /** The browser accepts an ordinary address. */
  lemma BrowserAcceptsOrdinaryEmail()
    ensures BrowserEmailValid("a@b.cc")
  {
    var s := "a@b.cc";
    OrdinaryDomain();
    IndexOfIs(s, '@', 1);
    assert s[2..] == "b.cc";
  }

  // ---- the page's validators ----

  const EmailRequired := "Email is required"
  const EmailInvalid := "Invalid email address"
  const PasswordRequired := "Password is required"
  const PasswordTooShort := "Password must be at least 8 characters"
  const Unexpected := "An unexpected error occurred. Please try again."
  const RegisteredMessage := "Registration successful! Please log in with your new account."

  /** The email field's validation message, if any (lines 97-103). */
  function EmailError(email: string): Option<string>
  {
    if email == "" then Some(EmailRequired)
    else if !EmailMatches(email) then Some(EmailInvalid)
    else None
  }

  /**
   * The length JavaScript reports for a string, which `minLength` compares: its UTF-16 code units,
   * two for a character above U+FFFF.
   */
  function Utf16Length(s: string): (n: nat)
    ensures |s| <= n <= 2 * |s|
    ensures (forall i :: 0 <= i < |s| ==> s[i] as int < 0x10000) ==> n == |s|
  {
    if |s| == 0 then 0
    else
      assert forall i :: 0 <= i < |s| - 1 ==> s[..|s| - 1][i] == s[i];
      Utf16Length(s[..|s| - 1]) + (if s[|s| - 1] as int < 0x10000 then 1 else 2)
  }

  /** The password field's validation message, if any (lines 118-124). */
  function PasswordError(password: string): Option<string>
  {
    if password == "" then Some(PasswordRequired)
    else if Utf16Length(password) < 8 then Some(PasswordTooShort)
    else None
  }

  /** The email passes iff the pattern matches it (an empty string never does). */
  lemma EmailRule(email: string)
    ensures EmailError(email).None? <==> EmailPattern(email)
    ensures EmailError(email) == Some(EmailRequired) <==> email == ""
  {
    EmailMatchesPattern(email);
  }

  /**
   * The password passes iff JavaScript counts at least 8 code units. The backend's rule for new
   * users counts characters, so every password it accepts passes here, and the two rules agree on
   * passwords without characters above U+FFFF.
   */
  lemma PasswordRule(email: string, password: string)
    ensures PasswordError(password).None? <==> Utf16Length(password) >= 8
    ensures Schemas.UserCreateValid(Schemas.UserCreate(email, password)) ==> PasswordError(password).None?
    ensures (forall i :: 0 <= i < |password| ==> password[i] as int < 0x10000) ==>
      (PasswordError(password).None? <==> Schemas.UserCreateValid(Schemas.UserCreate(email, password)))
  {
    var n := Utf16Length(password);
    assert |password| <= n;
    assert PasswordError(password).None? <==> n >= 8;
    assert Schemas.UserCreateValid(Schemas.UserCreate(email, password)) <==> |password| >= 8;
  }

  /** Four emoji are 8 code units to the page and 4 characters to the backend's rule. */
  lemma PasswordRuleLooserThanBackend(email: string)
    ensures var p := "\U{1F600}\U{1F600}\U{1F600}\U{1F600}";
      PasswordError(p).None? && !Schemas.UserCreateValid(Schemas.UserCreate(email, p))
  {
    var p := "\U{1F600}\U{1F600}\U{1F600}\U{1F600}";
    assert p[..3][..2][..1] == "\U{1F600}" && p[..3][..2][..1][..0] == "";
    assert Utf16Length(p[..3][..2][..1]) == 2;
    assert Utf16Length(p[..3][..2]) == 4;
    assert Utf16Length(p[..3]) == 6;
  }

  /**
   * The text shown for what `login` throws: the `message` of a non-null object when it is a
   * string, else the generic text (lines 50-55).
   */
  function ErrorText(err: LoginFailure): string
  {
    match err
    case ApiFailure(ErrorObject(m)) => m
    case ApiFailure(Plain(_, message, _)) => if message.Str? then message.s else Unexpected
    case DecodeFailure(m) => m
  }

  /**
   * A not-ok JSON response shows its `detail` verbatim when that is a non-empty string, and
   * the generic text when it is a list (FastAPI's validation errors); a network failure
   * shows the browser's message.
   */
  lemma ErrorTextForResponses(f: FetchOutcome, fields: map<string, JsValue>, detail: JsValue)
    requires f.Response? && !f.ok && !NonJson(f.contentType) && f.json == Ok(Obj(fields))
    requires "detail" in fields && fields["detail"] == detail
    ensures Classify(f).Err?
    ensures detail.Str? && detail.s != "" ==> ErrorText(ApiFailure(Classify(f).error)) == detail.s
    ensures detail.Arr? ==> ErrorText(ApiFailure(Classify(f).error)) == Unexpected
  {
  }

  lemma ErrorTextForRejection(m: string)
    requires m != ""
    ensures ErrorText(ApiFailure(Classify(Rejected(m)).error)) == m
  {
  }

  class LoginForm {
    var isLoading: bool
    var error: Option<string>
    var successMessage: Option<string>
    var visited: seq<string>

    constructor()
      ensures !isLoading && error.None? && successMessage.None? && visited == []
    {
      isLoading := false;
      error := None;
      successMessage := None;
      visited := [];
    }

    /** The effect of lines 31-41, given the `registered` query parameter. */
    method CheckArrival(registered: Option<string>, isAuthenticated: bool)
      modifies this
      ensures successMessage == if registered == Some("true") then Some(RegisteredMessage) else old(successMessage)
      ensures visited == old(visited) + (if isAuthenticated then [Dashboard] else [])
      ensures isLoading == old(isLoading) && error == old(error)
    {
      if registered == Some("true") {
        successMessage := Some(RegisteredMessage);
      }
      if isAuthenticated {
        visited := visited + [Dashboard];
      }
    }

    /**
     * `onSubmit` (lines 43-59), run only once the browser's email check and both fields' validators
     * pass; `response` is what `authApi.login(email, password)` resolves with or throws.
     */
    method OnSubmit(auth: AuthProvider, email: string, password: string,
                    response: Result<string, Thrown>, decode: Decoder)
      requires BrowserEmailValid(email) && EmailError(email).None? && PasswordError(password).None?
      modifies this, auth
      ensures var step := LoggedIn(old(auth.State()), response, decode);
        && auth.State() == step.session
        && error == (if step.outcome.Err? then Some(ErrorText(step.outcome.error)) else None)
      ensures !isLoading && successMessage == old(successMessage) && visited == old(visited)
    {
      isLoading := true;
      error := None;
      var r := auth.Login(response, decode);
      if r.Err? {
        error := Some(ErrorText(r.error));
      }
      isLoading := false;
    }
  }
}
