/**
  The sign-in page (frontend/src/pages/Login.js): the check on the two inputs,
  the body sent to POST /api/login, what a successful answer leaves in
  localStorage, and where the page goes next, both after signing in and when
  it opens on a browser that is already signed in.
*/
module LoginPage {
  import opened Common
  import opened Models
  import opened ClientData
  import opened ApiClient
  import opened AppRoutes
  import opened AuthRoutes

  /** `user?.role === "admin" ? "/admin" : "/products"` */
  function Target(user: Option<UserInfo>): (r: string)
    ensures r == "/admin" <==> IsAdminUser(user)
    ensures r != "/admin" ==> r == "/products"
  {
    if IsAdminUser(user) then "/admin" else "/products"
  }

  /**
    The mount effect: a token and a user text in localStorage send the page on
    at once, unless the text does not parse; the text "null" parses to no user.
  */
  function OnMount(local: Storage): (r: Option<string>)
    ensures r.Some? ==> local.token.Some? && local.token.value != "" && local.user.Some?
    ensures r.Some? <==>
      local.token.Some? && local.token.value != "" && local.user.Some? &&
      (local.user.value == NullText || local.user.value.Parsed?)
    ensures r.Some? ==> r.value == Target(ParseUser(local.user))
  {
    if local.token.Some? && local.token.value != "" && local.user.Some? && local.user.value != Blank then
      match local.user.value
      case Unparsable => None
      case NullText => Some(Target(None))
      case Parsed(info) => Some(Target(Some(info)))
      case Blank => None
    else None
  }

  /** Where the page sends a signed-in browser is where the router would send it from /login. */
  lemma MountAgreesWithRouter(local: Storage)
    requires OnMount(local).Some?
    ensures Route("/login", true, IsAdminUser(ParseUser(local.user))) == Redirect(OnMount(local).value)
  {
  }

  /** The compact text of the signed token, as the browser keeps it; never empty. */
  function TokenText(t: Token): (s: string)
    ensures s != ""
  {
    "jwt." + t.identity
  }

  /** A 2xx answer as the page reads it: `access_token` ("" when absent) and `user`. */
  datatype LoginAnswer = LoginAnswer(accessToken: string, user: Option<UserInfo>)

  datatype LoginOutcome = Answered(answer: LoginAnswer) | Failed(failure: Failure)

  /** How the page receives what the login endpoint replies; its refusals carry a "message". */
  function FromServer(r: Reply<LoggedIn>): LoginOutcome {
    match r
    case Ok(_, l) => Answered(LoginAnswer(TokenText(l.accessToken), Some(UserInfo(Some(l.name), Some(l.role)))))
    case Err(c, m) => Failed(Response(c, Some(m), None))
  }

  /** The body the page posts: the email trimmed, the password as typed. */
  function SentBody(email: string, password: string): LoginBody {
    LoginBody(Some(Trim(email)), Some(password))
  }

  /** `user || {}` */
  function UserOrEmpty(user: Option<UserInfo>): UserInfo {
    if user.Some? then user.value else UserInfo(None, None)
  }

  const MissingInput := "Please enter email and password"
  const NoToken := "Login failed. Please try again."
  const Refused := "Invalid email or password"

  class LoginForm {
    var email: string
    var password: string
    var error: string
    var loading: bool

    constructor ()
      ensures email == "" && password == "" && error == "" && !loading
    {
      email, password, error, loading := "", "", "", false;
    }

    /**
      handleLogin. Blank inputs send nothing. A 2xx answer without a token
      stores nothing; with one, the token and the user (or {}) go to
      localStorage and the page moves on. A failure goes through the request
      layer's handler first, then shows the reply's message or error.
    */
    method HandleLogin(b: Browser, outcome: LoginOutcome) returns (sent: Option<LoginBody>, navigateTo: Option<string>)
      requires b.RedirectsOnce()
      modifies this, b
      ensures email == old(email) && password == old(password)
      ensures sent.Some? <==> !InputsBlank(email, password)
      ensures sent.None? ==>
        && navigateTo.None? && error == MissingInput && loading == old(loading)
        && b.local == old(b.local) && b.session == old(b.session) && b.events == old(b.events)
        && b.replaced == old(b.replaced) && b.RedirectsOnce()
      ensures sent.Some? ==>
        && sent.value == SentBody(email, password) && !loading
        && Received(old(b.local), old(b.session), old(b.events), old(b.replaced),
                    old(b.pathname), old(b.isRedirecting), b, outcome, error, navigateTo)
    {
      error := "";
      if InputsBlank(email, password) {
        error := MissingInput;
        return None, None;
      }
      loading := true;
      sent := Some(SentBody(email, password));
      error, navigateTo := Receive(b, outcome);
      loading := false;
    }
  }

  /** `!email.trim() || !password.trim()` */
  predicate InputsBlank(email: string, password: string) {
    Trim(email) == "" || Trim(password) == ""
  }

  /** What the page and the browser hold after the answer to a sent body. */
  ghost predicate Received(local: Storage, session: Storage, events: seq<WindowEvent>, replaced: seq<string>,
                           pathname: string, isRedirecting: bool, b: Browser, outcome: LoginOutcome,
                           error: string, navigateTo: Option<string>)
    reads b
  {
    && b.RedirectsOnce() && b.pathname == pathname
    && (outcome.Answered? && outcome.answer.accessToken == "" ==>
          && error == NoToken && navigateTo.None?
          && b.local == local && b.session == session && b.events == events && b.replaced == replaced)
    && (outcome.Answered? && outcome.answer.accessToken != "" ==>
          var a := outcome.answer;
          && b.local == local.(token := Some(a.accessToken), user := Some(Parsed(UserOrEmpty(a.user))))
          && b.session == session && b.events == events + [AuthChanged] && b.replaced == replaced
          && error == "" && navigateTo == Some(Target(a.user)))
    && (outcome.Failed? ==> error == MessageOrError(outcome.failure, Refused) && navigateTo.None?)
    && (outcome.Failed? && outcome.failure.Response? && outcome.failure.status == 401 ==>
          && b.local == Storage(None, None) && b.session == Storage(None, None)
          && b.events == events + [AuthChanged]
          && b.replaced == replaced + (if !isRedirecting && pathname != "/login" then ["/login"] else []))
    && (outcome.Failed? && !(outcome.failure.Response? && outcome.failure.status == 401) ==>
          b.local == local && b.session == session && b.events == events && b.replaced == replaced)
    && (pathname == "/login" ==> b.replaced == replaced)
  }

  /** The part of handleLogin after the request is sent. */
  method Receive(b: Browser, outcome: LoginOutcome) returns (error: string, navigateTo: Option<string>)
    requires b.RedirectsOnce()
    modifies b
    ensures Received(old(b.local), old(b.session), old(b.events), old(b.replaced),
                     old(b.pathname), old(b.isRedirecting), b, outcome, error, navigateTo)
  {
    navigateTo := None;
    match outcome {
      case Answered(a) =>
        if a.accessToken == "" {
          error := NoToken;
        } else {
          b.local := b.local.(token := Some(a.accessToken), user := Some(Parsed(UserOrEmpty(a.user))));
          b.events := b.events + [AuthChanged];
          error := "";
          navigateTo := Some(Target(a.user));
        }
      case Failed(f) =>
        b.OnError(f);
        error := MessageOrError(f, Refused);
    }
  }

  /**
    After a sign-in the router, re-reading localStorage on "auth-changed",
    counts the browser as signed in and agrees with the page on where /login leads.
  */
  lemma SignInAgreesWithRouter(a: LoginAnswer)
    requires a.accessToken != ""
    ensures var stored := Some(Parsed(UserOrEmpty(a.user)));
      Route("/login", true, IsAdminUser(ParseUser(stored))) == Redirect(Target(a.user))
  {
    if a.user.None? {
      assert !IsAdminUser(ParseUser(Some(Parsed(UserInfo(None, None)))));
    }
  }

  /**
    A body the page sends always passes the endpoint's presence check, so a
    refusal is 401 and the page shows the endpoint's own words.
  */
  lemma PageLoginRefusal(us: seq<User>, email: string, password: string)
    requires !InputsBlank(email, password)
    requires LoginOn(us, Some(SentBody(email, password))).Err?
    ensures LoginOn(us, Some(SentBody(email, password))) == Err(401, Refused)
    ensures MessageOrError(FromServer(LoginOn(us, Some(SentBody(email, password)))).failure, Refused) == Refused
  {
  }

  /** A successful sign-in stores a user whose role is the one the account was registered with. */
  lemma SignInStoresRole(us: seq<User>, email: string, password: string)
    requires LoginOn(us, Some(SentBody(email, password))).Ok?
    ensures var o := FromServer(LoginOn(us, Some(SentBody(email, password))));
      var u := us[UserByEmail(us, NormalEmail(Trim(email))).value];
      && o.Answered? && o.answer.accessToken != ""
      && o.answer.user == Some(UserInfo(Some(u.name), Some(u.role)))
      && Target(o.answer.user) == (if u.role == "admin" then "/admin" else "/products")
  {
  }
}
