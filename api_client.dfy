/**
  The request layer (frontend/src/services/api.js): the token kept in either of
  the browser's two storages, the Authorization header every request carries,
  and the answer to a failed request, which clears the sign-in on a 401 and
  sends the browser to /login at most once per page load.

  The storages are modelled by the two keys the front end uses, "token" and
  "user"; an absent key is None. A falsy token argument (undefined, null or
  "") is the empty string.
*/
module ApiClient {
  import opened Common
  import opened ClientData

  /** The user record a page stored, as JSON.parse sees it. */
  datatype UserInfo = UserInfo(name: Option<string>, role: Option<string>)

  /**
    The text stored under "user": empty (falsy), text JSON.parse refuses, the
    text "null", or a parsable value whose "name" and "role" members are given.
  */
  datatype StoredUser = Blank | Unparsable | NullText | Parsed(info: UserInfo)

  /** `raw ? JSON.parse(raw) : null`, with a parse failure caught as null. */
  function ParseUser(raw: Option<StoredUser>): (r: Option<UserInfo>)
    ensures r.Some? <==> raw.Some? && raw.value.Parsed?
    ensures r.Some? ==> r.value == raw.value.info
  {
    if raw.Some? && raw.value.Parsed? then Some(raw.value.info) else None
  }

  /** `user?.role === "admin"`. */
  predicate IsAdminUser(user: Option<UserInfo>) {
    user.Some? && user.value.role == Some("admin")
  }

  datatype Storage = Storage(token: Option<string>, user: Option<StoredUser>)

  /** `persist === "session"`; any other value stores in localStorage. */
  datatype Persist = InLocal | InSession

  /** getToken(): the local token unless it is absent or empty, else whatever the session holds. */
  function TokenOf(local: Storage, session: Storage): (r: Option<string>)
    ensures local.token.Some? && local.token.value != "" ==> r == local.token
    ensures local.token.None? || local.token.value == "" ==> r == session.token
  {
    if local.token.Some? && local.token.value != "" then local.token else session.token
  }

  /** The Authorization header the request interceptor sets, or None when it deletes it. */
  function AuthHeader(local: Storage, session: Storage): (h: Option<string>)
    ensures var t := TokenOf(local, session);
      h.Some? <==> t.Some? && t.value != ""
    ensures h.Some? ==> h.value == "Bearer " + TokenOf(local, session).value
  {
    var t := TokenOf(local, session);
    if t.Some? && t.value != "" then Some("Bearer " + t.value) else None
  }

  /** The browser state api.js reads and writes. */
  class Browser {
    var local: Storage
    var session: Storage
    /** window.location.pathname */
    var pathname: string
    /** The module-level flag of api.js; it lives as long as the loaded page. */
    var isRedirecting: bool
    /** The window.location.replace calls made so far on this page load. */
    var replaced: seq<string>
    /** The window events dispatched so far. */
    var events: seq<WindowEvent>

    /** The redirect flag is set exactly when the page has asked for /login, and it asks at most once. */
    predicate RedirectsOnce()
      reads this
    {
      && (isRedirecting <==> replaced != [])
      && (replaced == [] || replaced == ["/login"])
    }

    /** A freshly loaded page at `path` with the storages it finds. */
    constructor (local: Storage, session: Storage, path: string)
      ensures this.local == local && this.session == session && pathname == path
      ensures !isRedirecting && replaced == [] && events == []
      ensures RedirectsOnce()
    {
      this.local := local;
      this.session := session;
      pathname := path;
      isRedirecting := false;
      replaced := [];
      events := [];
    }

    /** setToken(token, { persist }) */
    method SetToken(token: string, persist: Persist)
      modifies this
      ensures token != "" && persist == InLocal ==>
        local == old(local).(token := Some(token)) && session == old(session).(token := None)
      ensures token != "" && persist == InSession ==>
        session == old(session).(token := Some(token)) && local == old(local).(token := None)
      ensures token == "" ==> local == old(local).(token := None) && session == old(session).(token := None)
      ensures TokenOf(local, session) == (if token == "" then None else Some(token))
      ensures events == old(events) + [AuthChanged]
      ensures pathname == old(pathname) && isRedirecting == old(isRedirecting) && replaced == old(replaced)
    {
      if token != "" {
        if persist == InSession {
          session := session.(token := Some(token));
          local := local.(token := None);
        } else {
          local := local.(token := Some(token));
          session := session.(token := None);
        }
      } else {
        local := local.(token := None);
        session := session.(token := None);
      }
      events := events + [AuthChanged];
    }

    /** clearAuth(): no token and no user in either storage. */
    method ClearAuth()
      modifies this
      ensures local == Storage(None, None) && session == Storage(None, None)
      ensures TokenOf(local, session) == None && AuthHeader(local, session) == None
      ensures events == old(events) + [AuthChanged]
      ensures pathname == old(pathname) && isRedirecting == old(isRedirecting) && replaced == old(replaced)
    {
      local := Storage(None, None);
      session := Storage(None, None);
      events := events + [AuthChanged];
    }

    /**
      The response interceptor's error branch; the request is rejected in every
      case. Only a 401 clears the sign-in, and it asks for /login only when no
      redirect is under way and the page is not already /login.
    */
    method OnError(failure: Failure)
      requires RedirectsOnce()
      modifies this
      ensures RedirectsOnce()
      ensures !(failure.Response? && failure.status == 401) ==>
        local == old(local) && session == old(session) && events == old(events) &&
        isRedirecting == old(isRedirecting) && replaced == old(replaced)
      ensures failure.Response? && failure.status == 401 ==>
        local == Storage(None, None) && session == Storage(None, None) && events == old(events) + [AuthChanged]
      ensures var asks := failure.Response? && failure.status == 401 && !old(isRedirecting) && old(pathname) != "/login";
        replaced == old(replaced) + (if asks then ["/login"] else [])
      ensures pathname == old(pathname)
    {
      if failure.NoResponse? {
        return;
      }
      if failure.status == 401 {
        ClearAuth();
        if !isRedirecting && pathname != "/login" {
          isRedirecting := true;
          replaced := replaced + ["/login"];
        }
      }
    }
  }
}
