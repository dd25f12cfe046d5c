/**
  The admin frame (frontend/src/components/AdminLayout.js): which menu entry is
  active for the current path, the title shown, the signed-in user's name and
  the logout button.
*/
module AdminLayout {
  import opened Common
  import opened ClientData
  import opened ApiClient

  /**
    `pathname === path || pathname.startsWith(path + "/")`: the path itself or
    anything below it, and never a longer name that merely starts the same way.
  */
  predicate IsActive(pathname: string, path: string) {
    pathname == path || StartsWith(pathname, path + "/")
  }

  /** IsActive read as "the path, or the path followed by a slash and anything". */
  lemma IsActiveMeans(pathname: string, path: string)
    ensures IsActive(pathname, path) <==>
      StartsWith(pathname, path) && (|pathname| == |path| || pathname[|path|] == '/')
  {
    if StartsWith(pathname, path) && |pathname| > |path| && pathname[|path|] == '/' {
      assert pathname[..|path| + 1] == pathname[..|path|] + [pathname[|path|]];
      assert StartsWith(pathname, path + "/");
    }
    if StartsWith(pathname, path + "/") {
      assert pathname[..|path|] == (path + "/")[..|path|];
    }
    if StartsWith(pathname, path) && |pathname| == |path| {
      assert pathname == pathname[..|path|];
    }
  }

  datatype MenuItem = MenuItem(caption: string, path: string)

  /** The menu as shipped: the dashboard only. */
  const Menu: seq<MenuItem> := [MenuItem("Dashboard", "/admin")]

  /** Entry k is the first active one. */
  predicate FirstActive(menu: seq<MenuItem>, pathname: string, k: int) {
    && 0 <= k < |menu|
    && IsActive(pathname, menu[k].path)
    && forall i :: 0 <= i < k ==> !IsActive(pathname, menu[i].path)
  }

  /** `menu.find(m => isActive(m.path))?.label || "Admin"`; the label is `caption` here */
  function Title(menu: seq<MenuItem>, pathname: string): (r: string)
    ensures (forall i :: 0 <= i < |menu| ==> !IsActive(pathname, menu[i].path)) ==> r == "Admin"
    ensures forall k :: FirstActive(menu, pathname, k) ==> r == OrElse(menu[k].caption, "Admin")
  {
    if menu == [] then "Admin"
    else if IsActive(pathname, menu[0].path) then OrElse(menu[0].caption, "Admin")
    else
      var r := Title(menu[1..], pathname);
      assert forall k :: 1 <= k < |menu| ==> menu[k] == menu[1..][k - 1];
      r
  }

  /** `localStorage.getItem("user") || sessionStorage.getItem("user")`: an empty local value falls through. */
  function RawUser(local: Storage, session: Storage): Option<StoredUser> {
    if local.user.Some? && local.user.value != Blank then local.user else session.user
  }

  /** The user the frame shows: from either storage, the local one first; None when neither parses. */
  function FrameUser(local: Storage, session: Storage): (r: Option<UserInfo>)
    ensures local.user.Some? && local.user.value.Parsed? ==> r == Some(local.user.value.info)
    ensures (local.user.None? || local.user.value == Blank) ==> r == ParseUser(session.user)
    ensures local.user.Some? && (local.user.value == Unparsable || local.user.value == NullText) ==> r == None
  {
    ParseUser(RawUser(local, session))
  }

  /** `user?.name || "Admin"` */
  function DisplayName(user: Option<UserInfo>): (r: string)
    ensures user.Some? && user.value.name.Some? && user.value.name.value != "" ==> r == user.value.name.value
    ensures user.None? || user.value.name.None? || user.value.name.value == "" ==> r == "Admin"
  {
    if user.Some? then OptOrElse(user.value.name, "Admin") else "Admin"
  }

  /**
    handleLogout: token and user leave localStorage, sessionStorage is emptied,
    "auth-changed" is dispatched and the router goes to /login.
  */
  method HandleLogout(b: Browser) returns (navigateTo: string)
    modifies b
    ensures b.local == old(b.local).(token := None, user := None) && b.session == Storage(None, None)
    ensures TokenOf(b.local, b.session) == None && FrameUser(b.local, b.session) == None
    ensures b.events == old(b.events) + [AuthChanged]
    ensures b.pathname == old(b.pathname) && b.isRedirecting == old(b.isRedirecting) && b.replaced == old(b.replaced)
    ensures navigateTo == "/login"
  {
    b.local := b.local.(token := None, user := None);
    b.session := Storage(None, None);
    b.events := b.events + [AuthChanged];
    navigateTo := "/login";
  }
}
