/**
  The route guards of the single-page app (frontend/src/App.js): what each path
  renders or where it redirects, decided by whether a token is stored and
  whether the stored user is an admin. The app keeps its own copy of both,
  read only from localStorage when it starts and on "auth-changed" and
  "storage" events.

  Paths are matched by their exact text.
*/
module AppRoutes {
  import opened Common
  import opened ApiClient

  datatype Page = LoginPage | RegisterPage | ProductsPage | CartPage | OrdersPage | WishlistPage | ContactPage | AdminPage

  datatype Outcome = Render(page: Page) | Redirect(to: string)

  /** The user pages, each rendered inside the shop layout. */
  function UserPage(path: string): (r: Option<Page>)
    ensures r.Some? <==> path in {"/products", "/cart", "/orders", "/wishlist", "/contact"}
  {
    if path == "/products" then Some(ProductsPage)
    else if path == "/cart" then Some(CartPage)
    else if path == "/orders" then Some(OrdersPage)
    else if path == "/wishlist" then Some(WishlistPage)
    else if path == "/contact" then Some(ContactPage)
    else None
  }

  /** The element the router picks for a path. */
  function Route(path: string, isLoggedIn: bool, isAdmin: bool): (o: Outcome)
    // the sign-in pages are for signed-out visitors only
    ensures o == Render(LoginPage) <==> path == "/login" && !isLoggedIn
    ensures o == Render(RegisterPage) <==> path == "/register" && !isLoggedIn
    // the user pages render exactly when signed in; the admin page also needs the admin role
    ensures UserPage(path).Some? ==> (o.Render? <==> isLoggedIn)
    ensures o == Render(AdminPage) <==> path == "/admin" && isLoggedIn && isAdmin
    // a signed-out visitor is always sent to /login, unless the page is a sign-in page
    ensures !isLoggedIn && o.Redirect? ==> o.to == "/login"
    ensures isLoggedIn && o.Redirect? ==> o.to in {"/products", "/admin", "/login"}
    ensures o.Redirect? && o.to == "/admin" ==> isAdmin
  {
    if path == "/" then Redirect(if isLoggedIn then "/products" else "/login")
    else if path == "/login" then (if isLoggedIn then Redirect(if isAdmin then "/admin" else "/products") else Render(LoginPage))
    else if path == "/register" then (if isLoggedIn then Redirect("/products") else Render(RegisterPage))
    else if UserPage(path).Some? then (if isLoggedIn then Render(UserPage(path).value) else Redirect("/login"))
    else if path == "/admin" then (if isLoggedIn && isAdmin then Render(AdminPage) else Redirect("/login"))
    else Redirect(if isLoggedIn then "/products" else "/login")
  }

  /**
    Every path settles on a page after at most two redirects: a signed-in user
    who is not an admin goes from /admin to /login and from there to /products.
  */
  lemma RouteSettles(path: string, isLoggedIn: bool, isAdmin: bool)
    ensures var o := Route(path, isLoggedIn, isAdmin);
      o.Render? || Route(o.to, isLoggedIn, isAdmin).Render? ||
      Route(Route(o.to, isLoggedIn, isAdmin).to, isLoggedIn, isAdmin).Render?
    ensures var o := Route(path, isLoggedIn, isAdmin);
      o.Redirect? && o.to != "/login" ==> Route(o.to, isLoggedIn, isAdmin).Render?
  {
    var o := Route(path, isLoggedIn, isAdmin);
    if o.Redirect? {
      assert o.to in {"/products", "/admin", "/login"};
      assert UserPage("/products") == Some(ProductsPage);
      if isLoggedIn && !isAdmin && o.to == "/login" {
        assert Route("/login", isLoggedIn, isAdmin) == Redirect("/products");
      }
    }
  }

  /** The sign-in state the app keeps. */
  class AppState {
    /** `localStorage.getItem("token") || ""` */
    var token: string
    var user: Option<UserInfo>

    /** isLoggedIn: the kept token is not empty. */
    predicate IsLoggedIn()
      reads this
    {
      token != ""
    }

    /** The state read when the app starts. */
    constructor (b: Browser)
      ensures token == (if b.local.token.Some? then b.local.token.value else "")
      ensures user == ParseUser(b.local.user)
    {
      token := if b.local.token.Some? then b.local.token.value else "";
      user := ParseUser(b.local.user);
    }

    /** syncAuth: re-read on "auth-changed" and "storage"; sessionStorage is never looked at. */
    method SyncAuth(b: Browser)
      modifies this
      ensures token == (if b.local.token.Some? then b.local.token.value else "")
      ensures user == ParseUser(b.local.user)
      ensures IsLoggedIn() <==> b.local.token.Some? && b.local.token.value != ""
    {
      token := if b.local.token.Some? then b.local.token.value else "";
      user := ParseUser(b.local.user);
    }
  }

  /**
    A token kept only in sessionStorage (setToken with persist "session")
    authorises every request, yet the app does not count it as a sign-in and
    guards the user pages against it.
  */
  lemma SessionTokenIsNotASignIn(local: Storage, session: Storage, t: string, isAdmin: bool)
    requires local.token.None? && t != "" && session.token == Some(t)
    ensures AuthHeader(local, session) == Some("Bearer " + t)
    ensures Route("/cart", local.token.Some? && local.token.value != "", isAdmin) == Redirect("/login")
  {
    assert UserPage("/cart") == Some(CartPage);
  }
}
