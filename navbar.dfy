/** The navigation bar. It reads the session straight from storage (the
    token alone) and has its own logout, which removes the token only and
    never tells `App`. */
module Navbar {
  import opened Values
  import opened App

  datatype MenuItem = MenuItem(name: string, path: string)

  const LOGOUT_TARGET := "/login"

  /** The bar's `isAuthenticated`: a truthy `token` entry; `user` is not read. */
  predicate ShowsSignedIn(entries: map<string, StoredValue>): (b: bool)
    ensures WellFormed(entries) ==> (b <==> TOKEN_KEY in entries && entries[TOKEN_KEY].text != "")
  {
    Present(entries, TOKEN_KEY)
  }

  /** The links the bar shows: the three sections when signed in, in this
      order; login and sign-up otherwise. */
  function Menu(entries: map<string, StoredValue>): (items: seq<MenuItem>)
    ensures ShowsSignedIn(entries) ==> (
      |items| == 3 &&
      items[0] == MenuItem("Dashboard", "/dashboard") &&
      items[1] == MenuItem("Projects", "/projects") &&
      items[2] == MenuItem("Profile", "/profile"))
    ensures !ShowsSignedIn(entries) ==> items == [MenuItem("Login", "/login"), MenuItem("Sign Up", "/signup")]
  {
    if ShowsSignedIn(entries) then
      [MenuItem("Dashboard", "/dashboard"), MenuItem("Projects", "/projects"), MenuItem("Profile", "/profile")]
    else [MenuItem("Login", "/login"), MenuItem("Sign Up", "/signup")]
  }

  /** The storage after the bar's logout: the token alone is removed. */
  function AfterNavbarLogout(entries: map<string, StoredValue>): (r: map<string, StoredValue>)
    ensures r.Keys == entries.Keys - {TOKEN_KEY}
    ensures forall k :: k in r ==> r[k] == entries[k]
  {
    entries - {TOKEN_KEY}
  }

  /** After the bar's logout the stored user is still there, yet a reload
      restores a signed-out session, and the bar shows the signed-out menu. */
  lemma NavbarLogoutThenRestore(entries: map<string, StoredValue>)
    requires WellFormed(entries)
    ensures WellFormed(AfterNavbarLogout(entries))
    ensures USER_KEY in entries ==> (
      USER_KEY in AfterNavbarLogout(entries) &&
      AfterNavbarLogout(entries)[USER_KEY] == entries[USER_KEY])
    ensures Restored(AfterNavbarLogout(entries)) == SIGNED_OUT
    ensures !ShowsSignedIn(AfterNavbarLogout(entries))
  {
  }

  /** The two logouts in either order leave what the full logout leaves. */
  lemma LogoutsCompose(entries: map<string, StoredValue>)
    ensures AfterLogout(AfterNavbarLogout(entries)) == AfterLogout(entries)
    ensures AfterNavbarLogout(AfterLogout(entries)) == AfterLogout(entries)
  {
  }

  /** The bar and `App` read the storage differently: a token without a user
      shows the signed-in menu while `App` restores a signed-out session. */
  lemma TokenOnlyDisagrees(entries: map<string, StoredValue>)
    requires WellFormed(entries) && Present(entries, TOKEN_KEY) && USER_KEY !in entries
    ensures ShowsSignedIn(entries) && !Restored(entries).isAuthenticated
  {
  }

  /** The bar's state over the shared storage. */
  class NavbarView {
    const store: Store
    var isMenuOpen: bool

    constructor (store: Store)
      ensures this.store == store && !isMenuOpen
    {
      this.store := store;
      isMenuOpen := false;
    }

    /** The mobile menu button flips the menu. */
    method ToggleMenu()
      modifies this
      ensures isMenuOpen == !old(isMenuOpen)
    {
      isMenuOpen := !isMenuOpen;
    }

    /** A mobile menu link navigates to its path and closes the menu. */
    method ChooseItem(item: MenuItem) returns (target: string)
      modifies this
      ensures target == item.path && !isMenuOpen
    {
      target := item.path;
      isMenuOpen := false;
    }

    /** `handleLogout`: removes the token only, then navigates to the login
        path. */
    method Logout() returns (target: string)
      modifies store
      ensures store.entries == AfterNavbarLogout(old(store.entries))
      ensures target == LOGOUT_TARGET
    {
      store.entries := store.entries - {TOKEN_KEY};
      target := LOGOUT_TARGET;
    }

    /** The mobile logout button: the same logout, then the menu closes. */
    method MobileLogout() returns (target: string)
      modifies this, store
      ensures store.entries == AfterNavbarLogout(old(store.entries))
      ensures target == LOGOUT_TARGET && !isMenuOpen
    {
      target := Logout();
      isMenuOpen := false;
    }
  }

  /** The bar's logout as written, on a signed-in page: `App`'s session is
      untouched, so the router sends the login path back to the dashboard
      and the user is not shown the login page. */
  method LogoutFromNavbar(app: AppSession, nav: NavbarView) returns (shown: Outcome)
    requires nav.store == app.store && app.isAuthenticated
    modifies nav.store
    ensures nav.store.entries == AfterNavbarLogout(old(nav.store.entries))
    ensures app.isAuthenticated && app.user == old(app.user)
    ensures shown == Redirect("/dashboard")
  {
    var target := nav.Logout();
    shown := Route(target, app.isAuthenticated);
  }

  /** The logout through the `onLogout` callback that `App` hands the bar:
      both keys go, the session is signed out, and the login path renders
      the login page. */
  method LogoutThroughApp(app: AppSession, nav: NavbarView) returns (shown: Outcome)
    requires nav.store == app.store
    modifies app, app.store
    ensures app.store.entries == AfterLogout(old(app.store.entries))
    ensures !app.isAuthenticated && app.user == None
    ensures shown == Render(LoginPage)
    ensures Restored(app.store.entries) == SIGNED_OUT
  {
    app.HandleLogout();
    LogoutThenRestore(old(app.store.entries));
    shown := Route(LOGOUT_TARGET, app.isAuthenticated);
  }
}
