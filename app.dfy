/** The application shell: the session kept in browser storage under the keys
    `token` and `user`, restored once at start, written by login and cleared
    by logout; and the route table guarded by the session. */
module App {
  import opened Values

  const TOKEN_KEY := "token"
  const USER_KEY := "user"

  /** A stored entry: the token text, or the JSON text of a user object
      (`JSON.parse(JSON.stringify(u))` is taken to give back `u`). */
  datatype StoredValue = Text(text: string) | UserJson(user: User)

  /** `localStorage.getItem(key)` is truthy: present and not the empty text. */
  predicate Present(entries: map<string, StoredValue>, key: string) {
    key in entries && (entries[key].Text? ==> entries[key].text != "")
  }

  /** The shape this client writes: the token as text, the user as JSON. */
  predicate WellFormed(entries: map<string, StoredValue>) {
    (TOKEN_KEY in entries ==> entries[TOKEN_KEY].Text?) &&
    (USER_KEY in entries ==> entries[USER_KEY].UserJson?)
  }

  datatype Session = Session(isAuthenticated: bool, user: Option<User>)

  const SIGNED_OUT := Session(false, None)

  /** The start-up effect on a fresh session: signed in, with the stored
      user, exactly when both keys are present. */
  function Restored(entries: map<string, StoredValue>): (s: Session)
    requires WellFormed(entries)
    ensures s.isAuthenticated <==> Present(entries, TOKEN_KEY) && Present(entries, USER_KEY)
    ensures s.isAuthenticated ==> s.user == Some(entries[USER_KEY].user)
    ensures !s.isAuthenticated ==> s == SIGNED_OUT
  {
    if Present(entries, TOKEN_KEY) && Present(entries, USER_KEY) then
      Session(true, Some(entries[USER_KEY].user))
    else SIGNED_OUT
  }

  /** The storage after `handleLogin(user, token)`. */
  function AfterLogin(entries: map<string, StoredValue>, user: User, token: string): (r: map<string, StoredValue>)
    ensures r.Keys == entries.Keys + {TOKEN_KEY, USER_KEY}
    ensures r[TOKEN_KEY] == Text(token) && r[USER_KEY] == UserJson(user)
    ensures forall k :: k in entries && k != TOKEN_KEY && k != USER_KEY ==> r[k] == entries[k]
  {
    entries[TOKEN_KEY := Text(token)][USER_KEY := UserJson(user)]
  }

  /** The storage after `handleLogout`: both keys removed. */
  function AfterLogout(entries: map<string, StoredValue>): (r: map<string, StoredValue>)
    ensures r.Keys == entries.Keys - {TOKEN_KEY, USER_KEY}
    ensures forall k :: k in r ==> r[k] == entries[k]
  {
    entries - {TOKEN_KEY, USER_KEY}
  }

  /** A reload after a login restores the same user, provided the token is
      not empty (an empty token is falsy and restores nothing). */
  lemma LoginThenRestore(entries: map<string, StoredValue>, user: User, token: string)
    requires WellFormed(entries)
    ensures WellFormed(AfterLogin(entries, user, token))
    ensures Restored(AfterLogin(entries, user, token)) ==
      if token != "" then Session(true, Some(user)) else SIGNED_OUT
  {
  }

  /** A reload after a logout is signed out, whatever was stored. */
  lemma LogoutThenRestore(entries: map<string, StoredValue>)
    ensures WellFormed(AfterLogout(entries))
    ensures Restored(AfterLogout(entries)) == SIGNED_OUT
  {
  }

  /** `localStorage`, shared by every component of the page. */
  class Store {
    var entries: map<string, StoredValue>

    constructor (entries: map<string, StoredValue>)
      ensures this.entries == entries
    {
      this.entries := entries;
    }
  }

  /** The `App` component's session state over the shared storage. */
  class AppSession {
    const store: Store
    var isAuthenticated: bool
    var user: Option<User>

    /** Mounting runs the restore effect once. The render before the effect,
        with the initial signed-out state, is not a state of this class; see
        `ReloadLosesDeepLink`. */
    constructor (store: Store)
      requires WellFormed(store.entries)
      ensures this.store == store
      ensures Session(isAuthenticated, user) == Restored(store.entries)
    {
      this.store := store;
      var s := Restored(store.entries);
      isAuthenticated := s.isAuthenticated;
      user := s.user;
    }

    /** `handleLogin`: both keys written, signed in with the given user. */
    method HandleLogin(u: User, token: string)
      modifies this, store
      ensures store.entries == AfterLogin(old(store.entries), u, token)
      ensures isAuthenticated && user == Some(u)
    {
      store.entries := store.entries[TOKEN_KEY := Text(token)];
      store.entries := store.entries[USER_KEY := UserJson(u)];
      isAuthenticated := true;
      user := Some(u);
    }

    /** `handleLogout`: both keys removed, signed out with no user. */
    method HandleLogout()
      modifies this, store
      ensures store.entries == AfterLogout(old(store.entries))
      ensures !isAuthenticated && user == None
    {
      store.entries := store.entries - {TOKEN_KEY};
      store.entries := store.entries - {USER_KEY};
      isAuthenticated := false;
      user := None;
    }
  }

  /** The views the routes render. */
  datatype Page = LoginPage | SignupPage | DashboardPage | ProfilePage | ProjectDetailsPage(projectId: string)

  /** What the router does for a path: render a view, redirect, or render
      nothing when no route matches. */
  datatype Outcome = Render(page: Page) | Redirect(to: string) | NoMatch

  const PROJECTS_PREFIX := "/projects/"

  /** `/projects/:projectId`: one non-empty segment after the prefix. */
  predicate IsProjectPath(path: string) {
    |path| > |PROJECTS_PREFIX| && path[..|PROJECTS_PREFIX|] == PROJECTS_PREFIX
    && '/' !in path[|PROJECTS_PREFIX|..]
  }

  /** Views that need a session. */
  predicate Protected(p: Page) {
    p.DashboardPage? || p.ProfilePage? || p.ProjectDetailsPage?
  }

  /** The route table of `App`. */
  function Route(path: string, authenticated: bool): (o: Outcome)
    ensures authenticated && (path == "/login" || path == "/signup") ==> o == Redirect("/dashboard")
    ensures !authenticated && (path == "/dashboard" || path == "/profile" || IsProjectPath(path))
      ==> o == Redirect("/login")
    ensures path == "/" ==> o == Redirect("/dashboard")
    ensures o.Render? && Protected(o.page) ==> authenticated
    ensures o.Render? && !Protected(o.page) ==> !authenticated
  {
    if path == "/login" then (if !authenticated then Render(LoginPage) else Redirect("/dashboard"))
    else if path == "/signup" then (if !authenticated then Render(SignupPage) else Redirect("/dashboard"))
    else if path == "/dashboard" then (if authenticated then Render(DashboardPage) else Redirect("/login"))
    else if path == "/profile" then (if authenticated then Render(ProfilePage) else Redirect("/login"))
    else if IsProjectPath(path) then
      (if authenticated then Render(ProjectDetailsPage(path[|PROJECTS_PREFIX|..])) else Redirect("/login"))
    else if path == "/" then Redirect("/dashboard")
    else NoMatch
  }

  /** Following redirects, at most `hops` of them. */
  function Resolve(path: string, authenticated: bool, hops: nat): Outcome
    decreases hops
  {
    var o := Route(path, authenticated);
    if o.Redirect? && hops > 0 then Resolve(o.to, authenticated, hops - 1) else o
  }

  /** `/projects` matches no route, while `/projects/new` is taken by the
      project route as the project id "new". */
  lemma ProjectsPaths(authenticated: bool)
    ensures Route("/projects", authenticated) == NoMatch
    ensures Route("/projects/new", authenticated) ==
      if authenticated then Render(ProjectDetailsPage("new")) else Redirect("/login")
  {
    assert !IsProjectPath("/projects") by {
      assert |"/projects"| <= |PROJECTS_PREFIX|;
    }
    assert "/projects/new"[..|PROJECTS_PREFIX|] == PROJECTS_PREFIX;
    assert "/projects/new"[|PROJECTS_PREFIX|..] == "new";
  }

  /** A reload on a protected page other than the dashboard loses the page.
      The first render routes with the initial `isAuthenticated == false`,
      before the restore effect has run, and so is sent to `/login`. Once the
      stored session is restored, `/login` sends it on to `/dashboard`, and
      the page that was asked for is never rendered. */
  lemma ReloadLosesDeepLink(entries: map<string, StoredValue>, path: string)
    requires WellFormed(entries) && Present(entries, TOKEN_KEY) && Present(entries, USER_KEY)
    requires path == "/profile" || IsProjectPath(path)
    ensures Route(path, false) == Redirect("/login")
    ensures Restored(entries).isAuthenticated
    ensures Resolve("/login", Restored(entries).isAuthenticated, 1) == Render(DashboardPage)
    ensures Route(path, true).Render? && Route(path, true).page != DashboardPage
  {
    assert !IsProjectPath("/dashboard") by {
      assert |"/dashboard"| <= |PROJECTS_PREFIX|;
    }
    assert !IsProjectPath("/login") by {
      assert |"/login"| <= |PROJECTS_PREFIX|;
    }
    if IsProjectPath(path) {
      assert path != "/login" && path != "/signup" && path != "/dashboard" && path != "/profile" by {
        assert |path| > |PROJECTS_PREFIX|;
        assert |"/signup"| <= |PROJECTS_PREFIX| && |"/profile"| <= |PROJECTS_PREFIX|;
      }
    }
  }

  /** Two redirects are always enough: every path ends on a view the session
      may see (signed in: dashboard, profile or project; signed out: login
      or signup), or on no route at all. */
  lemma RedirectsSettle(path: string, authenticated: bool)
    ensures !Resolve(path, authenticated, 2).Redirect?
    ensures path == "/" ==>
      Resolve(path, authenticated, 2) == Render(if authenticated then DashboardPage else LoginPage)
  {
    assert !IsProjectPath("/dashboard") by {
      assert |"/dashboard"| <= |PROJECTS_PREFIX|;
    }
    assert !IsProjectPath("/login") by {
      assert |"/login"| <= |PROJECTS_PREFIX|;
    }
    assert Route("/login", authenticated) ==
      if authenticated then Redirect("/dashboard") else Render(LoginPage);
    assert Route("/dashboard", authenticated) ==
      if authenticated then Render(DashboardPage) else Redirect("/login");
    assert Resolve("/login", authenticated, 1) ==
      Render(if authenticated then DashboardPage else LoginPage);
    assert Resolve("/dashboard", authenticated, 1) ==
      Render(if authenticated then DashboardPage else LoginPage);
    var o := Route(path, authenticated);
    if o.Redirect? {
      assert o.to == "/dashboard" || o.to == "/login";
    }
  }
}
