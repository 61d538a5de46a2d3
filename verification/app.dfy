/**
 * Session and view state of the top-level component (App.tsx): which user is
 * signed in, the cached copy of that user (the `pg_user` key), and which
 * screen is shown.
 */
module App {
  import opened Wrappers
  import opened Types
  import opened Store

  datatype AppState = AppState(view: View, user: Option<User>, cachedUser: Option<User>)

  /** The signed-in user and its cached copy agree. */
  predicate CacheInSync(s: AppState) {
    s.user == s.cachedUser
  }

  /** The view a user is routed to after signing in: the admin panel only for the administrator. */
  function HomeView(u: User): (v: View)
    ensures v == AdminView <==> u.role == Admin
    ensures v == DashboardView <==> u.role != Admin
  {
    if u.role == Admin then AdminView else DashboardView
  }

  /** Start-up: a cached user is restored and the dashboard is shown, whatever the role. */
  function Startup(cached: Option<User>): (s: AppState)
    ensures cached.Some? ==> s.user == cached && s.view == DashboardView
    ensures cached.None? ==> s.user.None? && s.view == Landing
    ensures CacheInSync(s)
  {
    match cached
    case Some(u) => AppState(DashboardView, Some(u), cached)
    case None => AppState(Landing, None, None)
  }

  /** `handleAuthSuccess`. */
  function AuthSuccess(s: AppState, u: User): (r: AppState)
    ensures r.user == Some(u) && CacheInSync(r)
    ensures r.view == HomeView(u)
  {
    AppState(HomeView(u), Some(u), Some(u))
  }

  /** `handleLogout`. */
  function Logout(s: AppState): (r: AppState)
    ensures r.user.None? && r.cachedUser.None? && r.view == Landing
  {
    AppState(Landing, None, None)
  }

  /**
   * `refreshUser`: the session user is replaced by the first stored record
   * with its id; without a session user or a matching record nothing changes.
   */
  function Refresh(s: AppState, db: Db): (r: AppState)
    ensures r.view == s.view
    ensures s.user.None? ==> r == s
    ensures s.user.Some? && FindById(db, s.user.value.id).None? ==> r == s
    ensures s.user.Some? && FindById(db, s.user.value.id).Some? ==>
              r.user == FindById(db, s.user.value.id) && r.cachedUser == r.user &&
              r.user.value in db && r.user.value.id == s.user.value.id
  {
    match s.user
    case None => s
    case Some(u) =>
      match FindById(db, u.id)
      case None => s
      case Some(stored) => s.(user := Some(stored), cachedUser := Some(stored))
  }

  /**
   * The theme toggle in the header: the start-up effect depends on the theme
   * flag, so toggling runs the restore again. A cached user is re-read and
   * the dashboard view is shown, whatever the current view; without a cached
   * user nothing changes. The theme itself is presentation only.
   */
  function ToggleTheme(s: AppState): (r: AppState)
    ensures s.cachedUser.None? ==> r == s
    ensures s.cachedUser.Some? ==> r.view == DashboardView && r.user == s.cachedUser
    ensures r.cachedUser == s.cachedUser
  {
    match s.cachedUser
    case None => s
    case Some(u) => s.(view := DashboardView, user := Some(u))
  }

  /** The dashboard is rendered only on its view and only with a signed-in user. */
  predicate ShowsDashboard(s: AppState) {
    s.view == DashboardView && s.user.Some?
  }

  /** The admin panel is rendered only on its view and only for the administrator. */
  predicate ShowsAdminPanel(s: AppState) {
    s.view == AdminView && s.user.Some? && s.user.value.role == Admin
  }

  /** At most one of the two working screens is rendered. */
  lemma ScreensExclusive(s: AppState)
    ensures !(ShowsDashboard(s) && ShowsAdminPanel(s))
  {
  }

  /** Signing in shows the admin panel to the administrator and the dashboard to everyone else. */
  lemma AuthSuccessRoutes(s: AppState, u: User)
    ensures ShowsAdminPanel(AuthSuccess(s, u)) <==> u.role == Admin
    ensures ShowsDashboard(AuthSuccess(s, u)) <==> u.role != Admin
  {
  }

  /** After logging out neither working screen is rendered, and a restart shows the landing page. */
  lemma LogoutClosesSession(s: AppState)
    ensures !ShowsDashboard(Logout(s)) && !ShowsAdminPanel(Logout(s))
    ensures Startup(Logout(s).cachedUser) == Logout(s)
  {
  }

  /** Every transition keeps the cached copy equal to the signed-in user. */
  lemma TransitionsKeepCacheInSync(s: AppState, u: User, db: Db)
    requires CacheInSync(s)
    ensures CacheInSync(AuthSuccess(s, u)) && CacheInSync(Logout(s)) && CacheInSync(Refresh(s, db))
  {
  }

  /** A restart restores exactly the user the session held, cached from the last refresh or sign-in. */
  lemma RestartRestoresUser(s: AppState)
    requires CacheInSync(s) && s.user.Some?
    ensures Startup(s.cachedUser).user == s.user
    ensures ShowsDashboard(Startup(s.cachedUser))
  {
  }

  /**
   * Toggling the theme re-runs the start-up restore: it agrees with a
   * restart, keeps the cache in sync, and a second toggle changes nothing
   * more.
   */
  lemma ToggleIsRestore(s: AppState)
    requires CacheInSync(s) && s.user.Some?
    ensures ToggleTheme(s) == Startup(s.cachedUser)
    ensures CacheInSync(ToggleTheme(s))
    ensures ToggleTheme(ToggleTheme(s)) == ToggleTheme(s)
  {
  }

  /** An administrator on the admin panel who toggles the theme is sent to the dashboard view. */
  lemma ToggleLeavesAdminPanel(s: AppState)
    requires CacheInSync(s) && ShowsAdminPanel(s)
    ensures !ShowsAdminPanel(ToggleTheme(s)) && ShowsDashboard(ToggleTheme(s))
  {
  }
}
