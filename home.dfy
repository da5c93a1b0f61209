/** The landing page's choice (`HomePage`): which home page a store snapshot shows. */
module Home {
  import opened Common
  import opened Types
  import AuthStore

  datatype HomePage = PublicHome | UserHome | ModeratorHome | AdminHome

  /** The `if` and the `switch` over `user.role`; the access token read by the
      same component goes only to a log line. */
  function SelectHomePage(s: Session): (r: HomePage) {
    if !s.isAuthenticated || s.user.None? then PublicHome
    else if s.user.value.role == "admin" then AdminHome
    else if s.user.value.role == "moderator" then ModeratorHome
    else UserHome
  }

  /** Which page is shown, case by case: public without an authenticated user,
      otherwise by role, every unknown role landing on the user page. */
  lemma HomePageByRole(s: Session)
    ensures SelectHomePage(s) == PublicHome <==> !s.isAuthenticated || s.user.None?
    ensures SelectHomePage(s) == AdminHome <==>
      s.isAuthenticated && s.user.Some? && s.user.value.role == "admin"
    ensures SelectHomePage(s) == ModeratorHome <==>
      s.isAuthenticated && s.user.Some? && s.user.value.role == "moderator"
    ensures SelectHomePage(s) == UserHome <==>
      s.isAuthenticated && s.user.Some? && s.user.value.role != "admin" && s.user.value.role != "moderator"
  {
  }

  /** The choice depends on `isAuthenticated`, on whether there is a user, and
      on that user's role, and on nothing else in the snapshot. */
  lemma SelectionReadsOnlyRole(s1: Session, s2: Session)
    requires s1.isAuthenticated == s2.isAuthenticated
    requires s1.user.Some? == s2.user.Some?
    requires s1.user.Some? ==> s1.user.value.role == s2.user.value.role
    ensures SelectHomePage(s1) == SelectHomePage(s2)
  {
  }

  /** A reload that finds a token but no stored user shows the public page,
      although the store counts as authenticated. */
  lemma TokenOnlyBootstrapIsPublic(token: string, refresh: Option<string>)
    requires token != ""
    ensures AuthStore.Bootstrap(Stored(Some(token), refresh, None)).session.isAuthenticated
    ensures SelectHomePage(AuthStore.Bootstrap(Stored(Some(token), refresh, None)).session) == PublicHome
  {
  }

  /** Right after a login the page follows the role the server returned. */
  lemma LoginRoutesByRole(c: AuthStore.Client, a: AuthResponse, now: int)
    ensures var page := SelectHomePage(AuthStore.SetSessionSpec(c, a, now).session);
      && (a.user.role == "admin" ==> page == AdminHome)
      && (a.user.role == "moderator" ==> page == ModeratorHome)
      && (a.user.role != "admin" && a.user.role != "moderator" ==> page == UserHome)
  {
  }

  /** After any clear the public page is shown. */
  lemma ClearedShowsPublic(c: AuthStore.Client, now: int)
    ensures SelectHomePage(AuthStore.ClearSessionSpec(c, now).session) == PublicHome
  {
  }
}
