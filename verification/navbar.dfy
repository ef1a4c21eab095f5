/** The navigation bar of `Navbar.jsx`: the search form's guard and target,
    and the admin controls chosen by the session gate. */
module Navbar {
  import opened Wrappers
  import opened Text
  import opened Schema
  import Auth

  /** `handleSearch`: navigate (once) only when the query has a non-blank
      character, to `/search?q=` followed by the URL encoding of the query as
      typed, surrounding spaces included. `encode` stands for the browser's
      `encodeURIComponent`. */
  function SearchTarget(query: string, encode: string -> string): (r: Option<string>)
    ensures r.Some? <==> !IsBlank(query)
    ensures r.Some? ==> r.value == "/search?q=" + encode(query)
  {
    TrimEmptyIffBlank(query);
    if Trim(query) != [] then Some("/search?q=" + encode(query)) else None
  }

  /** The right-hand admin controls. */
  datatype AdminControls = DashboardAndLogout | LoginLink

  function ControlsFor(s: Auth.AuthState): (r: AdminControls)
    ensures r == DashboardAndLogout <==> Auth.IsAuthenticated(s)
    ensures r == LoginLink <==> !Auth.IsAuthenticated(s)
  {
    if Auth.IsAuthenticated(s) then DashboardAndLogout else LoginLink
  }

  /** The logout button hands back the login link. */
  lemma LogoutShowsLoginLink(s: Auth.AuthState)
    ensures ControlsFor(Auth.Logout(s).state) == LoginLink
  {
  }

  /** A successful login with a well-formed reply shows the dashboard link. */
  lemma LoginShowsDashboard(s: Auth.AuthState, reply: Reply<AdminRecord>)
    requires reply.WellFormedSingle() && !reply.Fails()
    ensures ControlsFor(Auth.Login(s, Auth.Secret, reply).state) == DashboardAndLogout
  {
  }
}
