/** The navigation bar's logout button. */
module Navbar {
  import Api
  import Auth
  import opened Browser

  /**
   * handleLogout: the logout request first; then, whether it succeeded or
   * failed, the token is removed and the browser goes to the login page. A
   * failure is only logged, so no alert is shown.
   */
  method HandleLogout(store: Auth.TokenStore, outcome: Api.Outcome<()>) returns (effects: seq<Effect>)
    modifies store
    ensures effects == [Send(Api.Logout), ClearToken, Navigate("/login")]
    ensures Requests(effects) == [Api.Logout] && Navigations(effects) == ["/login"]
    ensures forall i :: 0 <= i < |effects| ==> !effects[i].Alert?
    ensures store.cookies == old(store.cookies) - {Auth.AuthTokenKey}
    ensures store.local == old(store.local) - {Auth.AuthTokenKey}
    ensures !Auth.Authenticated(store.cookies, store.local)
  {
    effects := [Send(Api.Logout)];
    // Success and failure of the request continue the same way.
    store.RemoveAuthToken();
    RequestsOfConcat(effects, [ClearToken, Navigate("/login")]);
    NavigationsOfConcat(effects, [ClearToken, Navigate("/login")]);
    assert [ClearToken, Navigate("/login")][1..] == [Navigate("/login")];
    effects := effects + [ClearToken, Navigate("/login")];
  }
}
