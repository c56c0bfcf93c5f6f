/**
 * The OAuth landing page of app/oauth/callback/page.tsx: the backend redirects here with both tokens in the
 * query string. The query parameters are inputs (`None` for a missing one); router pushes are recorded.
 */
module OAuthCallback {
  import opened Base
  import opened JsonValues
  import AppStore

  /** The page proceeds only when both parameters are present and non-empty. */
  predicate HasTokens(accessToken: Option<string>, refreshToken: Option<string>) {
    accessToken.Some? && accessToken.value != "" && refreshToken.Some? && refreshToken.value != ""
  }

  class CallbackPage {
    const store: AppStore.AppStore
    /** Every `router.push` so far. */
    var routes: seq<string>

    constructor (store: AppStore.AppStore)
      ensures this.store == store && routes == []
    {
      this.store := store;
      routes := [];
    }

    /**
     * The page's effect: with both tokens the store is signed in (with an empty user object) and the page goes
     * home; otherwise it goes to the login page and the store is left alone. Exactly one navigation either way.
     */
    method OnParams(accessToken: Option<string>, refreshToken: Option<string>)
      modifies this, store
      ensures |routes| == |old(routes)| + 1 && routes[..|old(routes)|] == old(routes)
      ensures HasTokens(accessToken, refreshToken) ==>
        store.state == old(store.state).(token := accessToken, refreshToken := refreshToken,
                                         user := Some(JObj(map[])), isAuthenticated := true) &&
        routes[|old(routes)|] == "/"
      ensures !HasTokens(accessToken, refreshToken) ==>
        store.state == old(store.state) && routes[|old(routes)|] == "/login"
    {
      if HasTokens(accessToken, refreshToken) {
        store.SetAuth(accessToken, refreshToken, Some(JObj(map[])));
        routes := routes + ["/"];
      } else {
        routes := routes + ["/login"];
      }
    }
  }
}
