/**
 * The React auth provider of contexts/AuthContext.tsx: `user`, `accessToken` and `loading` state, kept beside the
 * two `localStorage` keys. Its effects and handlers run in the browser, so a window always exists for them.
 * The backend's answers to each `GET /auth/me` are inputs; the call goes through the authenticated client.
 */
module AuthContext {
  import opened Base
  import opened JsonValues
  import opened Http
  import opened BrowserState
  import ApiClient

  const OutsideProviderMessage := "useAuth must be used within an AuthProvider"

  const MePath := "/auth/me"

  /** The two things the inline `ProtectedRoute` can render. */
  datatype RouteScreen = LoadingPlaceholder | Children

  class AuthProvider {
    /** The authenticated client every call of the provider goes through. */
    const client: ApiClient.ApiClient
    const browser: Browser
    var user: Option<Json>
    var accessToken: Option<string>
    var loading: bool

    constructor (client: ApiClient.ApiClient)
      ensures this.client == client && browser == client.browser && Valid()
      ensures user.None? && accessToken.None? && loading
    {
      this.client := client;
      this.browser := client.browser;
      user := None;
      accessToken := None;
      loading := true;
    }

    /** The provider and its client share one browser. */
    predicate Valid()
      reads this, client
    {
      client.browser == browser
    }

    /** `isAuthenticated`: `!!accessToken`. */
    function IsAuthenticated(): (signedIn: bool)
      reads this
      ensures signedIn <==> accessToken.Some? && accessToken.value != ""
    {
      Present(accessToken)
    }

    /** The provider renders its children only once loading has finished. */
    predicate RendersChildren()
      reads this
    {
      !loading
    }

    /**
     * `initializeAuth`: with a stored access token, `GET /auth/me` goes through the client (first answer `reply`,
     * refresh answer `refresh`, replay answer `replay`), so the response interceptor may renew the stored tokens
     * or log out and navigate. The token read before the call is adopted once the call resolves; a rejection
     * removes both keys. Loading ends either way.
     */
    method InitializeAuth(reply: Result<Response, HttpError>, refresh: Result<Response, HttpError>,
                          replay: Result<Response, HttpError>)
      requires Valid() && browser.hasWindow
      modifies this, browser, client
      ensures !loading
      ensures var stored := old(browser.GetItem(AccessTokenKey));
        var me := ApiClient.Outcome(old(browser.storage), true, false, reply, refresh, replay);
        if !Present(stored) then
          accessToken == old(accessToken) && user == old(user) &&
          browser.storage == old(browser.storage) && browser.navigations == old(browser.navigations)
        else
          browser.navigations ==
            old(browser.navigations) + ApiClient.NavigationsAfter(old(browser.storage), true, false, reply, refresh) &&
          if me.Ok? then
            accessToken == stored && user == Some(me.value.data) &&
            browser.storage == ApiClient.StorageAfter(old(browser.storage), true, false, reply, refresh)
          else
            accessToken == old(accessToken) && user == old(user) &&
            browser.storage == WithoutTokens(old(browser.storage))
    {
      var stored := browser.GetItem(AccessTokenKey);
      if Present(stored) {
        var config := new RequestConfig(MePath, Some(JsonHeaders), None);
        ghost var before := browser.storage;
        var me := client.Request(config, reply, refresh, replay);
        match me {
          case Ok(response) =>
            user := Some(response.data);
            accessToken := stored;
          case Err(_) =>
            ApiClient.OtherKeysKept(before, true, false, reply, refresh);
            browser.RemoveTokens();
        }
      }
      loading := false;
    }

    /** `logout()`: both keys go, the state is cleared, and the page goes to `/login`. */
    method Logout()
      requires browser.hasWindow
      modifies this, browser
      ensures user.None? && accessToken.None? && !IsAuthenticated()
      ensures loading == old(loading)
      ensures browser.storage == WithoutTokens(old(browser.storage))
      ensures browser.navigations == old(browser.navigations) + ["/login"]
    {
      browser.RemoveTokens();
      user := None;
      accessToken := None;
      browser.Navigate("/login");
    }

    /**
     * `login(accessToken, refreshToken)`: both keys and the in-memory token are written before `fetchUser`
     * runs; loading is left alone.
     */
    method Login(newAccess: string, newRefresh: string, reply: Result<Response, HttpError>,
                 refresh: Result<Response, HttpError>, replay: Result<Response, HttpError>)
      requires Valid() && browser.hasWindow
      modifies this, browser, client
      ensures loading == old(loading)
      ensures var written := old(browser.storage)[AccessTokenKey := newAccess][RefreshTokenKey := newRefresh];
        var me := ApiClient.Outcome(written, true, false, reply, refresh, replay);
        var moves := ApiClient.NavigationsAfter(written, true, false, reply, refresh);
        (me.Ok? ==>
          accessToken == Some(newAccess) && user == Some(me.value.data) &&
          browser.storage == ApiClient.StorageAfter(written, true, false, reply, refresh) &&
          browser.navigations == old(browser.navigations) + moves) &&
        (me.Err? ==>
          accessToken.None? && user.None? &&
          browser.storage == WithoutTokens(old(browser.storage)) &&
          browser.navigations == old(browser.navigations) + moves + ["/login"])
    {
      browser.SetItem(AccessTokenKey, newAccess);
      browser.SetItem(RefreshTokenKey, newRefresh);
      accessToken := Some(newAccess);
      WithoutTokensIgnoresTokens(old(browser.storage), newAccess, newRefresh);
      FetchUser(reply, refresh, replay);
    }

    /**
     * `login`'s inner `fetchUser`: `GET /auth/me` goes through the client, whose interceptor may renew the
     * stored tokens or log out and navigate; a resolved fetch sets the user, a rejected one logs out again (a
     * second navigation to `/login` after a failed refresh).
     */
    method FetchUser(reply: Result<Response, HttpError>, refresh: Result<Response, HttpError>,
                     replay: Result<Response, HttpError>)
      requires Valid() && browser.hasWindow
      modifies this, browser, client
      ensures loading == old(loading)
      ensures var me := ApiClient.Outcome(old(browser.storage), true, false, reply, refresh, replay);
        var moves := ApiClient.NavigationsAfter(old(browser.storage), true, false, reply, refresh);
        (me.Ok? ==>
          accessToken == old(accessToken) && user == Some(me.value.data) &&
          browser.storage == ApiClient.StorageAfter(old(browser.storage), true, false, reply, refresh) &&
          browser.navigations == old(browser.navigations) + moves) &&
        (me.Err? ==>
          accessToken.None? && user.None? &&
          browser.storage == WithoutTokens(old(browser.storage)) &&
          browser.navigations == old(browser.navigations) + moves + ["/login"])
    {
      var config := new RequestConfig(MePath, Some(JsonHeaders), None);
      ghost var before := browser.storage;
      var me := client.Request(config, reply, refresh, replay);
      match me {
        case Ok(response) =>
          user := Some(response.data);
        case Err(_) =>
          ApiClient.OtherKeysKept(before, true, false, reply, refresh);
          Logout();
      }
    }

    /** The inline `ProtectedRoute` redirects exactly when loading is over and nobody is signed in. */
    predicate RouteRedirects()
      reads this
    {
      !loading && !IsAuthenticated()
    }

    /** The inline `ProtectedRoute` shows its children exactly when loading is over and somebody is signed in. */
    predicate RouteShowsChildren()
      reads this
    {
      !loading && IsAuthenticated()
    }

    /** What the inline `ProtectedRoute` renders: the "Loading..." placeholder while loading or signed out. */
    function RouteView(): (view: RouteScreen)
      reads this
      ensures view == Children <==> !loading && IsAuthenticated()
      ensures loading || !IsAuthenticated() ==> view == LoadingPlaceholder
    {
      if loading || !IsAuthenticated() then LoadingPlaceholder else Children
    }

    /** The inline `ProtectedRoute`'s effect. */
    method ProtectedRouteEffect()
      modifies browser
      ensures browser.navigations == old(browser.navigations) + (if RouteRedirects() then ["/login"] else [])
      ensures browser.storage == old(browser.storage)
    {
      if RouteRedirects() {
        browser.Navigate("/login");
      }
    }
  }

  /** Writing either token key does not change what is left once both are removed. */
  lemma WithoutTokensIgnoresTokens(m: map<string, string>, access: string, refresh: string)
    ensures WithoutTokens(m[AccessTokenKey := access][RefreshTokenKey := refresh]) == WithoutTokens(m)
  {
    assert m[AccessTokenKey := access][RefreshTokenKey := refresh] - {AccessTokenKey, RefreshTokenKey}
        == m - {AccessTokenKey, RefreshTokenKey};
  }

  /**
   * The guard's three cases: while loading, the placeholder and no redirect; signed out after loading, the
   * placeholder and a redirect; signed in after loading, the children and no redirect.
   */
  lemma RouteOutcomes(p: AuthProvider)
    ensures p.loading ==> p.RouteView() == LoadingPlaceholder && !p.RouteRedirects()
    ensures !p.loading && !p.IsAuthenticated() ==> p.RouteView() == LoadingPlaceholder && p.RouteRedirects()
    ensures !p.loading && p.IsAuthenticated() ==> p.RouteView() == Children && !p.RouteRedirects()
    ensures p.RouteShowsChildren() <==> p.RouteView() == Children
  {
  }

  /** `useAuth()`: the provider's value, or the error thrown outside a provider. */
  function UseAuth(provider: Option<AuthProvider>): (r: Result<AuthProvider, string>)
    ensures provider.None? <==> r == Err(OutsideProviderMessage)
    ensures provider.Some? ==> r == Ok(provider.value)
  {
    match provider
    case None => Err(OutsideProviderMessage)
    case Some(p) => Ok(p)
  }
}
