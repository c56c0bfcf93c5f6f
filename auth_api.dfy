/**
 * The auth endpoints and token-storage helpers of lib/api/authAPI.ts. Calls go through the authenticated client;
 * their outcomes are inputs here.
 */
module AuthApi {
  import opened Base
  import opened JsonValues
  import opened Http
  import opened BrowserState
  import ApiClient

  datatype Provider = Google | Github {
    function Name(): string {
      match this
      case Google => "google"
      case Github => "github"
    }
  }

  const OAuthLoginPrefix := "http://localhost:8000/api/auth/oauth/login/"

  /** `getOAuthUrl(provider)`: a fixed prefix, then the provider name; different providers get different URLs. */
  function GetOAuthUrl(provider: Provider): (r: string)
    ensures OAuthLoginPrefix <= r && r[|OAuthLoginPrefix|..] == provider.Name()
  {
    OAuthLoginPrefix + provider.Name()
  }

  lemma OAuthUrlsDistinct(a: Provider, b: Provider)
    ensures GetOAuthUrl(a) == GetOAuthUrl(b) <==> a == b
  {
    if GetOAuthUrl(a) == GetOAuthUrl(b) {
      assert a.Name() == GetOAuthUrl(a)[|OAuthLoginPrefix|..];
      assert b.Name() == GetOAuthUrl(b)[|OAuthLoginPrefix|..];
    }
  }

  /** The body `{ refresh_token }` that both `refreshToken` and `logout` post. */
  function RefreshBody(refreshToken: string): (r: Json)
    ensures Get(r, "refresh_token") == Some(JStr(refreshToken))
    ensures r.JObj? && r.fields.Keys == {"refresh_token"}
  {
    JObj(map["refresh_token" := JStr(refreshToken)])
  }

  /**
   * `refreshToken(token)`: posts `{ refresh_token: token }` to `/auth/refresh` through `post` (the client, as a
   * function of path and body) and hands back the response body as it is, or the client's failure.
   */
  function RefreshToken(refreshToken: string, post: (string, Json) -> Result<Response, ApiClient.Failure>)
    : (r: Result<Json, ApiClient.Failure>)
    ensures post("/auth/refresh", RefreshBody(refreshToken)).Ok? ==>
      r == Ok(post("/auth/refresh", RefreshBody(refreshToken)).value.data)
    ensures post("/auth/refresh", RefreshBody(refreshToken)).Err? ==>
      r == Err(post("/auth/refresh", RefreshBody(refreshToken)).error)
  {
    match post("/auth/refresh", RefreshBody(refreshToken))
    case Ok(response) => Ok(response.data)
    case Err(e) => Err(e)
  }

  datatype TokenPair = TokenPair(accessToken: string, refreshToken: string)

  /** `getStoredTokens()`: what `localStorage` holds, or two `null`s without a window. */
  datatype StoredTokens = StoredTokens(accessToken: Option<string>, refreshToken: Option<string>)

  function GetStoredTokens(browser: Browser): (r: StoredTokens)
    reads browser
    ensures !browser.hasWindow ==> r == StoredTokens(None, None)
    ensures browser.hasWindow ==>
      r == StoredTokens(browser.GetItem(AccessTokenKey), browser.GetItem(RefreshTokenKey))
  {
    if !browser.hasWindow then StoredTokens(None, None)
    else StoredTokens(browser.GetItem(AccessTokenKey), browser.GetItem(RefreshTokenKey))
  }

  /** `storeTokens(tokens)`: afterwards `getStoredTokens` returns the same pair. */
  method StoreTokens(browser: Browser, tokens: TokenPair)
    modifies browser
    ensures browser.storage == if browser.hasWindow then
      old(browser.storage)[AccessTokenKey := tokens.accessToken][RefreshTokenKey := tokens.refreshToken]
      else old(browser.storage)
    ensures browser.hasWindow ==>
      GetStoredTokens(browser) == StoredTokens(Some(tokens.accessToken), Some(tokens.refreshToken))
    ensures browser.navigations == old(browser.navigations)
  {
    if browser.hasWindow {
      browser.SetItem(AccessTokenKey, tokens.accessToken);
      browser.SetItem(RefreshTokenKey, tokens.refreshToken);
    }
  }

  /** `clearTokens()`: afterwards `getStoredTokens` returns two `null`s. */
  method ClearTokens(browser: Browser)
    modifies browser
    ensures browser.storage == if browser.hasWindow then WithoutTokens(old(browser.storage)) else old(browser.storage)
    ensures GetStoredTokens(browser) == StoredTokens(None, None)
    ensures browser.navigations == old(browser.navigations)
  {
    if browser.hasWindow {
      browser.RemoveTokens();
    }
  }

  const LogoutPath := "/auth/logout"

  /**
   * `logout(refreshToken)`: `POST /auth/logout` with the body `RefreshBody(refreshToken)` goes through the client
   * (first answer `reply`, refresh answer `refresh`, replay answer `replay`), whose interceptor may navigate to
   * `/login`. The `finally` clears both keys whatever the outcome, and a rejection still propagates.
   */
  method Logout(client: ApiClient.ApiClient, refreshToken: string, reply: Result<Response, HttpError>,
                refresh: Result<Response, HttpError>, replay: Result<Response, HttpError>)
    returns (out: Result<(), ApiClient.Failure>)
    modifies client, client.browser
    ensures var outcome := ApiClient.Outcome(old(client.browser.storage), client.browser.hasWindow, false,
                                            reply, refresh, replay);
      out == if outcome.Ok? then Ok(()) else Err(outcome.error)
    ensures client.browser.storage ==
      if client.browser.hasWindow then WithoutTokens(old(client.browser.storage)) else old(client.browser.storage)
    ensures GetStoredTokens(client.browser) == StoredTokens(None, None)
    ensures client.browser.navigations == old(client.browser.navigations) +
      ApiClient.NavigationsAfter(old(client.browser.storage), client.browser.hasWindow, false, reply, refresh)
    ensures |client.bodies| > |old(client.bodies)| && client.bodies[|old(client.bodies)|] == Some(RefreshBody(refreshToken))
  {
    var config := new RequestConfig(LogoutPath, Some(JsonHeaders), Some(RefreshBody(refreshToken)));
    ghost var before := client.browser.storage;
    var posted := client.Request(config, reply, refresh, replay);
    out := if posted.Ok? then Ok(()) else Err(posted.error);
    ApiClient.OtherKeysKept(before, client.browser.hasWindow, false, reply, refresh);
    ClearTokens(client.browser);
  }
}
