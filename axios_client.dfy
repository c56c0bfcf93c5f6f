/**
 * The plain authenticated client of lib/axiosClient.ts: it attaches the stored access token like the main
 * client, but creates the header object when a request has none, and hands every answer back as it came: no
 * refresh, no replay, no storage change.
 */
module AxiosClient {
  import opened Base
  import opened Http
  import opened BrowserState
  import ApiClient

  /** `${API_URL}/api`. */
  function BaseUrl(env: Option<string>): (r: string)
    ensures |r| >= 4 && r[..|r| - 4] == ApiUrl(env) && r[|r| - 4..] == "/api"
  {
    ApiUrl(env) + "/api"
  }

  class PlainClient {
    const browser: Browser

    constructor (browser: Browser)
      ensures this.browser == browser
    {
      this.browser := browser;
    }

    /** The request interceptor: a present token is attached, to a fresh header object when there is none. */
    method AttachToken(config: RequestConfig)
      modifies config
      ensures config.retry == old(config.retry)
      ensures Present(browser.GuardedItem(AccessTokenKey)) ==>
        config.headers == Some(ApiClient.WithToken(old(config.headers).GetOr(map[]), browser.GuardedItem(AccessTokenKey)))
      ensures !Present(browser.GuardedItem(AccessTokenKey)) ==> config.headers == old(config.headers)
    {
      var token := browser.GuardedItem(AccessTokenKey);
      if Present(token) {
        var headers := if config.headers.Some? then config.headers.value else map[];
        config.headers := Some(headers[AuthorizationHeader := Bearer(token.value)]);
      }
    }

    /**
     * One request through the client: the token is attached and the backend's `reply` is handed back as it is,
     * success or failure (a 401 included); storage and the page location stay as they were.
     */
    method Request(config: RequestConfig, reply: Result<Response, HttpError>) returns (out: Result<Response, HttpError>)
      modifies config
      ensures out == reply
      ensures config.retry == old(config.retry)
      ensures Present(browser.GuardedItem(AccessTokenKey)) ==>
        config.headers == Some(ApiClient.WithToken(old(config.headers).GetOr(map[]), browser.GuardedItem(AccessTokenKey)))
      ensures !Present(browser.GuardedItem(AccessTokenKey)) ==> config.headers == old(config.headers)
      ensures browser.storage == old(browser.storage) && browser.navigations == old(browser.navigations)
    {
      AttachToken(config);
      out := reply;
    }
  }
}
