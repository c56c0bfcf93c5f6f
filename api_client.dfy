/**
 * The authenticated axios instance of lib/apiClient.ts. Its request interceptor attaches the stored access token as
 * a Bearer credential; its response interceptor answers the first HTTP 401 of a request (section 15.5.2 of
 * RFC 9110) by posting the stored refresh token to `/auth/refresh`, storing the new tokens and replaying the request
 * once. The backend's replies (first answer, refresh answer, replay answer) are inputs.
 */
module ApiClient {
  import opened Base
  import opened JsonValues
  import opened Http
  import opened BrowserState

  /** Why a request through this client rejected. */
  datatype Failure =
    | Rejected(error: HttpError)   // an axios error, passed on as it is
    | NoLocalStorage               // `localStorage` is not defined: there is no window
    | MalformedRefreshBody         // destructuring a `null` refresh body throws a TypeError

  /** `err.message` of a rejection: the axios message, or the message of the runtime error. */
  function Message(f: Failure): string {
    match f
    case Rejected(e) => e.message
    case NoLocalStorage => "localStorage is not defined"
    case MalformedRefreshBody => "Cannot destructure property 'access_token' of 'response.data' as it is null."
  }

  /** `err.response?.data`: the body of the backend's error answer, if there was one. */
  function ResponseData(f: Failure): (r: Option<Json>)
    ensures r.Some? <==> f.Rejected? && f.error.response.Some?
    ensures r.Some? ==> r.value == f.error.response.value.data
  {
    match f
    case Rejected(e) => if e.response.Some? then Some(e.response.value.data) else None
    case _ => None
  }

  /** `err.response?.status`. */
  function Status(f: Failure): (r: Option<int>)
    ensures r.Some? <==> f.Rejected? && f.error.response.Some?
    ensures r.Some? ==> r.value == f.error.response.value.status
  {
    match f
    case Rejected(e) => e.Status()
    case _ => None
  }

  /** `err.response?.data?.detail`. */
  function Detail(f: Failure): (r: Option<Json>)
    ensures r.Some? ==> ResponseData(f).Some? && Get(ResponseData(f).value, "detail") == r
    ensures ResponseData(f).Some? ==> r == Get(ResponseData(f).value, "detail")
  {
    if ResponseData(f).Some? then Get(ResponseData(f).value, "detail") else None
  }

  /** `err.response?.data?.detail || fallback`; a non-string `detail` is kept as its `String()` form. */
  function DetailOr(f: Failure, fallback: string): (r: string)
    ensures TruthyOpt(Detail(f)) ==> r == JsString(Detail(f).value)
    ensures !TruthyOpt(Detail(f)) ==> r == fallback
  {
    if TruthyOpt(Detail(f)) then JsString(Detail(f).value) else fallback
  }

  /**
   * `err.response?.data?.detail || err.message || fallback`, as the hooks write their error state; a
   * non-string `detail` is kept as its `String()` form.
   */
  function ErrorText(f: Failure, fallback: string): (r: string)
    ensures TruthyOpt(Detail(f)) ==> r == JsString(Detail(f).value)
    ensures !TruthyOpt(Detail(f)) ==> r == (if Message(f) != "" then Message(f) else fallback)
  {
    DetailOr(f, if Message(f) != "" then Message(f) else fallback)
  }

  /** The request interceptor's header rewrite: a present token becomes `Authorization: Bearer <token>`. */
  function WithToken(h: map<string, string>, token: Option<string>): (r: map<string, string>)
    ensures Present(token) ==> AuthorizationHeader in r && r[AuthorizationHeader] == Bearer(token.value)
    ensures Present(token) ==> forall k :: k in h && k != AuthorizationHeader ==> k in r && r[k] == h[k]
    ensures Present(token) ==> r.Keys == h.Keys + {AuthorizationHeader}
    ensures !Present(token) ==> r == h
  {
    if Present(token) then h[AuthorizationHeader := Bearer(token.value)] else h
  }

  /**
   * Storage after a refresh answered with body `data`: `access_token` is always written (as `String(value)`,
   * so a missing field is stored as "undefined"); `refresh_token` only when the body carries a truthy one.
   */
  function Renewed(m: map<string, string>, data: Json): (r: map<string, string>)
    ensures AccessTokenKey in r && r[AccessTokenKey] == JsStringOpt(Get(data, "access_token"))
    ensures TruthyOpt(Get(data, "refresh_token")) ==>
      RefreshTokenKey in r && r[RefreshTokenKey] == JsStringOpt(Get(data, "refresh_token"))
    ensures !TruthyOpt(Get(data, "refresh_token")) ==>
      (RefreshTokenKey in r <==> RefreshTokenKey in m) && (RefreshTokenKey in m ==> r[RefreshTokenKey] == m[RefreshTokenKey])
    ensures forall k :: k != AccessTokenKey && k != RefreshTokenKey ==>
      (k in r <==> k in m) && (k in m ==> r[k] == m[k])
  {
    var withAccess := m[AccessTokenKey := JsStringOpt(Get(data, "access_token"))];
    if TruthyOpt(Get(data, "refresh_token")) then
      withAccess[RefreshTokenKey := JsStringOpt(Get(data, "refresh_token"))]
    else withAccess
  }

  /** `localStorage.getItem(key)` over the storage map `m`. */
  function ItemOf(m: map<string, string>, key: string): Option<string> {
    if key in m then Some(m[key]) else None
  }

  /** Whether the response interceptor answers `reply` by trying a refresh: a 401 on a request not yet retried. */
  predicate TriggersRefresh(reply: Result<Response, HttpError>, retry: bool) {
    reply.Err? && reply.error.Status() == Some(401) && !retry
  }

  /**
   * Whether one `api.request` ends in the interceptor's forced logout (both keys removed, the page sent to
   * `/login`): a first 401 with no stored refresh token, or with a refresh that failed or answered `null`.
   */
  predicate ForcedLogout(storage: map<string, string>, hasWindow: bool, retry: bool,
                         reply: Result<Response, HttpError>, refresh: Result<Response, HttpError>) {
    TriggersRefresh(reply, retry) && hasWindow &&
    (!Present(ItemOf(storage, RefreshTokenKey)) || refresh.Err? || refresh.value.data == JNull)
  }

  /** Whether one `api.request` stores renewed tokens: a first 401, a stored refresh token, a non-`null` refresh body. */
  predicate Renews(storage: map<string, string>, hasWindow: bool, retry: bool,
                   reply: Result<Response, HttpError>, refresh: Result<Response, HttpError>) {
    TriggersRefresh(reply, retry) && hasWindow && Present(ItemOf(storage, RefreshTokenKey)) &&
    refresh.Ok? && refresh.value.data != JNull
  }

  /**
   * `localStorage` after one `api.request` that started from `storage`: only the two token keys can change, and
   * only on a first 401 in a window, where they are either both removed or renewed.
   */
  function StorageAfter(storage: map<string, string>, hasWindow: bool, retry: bool,
                        reply: Result<Response, HttpError>, refresh: Result<Response, HttpError>): (r: map<string, string>)
    ensures forall k :: k != AccessTokenKey && k != RefreshTokenKey ==>
      (k in r <==> k in storage) && (k in storage ==> r[k] == storage[k])
    ensures !TriggersRefresh(reply, retry) || !hasWindow ==> r == storage
    ensures ForcedLogout(storage, hasWindow, retry, reply, refresh) ==> AccessTokenKey !in r && RefreshTokenKey !in r
    ensures Renews(storage, hasWindow, retry, reply, refresh) ==> r == Renewed(storage, refresh.value.data)
  {
    if ForcedLogout(storage, hasWindow, retry, reply, refresh) then WithoutTokens(storage)
    else if Renews(storage, hasWindow, retry, reply, refresh) then Renewed(storage, refresh.value.data)
    else storage
  }

  /** The navigations one `api.request` adds: at most one, to `/login`, and only when both keys are gone. */
  function NavigationsAfter(storage: map<string, string>, hasWindow: bool, retry: bool,
                            reply: Result<Response, HttpError>, refresh: Result<Response, HttpError>): (r: seq<string>)
    ensures |r| <= 1 && forall i :: 0 <= i < |r| ==> r[i] == "/login"
    ensures !TriggersRefresh(reply, retry) || !hasWindow ==> r == []
    ensures r != [] ==> StorageAfter(storage, hasWindow, retry, reply, refresh) == WithoutTokens(storage)
  {
    if ForcedLogout(storage, hasWindow, retry, reply, refresh) then ["/login"] else []
  }

  /**
   * What one `api.request` resolves or rejects with, given the first answer, the refresh answer and the replay
   * answer: it resolves only with the first answer or, after a renewal, the replay's; a forced logout rejects.
   */
  function Outcome(storage: map<string, string>, hasWindow: bool, retry: bool, reply: Result<Response, HttpError>,
                   refresh: Result<Response, HttpError>, replay: Result<Response, HttpError>): (r: Result<Response, Failure>)
    ensures r.Ok? ==>
      (reply.Ok? && r.value == reply.value) ||
      (Renews(storage, hasWindow, retry, reply, refresh) && replay.Ok? && r.value == replay.value)
    ensures !TriggersRefresh(reply, retry) ==> r == if reply.Ok? then Ok(reply.value) else Err(Rejected(reply.error))
    ensures ForcedLogout(storage, hasWindow, retry, reply, refresh) ==> r.Err?
    ensures Renews(storage, hasWindow, retry, reply, refresh) ==>
      r == if replay.Ok? then Ok(replay.value) else Err(Rejected(replay.error))
  {
    if reply.Ok? then Ok(reply.value)
    else if !TriggersRefresh(reply, retry) then Err(Rejected(reply.error))
    else if !hasWindow then Err(NoLocalStorage)
    else if !Present(ItemOf(storage, RefreshTokenKey)) then Err(Rejected(reply.error))
    else if refresh.Err? then Err(Rejected(refresh.error))
    else if refresh.value.data == JNull then Err(MalformedRefreshBody)
    else if replay.Ok? then Ok(replay.value)
    else Err(Rejected(replay.error))
  }

  /**
   * Anything but a first 401 passes through the interceptor untouched: the answer as it is, storage and
   * navigation unchanged.
   */
  lemma PassThrough(storage: map<string, string>, hasWindow: bool, retry: bool, reply: Result<Response, HttpError>,
                    refresh: Result<Response, HttpError>, replay: Result<Response, HttpError>)
    requires !TriggersRefresh(reply, retry)
    ensures Outcome(storage, hasWindow, retry, reply, refresh, replay) ==
      (if reply.Ok? then Ok(reply.value) else Err(Rejected(reply.error)))
    ensures StorageAfter(storage, hasWindow, retry, reply, refresh) == storage
    ensures NavigationsAfter(storage, hasWindow, retry, reply, refresh) == []
  {
  }

  /**
   * A navigation to `/login` by the interceptor always comes with both keys gone and a rejection; a request that
   * resolves never navigates.
   */
  lemma LoginRedirectOnlyWhenLoggedOut(storage: map<string, string>, hasWindow: bool, retry: bool,
                                       reply: Result<Response, HttpError>, refresh: Result<Response, HttpError>,
                                       replay: Result<Response, HttpError>)
    ensures NavigationsAfter(storage, hasWindow, retry, reply, refresh) != [] ==>
      NavigationsAfter(storage, hasWindow, retry, reply, refresh) == ["/login"] &&
      AccessTokenKey !in StorageAfter(storage, hasWindow, retry, reply, refresh) &&
      RefreshTokenKey !in StorageAfter(storage, hasWindow, retry, reply, refresh) &&
      Outcome(storage, hasWindow, retry, reply, refresh, replay).Err?
    ensures Outcome(storage, hasWindow, retry, reply, refresh, replay).Ok? ==>
      NavigationsAfter(storage, hasWindow, retry, reply, refresh) == []
  {
  }

  /**
   * A request that resolves after a 401 did so through the replay, with the refreshed access token stored; if it
   * resolves on the first answer, storage is as it was.
   */
  lemma ResolvedRequest(storage: map<string, string>, hasWindow: bool, retry: bool,
                        reply: Result<Response, HttpError>, refresh: Result<Response, HttpError>,
                        replay: Result<Response, HttpError>)
    requires Outcome(storage, hasWindow, retry, reply, refresh, replay).Ok?
    ensures reply.Ok? ==>
      Outcome(storage, hasWindow, retry, reply, refresh, replay) == Ok(reply.value) &&
      StorageAfter(storage, hasWindow, retry, reply, refresh) == storage
    ensures reply.Err? ==>
      Renews(storage, hasWindow, retry, reply, refresh) && replay.Ok? &&
      Outcome(storage, hasWindow, retry, reply, refresh, replay) == Ok(replay.value) &&
      ItemOf(StorageAfter(storage, hasWindow, retry, reply, refresh), AccessTokenKey) ==
        Some(JsStringOpt(Get(refresh.value.data, "access_token")))
  {
  }

  /** Whatever the interceptor did, the keys other than the two tokens are as they were. */
  lemma OtherKeysKept(storage: map<string, string>, hasWindow: bool, retry: bool,
                      reply: Result<Response, HttpError>, refresh: Result<Response, HttpError>)
    ensures WithoutTokens(StorageAfter(storage, hasWindow, retry, reply, refresh)) == WithoutTokens(storage)
  {
    var after := StorageAfter(storage, hasWindow, retry, reply, refresh);
    assert forall k :: k in WithoutTokens(after) <==> k in WithoutTokens(storage);
  }

  class ApiClient {
    const browser: Browser
    /** The headers of every request that reached the backend through this client, oldest first. */
    var sent: seq<map<string, string>>
    /** The body of every request that reached the backend through this client, in step with `sent`. */
    var bodies: seq<Option<Json>>
    /** The body token of every `/auth/refresh` call, oldest first. */
    var refreshes: seq<string>

    constructor (browser: Browser)
      ensures this.browser == browser && sent == [] && bodies == [] && refreshes == []
    {
      this.browser := browser;
      sent := [];
      bodies := [];
      refreshes := [];
    }

    /** The request interceptor. */
    method AttachToken(config: RequestConfig)
      requires config.headers.Some?
      modifies config
      ensures config.retry == old(config.retry)
      ensures config.headers == Some(WithToken(old(config.headers.value), browser.GuardedItem(AccessTokenKey)))
    {
      var token := browser.GuardedItem(AccessTokenKey);
      if Present(token) {
        config.headers := Some(config.headers.value[AuthorizationHeader := Bearer(token.value)]);
      }
    }

    /** Sends the request as it stands and records its headers and body; `reply` is the backend's answer. */
    method Transmit(config: RequestConfig, reply: Result<Response, HttpError>)
      returns (out: Result<Response, HttpError>)
      requires config.headers.Some?
      modifies this
      ensures sent == old(sent) + [config.headers.value]
      ensures bodies == old(bodies) + [config.body]
      ensures refreshes == old(refreshes)
      ensures out == reply
    {
      sent := sent + [config.headers.value];
      bodies := bodies + [config.body];
      out := reply;
    }

    /**
     * `api.request(config)`: the request interceptor, the first round trip, and on an error the response
     * interceptor with the refresh answer `refresh` and the replay answer `replay`.
     */
    method Request(config: RequestConfig, reply: Result<Response, HttpError>,
                   refresh: Result<Response, HttpError>, replay: Result<Response, HttpError>)
      returns (out: Result<Response, Failure>)
      requires config.headers.Some?
      modifies this, config, browser
      ensures |old(sent)| < |sent| <= |old(sent)| + 2 && sent[..|old(sent)|] == old(sent)
      ensures sent[|old(sent)|] == WithToken(old(config.headers.value), old(browser.GuardedItem(AccessTokenKey)))
      ensures bodies == old(bodies) + if |sent| == |old(sent)| + 2 then [config.body, config.body] else [config.body]
      ensures |old(refreshes)| <= |refreshes| <= |old(refreshes)| + 1
      ensures |sent| == |old(sent)| + 2 ==> |refreshes| == |old(refreshes)| + 1
      ensures reply.Ok? ==>
        out == Ok(reply.value) && refreshes == old(refreshes) && |sent| == |old(sent)| + 1 &&
        browser.storage == old(browser.storage) && browser.navigations == old(browser.navigations)
      ensures reply.Err? && !(reply.error.Status() == Some(401) && !old(config.retry)) ==>
        out == Err(Rejected(reply.error)) && refreshes == old(refreshes) && |sent| == |old(sent)| + 1 &&
        browser.storage == old(browser.storage) && browser.navigations == old(browser.navigations)
      ensures out == Outcome(old(browser.storage), browser.hasWindow, old(config.retry), reply, refresh, replay)
      ensures browser.storage == StorageAfter(old(browser.storage), browser.hasWindow, old(config.retry), reply, refresh)
      ensures browser.navigations ==
        old(browser.navigations) + NavigationsAfter(old(browser.storage), browser.hasWindow, old(config.retry), reply, refresh)
    {
      AttachToken(config);
      var first := Transmit(config, reply);
      match first
      case Ok(r) =>
        out := Ok(r);
      case Err(e) =>
        out := OnError(e, config, refresh, replay);
    }

    /** Stores what `/auth/refresh` answered: always the access token, the refresh token only when truthy. */
    method StoreRenewal(data: Json)
      requires browser.hasWindow
      modifies browser
      ensures browser.storage == Renewed(old(browser.storage), data)
      ensures browser.navigations == old(browser.navigations)
    {
      var newRefresh := Get(data, "refresh_token");
      browser.SetItem(AccessTokenKey, JsStringOpt(Get(data, "access_token")));
      if TruthyOpt(newRefresh) {
        browser.SetItem(RefreshTokenKey, JsStringOpt(newRefresh));
      }
    }

    /** The response interceptor's error handler. */
    method OnError(error: HttpError, config: RequestConfig,
                   refresh: Result<Response, HttpError>, replay: Result<Response, HttpError>)
      returns (out: Result<Response, Failure>)
      requires config.headers.Some?
      modifies this, config, browser
      decreases if config.retry then 0 else 1
      ensures config.retry == (old(config.retry) || error.Status() == Some(401))
      ensures config.headers.Some?
      ensures |old(sent)| <= |sent| <= |old(sent)| + 1 && sent[..|old(sent)|] == old(sent)
      ensures |old(refreshes)| <= |refreshes| <= |old(refreshes)| + 1
      ensures |sent| == |old(sent)| + 1 ==> |refreshes| == |old(refreshes)| + 1
      ensures bodies == old(bodies) + if |sent| == |old(sent)| + 1 then [config.body] else []
      // Not the first 401 of this request: rejected as it is, nothing else happens.
      ensures !(error.Status() == Some(401) && !old(config.retry)) ==>
        out == Err(Rejected(error)) && sent == old(sent) && refreshes == old(refreshes) &&
        config.headers == old(config.headers) &&
        browser.storage == old(browser.storage) && browser.navigations == old(browser.navigations)
      // No window: reading the refresh token throws, and the handler's guarded cleanup does nothing.
      ensures error.Status() == Some(401) && !old(config.retry) && !browser.hasWindow ==>
        out == Err(NoLocalStorage) && sent == old(sent) && refreshes == old(refreshes) &&
        config.headers == old(config.headers) &&
        browser.storage == old(browser.storage) && browser.navigations == old(browser.navigations)
      // No refresh token: log out without calling the backend, reject the original error.
      ensures error.Status() == Some(401) && !old(config.retry) && browser.hasWindow &&
              !Present(old(browser.GetItem(RefreshTokenKey))) ==>
        out == Err(Rejected(error)) && sent == old(sent) && refreshes == old(refreshes) &&
        config.headers == old(config.headers) &&
        browser.storage == WithoutTokens(old(browser.storage)) &&
        browser.navigations == old(browser.navigations) + ["/login"]
      // A refresh token: exactly one refresh call, carrying it.
      ensures error.Status() == Some(401) && !old(config.retry) && browser.hasWindow &&
              Present(old(browser.GetItem(RefreshTokenKey))) ==>
        refreshes == old(refreshes) + [old(browser.GetItem(RefreshTokenKey)).value]
      // The refresh failed, or answered `null`: log out and reject; no replay.
      ensures error.Status() == Some(401) && !old(config.retry) && browser.hasWindow &&
              Present(old(browser.GetItem(RefreshTokenKey))) &&
              (refresh.Err? || refresh.value.data == JNull) ==>
        out == (if refresh.Err? then Err(Rejected(refresh.error)) else Err(MalformedRefreshBody)) &&
        sent == old(sent) && config.headers == old(config.headers) &&
        browser.storage == WithoutTokens(old(browser.storage)) &&
        browser.navigations == old(browser.navigations) + ["/login"]
      // The refresh succeeded: store the new tokens, replay once with the new access token, and hand back whatever
      // the replay gives; a failed replay clears nothing and does not navigate.
      ensures error.Status() == Some(401) && !old(config.retry) && browser.hasWindow &&
              Present(old(browser.GetItem(RefreshTokenKey))) &&
              refresh.Ok? && refresh.value.data != JNull ==>
        browser.storage == Renewed(old(browser.storage), refresh.value.data) &&
        browser.navigations == old(browser.navigations) &&
        config.headers == Some(old(config.headers.value)[AuthorizationHeader :=
                                 Bearer(JsStringOpt(Get(refresh.value.data, "access_token")))]) &&
        sent == old(sent) + [config.headers.value] &&
        out == (if replay.Ok? then Ok(replay.value) else Err(Rejected(replay.error)))
    {
      if error.Status() == Some(401) && !config.retry {
        config.retry := true;
        if !browser.hasWindow {
          out := Err(NoLocalStorage);
          return;
        }
        var refreshToken := browser.GetItem(RefreshTokenKey);
        if !Present(refreshToken) {
          browser.RemoveTokens();
          browser.Navigate("/login");
          out := Err(Rejected(error));
          return;
        }
        refreshes := refreshes + [refreshToken.value];
        if refresh.Err? || refresh.value.data == JNull {
          browser.RemoveTokens();
          browser.Navigate("/login");
          out := if refresh.Err? then Err(Rejected(refresh.error)) else Err(MalformedRefreshBody);
          return;
        }
        var data := refresh.value.data;
        var accessToken := Get(data, "access_token");
        StoreRenewal(data);
        config.headers := Some(config.headers.value[AuthorizationHeader := Bearer(JsStringOpt(accessToken))]);
        // The replay passes through the request interceptor again, then through this handler with `_retry` set.
        ghost var replayHeaders := config.headers.value;
        assert browser.GuardedItem(AccessTokenKey) == Some(JsStringOpt(accessToken));
        assert replayHeaders[AuthorizationHeader := Bearer(JsStringOpt(accessToken))] == replayHeaders;
        AttachToken(config);
        var second := Transmit(config, replay);
        match second
        case Ok(r) =>
          out := Ok(r);
        case Err(e) =>
          out := OnError(e, config, refresh, replay);
      } else {
        out := Err(Rejected(error));
      }
    }
  }
}
