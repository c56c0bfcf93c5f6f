/**
 * The sign-in page of app/login/page.tsx: the credentials are posted; an answer carrying a refresh token is put
 * into the application store and the page goes home; everything else ends in one error toast whose text is
 * picked from whatever the failure carries. The backend's answers are inputs; router pushes and toast texts are
 * recorded.
 */
module LoginPage {
  import opened Base
  import opened JsonValues
  import opened Http
  import AppStore
  import ApiClient

  const DefaultDescription := "Login failed. Please try again."
  const InvalidCredentials := "Invalid email or password."
  const MissingRefreshMessage := "Refresh token not found in response"
  const NullDataMessage := "Cannot destructure property 'access_token' of 'response.data' as it is null."
  const SuccessToast := "Logged in successfully!"

  /** What the `catch` receives: the client's failure, or an error the handler threw itself. */
  datatype LoginError = Backend(failure: ApiClient.Failure) | Thrown(message: string)

  /** The fields the handler takes from a successful answer. */
  datatype Credentials = Credentials(accessToken: Option<Json>, refreshToken: Json, user: Option<Json>)

  /** Destructuring `response.data`: a `null` body throws, and a missing or falsy `refresh_token` is refused. */
  function ReadCredentials(data: Json): (r: Result<Credentials, string>)
    ensures data == JNull ==> r == Err(NullDataMessage)
    ensures data != JNull && !TruthyOpt(Get(data, "refresh_token")) ==> r == Err(MissingRefreshMessage)
    ensures r.Ok? <==> data != JNull && TruthyOpt(Get(data, "refresh_token"))
    ensures r.Ok? ==> r.value == Credentials(Get(data, "access_token"), Get(data, "refresh_token").value, Get(data, "user"))
  {
    if data == JNull then Err(NullDataMessage)
    else if !TruthyOpt(Get(data, "refresh_token")) then Err(MissingRefreshMessage)
    else Ok(Credentials(Get(data, "access_token"), Get(data, "refresh_token").value, Get(data, "user")))
  }

  /** A token as the store keeps it: a string value, or absent. */
  function TokenValue(j: Option<Json>): Option<string> {
    if j.Some? && j.value.JStr? then Some(j.value.s) else None
  }

  /**
   * The toast text for a failure: a string body as it is; an object body's first non-nullish `error`,
   * `detail`, `message`; without a body, a 400 or 401 means bad credentials; then the error's own message;
   * then the default. The chosen value is shown through `String()`.
   */
  function Description(e: LoginError): (r: string)
    ensures var data := if e.Backend? then ApiClient.ResponseData(e.failure) else None;
      (TruthyOpt(data) && data.value.JStr? ==> r == data.value.s) &&
      (TruthyOpt(data) && data.value.JObj? ==>
        r == JsString(Nullish(Get(data.value, "error"), Nullish(Get(data.value, "detail"),
                      Nullish(Get(data.value, "message"), Some(JStr(DefaultDescription))))).value))
    ensures e.Thrown? ==> r == if e.message != "" then e.message else DefaultDescription
    ensures e.Backend? && !TruthyOpt(ApiClient.ResponseData(e.failure)) ==>
      r == if ApiClient.Status(e.failure) in {Some(400), Some(401)} then InvalidCredentials
           else if ApiClient.Message(e.failure) != "" then ApiClient.Message(e.failure)
           else DefaultDescription
  {
    var data := if e.Backend? then ApiClient.ResponseData(e.failure) else None;
    var status := if e.Backend? then ApiClient.Status(e.failure) else None;
    var message := if e.Backend? then ApiClient.Message(e.failure) else e.message;
    if TruthyOpt(data) then
      match data.value
      case JStr(s) => s
      case JObj(_) | JArr(_) =>
        var chosen := Nullish(Get(data.value, "error"), Nullish(Get(data.value, "detail"),
                              Nullish(Get(data.value, "message"), Some(JStr(DefaultDescription)))));
        JsString(chosen.value)
      case _ => DefaultDescription
    else if status == Some(400) || status == Some(401) then InvalidCredentials
    else if message != "" then message
    else DefaultDescription
  }

  /** `error` wins over `detail`, which wins over `message`; `null` values are passed over. */
  lemma DescriptionPrecedence(e: HttpError, body: map<string, Json>)
    requires e.response.Some? && e.response.value.data == JObj(body)
    ensures "error" in body && body["error"] != JNull ==>
      Description(Backend(ApiClient.Rejected(e))) == JsString(body["error"])
    ensures ("error" !in body || body["error"] == JNull) && "detail" in body && body["detail"] != JNull ==>
      Description(Backend(ApiClient.Rejected(e))) == JsString(body["detail"])
    ensures (forall k :: k in {"error", "detail", "message"} ==> k !in body || body[k] == JNull) ==>
      Description(Backend(ApiClient.Rejected(e))) == DefaultDescription
  {
    assert ApiClient.ResponseData(ApiClient.Rejected(e)) == Some(JObj(body));
    assert Truthy(JObj(body));
    if forall k :: k in {"error", "detail", "message"} ==> k !in body || body[k] == JNull {
      assert "error" !in body || body["error"] == JNull;
      assert "detail" !in body || body["detail"] == JNull;
      assert "message" !in body || body["message"] == JNull;
    }
  }

  const LoginPath := "/auth/login"

  /** The body `{ email, password }` that `authAPI.login` posts. */
  function LoginBody(email: string, password: string): (r: Json)
    ensures Get(r, "email") == Some(JStr(email)) && Get(r, "password") == Some(JStr(password))
    ensures r.JObj? && r.fields.Keys == {"email", "password"}
  {
    JObj(map["email" := JStr(email), "password" := JStr(password)])
  }

  class LoginForm {
    const store: AppStore.AppStore
    /** The authenticated client the credentials are posted through. */
    const client: ApiClient.ApiClient
    var isLoading: bool
    /** Every `router.push` so far. */
    var routes: seq<string>
    /** The description of every toast so far. */
    var toasts: seq<string>

    constructor (store: AppStore.AppStore, client: ApiClient.ApiClient)
      ensures this.store == store && this.client == client && !isLoading && routes == [] && toasts == []
    {
      this.store := store;
      this.client := client;
      isLoading := false;
      routes := [];
      toasts := [];
    }

    /**
     * `handleSubmit()` with the form's `email` and `password`. `POST /auth/login` goes through the client (first answer `reply`, refresh answer
     * `refresh`, replay answer `replay`), so a 401 for a wrong password meets the response interceptor, which
     * may renew or remove the stored tokens and send the page to `/login`. Only an answer with a refresh token
     * reaches `setAuth` and the home page; every other outcome leaves the store alone and shows one error toast.
     */
    method HandleSubmit(email: string, password: string, reply: Result<Response, HttpError>,
                        refresh: Result<Response, HttpError>, replay: Result<Response, HttpError>)
      modifies this, store, client, client.browser
      ensures !isLoading
      ensures |client.bodies| > |old(client.bodies)| && client.bodies[|old(client.bodies)|] == Some(LoginBody(email, password))
      ensures client.browser.storage ==
        ApiClient.StorageAfter(old(client.browser.storage), client.browser.hasWindow, false, reply, refresh)
      ensures client.browser.navigations == old(client.browser.navigations) +
        ApiClient.NavigationsAfter(old(client.browser.storage), client.browser.hasWindow, false, reply, refresh)
      ensures var answer := ApiClient.Outcome(old(client.browser.storage), client.browser.hasWindow, false,
                                              reply, refresh, replay);
        (answer.Ok? && ReadCredentials(answer.value.data).Ok? ==>
          var c := ReadCredentials(answer.value.data).value;
          store.state == old(store.state).(token := TokenValue(c.accessToken), refreshToken := TokenValue(Some(c.refreshToken)),
                                           user := c.user, isAuthenticated := TokenValue(c.accessToken).Some? && TokenValue(c.accessToken).value != "") &&
          routes == old(routes) + ["/"] && toasts == old(toasts) + [SuccessToast]) &&
        (answer.Ok? && ReadCredentials(answer.value.data).Err? ==>
          store.state == old(store.state) && routes == old(routes) &&
          toasts == old(toasts) + [Description(Thrown(ReadCredentials(answer.value.data).error))]) &&
        (answer.Err? ==>
          store.state == old(store.state) && routes == old(routes) &&
          toasts == old(toasts) + [Description(Backend(answer.error))])
    {
      isLoading := true;
      var config := new RequestConfig(LoginPath, Some(JsonHeaders), Some(LoginBody(email, password)));
      var answer := client.Request(config, reply, refresh, replay);
      match answer {
        case Ok(response) =>
          var credentials := ReadCredentials(response.data);
          match credentials {
            case Ok(c) =>
              store.SetAuth(TokenValue(c.accessToken), TokenValue(Some(c.refreshToken)), c.user);
              toasts := toasts + [SuccessToast];
              routes := routes + ["/"];
            case Err(message) =>
              toasts := toasts + [Description(Thrown(message))];
          }
        case Err(f) =>
          toasts := toasts + [Description(Backend(f))];
      }
      isLoading := false;
    }
  }
}
