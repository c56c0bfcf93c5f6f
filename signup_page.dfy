/**
 * The sign-up page of app/signup/page.tsx: the form is posted through the authenticated client; a failure is
 * turned into one message shown on the page. The social buttons leave for the backend's OAuth endpoints. The
 * client's answer is an input; router pushes are recorded.
 */
module SignupPage {
  import opened Base
  import opened Strings
  import opened JsonValues
  import opened Http
  import opened BrowserState
  import AuthApi
  import ApiClient

  const DefaultMessage := "Signup failed. Please try again."
  const ConflictMessage := "An account with this email already exists."
  const SuccessPath := "/login?signup=success"

  /** The page's own table of OAuth endpoints. */
  function OAuthEndpoint(provider: AuthApi.Provider): string {
    match provider
    case Google => "http://localhost:8000/api/auth/oauth/login/google"
    case Github => "http://localhost:8000/api/auth/oauth/login/github"
  }

  /** The page's table agrees with `getOAuthUrl` of the auth API. */
  lemma OAuthEndpointAgrees(provider: AuthApi.Provider)
    ensures OAuthEndpoint(provider) == AuthApi.GetOAuthUrl(provider)
  {
    assert AuthApi.OAuthLoginPrefix + "google" == "http://localhost:8000/api/auth/oauth/login/google";
    assert AuthApi.OAuthLoginPrefix + "github" == "http://localhost:8000/api/auth/oauth/login/github";
  }

  /** The posted body: the name trimmed, the email trimmed and lower-cased, the password as typed. */
  function SignupBody(name: string, email: string, password: string): (r: Json)
    ensures Get(r, "name") == Some(JStr(Trim(name)))
    ensures Get(r, "email") == Some(JStr(Lower(Trim(email))))
    ensures Get(r, "password") == Some(JStr(password))
    ensures r.JObj? && r.fields.Keys == {"name", "email", "password"}
  {
    JObj(map["name" := JStr(Trim(name)), "email" := JStr(Lower(Trim(email))), "password" := JStr(password)])
  }

  /** An array element as `join` prints it: `null` and `undefined` print as nothing. */
  function JoinedText(o: Option<Json>): string {
    if o.None? || o.value == JNull then "" else JsString(o.value)
  }

  /** `err.msg || err.message` for one validation item, ready for `join`. */
  function ItemText(item: Json): string
    requires item != JNull
  {
    if TruthyOpt(Get(item, "msg")) then JsString(Get(item, "msg").value) else JoinedText(Get(item, "message"))
  }

  /**
   * `detail.map(err => err.msg || err.message).join(' ')`; `None` when an item is `null`, where reading `msg`
   * throws inside the error handler.
   */
  function DetailMessages(items: seq<Json>): (r: Option<string>)
    ensures r.None? <==> JNull in items
  {
    if JNull in items then None
    else Some(Join(seq(|items|, i requires 0 <= i < |items| => ItemText(items[i])), " "))
  }

  /** Items that each carry a non-empty `msg` give those messages, separated by spaces. */
  lemma ValidationMessagesJoined(msgs: seq<string>)
    requires forall i :: 0 <= i < |msgs| ==> msgs[i] != ""
    ensures DetailMessages(seq(|msgs|, i requires 0 <= i < |msgs| => JObj(map["msg" := JStr(msgs[i])]))) ==
      Some(Join(msgs, " "))
  {
    var items := seq(|msgs|, i requires 0 <= i < |msgs| => JObj(map["msg" := JStr(msgs[i])]));
    assert JNull !in items by {
      forall i | 0 <= i < |items| ensures items[i] != JNull { assert items[i].JObj?; }
    }
    var texts := seq(|items|, i requires 0 <= i < |items| => ItemText(items[i]));
    forall i | 0 <= i < |items| ensures texts[i] == msgs[i] {
      assert Get(items[i], "msg") == Some(JStr(msgs[i]));
    }
    assert texts == msgs;
  }

  /**
   * The message a failed sign-up shows; `None` when computing it throws. A 409 wins; a 400 uses its `detail`
   * (an array of validation items or a string); any other failure uses `detail`, then the error's own message.
   */
  function SignupErrorMessage(f: ApiClient.Failure): (r: Option<string>)
    ensures ApiClient.Status(f) == Some(409) ==> r == Some(ConflictMessage)
    ensures ApiClient.Status(f) == Some(400) ==>
      var detail := ApiClient.Detail(f);
      r == if detail.Some? && detail.value.JArr? then DetailMessages(detail.value.items)
           else if detail.Some? && detail.value.JStr? then Some(detail.value.s)
           else Some(DefaultMessage)
    ensures ApiClient.Status(f) != Some(409) && ApiClient.Status(f) != Some(400) ==>
      r == Some(ApiClient.ErrorText(f, DefaultMessage))
  {
    var status := ApiClient.Status(f);
    var detail := ApiClient.Detail(f);
    if status == Some(409) then Some(ConflictMessage)
    else if status == Some(400) then
      if detail.Some? && detail.value.JArr? then DetailMessages(detail.value.items)
      else if detail.Some? && detail.value.JStr? then Some(detail.value.s)
      else Some(DefaultMessage)
    else if TruthyOpt(detail) then Some(JsString(detail.value))
    else if ApiClient.Message(f) != "" then Some(ApiClient.Message(f))
    else Some(DefaultMessage)
  }

  /** A bad request with an empty, numeric or object `detail` falls back to the default message. */
  lemma BadRequestWithoutUsableDetail(e: HttpError)
    requires e.Status() == Some(400)
    requires var d := ApiClient.Detail(ApiClient.Rejected(e)); d.None? || !(d.value.JArr? || d.value.JStr?)
    ensures SignupErrorMessage(ApiClient.Rejected(e)) == Some(DefaultMessage)
  {
  }

  class SignupForm {
    const browser: Browser
    var isLoading: bool
    var isProcessingOAuth: bool
    var error: string
    /** Every `router.push` so far. */
    var routes: seq<string>

    constructor (browser: Browser)
      ensures this.browser == browser && !isLoading && !isProcessingOAuth && error == "" && routes == []
    {
      this.browser := browser;
      isLoading := false;
      isProcessingOAuth := false;
      error := "";
      routes := [];
    }

    /**
     * `handleSubmit()`, with the client's answer `reply`; the posted body is returned. Success goes to the login
     * page; a failure shows its message (and none when computing it throws). Loading ends either way.
     */
    method HandleSubmit(name: string, email: string, password: string, reply: Result<Response, ApiClient.Failure>)
      returns (body: Json)
      modifies this
      ensures body == SignupBody(name, email, password)
      ensures !isLoading && isProcessingOAuth == old(isProcessingOAuth)
      ensures reply.Ok? ==> routes == old(routes) + [SuccessPath] && error == ""
      ensures reply.Err? ==>
        routes == old(routes) &&
        error == (if SignupErrorMessage(reply.error).Some? then SignupErrorMessage(reply.error).value else "")
    {
      isLoading := true;
      error := "";
      body := SignupBody(name, email, password);
      match reply {
        case Ok(_) =>
          routes := routes + [SuccessPath];
        case Err(f) =>
          var message := SignupErrorMessage(f);
          if message.Some? {
            error := message.value;
          }
      }
      isLoading := false;
    }

    /** `handleSocialSignUp(provider)`: the window leaves for the provider's endpoint. */
    method HandleSocialSignUp(provider: AuthApi.Provider)
      modifies this, browser
      ensures isProcessingOAuth && error == "" && isLoading == old(isLoading) && routes == old(routes)
      ensures browser.navigations == old(browser.navigations) + [AuthApi.GetOAuthUrl(provider)]
      ensures browser.storage == old(browser.storage)
    {
      isProcessingOAuth := true;
      error := "";
      OAuthEndpointAgrees(provider);
      browser.Navigate(OAuthEndpoint(provider));
    }
  }
}
