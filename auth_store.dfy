/**
 * The zustand auth store of lib/auth-store.ts: the access token in memory, the refresh token and user, and the
 * copy of a refresh token it writes to `localStorage`. `localStorage` failures (no window) are swallowed: the
 * in-memory fields change either way.
 */
module AuthStore {
  import opened Base
  import opened Types
  import opened BrowserState

  /** What `persist` writes under `auth-storage` (its `partialize`): never the access token. */
  datatype Snapshot = Snapshot(refreshToken: Option<string>, user: Option<User>)

  class AuthStore {
    const browser: Browser
    var token: Option<string>
    var refreshToken: Option<string>
    var user: Option<User>

    constructor (browser: Browser)
      ensures this.browser == browser && token.None? && refreshToken.None? && user.None?
    {
      this.browser := browser;
      token := None;
      refreshToken := None;
      user := None;
    }

    /** `isAuthenticated()`: `!!token`. */
    function IsAuthenticated(): (signedIn: bool)
      reads this
      ensures signedIn <==> token.Some? && token.value != ""
    {
      Present(token)
    }

    /** `partialize`. */
    function Persisted(): (r: Snapshot)
      reads this
      ensures r.refreshToken == refreshToken && r.user == user
    {
      Snapshot(refreshToken, user)
    }

    /**
     * `setAuth(accessToken, user, refreshToken)`; an omitted or `null` refresh token is `None`. The refresh token is
     * copied to `localStorage` only when it is non-empty, and an existing copy is never removed here.
     */
    method SetAuth(accessToken: string, newUser: User, newRefreshToken: Option<string>)
      modifies this, browser
      ensures token == Some(accessToken) && user == Some(newUser) && refreshToken == newRefreshToken
      ensures IsAuthenticated() <==> accessToken != ""
      ensures browser.storage ==
        if Present(newRefreshToken) && browser.hasWindow then old(browser.storage)[RefreshTokenKey := newRefreshToken.value]
        else old(browser.storage)
      ensures RefreshTokenKey in old(browser.storage) ==> RefreshTokenKey in browser.storage
      ensures browser.navigations == old(browser.navigations)
    {
      token := Some(accessToken);
      user := Some(newUser);
      refreshToken := newRefreshToken;
      if Present(newRefreshToken) && browser.hasWindow {
        browser.SetItem(RefreshTokenKey, newRefreshToken.value);
      }
    }

    /** `setAccessToken(accessToken)`: only the in-memory token changes, so the persisted snapshot does not. */
    method SetAccessToken(accessToken: Option<string>)
      modifies this
      ensures token == accessToken
      ensures refreshToken == old(refreshToken) && user == old(user)
      ensures Persisted() == old(Persisted())
    {
      token := accessToken;
    }

    /** `clearAuth()`: every field becomes `null` and the stored refresh token is removed. */
    method ClearAuth()
      modifies this, browser
      ensures token.None? && refreshToken.None? && user.None?
      ensures !IsAuthenticated()
      ensures browser.storage == if browser.hasWindow then old(browser.storage) - {RefreshTokenKey} else old(browser.storage)
      ensures browser.hasWindow ==> RefreshTokenKey !in browser.storage
      ensures browser.navigations == old(browser.navigations)
    {
      token := None;
      refreshToken := None;
      user := None;
      if browser.hasWindow {
        browser.RemoveItem(RefreshTokenKey);
      }
    }
  }
}
