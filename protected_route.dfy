/**
 * The route guard of components/ProtectedRoute.tsx: while the auth state is loading, or nobody is signed in, a
 * loader is shown; once loading is over without a user, the page goes to the login page and asks to come back.
 * `encodeURIComponent` is abstract: it is a parameter.
 */
module ProtectedRoute {
  import opened Base
  import opened BrowserState

  const LoginPath := "/login"
  const RedirectPrefix := "/login?redirect="

  /** Where the guard sends the user from `currentPath` (the path and query string). */
  function RedirectTarget(currentPath: string, encode: string -> string): (r: string)
    ensures LoginPath <= r
    ensures r == LoginPath <==> currentPath == LoginPath
    ensures currentPath != LoginPath ==> r == RedirectPrefix + encode(currentPath)
  {
    if currentPath != LoginPath then RedirectPrefix + encode(currentPath) else LoginPath
  }

  /** The guard redirects once loading is over without a user. */
  predicate Redirects(isAuthenticated: bool, loading: bool) {
    !loading && !isAuthenticated
  }

  /** It shows its children only once loading is over with a user. */
  predicate ShowsChildren(isAuthenticated: bool, loading: bool) {
    !loading && isAuthenticated
  }

  /** The guard's effect: at most one navigation, and that one to `RedirectTarget`. */
  method GuardEffect(browser: Browser, isAuthenticated: bool, loading: bool, pathname: string, search: string,
                     encode: string -> string)
    modifies browser
    ensures browser.navigations ==
      old(browser.navigations) +
      (if Redirects(isAuthenticated, loading) then [RedirectTarget(pathname + search, encode)] else [])
    ensures browser.storage == old(browser.storage)
  {
    if !loading && !isAuthenticated {
      var currentPath := pathname + search;
      if currentPath != LoginPath {
        browser.Navigate(RedirectPrefix + encode(currentPath));
      } else {
        browser.Navigate(LoginPath);
      }
    }
  }
}
