/**
 * The page frame of components/LayoutWrapper.tsx: the sign-in pages are shown full screen; every other page
 * gets the sidebar (desktop, collapsible; mobile, in a sheet) and the breadcrumb.
 */
module LayoutWrapper {
  import opened Base
  import opened Strings

  const AuthPages: seq<string> := ["/login", "/signup", "/oauth/callback"]

  /** `pathname && AUTH_PAGES.some(page => pathname.startsWith(page))`: a purely textual prefix test. */
  predicate IsAuthPage(pathname: Option<string>) {
    pathname.Some? && pathname.value != "" && exists i :: 0 <= i < |AuthPages| && StartsWith(pathname.value, AuthPages[i])
  }

  /** The test is on text, not on path segments: `/login-help` is a sign-in page, `/` and no pathname are not. */
  lemma AuthPageExamples()
    ensures IsAuthPage(Some("/login-help"))
    ensures IsAuthPage(Some("/oauth/callback?code=1"))
    ensures !IsAuthPage(Some("/"))
    ensures !IsAuthPage(Some("/documents/login"))
    ensures !IsAuthPage(None)
  {
    assert StartsWith("/login-help", AuthPages[0]);
    assert StartsWith("/oauth/callback?code=1", AuthPages[2]);
    assert AuthPages[0][1] == 'l' && AuthPages[1][1] == 's' && AuthPages[2][1] == 'o';
    assert "/documents/login"[1] == 'd';
  }

  /** Every path under a sign-in page is itself a sign-in page. */
  lemma AuthPagesClosedUnderExtension(pathname: string, more: string)
    requires IsAuthPage(Some(pathname))
    ensures IsAuthPage(Some(pathname + more))
  {
    var i :| 0 <= i < |AuthPages| && StartsWith(pathname, AuthPages[i]);
    assert AuthPages[i] <= pathname + more;
  }

  class Layout {
    /** Whether the mobile sheet is open. */
    var open: bool
    /** Whether the desktop sidebar is shown. */
    var desktopOpen: bool

    constructor ()
      ensures !open && desktopOpen
    {
      open := false;
      desktopOpen := true;
    }

    /** Whether the desktop sidebar is rendered on `pathname`. */
    function ShowsDesktopSidebar(pathname: Option<string>): (shown: bool)
      reads this
      ensures IsAuthPage(pathname) ==> !shown
      ensures !IsAuthPage(pathname) ==> (shown <==> desktopOpen)
    {
      !IsAuthPage(pathname) && desktopOpen
    }

    /** The collapse/expand button. */
    method ToggleDesktop()
      modifies this
      ensures desktopOpen == !old(desktopOpen) && open == old(open)
    {
      desktopOpen := !desktopOpen;
    }

    /** The sheet's `onOpenChange`. */
    method SetOpen(value: bool)
      modifies this
      ensures open == value && desktopOpen == old(desktopOpen)
    {
      open := value;
    }

    /** Following a link in the mobile sheet closes it. */
    method OnNavigate()
      modifies this
      ensures !open && desktopOpen == old(desktopOpen)
    {
      open := false;
    }
  }
}
