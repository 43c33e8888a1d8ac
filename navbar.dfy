/** The navigation bar (src/components/Navbar.tsx): its session observer,
    the logout sequence, the links it shows for each authentication state,
    and which link is active. */
module Navbar {
  import opened Types
  import opened Browser
  import Auth
  import opened Session

  const LOGIN_PATH: string := "/login"

  datatype Icon = NoIcon | UserPlusIcon | UsersIcon | LogInIcon | CustomIcon

  datatype NavLink = NavLink(href: string, caption: string, icon: Icon)

  const HOME: NavLink := NavLink("/", "Home", NoIcon)
  const REGISTER: NavLink := NavLink("/register", "Register", UserPlusIcon)
  const USERS: NavLink := NavLink("/users", "Users", UsersIcon)
  const LOGIN: NavLink := NavLink(LOGIN_PATH, "Login", LogInIcon)

  function Hrefs(links: seq<NavLink>): (hrefs: seq<string>)
    ensures |hrefs| == |links|
    ensures forall k | 0 <= k < |links| :: hrefs[k] == links[k].href
  {
    if links == [] then [] else [links[0].href] + Hrefs(links[1..])
  }

  /** Home, then Register when signed out, then Users when signed in or Login when signed out. */
  function DefaultLinks(isAuthenticated: bool): (links: seq<NavLink>)
    ensures |links| > 0 && links[0] == HOME
    ensures isAuthenticated ==> links == [HOME, USERS]
    ensures !isAuthenticated ==> links == [HOME, REGISTER, LOGIN]
    ensures isAuthenticated ==> Hrefs(links) == ["/", "/users"]
    ensures !isAuthenticated ==> Hrefs(links) == ["/", "/register", LOGIN_PATH]
  {
    [HOME]
    + (if !isAuthenticated then [REGISTER] else [])
    + (if isAuthenticated then [USERS] else [LOGIN])
  }

  /** `customLinks ?? defaultLinks`: custom links replace the defaults entirely. */
  function Links(customLinks: Option<seq<NavLink>>, isAuthenticated: bool): (links: seq<NavLink>)
    ensures customLinks.Some? ==> links == customLinks.value
    ensures customLinks.None? ==> links == DefaultLinks(isAuthenticated)
  {
    if customLinks.Some? then customLinks.value else DefaultLinks(isAuthenticated)
  }

  predicate IsActive(pathname: string, link: NavLink) {
    pathname == link.href
  }

  /** The default links have distinct targets, so at most one of them is active. */
  lemma AtMostOneDefaultActive(pathname: string, isAuthenticated: bool, i: nat, j: nat)
    requires i < |DefaultLinks(isAuthenticated)| && j < |DefaultLinks(isAuthenticated)|
    requires IsActive(pathname, DefaultLinks(isAuthenticated)[i]) && IsActive(pathname, DefaultLinks(isAuthenticated)[j])
    ensures i == j
  {
    var links := DefaultLinks(isAuthenticated);
    assert Hrefs(links)[i] == links[i].href && Hrefs(links)[j] == links[j].href;
  }

  class Component {
    const session: Observer
    const customLinks: Option<seq<NavLink>>

    constructor (customLinks: Option<seq<NavLink>>)
      ensures this.customLinks == customLinks
      ensures fresh(session) && !session.isAuthenticated
    {
      this.customLinks := customLinks;
      session := new Observer();
    }

    method Mount(w: Window)
      modifies session`isAuthenticated, w`listeners
      ensures session.isAuthenticated == Truthy(Auth.GetToken(w))
      ensures ShowsLogout() <==> Truthy(Auth.GetToken(w))
      ensures w.listeners == old(w.listeners) + Subscriptions(session)
    {
      session.Activate(w);
    }

    method Unmount(w: Window)
      modifies w`listeners
      ensures w.listeners == old(w.listeners) - Subscriptions(session)
    {
      session.Deactivate(w);
    }

    /** Clear the token, drop the flag, call `onLogout`, then push the login route. */
    method HandleLogout(w: Window)
      modifies session`isAuthenticated, w`storage, w`trace
      ensures !session.isAuthenticated && Auth.GetToken(w) == None
      ensures w.defined ==> w.storage == Auth.WithoutToken(old(w.storage))
      ensures w.trace == old(w.trace)
                         + (if w.defined then [Auth.Notification(w.storage)] else [])
                         + [Called(OnLogout), Navigated(Push, LOGIN_PATH)]
      ensures !ShowsLogout()
    {
      Auth.ClearToken(w);
      session.isAuthenticated := false;
      w.Call(OnLogout);
      w.Navigate(Push, LOGIN_PATH);
    }

    function VisibleLinks(): seq<NavLink>
      reads session
    {
      Links(customLinks, session.isAuthenticated)
    }

    /** Both logout controls are rendered only when signed in. */
    function ShowsLogout(): bool
      reads session
    {
      session.isAuthenticated
    }
  }

  /** With the default links, the logout controls appear exactly when the bar
      links to the users page, and never together with the login link. */
  lemma LogoutShownWithUsersLink(c: Component)
    requires c.customLinks.None?
    ensures c.ShowsLogout() <==> USERS in c.VisibleLinks()
    ensures c.ShowsLogout() <==> LOGIN !in c.VisibleLinks()
  {
    var links := c.VisibleLinks();
    if c.ShowsLogout() {
      assert links == [HOME, USERS];
    } else {
      assert links == [HOME, REGISTER, LOGIN];
    }
  }
}
