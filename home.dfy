/** The home page (src/app/page.tsx): its own session observer and the
    authentication-dependent call-to-action buttons. */
module Home {
  import opened Types
  import opened Browser
  import Auth
  import opened Session
  import Navbar

  datatype Variant = Primary | Outline

  /** Whether Register User is shown, and the variant of View Users (always shown). */
  datatype HeroButtons = HeroButtons(showRegister: bool, viewUsers: Variant)

  function ButtonsFor(isAuthenticated: bool): (b: HeroButtons)
    ensures b.showRegister <==> !isAuthenticated
    ensures b.viewUsers == Primary <==> isAuthenticated
  {
    HeroButtons(!isAuthenticated, if isAuthenticated then Primary else Outline)
  }

  /** With the same token, the home page offers registration exactly when the
      navigation bar's default links do, and highlights the directory exactly
      when the bar links to it. */
  lemma AgreesWithNavbar(isAuthenticated: bool)
    ensures ButtonsFor(isAuthenticated).showRegister <==> "/register" in Navbar.Hrefs(Navbar.DefaultLinks(isAuthenticated))
    ensures ButtonsFor(isAuthenticated).viewUsers == Primary <==> "/users" in Navbar.Hrefs(Navbar.DefaultLinks(isAuthenticated))
  {
    var hrefs := Navbar.Hrefs(Navbar.DefaultLinks(isAuthenticated));
    if isAuthenticated {
      assert hrefs == ["/", "/users"];
      assert "/users" in hrefs;
    } else {
      assert hrefs == ["/", "/register", "/login"];
      assert "/register" in hrefs;
    }
  }

  class Component {
    const session: Observer

    constructor ()
      ensures fresh(session) && !session.isAuthenticated
      ensures Buttons() == HeroButtons(true, Outline)
    {
      session := new Observer();
    }

    method Mount(w: Window)
      modifies session`isAuthenticated, w`listeners
      ensures session.isAuthenticated == Truthy(Auth.GetToken(w))
      ensures w.listeners == old(w.listeners) + Subscriptions(session)
    {
      session.Activate(w);
    }

    method Unmount(w: Window)
      modifies w`listeners
      ensures w.listeners == old(w.listeners) - Subscriptions(session)
    {
      session.Deactivate(w);
    }

    function Buttons(): HeroButtons
      reads session
    {
      ButtonsFor(session.isAuthenticated)
    }
  }
}
