/** The protected directory page (src/app/users/page.tsx): a route guard
    that reads the token once per activation and either lets the list render
    or replaces the route with the login page. */
module UsersPage {
  import opened Types
  import opened Browser
  import Auth

  const LOGIN_PATH: string := "/login"

  datatype Guard = Checking | Authorized | Redirecting

  datatype PageView = CheckingAuthorization | Nothing | Directory

  /** The guard state the two flags encode. */
  function GuardOf(isChecking: bool, isAuthorized: bool): Guard {
    if isChecking then Checking else if isAuthorized then Authorized else Redirecting
  }

  /** `if (isChecking) …; if (!isAuthorized) return null; …` */
  function ViewOf(isChecking: bool, isAuthorized: bool): (v: PageView)
    ensures v == CheckingAuthorization <==> GuardOf(isChecking, isAuthorized) == Checking
    ensures v == Nothing <==> GuardOf(isChecking, isAuthorized) == Redirecting
    ensures v == Directory <==> GuardOf(isChecking, isAuthorized) == Authorized
  {
    if isChecking then CheckingAuthorization
    else if !isAuthorized then Nothing
    else Directory
  }

  class Component {
    var isAuthorized: bool
    var isChecking: bool

    constructor ()
      ensures isChecking && !isAuthorized
      ensures State() == Checking && View() == CheckingAuthorization
    {
      isAuthorized := false;
      isChecking := true;
    }

    function State(): Guard
      reads this
    {
      GuardOf(isChecking, isAuthorized)
    }

    function View(): PageView
      reads this
    {
      ViewOf(isChecking, isAuthorized)
    }

    /** The effect: one read of the token, then authorize or redirect. */
    method CheckAccess(w: Window)
      modifies this`isAuthorized, this`isChecking, w`trace
      ensures !isChecking
      ensures isAuthorized == (old(isAuthorized) || Truthy(Auth.GetToken(w)))
      ensures Truthy(Auth.GetToken(w)) ==> State() == Authorized && w.trace == old(w.trace)
      ensures !Truthy(Auth.GetToken(w)) ==> w.trace == old(w.trace) + [Navigated(Replace, LOGIN_PATH)]
      ensures !old(isAuthorized) ==> (State() == Authorized <==> Truthy(Auth.GetToken(w)))
    {
      var token := Auth.GetToken(w);
      if !Truthy(token) {
        isChecking := false;
        w.Navigate(Replace, LOGIN_PATH);
        return;
      }
      isAuthorized := true;
      isChecking := false;
    }
  }

  /** A fresh page activation ends in one of the two terminal states, and
      renders the list exactly when a token was found. */
  method Activate(w: Window) returns (page: Component)
    modifies w`trace
    ensures fresh(page)
    ensures page.State() == (if Truthy(Auth.GetToken(w)) then Authorized else Redirecting)
    ensures page.View() == (if Truthy(Auth.GetToken(w)) then Directory else Nothing)
    ensures w.trace == old(w.trace) + if Truthy(Auth.GetToken(w)) then [] else [Navigated(Replace, LOGIN_PATH)]
  {
    page := new Component();
    page.CheckAccess(w);
  }
}
