/** How the pieces combine: what the error normaliser's output becomes on the
    screens that consume it, and four end-to-end runs of the client
    (a rejected login form, a granted login seen by a mounted observer, an
    expired session on the users list, and an unreachable backend). */
module Flows {
  import opened Types
  import opened Browser
  import opened Validation
  import opened AuthService
  import Auth
  import Session
  import LoginForm
  import UserList
  import UsersPage

  /** Every screen shows `err?.response?.data?.message || fallback`; through
      the normaliser that is the server's message when there is one, and the
      screen's own fallback otherwise, whatever the operation. */
  lemma ShownMessage(op: Operation, e: Caught, fallback: string)
    ensures MessageOr(Normalize(op, e), fallback) == if ServerMessage(e) != "" then ServerMessage(e) else fallback
  {
    StatusSurvivesOnlyWithMessage(op, e);
  }

  /** The friendly connectivity text built by the normaliser reaches no screen
      unless the server itself sent that text: the login form, the
      registration form and the users list all show their own fallback. */
  lemma ConnectivityTextNeverShown(op: Operation, e: Caught, fallback: string)
    requires fallback != CONNECT_MESSAGE
    ensures MessageOr(Normalize(op, e), fallback) == CONNECT_MESSAGE <==> ServerMessage(e) == CONNECT_MESSAGE
  {
    ShownMessage(op, e, fallback);
  }

  /** The users list leaves for the login page exactly when the error carried
      both a 401 status and a non-empty server message; a bare 401 ends on the
      error card instead. */
  lemma UnauthorizedNeedsServerMessage(e: Caught)
    ensures UserList.Unauthorized(Normalize(ListUsersOp, e)) <==>
      ServerMessage(e) != "" && e.response.Some? && e.response.value.status == UserList.UNAUTHORIZED
  {
    StatusSurvivesOnlyWithMessage(ListUsersOp, e);
    if ServerMessage(e) != "" {
      assert e.response.Some?;
    }
  }

  /** Rejected login: a well-formed email with a five-character password is stopped
      by the form; the password error is shown and nothing is sent. */
  method RejectedLoginForm() returns (sent: bool, passwordError: Option<string>, effects: seq<Effect>)
    ensures !sent
    ensures passwordError == Some(PASSWORD_SHORT)
    ensures effects == []
  {
    var w := new Window(true, false, map[]);
    var form := new LoginForm.Component();
    form.HandleChange(LoginForm.Email, "jane@x.com");
    form.HandleChange(LoginForm.Password, "short");
    assert form.formData.password == "short";
    assert Utf16Length("short") == 5;
    sent := form.Submit(w);
    passwordError := if LoginForm.Password in form.errors then Some(form.errors[LoginForm.Password]) else None;
    effects := w.trace;
  }

  /** Granted login: the navigation bar's observer is mounted while signed out;
      the login response grants "tok1", the token is stored, the notification
      reaches the observer, which now reports signed in without any request,
      and the users page then lets the visitor through. */
  method GrantedLogin(user: User) returns (token: Option<string>, signedIn: bool, view: UsersPage.PageView, effects: seq<Effect>)
    ensures token == Some("tok1")
    ensures signedIn
    ensures view == UsersPage.Directory
    ensures forall k | 0 <= k < |effects| :: !effects[k].Sent?
    ensures effects == [Auth.Notification(map[Auth.TOKEN_KEY := "tok1"]), Navigated(Replace, LoginForm.AFTER_LOGIN)]
  {
    var w := new Window(true, false, map[]);
    var observer := new Session.Observer();
    observer.Activate(w);
    var form := new LoginForm.Component();
    var granted := ApiResponse(true, "Login successful", Some(LoginResponse("tok1", user)), None);
    form.Resolve(w, Delivered(granted));
    assert w.storage == map[Auth.TOKEN_KEY := "tok1"];
    Session.Deliver(w, Auth.AUTH_EVENT_NAME, {observer});
    token := Auth.GetToken(w);
    signedIn := observer.isAuthenticated;
    var page := UsersPage.Activate(w);
    view := page.View();
    effects := w.trace;
  }

  /** Expired session: the users list is rejected with 401 and a server message; the
      token is cleared, the visitor is sent to the login page, and no error
      card is shown. */
  method ExpiredSession() returns (token: Option<string>, screen: UserList.Screen, effects: seq<Effect>)
    ensures token == None
    ensures !screen.ErrorCard?
    ensures |effects| == 3
    ensures effects[0] == Sent(UsersRequest(Some("tok1")))
    ensures effects[1] == Auth.Notification(map[])
    ensures effects[2] == Navigated(Replace, UserList.LOGIN_PATH)
  {
    var w := new Window(true, false, map[Auth.TOKEN_KEY := "tok1"]);
    var list := new UserList.Component.Mount(w);
    var e := Caught(Some(ErrorResponse(401, "Unauthorized")), "ERR_BAD_REQUEST", "Request failed with status code 401");
    UnauthorizedNeedsServerMessage(e);
    list.Resolve(w, Failed(e));
    assert w.storage == map[];
    token := Auth.GetToken(w);
    screen := list.View();
    effects := w.trace;
  }

  /** Unreachable backend: the list shows its own fallback
      (not the connectivity text), reports it, and the retry button sends the
      same request again. */
  method UnreachableBackend() returns (screen: UserList.Screen, effects: seq<Effect>)
    ensures screen == UserList.ErrorCard(UserList.FALLBACK_MESSAGE)
    ensures |effects| == 3
    ensures effects[0] == effects[2] == Sent(UsersRequest(Some("tok1")))
    ensures effects[1] == Called(OnError(UserList.FALLBACK_MESSAGE))
  {
    var w := new Window(true, false, map[Auth.TOKEN_KEY := "tok1"]);
    var list := new UserList.Component.Mount(w);
    var e := Caught(None, "ERR_NETWORK", NETWORK_ERROR);
    NetworkErrorIsConnectivity(ListUsersOp);
    UnauthorizedNeedsServerMessage(e);
    ShownMessage(ListUsersOp, e, UserList.FALLBACK_MESSAGE);
    list.Resolve(w, Failed(e));
    screen := list.View();
    list.Fetch(w);
    effects := w.trace;
  }
}
