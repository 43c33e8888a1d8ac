/** The user directory (src/components/UserList.tsx): fetching the users,
    handling the outcome (401 redirect, error message, success), and the
    choice of what to render. `Fetch` is the part of `fetchUsers` before the
    `await`, `Resolve` the part after it. */
module UserList {
  import opened Types
  import opened Browser
  import Auth
  import opened AuthService

  const FALLBACK_MESSAGE: string := "Failed to fetch users"
  const LOGIN_PATH: string := "/login"
  const UNAUTHORIZED: int := 401

  /** The four mutually exclusive renderings. */
  datatype Screen =
    | LoadingCard
    | ErrorCard(message: string)
    | EmptyCard
    | UserTable(count: nat, rows: seq<User>)

  /** Loading first, then an error, then the empty state, then the list. */
  function ScreenFor(loading: bool, error: string, users: seq<User>): (s: Screen)
    ensures s.LoadingCard? <==> loading
    ensures s.ErrorCard? <==> !loading && error != ""
    ensures s.ErrorCard? ==> s.message == error
    ensures s.EmptyCard? <==> !loading && error == "" && users == []
    ensures s.UserTable? <==> !loading && error == "" && users != []
    ensures s.UserTable? ==> s.rows == users && s.count == |users|
  {
    if loading then LoadingCard
    else if error != "" then ErrorCard(error)
    else if |users| == 0 then EmptyCard
    else UserTable(|users|, users)
  }

  /** `err?.response?.status === 401` on what the service threw. */
  predicate Unauthorized(t: Thrown) {
    ResponseStatus(t) == Some(UNAUTHORIZED)
  }

  class Component {
    var users: seq<User>
    var loading: bool
    var error: string

    /** Mounting starts exactly one fetch. */
    constructor Mount(w: Window)
      modifies w`trace
      ensures users == [] && loading && error == ""
      ensures w.trace == old(w.trace) + [Sent(UsersRequest(Auth.GetToken(w)))]
    {
      users := [];
      loading := true;
      error := "";
      new;
      Fetch(w);
    }

    /** Start of `fetchUsers` (also run by the Try Again and Refresh buttons). */
    method Fetch(w: Window)
      modifies this`loading, this`error, w`trace
      ensures loading && error == ""
      ensures w.trace == old(w.trace) + [Sent(UsersRequest(Auth.GetToken(w)))]
    {
      loading := true;
      error := "";
      w.Send(UsersRequest(Auth.GetToken(w)));
    }

    /** What runs once `authService.getAllUsers` settles with the given HTTP outcome. */
    method Resolve(w: Window, outcome: HttpOutcome<seq<User>>)
      modifies this`users, this`loading, this`error, w`storage, w`trace
      ensures !loading
      ensures outcome.Delivered? && outcome.body.success && outcome.body.data.Some? ==>
        && users == outcome.body.data.value && error == old(error)
        && w.storage == old(w.storage)
        && w.trace == old(w.trace) + [Called(OnUsersFetched(users))]
      ensures outcome.Delivered? && !(outcome.body.success && outcome.body.data.Some?) ==>
        users == old(users) && error == old(error) && w.storage == old(w.storage) && w.trace == old(w.trace)
      ensures outcome.Failed? && Unauthorized(Normalize(ListUsersOp, outcome.error)) ==>
        && users == old(users) && error == old(error)
        && (w.defined ==> w.storage == Auth.WithoutToken(old(w.storage)))
        && Auth.GetToken(w) == None
        && w.trace == old(w.trace)
                      + (if w.defined then [Auth.Notification(w.storage)] else [])
                      + [Navigated(Replace, LOGIN_PATH)]
      ensures outcome.Failed? && !Unauthorized(Normalize(ListUsersOp, outcome.error)) ==>
        var message := MessageOr(Normalize(ListUsersOp, outcome.error), FALLBACK_MESSAGE);
        && users == old(users) && error == message && w.storage == old(w.storage)
        && w.trace == old(w.trace) + [Called(OnError(message))]
    {
      match Settle(ListUsersOp, outcome) {
        case Resolved(response) =>
          if response.success && response.data.Some? {
            users := response.data.value;
            w.Call(OnUsersFetched(response.data.value));
          }
        case Rejected(err) =>
          if Unauthorized(err) {
            Auth.ClearToken(w);
            w.Navigate(Replace, LOGIN_PATH);
            loading := false;
            return;
          }
          var message := MessageOr(err, FALLBACK_MESSAGE);
          error := message;
          w.Call(OnError(message));
      }
      loading := false;
    }

    function View(): (s: Screen)
      reads this
    {
      ScreenFor(loading, error, users)
    }
  }
}
