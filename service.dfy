/** The request service (src/services/auth.service.ts): the three calls
    `register`, `login` and `getAllUsers`, the bearer header, and the
    classification each catch block applies to the error the HTTP client
    throws. The error object, inspected dynamically in the source, is a
    closed record here. */
module AuthService {
  import opened Types
  import opened Browser

  const CONNECT_MESSAGE: string := "Cannot connect to server. Please ensure the backend is running."
  const NETWORK_ERROR: string := "Network Error"
  const ECONNREFUSED: string := "ECONNREFUSED"

  datatype Operation = RegisterOp | LoginOp | ListUsersOp

  /** The operation-specific fallback message. */
  function DefaultMessage(op: Operation): string {
    match op
    case RegisterOp => "Registration failed. Please try again later."
    case LoginOp => "Login failed. Please check your credentials and try again."
    case ListUsersOp => "Failed to fetch users. Please try again later."
  }

  /** `error.response`: the HTTP status and `data.message` ("" when absent or empty). */
  datatype ErrorResponse = ErrorResponse(status: int, message: string)

  /** What the HTTP client throws: an optional response, `error.code` and
      `error.message` ("" when absent). */
  datatype Caught = Caught(response: Option<ErrorResponse>, code: string, message: string)

  /** What the service throws: the original error, or a fresh `Error` with a
      message and no `response`. */
  datatype Thrown = Rethrown(original: Caught) | Plain(message: string)

  /** The result of one HTTP exchange: a 2xx body, or a thrown error. */
  datatype HttpOutcome<T> = Delivered(body: ApiResponse<T>) | Failed(error: Caught)

  /** The settled promise a service call returns. */
  datatype Settled<T> = Resolved(value: ApiResponse<T>) | Rejected(reason: Thrown)

  /** `error?.response?.data?.message`, "" when any link is missing. */
  function ServerMessage(e: Caught): string {
    if e.response.Some? then e.response.value.message else ""
  }

  /** `s.includes(part)` */
  predicate Contains(s: string, part: string)
    decreases |s|
  {
    (|part| <= |s| && s[..|part|] == part) || (|s| > 0 && Contains(s[1..], part))
  }

  lemma {:induction false} ContainsAt(s: string, part: string, i: nat)
    requires i + |part| <= |s| && s[i..i + |part|] == part
    ensures Contains(s, part)
    decreases i
  {
    if i > 0 {
      assert s[1..][i - 1..i - 1 + |part|] == s[i..i + |part|];
      ContainsAt(s[1..], part, i - 1);
    }
  }

  /** `error?.code === 'ECONNREFUSED' || error?.message?.includes('Network Error')` */
  predicate IsConnectivity(e: Caught) {
    e.code == ECONNREFUSED || Contains(e.message, NETWORK_ERROR)
  }

  /** The catch block shared by the three operations, as written: the
      `response.data.message ||` operand of the last throw is kept. */
  function Normalize(op: Operation, e: Caught): (t: Thrown)
    ensures t.Rethrown? <==> ServerMessage(e) != ""
    ensures t.Rethrown? ==> t.original == e
    ensures t == Plain(CONNECT_MESSAGE) <==> ServerMessage(e) == "" && IsConnectivity(e)
    ensures t.Plain? && !IsConnectivity(e) ==> t.message == DefaultMessage(op)
  {
    if ServerMessage(e) != "" then Rethrown(e)
    else if IsConnectivity(e) then Plain(CONNECT_MESSAGE)
    else Plain(if ServerMessage(e) != "" then ServerMessage(e) else DefaultMessage(op))
  }

  /** The three operations differ only in the fallback: the server message and
      connectivity decisions, and the connectivity text, do not depend on the operation. */
  lemma ClassificationIgnoresOperation(e: Caught, op1: Operation, op2: Operation)
    ensures Normalize(op1, e).Rethrown? == Normalize(op2, e).Rethrown?
    ensures IsConnectivity(e) ==> Normalize(op1, e) == Normalize(op2, e)
    ensures op1 != op2 && !IsConnectivity(e) && ServerMessage(e) == "" ==> Normalize(op1, e) != Normalize(op2, e)
  {
  }

  /** First match wins: a server message beats a refused connection. */
  lemma ServerMessageBeatsConnectivity(op: Operation, status: int, message: string, errorMessage: string)
    requires message != ""
    ensures Normalize(op, Caught(Some(ErrorResponse(status, message)), ECONNREFUSED, errorMessage)).Rethrown?
  {
  }

  /** A plain "Network Error" from the client becomes the fixed connectivity text. */
  lemma NetworkErrorIsConnectivity(op: Operation)
    ensures Normalize(op, Caught(None, "ERR_NETWORK", NETWORK_ERROR)) == Plain(CONNECT_MESSAGE)
  {
    ContainsAt(NETWORK_ERROR, NETWORK_ERROR, 0);
  }

  // What callers can read back from the thrown value.

  /** `err?.response?.data?.message` on the thrown value. */
  function ResponseMessage(t: Thrown): string {
    match t
    case Rethrown(e) => ServerMessage(e)
    case Plain(_) => ""
  }

  /** `err?.response?.status` on the thrown value. */
  function ResponseStatus(t: Thrown): Option<int> {
    match t
    case Rethrown(e) => if e.response.Some? then Some(e.response.value.status) else None
    case Plain(_) => None
  }

  /** `err?.response?.data?.message || fallback`, as the forms and the list display it. */
  function MessageOr(t: Thrown, fallback: string): string {
    if ResponseMessage(t) != "" then ResponseMessage(t) else fallback
  }

  /** The status reaches the caller only together with a server message; the
      status of a message-less error response is lost. */
  lemma StatusSurvivesOnlyWithMessage(op: Operation, e: Caught)
    ensures ResponseStatus(Normalize(op, e)).Some? <==> ServerMessage(e) != ""
    ensures ServerMessage(e) != "" ==> ResponseStatus(Normalize(op, e)) == Some(e.response.value.status)
    ensures ResponseMessage(Normalize(op, e)) == ServerMessage(e)
  {
  }

  /** A service call: the body of a 2xx response is returned unchanged; a
      failure is rejected with the normalized error. */
  function Settle<T>(op: Operation, outcome: HttpOutcome<T>): (r: Settled<T>)
    ensures r.Resolved? <==> outcome.Delivered?
    ensures r.Resolved? ==> r.value == outcome.body
    ensures r.Rejected? ==> r.reason == Normalize(op, outcome.error)
  {
    match outcome
    case Delivered(body) => Resolved(body)
    case Failed(e) => Rejected(Normalize(op, e))
  }

  // Requests.

  const BEARER_PREFIX: string := "Bearer "
  const AUTHORIZATION: string := "Authorization"

  /** `headers: token ? { Authorization: `Bearer ${token}` } : undefined` */
  function BearerHeaders(token: Option<string>): (h: Option<map<string, string>>)
    ensures h.Some? <==> Truthy(token)
    ensures h.Some? ==> h.value.Keys == {AUTHORIZATION}
  {
    if Truthy(token) then Some(map[AUTHORIZATION := BEARER_PREFIX + token.value]) else None
  }

  /** How the server reads the credential back out of the headers. */
  function BearerToken(h: Option<map<string, string>>): Option<string> {
    if h.Some? && AUTHORIZATION in h.value && BEARER_PREFIX <= h.value[AUTHORIZATION]
    then Some(h.value[AUTHORIZATION][|BEARER_PREFIX|..])
    else None
  }

  /** The header carries exactly the stored token, and nothing is sent without one. */
  lemma BearerRoundTrip(token: Option<string>)
    ensures Truthy(token) ==> BearerToken(BearerHeaders(token)) == token
    ensures !Truthy(token) ==> BearerToken(BearerHeaders(token)) == None
  {
    if Truthy(token) {
      var v := BEARER_PREFIX + token.value;
      assert BEARER_PREFIX <= v;
      assert v[|BEARER_PREFIX|..] == token.value;
    }
  }

  function RegisterRequest(payload: RegisterUserDto): Request {
    Request(Post, "/auth/register", RegisterBody(payload), None)
  }

  function LoginRequest(payload: LoginDto): Request {
    Request(Post, "/auth/login", LoginBody(payload), None)
  }

  /** `getAllUsers` reads the token when it is called and attaches it as a bearer header. */
  function UsersRequest(token: Option<string>): (r: Request)
    ensures r.verb == Get && r.path == "/auth/users" && r.body == NoBody
    ensures r.headers == BearerHeaders(token)
    ensures r.headers.None? <==> !Truthy(token)
    ensures BearerToken(r.headers) == (if Truthy(token) then token else None)
  {
    BearerRoundTrip(token);
    Request(Get, "/auth/users", NoBody, BearerHeaders(token))
  }
}
