/** The token store (src/lib/auth.ts): one bearer token kept in
    `localStorage` under a fixed key; every write or removal is followed by
    one in-tab `auth-token-change` event. Without a `window` every operation
    does nothing. */
module Auth {
  import opened Types
  import opened Browser

  const TOKEN_KEY: string := "task-assessment-token"
  const AUTH_EVENT_NAME: string := "auth-token-change"

  // The storage-level meaning of the three operations.

  /** What `localStorage.getItem(TOKEN_KEY)` yields for a storage content. */
  function TokenIn(storage: map<string, string>): Option<string> {
    if TOKEN_KEY in storage then Some(storage[TOKEN_KEY]) else None
  }

  /** Keys other than the token key keep their entries. */
  ghost predicate SameOtherEntries(s: map<string, string>, t: map<string, string>) {
    forall k | k != TOKEN_KEY :: (k in s <==> k in t) && (k in s ==> s[k] == t[k])
  }

  function WithToken(storage: map<string, string>, token: string): (s: map<string, string>)
    ensures TokenIn(s) == Some(token)
    ensures SameOtherEntries(s, storage)
  {
    storage[TOKEN_KEY := token]
  }

  function WithoutToken(storage: map<string, string>): (s: map<string, string>)
    ensures TokenIn(s) == None
    ensures SameOtherEntries(s, storage)
  {
    storage - {TOKEN_KEY}
  }

  /** A second write replaces the first: there is only ever one token. */
  lemma SecondWriteReplaces(storage: map<string, string>, first: string, second: string)
    ensures WithToken(WithToken(storage, first), second) == WithToken(storage, second)
  {
  }

  /** Clearing twice is clearing once. */
  lemma ClearIdempotent(storage: map<string, string>)
    ensures WithoutToken(WithoutToken(storage)) == WithoutToken(storage)
  {
  }

  // The operations on the window.

  function GetToken(w: Window): (t: Option<string>)
    reads w`storage
    ensures !w.defined ==> t == None
    ensures w.defined ==> t == TokenIn(w.storage)
  {
    if !w.defined then None else w.GetItem(TOKEN_KEY)
  }

  /** The event that follows a mutation, carrying the storage its listeners read. */
  function Notification(storage: map<string, string>): Effect {
    Dispatched(AUTH_EVENT_NAME, storage)
  }

  method NotifyAuthChange(w: Window)
    modifies w`trace
    ensures w.trace == old(w.trace) + if w.defined then [Notification(w.storage)] else []
  {
    if !w.defined {
      return;
    }
    w.DispatchEvent(AUTH_EVENT_NAME);
  }

  method SetToken(w: Window, token: string)
    modifies w`storage, w`trace
    ensures w.defined ==> w.storage == WithToken(old(w.storage), token)
    ensures w.defined ==> w.trace == old(w.trace) + [Notification(w.storage)]
    ensures w.defined ==> GetToken(w) == Some(token)
    ensures !w.defined ==> w.storage == old(w.storage) && w.trace == old(w.trace)
  {
    if !w.defined {
      return;
    }
    w.SetItem(TOKEN_KEY, token);
    NotifyAuthChange(w);
  }

  method ClearToken(w: Window)
    modifies w`storage, w`trace
    ensures w.defined ==> w.storage == WithoutToken(old(w.storage))
    ensures w.defined ==> w.trace == old(w.trace) + [Notification(w.storage)]
    ensures GetToken(w) == None
    ensures !w.defined ==> w.storage == old(w.storage) && w.trace == old(w.trace)
  {
    if !w.defined {
      return;
    }
    w.RemoveItem(TOKEN_KEY);
    NotifyAuthChange(w);
  }

  // Sequences of mutations.

  datatype TokenOp = Set(token: string) | Clear

  function Apply(storage: map<string, string>, op: TokenOp): map<string, string> {
    match op
    case Set(t) => WithToken(storage, t)
    case Clear => WithoutToken(storage)
  }

  /** The storage after performing `ops` in order. */
  function ApplyAll(storage: map<string, string>, ops: seq<TokenOp>): map<string, string>
    decreases |ops|
  {
    if ops == [] then storage else Apply(ApplyAll(storage, ops[..|ops| - 1]), ops[|ops| - 1])
  }

  /** The events `ops` dispatch in a browser context, in order. */
  function Notifications(storage: map<string, string>, ops: seq<TokenOp>): seq<Effect>
    decreases |ops|
  {
    if ops == [] then []
    else Notifications(storage, ops[..|ops| - 1]) + [Notification(ApplyAll(storage, ops))]
  }

  /** What `getToken` returns right after `op`. */
  function Written(op: TokenOp): Option<string> {
    match op
    case Set(t) => Some(t)
    case Clear => None
  }

  /** Last write wins: only the final operation decides the token. */
  lemma LastWriteWins(storage: map<string, string>, ops: seq<TokenOp>)
    requires ops != []
    ensures TokenIn(ApplyAll(storage, ops)) == Written(ops[|ops| - 1])
  {
  }

  /** No sequence of token operations touches any other storage entry (such as `theme`). */
  lemma {:induction false} OtherEntriesSurvive(storage: map<string, string>, ops: seq<TokenOp>)
    ensures SameOtherEntries(ApplyAll(storage, ops), storage)
    decreases |ops|
  {
    if ops != [] {
      OtherEntriesSurvive(storage, ops[..|ops| - 1]);
    }
  }

  /** Exactly one event per operation, and the i-th event's listeners read the
      token as it stands after the i-th operation. */
  lemma {:induction false} OneNotificationPerOp(storage: map<string, string>, ops: seq<TokenOp>)
    ensures |Notifications(storage, ops)| == |ops|
    ensures forall i | 0 <= i < |ops| ::
      Notifications(storage, ops)[i] == Notification(ApplyAll(storage, ops[..i + 1]))
    decreases |ops|
  {
    if ops != [] {
      var init := ops[..|ops| - 1];
      OneNotificationPerOp(storage, init);
      assert ops[..|ops|] == ops;
      forall i | 0 <= i < |init|
        ensures Notifications(storage, init)[i] == Notification(ApplyAll(storage, ops[..i + 1]))
      {
        assert init[..i + 1] == ops[..i + 1];
      }
    }
  }

  /** Performs `ops` one after another through `SetToken` and `ClearToken`. */
  method Replay(w: Window, ops: seq<TokenOp>)
    modifies w`storage, w`trace
    ensures w.defined ==> w.storage == ApplyAll(old(w.storage), ops)
    ensures w.defined ==> w.trace == old(w.trace) + Notifications(old(w.storage), ops)
    ensures !w.defined ==> w.storage == old(w.storage) && w.trace == old(w.trace)
  {
    var i := 0;
    while i < |ops|
      invariant 0 <= i <= |ops|
      invariant w.defined ==> w.storage == ApplyAll(old(w.storage), ops[..i])
      invariant w.defined ==> w.trace == old(w.trace) + Notifications(old(w.storage), ops[..i])
      invariant !w.defined ==> w.storage == old(w.storage) && w.trace == old(w.trace)
    {
      assert ops[..i + 1][..i] == ops[..i];
      match ops[i] {
        case Set(t) => SetToken(w, t);
        case Clear => ClearToken(w);
      }
      i := i + 1;
    }
    assert ops[..i] == ops;
  }
}
