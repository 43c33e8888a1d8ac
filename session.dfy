/** The session observer used by the navigation bar and the home page
    (src/components/Navbar.tsx:42-53, src/app/page.tsx:14-25): each consumer
    owns one, derives `isAuthenticated = !!getToken()` on activation, listens
    to both the cross-tab `storage` event and the in-tab `auth-token-change`
    event with one handler, and removes both registrations on teardown. */
module Session {
  import opened Types
  import opened Browser
  import Auth

  /** The two registrations one handler makes. */
  function Subscriptions(handler: object): (s: set<Listener>)
    ensures |s| == 2
    ensures forall l | l in s :: l.handler == handler
  {
    assert Listener(STORAGE_EVENT, handler) != Listener(Auth.AUTH_EVENT_NAME, handler);
    {Listener(STORAGE_EVENT, handler), Listener(Auth.AUTH_EVENT_NAME, handler)}
  }

  class Observer {
    var isAuthenticated: bool

    constructor ()
      ensures !isAuthenticated
    {
      isAuthenticated := false;
    }

    /** `updateAuthState`: always re-reads the store, never a cached value. */
    method Update(w: Window)
      modifies this`isAuthenticated
      ensures isAuthenticated == Truthy(Auth.GetToken(w))
    {
      isAuthenticated := Truthy(Auth.GetToken(w));
    }

    /** The effect: compute the flag once, then register for both channels. */
    method Activate(w: Window)
      modifies this`isAuthenticated, w`listeners
      ensures isAuthenticated == Truthy(Auth.GetToken(w))
      ensures w.listeners == old(w.listeners) + Subscriptions(this)
      ensures this in w.Handlers(STORAGE_EVENT) && this in w.Handlers(Auth.AUTH_EVENT_NAME)
    {
      Update(w);
      w.AddEventListener(STORAGE_EVENT, this);
      w.AddEventListener(Auth.AUTH_EVENT_NAME, this);
      assert Listener(STORAGE_EVENT, this) in w.listeners;
      assert Listener(Auth.AUTH_EVENT_NAME, this) in w.listeners;
    }

    /** The effect's cleanup: neither channel reaches this handler afterwards. */
    method Deactivate(w: Window)
      modifies w`listeners
      ensures w.listeners == old(w.listeners) - Subscriptions(this)
      ensures Listener(STORAGE_EVENT, this) !in w.listeners && Listener(Auth.AUTH_EVENT_NAME, this) !in w.listeners
      ensures (forall l | l in old(w.listeners) && l.handler == this :: l in Subscriptions(this)) ==>
        this !in w.Handlers(STORAGE_EVENT) && this !in w.Handlers(Auth.AUTH_EVENT_NAME)
    {
      w.RemoveEventListener(STORAGE_EVENT, this);
      w.RemoveEventListener(Auth.AUTH_EVENT_NAME, this);
    }
  }

  /** Synchronous delivery of one event to a set of observers: exactly the
      ones registered for that event re-derive their flag from the store. */
  method Deliver(w: Window, eventType: string, observers: set<Observer>)
    modifies observers
    ensures forall o | o in observers ::
      o.isAuthenticated == if Listener(eventType, o) in w.listeners then Truthy(Auth.GetToken(w)) else old(o.isAuthenticated)
  {
    var pending := observers;
    while pending != {}
      invariant pending <= observers
      invariant forall o | o in observers - pending ::
        o.isAuthenticated == if Listener(eventType, o) in w.listeners then Truthy(Auth.GetToken(w)) else old(o.isAuthenticated)
      invariant forall o | o in pending :: o.isAuthenticated == old(o.isAuthenticated)
      decreases pending
    {
      var o: Observer :| o in pending;
      if Listener(eventType, o) in w.listeners {
        o.Update(w);
      }
      pending := pending - {o};
    }
  }
}
