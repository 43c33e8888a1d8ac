/** The host the components run in: the `window` object with its
    `localStorage`, its event-listener registry, the `dark` class of the
    document element, the Next.js router, and the callbacks the parent passes
    in as props. Every externally visible effect is appended, in order, to
    `trace`. */
module Browser {
  import opened Types

  /** One `addEventListener(eventType, handler)` registration. A handler is
      identified by the object that owns it. */
  datatype Listener = Listener(eventType: string, handler: object)

  datatype Verb = Get | Post

  datatype Body = NoBody | RegisterBody(registration: RegisterUserDto) | LoginBody(credentials: LoginDto)

  /** An HTTP request as handed to the API client: `headers` is `None` when
      the caller passes `headers: undefined`. */
  datatype Request = Request(verb: Verb, path: string, body: Body, headers: Option<map<string, string>>)

  datatype Nav = Push | Replace

  /** The optional callback props of the components; an absent callback is a no-op,
      so the trace records what a parent that supplied it would observe. */
  datatype Callback =
    | OnChange(field: string, value: string)
    | OnSubmit(registration: RegisterUserDto)
    | OnSuccess(created: Option<User>)
    | OnError(message: string)
    | OnCloseModal
    | OnUsersFetched(users: seq<User>)
    | OnLogout
    | OnTabChange(tabId: string)
    | OnThemeChange(theme: string)

  datatype Effect =
    /** An event delivered to the listeners; `storage` is what `localStorage` held at that moment. */
    | Dispatched(eventType: string, storage: map<string, string>)
    | Sent(request: Request)
    | Navigated(how: Nav, path: string)
    | Called(callback: Callback)

  /** Name of the platform's cross-tab storage notification. */
  const STORAGE_EVENT: string := "storage"

  class Window {
    /** False models `typeof window === 'undefined'` (a server-rendered pass). */
    const defined: bool
    /** `matchMedia('(prefers-color-scheme: dark)').matches` */
    const prefersDark: bool
    var storage: map<string, string>
    var listeners: set<Listener>
    /** Whether `document.documentElement` carries the `dark` class. */
    var darkClass: bool
    var trace: seq<Effect>

    constructor (defined: bool, prefersDark: bool, storage: map<string, string>)
      ensures this.defined == defined && this.prefersDark == prefersDark
      ensures this.storage == storage && listeners == {} && !darkClass && trace == []
    {
      this.defined := defined;
      this.prefersDark := prefersDark;
      this.storage := storage;
      listeners := {};
      darkClass := false;
      trace := [];
    }

    /** `localStorage.getItem(key)`: null when the key is absent. */
    function GetItem(key: string): (v: Option<string>)
      reads this`storage
      ensures v.Some? <==> key in storage
      ensures v.Some? ==> v.value == storage[key]
    {
      if key in storage then Some(storage[key]) else None
    }

    method SetItem(key: string, value: string)
      modifies this`storage
      ensures storage == old(storage)[key := value]
    {
      storage := storage[key := value];
    }

    method RemoveItem(key: string)
      modifies this`storage
      ensures storage == old(storage) - {key}
    {
      storage := storage - {key};
    }

    /** Registering the same handler twice for one event type is a no-op, as in the DOM. */
    method AddEventListener(eventType: string, handler: object)
      modifies this`listeners
      ensures listeners == old(listeners) + {Listener(eventType, handler)}
    {
      listeners := listeners + {Listener(eventType, handler)};
    }

    method RemoveEventListener(eventType: string, handler: object)
      modifies this`listeners
      ensures listeners == old(listeners) - {Listener(eventType, handler)}
    {
      listeners := listeners - {Listener(eventType, handler)};
    }

    /** The handlers an event of this type reaches. */
    ghost function Handlers(eventType: string): set<object>
      reads this`listeners
    {
      set l | l in listeners && l.eventType == eventType :: l.handler
    }

    /** `window.dispatchEvent`: records the event together with the storage its
        listeners will read. Running those listeners is a separate step
        (`Session.Deliver`). */
    method DispatchEvent(eventType: string)
      modifies this`trace
      ensures trace == old(trace) + [Dispatched(eventType, storage)]
    {
      trace := trace + [Dispatched(eventType, storage)];
    }

    /** Another tab wrote `key` (`None`: removed it). The platform fires
        `storage` here only when that changed the entry: a write of the value
        already held, or the removal of an absent key, fires nothing. */
    method StorageChangedElsewhere(key: string, value: Option<string>)
      modifies this`storage, this`trace
      ensures storage == if value.Some? then old(storage)[key := value.value] else old(storage) - {key}
      ensures storage != old(storage) ==> trace == old(trace) + [Dispatched(STORAGE_EVENT, storage)]
      ensures storage == old(storage) ==> trace == old(trace)
    {
      var before := storage;
      storage := if value.Some? then storage[key := value.value] else storage - {key};
      if storage != before {
        trace := trace + [Dispatched(STORAGE_EVENT, storage)];
      }
    }

    method Send(request: Request)
      modifies this`trace
      ensures trace == old(trace) + [Sent(request)]
    {
      trace := trace + [Sent(request)];
    }

    method Navigate(how: Nav, path: string)
      modifies this`trace
      ensures trace == old(trace) + [Navigated(how, path)]
    {
      trace := trace + [Navigated(how, path)];
    }

    method Call(callback: Callback)
      modifies this`trace
      ensures trace == old(trace) + [Called(callback)]
    {
      trace := trace + [Called(callback)];
    }

    /** `document.documentElement.classList.toggle('dark', force)` */
    method ToggleDarkClass(force: bool)
      modifies this`darkClass
      ensures darkClass == force
    {
      darkClass := force;
    }
  }
}
