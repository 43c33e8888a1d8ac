# Task Assessment web client, modelled in Dafny

This project models the browser side of the Task Assessment user-management
application. The model covers:

- the bearer-token store in `localStorage` and its change notification;
- the authentication service, which wraps the three backend calls and
  normalises their errors;
- the login and registration forms;
- the users list and the users page that guards it;
- the navigation bar and the home page, which both watch the signed-in state;
- the tab strip, the light/dark switch and the labelled input field.

## How the model is built

- **The browser.** One `Browser.Window` object stands for the browser. It holds:
  - whether a `window` exists at all (server rendering has none);
  - the system colour preference;
  - the contents of `localStorage`;
  - the registered event listeners;
  - the `dark` class on the document root;
  - an ordered trace of what the client did to the outside world. The trace
    records events dispatched (with the storage those listeners read),
    requests sent, navigations (`push` or `replace`) and callbacks invoked.
- **The token store** (`Auth`). Its operations are methods on a `Window`.
  Their storage effect is also given as pure functions (`WithToken`,
  `WithoutToken`, `ApplyAll`), and the lemmas are proved about those functions.
- **The service** (`AuthService`) is pure.
  - A caught HTTP error is a closed record: an optional response with status
    and message, an error code, and an error message.
  - What the service throws is either that error unchanged (`Rethrown`) or a
    new plain `Error` (`Plain`).
  - A call's fate is `Settle`: the delivered body, or the normalised rejection.
- **The components** are classes whose fields are the component's state.
  - Each asynchronous handler is split at its `await`. `Submit`/`Fetch` runs
    up to the request. `Resolve` runs once the request settles, and takes the
    HTTP outcome as a parameter.
  - Callback props are recorded in the trace as if the parent had supplied them.
- **Session observers.** The navigation bar and the home page each own a
  `Session.Observer`. The observer re-reads the token on either of two events:
  - the in-tab `auth-token-change` event;
  - the cross-tab `storage` event.
- **Validation** (`Validation`).
  - The email check is the regular expression `^[^\s@]+@[^\s@]+\.[^\s@]+$`.
    It is read literally as a ghost predicate and proved equal to an
    executable check. `\s` is the exact ECMAScript whitespace set.
  - Password length counts UTF-16 code units, as JavaScript's `length` does,
    so a character outside the Basic Multilingual Plane counts twice.
- **End-to-end runs** (`Flows`). Four runs are proved about values built
  inside the model:
  - a rejected login, stopped by validation;
  - a granted login, seen by an observer;
  - an expired session;
  - an unreachable backend.

### Behaviour worth knowing

- **Login error banner.** A failed login shows the server's own message when
  the server sent one. "invalid email or password" is only the fallback
  (`src/components/LoginForm.tsx:61-62`, `LoginForm.Component.Resolve`).
- **Unreachable backend.** The service turns a refused connection into a plain
  `Error` whose text is "Cannot connect to server. Please ensure the backend is
  running." (`src/services/auth.service.ts:27-29`). The screens read only
  `err.response.data.message`, which a plain `Error` lacks. So the users list
  shows its own fallback "Failed to fetch users" (`src/components/UserList.tsx:49`),
  and both forms show theirs (`Flows.ConnectivityTextNeverShown`,
  `Flows.UnreachableBackend`).
- **A 401 without a server message.** The service rethrows the original error
  only when it carries a server message (`src/services/auth.service.ts:71-73`).
  Otherwise the list receives a plain `Error` with no status. The token is then
  kept and the error card shows (`src/components/UserList.tsx:44-51`,
  `Flows.UnauthorizedNeedsServerMessage`).
- **Error shapes.** The service inspects the caught error's shape rather than
  a closed set of variants. The model keeps that shape (`Caught`, `Thrown`)
  and proves the classification over it (`AuthService.Normalize`).

## Model

| member | source | states |
|---|---|---|
| Browser.Window.GetItem | src/lib/auth.ts:17 | a key yields its stored value, and nothing when it is absent |
| Browser.Window.SetItem | src/lib/auth.ts:11 | the key now holds the value and every other entry is kept |
| Browser.Window.RemoveItem | src/lib/auth.ts:22 | the key is gone and every other entry is kept |
| Browser.Window.AddEventListener | src/components/Navbar.tsx:46-47 | the (event, handler) pair joins the registry, with no duplicate |
| Browser.Window.RemoveEventListener | src/components/Navbar.tsx:50-51 | exactly that (event, handler) pair leaves the registry |
| Browser.Window.DispatchEvent | src/lib/auth.ts:6 | one event is appended to the trace, carrying the storage its listeners will read |
| Browser.Window.StorageChangedElsewhere | src/components/Navbar.tsx:46 | another tab's write or removal updates storage; one `storage` event follows iff the entry actually changed |
| Browser.Window.Send | src/services/auth.service.ts:15-18 | one request is appended to the trace |
| Browser.Window.Navigate | src/components/LoginForm.tsx:58 | one navigation of the given kind is appended to the trace |
| Browser.Window.Call | src/components/RegisterForm.tsx:84 | one callback invocation is appended to the trace |
| Browser.Window.ToggleDarkClass | src/components/ThemeToggle.tsx:34 | the document's dark class equals the forced value |
| Auth.WithToken | src/lib/auth.ts:11 | after a write, the token read back is the written one and no other key changes |
| Auth.WithoutToken | src/lib/auth.ts:22 | after a removal, no token is read back and no other key changes |
| Auth.SecondWriteReplaces | src/lib/auth.ts:9-13 | a second write replaces the first: only one token is ever kept |
| Auth.ClearIdempotent | src/lib/auth.ts:20-24 | clearing twice is clearing once |
| Auth.GetToken | src/lib/auth.ts:15-18 | no window means no token; otherwise it is what storage holds under the fixed key |
| Auth.NotifyAuthChange | src/lib/auth.ts:4-7 | with a window, exactly one `auth-token-change` event; without one, nothing |
| Auth.SetToken | src/lib/auth.ts:9-13 | with a window, the token is stored, then one notification follows that already sees it; without one, nothing changes |
| Auth.ClearToken | src/lib/auth.ts:20-24 | afterwards no token is read back; with a window, it is removed and then one notification follows; without one, nothing changes |
| Auth.LastWriteWins | src/lib/auth.ts:9-24 | after any sequence of sets and clears, the token read back is what the last operation wrote |
| Auth.OtherEntriesSurvive | src/lib/auth.ts:9-24 | no sequence of token operations touches any other storage key |
| Auth.OneNotificationPerOp | src/lib/auth.ts:9-24 | a sequence of n operations yields exactly n notifications, the i-th seeing the storage after the i-th operation |
| Auth.Replay | src/lib/auth.ts:9-24 | running operations one by one gives the storage and notification trace of the sequence semantics |
| AuthService.Normalize | src/services/auth.service.ts:20-31 | the original error is rethrown iff it has a server message; otherwise it becomes the connectivity text iff the code is ECONNREFUSED or the message contains "Network Error"; otherwise it becomes the operation's default text |
| AuthService.ClassificationIgnoresOperation | src/services/auth.service.ts:43-54 | the three operations classify an error alike and differ only in their default text |
| AuthService.ServerMessageBeatsConnectivity | src/services/auth.service.ts:23-29 | a server message wins over a refused connection |
| AuthService.NetworkErrorIsConnectivity | src/services/auth.service.ts:27-28 | a bare "Network Error" becomes the connectivity text for every operation |
| AuthService.StatusSurvivesOnlyWithMessage | src/services/auth.service.ts:71-73 | the caller sees an HTTP status iff the server sent a message, and then sees that message |
| AuthService.Settle | src/services/auth.service.ts:14-31 | a delivered body resolves unchanged; a failure rejects with the normalised error |
| AuthService.BearerHeaders | src/services/auth.service.ts:60-66 | headers exist iff the token is a non-empty string, and then hold only `Authorization` |
| AuthService.BearerRoundTrip | src/services/auth.service.ts:61-65 | the token read back from the header is the stored one, and none when no header is sent |
| AuthService.UsersRequest | src/services/auth.service.ts:57-66 | a GET of "/auth/users" without body whose headers are exactly `BearerHeaders` of the stored token: none without a truthy token, otherwise an `Authorization` header the server reads back as that token |
| Validation.IsEmailMatchesPattern | src/components/LoginForm.tsx:24 | the executable check accepts exactly the strings the email pattern matches |
| Validation.Utf16Length | src/components/LoginForm.tsx:30 | length in UTF-16 units lies between the character count and twice it, and equals the count within the Basic Multilingual Plane |
| Validation.EmailError | src/components/LoginForm.tsx:22-26 | no error iff the pattern matches; otherwise "Email is required" for an empty value and "Invalid email format" for any other |
| Validation.PasswordError | src/components/LoginForm.tsx:28-32 | no error iff at least 8 UTF-16 units; otherwise "Password is required" for an empty value and the length message for any other |
| Validation.FourAstralCharactersAreEnough | src/components/LoginForm.tsx:30 | four emoji pass the 8-character minimum, because each counts twice |
| LoginForm.With | src/components/LoginForm.tsx:38-40 | the changed field takes the new value and the other keeps its own |
| LoginForm.FieldErrors | src/components/LoginForm.tsx:19-33 | a field has an entry iff it fails its rule, and the entry is that rule's non-empty message |
| LoginForm.ValidIffBothFieldsPass | src/components/LoginForm.tsx:34-35 | the form is valid iff the email matches the pattern and the password has at least 8 units |
| LoginForm.Component.constructor | src/components/LoginForm.tsx:14-17 | empty fields, no errors, not loading, no banner |
| LoginForm.Component.ValidateForm | src/components/LoginForm.tsx:19-36 | fills the errors field by field, gives exactly `FieldErrors`, and reports validity iff the result is empty |
| LoginForm.Component.HandleChange | src/components/LoginForm.tsx:38-45 | the field is updated, a shown error on it is blanked, other errors are kept, and the banner is cleared |
| LoginForm.Component.Submit | src/components/LoginForm.tsx:47-55 | an invalid form sends nothing; a valid one sets loading, clears the banner and sends one login request with the form data |
| LoginForm.Component.Resolve | src/components/LoginForm.tsx:54-66 | a granted response stores the token, notifies, and replaces the location with /users; a failure shows the server message or the fallback; loading always ends |
| RegisterForm.With | src/components/RegisterForm.tsx:77-79 | the changed field takes the new value and the others keep theirs |
| RegisterForm.FieldError | src/components/RegisterForm.tsx:57-71 | a name fails iff it is empty, with "First name is required" or "Last name is required"; the email and password entries are exactly `EmailError` and `PasswordError` |
| RegisterForm.FieldErrors | src/components/RegisterForm.tsx:57-73 | a field has an entry iff it fails its rule, and the entry is that rule's message |
| RegisterForm.ValidIffAllFieldsPass | src/components/RegisterForm.tsx:73-74 | the form is valid iff both names are non-empty, the email matches and the password is long enough |
| RegisterForm.Component.constructor | src/components/RegisterForm.tsx:46-55 | empty form, no errors, not loading, no modal, no banner |
| RegisterForm.Component.ValidateForm | src/components/RegisterForm.tsx:57-75 | fills the errors field by field, gives exactly `FieldErrors`, and reports validity iff the result is empty |
| RegisterForm.Component.HandleChange | src/components/RegisterForm.tsx:77-85 | the field is updated, a shown error on it is blanked, the banner is cleared and `onChange` is told the field name and value |
| RegisterForm.Component.Submit | src/components/RegisterForm.tsx:87-96 | an invalid form does nothing more; a valid one calls `onSubmit` with the data and then sends one registration request |
| RegisterForm.Component.Resolve | src/components/RegisterForm.tsx:94-108 | success opens the modal, resets the form and calls `onSuccess`; failure shows and reports the server message or the fallback; loading always ends |
| RegisterForm.Component.HandleCloseModal | src/components/RegisterForm.tsx:111-114 | the modal closes and `onCloseModal` is called |
| UserList.ScreenFor | src/components/UserList.tsx:71-124 | loading wins over an error, an error over an empty list, and the table shows exactly the users with their count |
| UserList.Component.Mount | src/components/UserList.tsx:30-59 | a fresh list starts loading with no users and immediately sends one users request with the stored token |
| UserList.Component.Fetch | src/components/UserList.tsx:34-38 | loading is set, the error is cleared and one users request is sent (the retry and refresh buttons) |
| UserList.Component.Resolve | src/components/UserList.tsx:37-54 | a delivered list is shown and reported; a 401 clears the token and replaces the location with /login without an error; any other failure shows and reports the server message or the fallback; loading always ends |
| UsersPage.ViewOf | src/app/users/page.tsx:27-44 | the checking card while checking, nothing when refused, the directory when authorised |
| UsersPage.Component.constructor | src/app/users/page.tsx:13-14 | the page starts checking and not authorised |
| UsersPage.Component.CheckAccess | src/app/users/page.tsx:16-25 | checking ends; with a token the page is authorised and nothing navigates; without one the location is replaced with /login |
| UsersPage.Activate | src/app/users/page.tsx:16-25 | a freshly mounted page shows the directory iff a token is stored, and otherwise redirects |
| Session.Subscriptions | src/components/Navbar.tsx:46-47 | an observer subscribes twice, both times with itself as handler |
| Session.Observer.constructor | src/components/Navbar.tsx:40 | an observer starts signed out |
| Session.Observer.Update | src/components/Navbar.tsx:43 | the state becomes whether a non-empty token is stored |
| Session.Observer.Activate | src/components/Navbar.tsx:42-47 | reads the state once and registers for both the storage and the auth event |
| Session.Observer.Deactivate | src/components/Navbar.tsx:49-52 | removes both registrations, leaving none for this observer |
| Session.Deliver | src/components/Navbar.tsx:43-47 | every observer registered for the event re-reads the token; the others keep their state |
| Navbar.DefaultLinks | src/components/Navbar.tsx:63-66 | exactly Home and Users when signed in, and exactly Home, Register and Login when signed out, with their captions, icons and hrefs |
| Navbar.Links | src/components/Navbar.tsx:68 | custom links replace the defaults whenever they are given |
| Navbar.AtMostOneDefaultActive | src/components/Navbar.tsx:95 | no two default links are marked active at once |
| Navbar.Component.constructor | src/components/Navbar.tsx:29-40 | keeps the custom links and starts signed out |
| Navbar.Component.Mount | src/components/Navbar.tsx:42-48 | reads the state, shows the logout controls iff a token is stored, and registers for both events |
| Navbar.Component.Unmount | src/components/Navbar.tsx:49-52 | removes both registrations |
| Navbar.Component.HandleLogout | src/components/Navbar.tsx:55-60 | clears the token, notifies, hides the logout controls, calls `onLogout` and then pushes /login |
| Navbar.LogoutShownWithUsersLink | src/components/Navbar.tsx:120-142 | with the default links, the logout controls appear exactly when the Users link does, and never with the Login link |
| Home.ButtonsFor | src/app/page.tsx:139-152 | "Register User" appears iff signed out; "View Users" is primary iff signed in |
| Home.AgreesWithNavbar | src/app/page.tsx:139-152 | the hero buttons offer registration exactly when the bar links to /register, and stress the users page exactly when the bar links to /users |
| Home.Component.constructor | src/app/page.tsx:12 | starts signed out, with the register button and an outlined users button |
| Home.Component.Mount | src/app/page.tsx:14-20 | reads the state and registers for both events |
| Home.Component.Unmount | src/app/page.tsx:21-24 | removes both registrations |
| Tabs.InitialTab | src/components/ui/Tabs.tsx:28-30 | a non-empty default, else the first tab's id, else the empty id |
| Tabs.ActiveContent | src/components/ui/Tabs.tsx:37 | no content iff no tab has the active id; otherwise the content of the first tab with that id |
| Tabs.UnknownDefaultShowsNothing | src/components/ui/Tabs.tsx:28-37 | a default naming no tab leaves the panel empty |
| Tabs.SelectedTabShowsFirstMatch | src/components/ui/Tabs.tsx:37-77 | any tab marked `aria-selected` has the active id, and the panel shows the content of the first tab with that id, at or before it |
| Tabs.DuplicateIdsShowFirstContent | src/components/ui/Tabs.tsx:37-77 | two tabs sharing an id are both marked selected, yet only the first one's content is shown |
| Tabs.FirstTabOpensByDefault | src/components/ui/Tabs.tsx:28-37 | without a default the first tab is selected and its content is shown |
| Tabs.Component.constructor | src/components/ui/Tabs.tsx:28-30 | the tab list is kept and the initial tab is selected |
| Tabs.Component.Click | src/components/ui/Tabs.tsx:32-35 | a disabled tab does nothing; any other becomes selected, shows content and is reported to `onChange` |
| ThemeToggle.Toggled | src/components/ThemeToggle.tsx:39 | the next theme is light or dark, and dark iff the current one is light |
| ThemeToggle.InitialTheme | src/components/ThemeToggle.tsx:30-32 | a non-empty saved theme wins; otherwise dark iff the system prefers dark |
| ThemeToggle.ToggleTwice | src/components/ThemeToggle.tsx:38-44 | two clicks restore either of the two themes |
| ThemeToggle.UnknownThemeIsNotRestored | src/components/ThemeToggle.tsx:30-39 | a stored value outside the two themes is not restored by two clicks |
| ThemeToggle.ToggledThemeSurvivesReload | src/components/ThemeToggle.tsx:30-41 | the theme a click stores is the theme the next mount starts from |
| ThemeToggle.Component.constructor | src/components/ThemeToggle.tsx:26 | starts light |
| ThemeToggle.Component.Mount | src/components/ThemeToggle.tsx:29-35 | takes the initial theme and sets the document's dark class to match |
| ThemeToggle.Component.Toggle | src/components/ThemeToggle.tsx:38-44 | switches the theme, stores it, matches the dark class, and reports it to `onChange` |
| ThemeToggle.Component.AriaLabel | src/components/ThemeToggle.tsx:50 | a supplied label wins; otherwise the label names the theme a click switches to |
| ThemeToggle.PressedMatchesIcon | src/components/ThemeToggle.tsx:51-58 | for the two themes, the switch is pressed iff the sun is shown; an unknown theme shows the sun unpressed |
| ThemeToggle.MountThenToggle | src/components/ThemeToggle.tsx:29-44 | after a mount and any number of clicks, the dark class matches the theme, and after one click or more the stored theme is the shown one; the theme is the mounted one toggled once per click, and the k-th click appends one `onChange` call carrying the theme after k clicks (`Reports`) |
| ThemeToggle.ToggledTimesAlternates | src/components/ThemeToggle.tsx:38-44 | from the first click on, the theme alternates with period two: an odd number of clicks gives the first click's theme, an even number the second's |
| InputField.LowerAscii | src/components/ui/InputField.tsx:26 | same length, no capital letter left, whitespace kept in place |
| InputField.DashRuns | src/components/ui/InputField.tsx:26 | the result has no whitespace and is no longer than the input |
| InputField.DashRunsKeepsPlainText | src/components/ui/InputField.tsx:26 | text without whitespace is unchanged |
| InputField.DashRunsOneRun | src/components/ui/InputField.tsx:26 | a whole run of whitespace becomes exactly one dash |
| InputField.DashRunsIdempotent | src/components/ui/InputField.tsx:26 | replacing twice is replacing once |
| InputField.InputId | src/components/ui/InputField.tsx:26 | a non-empty id wins; without a caption "input-undefined"; otherwise "input-" followed by at most |caption| characters, the caption's words lower-cased and joined by one dash per whitespace run (`InputIdJoinsWords`) |
| InputField.DerivedIdHasNoWhitespace | src/components/ui/InputField.tsx:26 | a derived id has no whitespace after its prefix |
| InputField.EmailLabelId | src/components/ui/InputField.tsx:26 | the caption "Email" gives the id "input-email" |
| InputField.InputIdJoinsWords | src/components/ui/InputField.tsx:26 | the words of a caption are lower-cased and joined by one dash per whitespace run |
| InputField.DescribedBy | src/components/ui/InputField.tsx:54-56 | points at the error paragraph when there is an error, else at the helper paragraph, else at nothing |
| InputField.AriaInvalidIffErrorShown | src/components/ui/InputField.tsx:53-67 | `aria-invalid` holds exactly when the error paragraph is the one rendered, and the input is then described by it |
| InputField.Label | src/components/ui/InputField.tsx:30-37 | a label is rendered iff the caption is non-empty; it points at the input, shows the caption and carries the asterisk iff the input is required |
| InputField.Paragraphs | src/components/ui/InputField.tsx:59-75 | at most one paragraph: the error when there is one, otherwise the helper text |
| InputField.DescribedByNamesShownParagraph | src/components/ui/InputField.tsx:54-75 | `aria-describedby` names exactly the paragraph that is rendered |
| Flows.ShownMessage | src/services/auth.service.ts:23-30 | every screen shows the server's message when there is one, and its own fallback otherwise |
| Flows.ConnectivityTextNeverShown | src/components/UserList.tsx:49 | the connectivity text reaches a screen only if the server itself sent that text |
| Flows.UnauthorizedNeedsServerMessage | src/components/UserList.tsx:44 | the list redirects iff the error had both a 401 status and a server message |
| Flows.RejectedLoginForm | src/components/LoginForm.tsx:47-49 | a five-character password shows the length error and nothing is sent |
| Flows.GrantedLogin | src/components/LoginForm.tsx:54-59 | a granted login stores "tok1", notifies an already-mounted observer (now signed in, with no request) and opens the users page |
| Flows.ExpiredSession | src/components/UserList.tsx:43-47 | a 401 with a message clears the token and redirects to /login, with no error card |
| Flows.UnreachableBackend | src/components/UserList.tsx:49-51 | a network failure shows "Failed to fetch users", and the retry resends the same request |

## Left out

- Asynchrony and React's batching of state updates. Each handler runs to its
  `await` in one method; the continuation is a separate method that takes the
  settled outcome. Interleavings of two requests in flight are not modelled.
- The HTTP client (`src/lib/api`) is not part of this model. Its result is a
  parameter: a delivered envelope, or a caught error with optional status and
  message, an error code and an error message.
- A server message that is not a string is not modelled. NestJS can send an
  array of validation messages; the model keeps only strings.
- `console.error` in the service is left out, because it has no effect on state.
- `formatDate` in the users list is left out, because locale-dependent date
  formatting is presentation only.
- Markup, styling class names other than the root `dark` class, icons other
  than the theme switch's and the navigation links', and the Card, Button and
  Modal components are left out, because they are presentation only.
- InputField.LowerAscii: lower-cases ASCII letters only. JavaScript's
  `toLowerCase` also maps other scripts, and not always one character to one:
  U+0130 (capital I with dot above) becomes two code points. The proved
  properties (same length, whitespace in place) hold only for lower-casing
  that keeps the length.
- InputField.DescribedBy / InputField.AriaInvalid: the remaining props are
  spread after `aria-invalid` and `aria-describedby`
  (`src/components/ui/InputField.tsx:53-57`), so a caller could override
  them. The model does not take such props. The `id` is taken out of the
  props first (`src/components/ui/InputField.tsx:20`) and cannot be
  overridden.
- Browser.Window.DispatchEvent: dispatching records the event and the
  storage its listeners will read, but runs no listener. Delivery to the
  mounted observers is the separate step `Session.Deliver`. So the contracts
  of `Auth.SetToken`, `Auth.ClearToken`, `LoginForm.Component.Resolve` and
  `Navbar.Component.HandleLogout` do not themselves say that observers
  update; `Flows.GrantedLogin` composes the two steps.
- LoginForm.Component.Resolve: assumes `setToken` and `router.replace` never
  throw. In the source both run inside the handler's `try`
  (`src/components/LoginForm.tsx:57-58`), so a throw would show the fallback
  banner "invalid email or password" and skip the navigation.
- RegisterForm.Component.Submit: assumes the `onSubmit` callback never throws.
  In the source it runs inside the `try` before the request
  (`src/components/RegisterForm.tsx:95`), so a throw would send no request,
  show "Failed to register user" and call `onError`.
- RegisterForm.Component.Resolve: assumes the `onSuccess` callback never
  throws. A throw there (`src/components/RegisterForm.tsx:100`) would leave
  the success modal open and also show the error banner.
- UserList.Component.Resolve: assumes the `onUsersFetched` callback never
  throws. A throw there (`src/components/UserList.tsx:41`) would end on the
  error card.
- Browser.Window.GetItem / Browser.Window.SetItem / Browser.Window.RemoveItem:
  never throw. A browser that blocks storage throws from `localStorage`
  itself; the token functions guard only against a missing `window`
  (`src/lib/auth.ts:10-22`), which is all `Browser.Window` models.
- UserList.Component.Mount: sends one request per mount, assuming the parent
  passes stable callbacks. In the source `fetchUsers` depends on the router
  and on the `onUsersFetched` and `onError` props, and the effect depends on
  `fetchUsers` (`src/components/UserList.tsx:55-59`), so new callback
  identities on a re-render make the list fetch again.
- Navbar passes `onClick` and `aria-label` to `ThemeToggle`, which accepts
  neither. They have no effect, so the model gives the switch no such inputs.
- Callback props: every callback is recorded as if the parent supplied it. An
  absent callback changes nothing else.
- The navigation effect of `router.replace` and `router.push` is recorded in
  the trace; routing itself is not modelled.
- The login and register pages (`src/app/login/page.tsx`,
  `src/app/register/page.tsx`) are not part of this model. They only place
  the forms.
