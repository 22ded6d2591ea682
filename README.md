# Login controller model (AO-001)

This project models the client-side login controller of the staff portal.
There are two copies of the controller:

- `UI/03-APP.js`, the newer login page (module `LoginPageV2`). A signed-in
  employee leaves for the employee home page. This copy also knows how to
  sign in from URL parameters.
- `UI/UI/UI-03-APP.js`, the older single-page variant (module
  `LoginPageV1`). Each role has a view on a hash route, which
  `routeForRole` picks.

The two copies share most of their code: the input sanitisers, the demo
credential check, the abuse guard (failed-attempt counter and cooldown),
and session persistence in browser storage. Apart from comments, that
code is the same in both files, except that the older page's `demoAuth`
takes an extra `name` argument that it ignores (`LoginPageV1.DemoAuth`).
The shared code is modelled once, in the modules below,
and cited at `UI/03-APP.js`. In `UI/UI/UI-03-APP.js` the same functions are
`sanitizeText` and `sanitizeEmpNo` at lines 83-89, `isCoolingDown` and
`remainingCooldownMs` at 91-97, `persistState`, `loadState` and `clearState`
at 107-175, `bumpFail` at 277-286 and `onLogout` at 344-348.

- `Sanitize`: `sanitizeText` trims the input and folds every whitespace run
  into one space. `sanitizeEmpNo` trims the input and keeps only the ASCII
  digits. Whitespace means the ECMAScript set.
- `Credentials`: the demo authenticator. Employee number `9999` with
  password `admin` is an admin. Any other employee number with password
  `employee` is an employee. Everything else is refused.
- `AbuseGuard`: the failure counter and the cooldown. After `MAX_FAILS` = 5
  failures, a 30 000 ms cooldown starts and the counter resets.
- `SessionStore`: the versioned envelope that is written to storage. The
  identity in it carries a six-hour expiry. Loading keeps the abuse state,
  but drops an identity that is stale or missing.
- `LoginController`:
  - `Submit`, a pure submit step shared by both pages.
  - `AppState`, a class holding the controller's mutable state and the
    storage slot. Its methods change that state in place.
- `LoginPageV2` / `LoginPageV1`: each page's own routing decision, its
  handling of a submit's result, and (V2 only) auto-login from the URL.

The clock is passed in as `now` (milliseconds). Storage is a field of type
`Option<Envelope>`: `None` means nothing is stored or the stored text does
not parse. Browser side effects are returned as an `Effect` value:
changing the hash, leaving the page, or showing a view.

Two behaviours of the code are worth knowing, and the model keeps both:

- `loadState` does not check that the stored role is "admin" or
  "employee", and neither does the model. On the newer page, a live stored
  session with any other role, or none, is shown both the admin and the
  employee view (`LoginPageV2.StoredUncheckedRoleOpensAdminView`). The
  older page sends such a session to "#login" instead
  (`LoginPageV1.UnknownRoleStaysOnLoginHash`).
- In the older page, a signed-in user on any hash other than `#login`,
  `#admin` or `#employee` is shown the login view
  (`LoginPageV1.OtherHashShowsLogin`).

## Model

| member | source | states |
|---|---|---|
| Sanitize.SanitizeText | UI/03-APP.js:77-79 | the sanitised name is never longer than the raw input |
| Sanitize.SanitizeTextShape | UI/03-APP.js:77-79 | the result has no leading or trailing whitespace, and every whitespace run in it is a single ASCII space; it keeps exactly the input's non-whitespace characters, in order; it is empty exactly when the input is all whitespace |
| Sanitize.SanitizeTextJoin | UI/03-APP.js:77-79 | two texts with visible characters joined by whitespace sanitise to the first sanitised, one space, and the second sanitised: a whitespace run between words becomes one space rather than disappearing |
| Sanitize.SanitizeTextIdempotent | UI/03-APP.js:77-79 | sanitising an already sanitised name changes nothing |
| Sanitize.SanitizeEmpNo | UI/03-APP.js:81-83 | the sanitised employee number is never longer than the raw input |
| Sanitize.TrimCannotChangeDigits | UI/03-APP.js:81-83 | trimming before filtering digits makes no difference; the digits kept are those of the raw input |
| Sanitize.SanitizeEmpNoShape | UI/03-APP.js:81-83 | the result consists of ASCII digits only; each digit occurs exactly as often as in the input; an all-digit input comes back unchanged |
| Sanitize.SanitizeEmpNoIdempotent | UI/03-APP.js:81-83 | sanitising an already sanitised employee number changes nothing |
| Credentials.DemoAuth | UI/03-APP.js:171-179 | the role is admin exactly for employee number 9999 with password "admin"; it is employee exactly for any other number with password "employee"; ok holds exactly when a role is granted; no other role is ever granted |
| AbuseGuard.RemainingCooldownMs | UI/03-APP.js:85-91 | the remaining time is never negative; it is positive exactly while the guard is cooling down, and then it reaches the deadline from now |
| AbuseGuard.RemainingDecreases | UI/03-APP.js:85-91 | while the cooldown runs, the remaining time strictly shrinks as the clock advances |
| AbuseGuard.BumpFail | UI/03-APP.js:285-292 | below the limit, a failure adds one to the counter and keeps the deadline; the failure that reaches MAX_FAILS resets the counter and starts a COOLDOWN_MS cooldown from now |
| AbuseGuard.BumpFailInRange | UI/03-APP.js:285-292 | starting from a counter in 0..MAX_FAILS-1, the counter stays in that range |
| AbuseGuard.FailStreakCounts | UI/03-APP.js:285-292 | failures that keep the counter below MAX_FAILS only add their number to it; the deadline is unchanged |
| AbuseGuard.FailStreakLocks | UI/03-APP.js:285-292 | the MAX_FAILS-th failure in a row from a clean guard starts a full cooldown from its own time and resets the counter |
| SessionStore.OrNull | UI/03-APP.js:143-145 | a stored string field loads as null exactly when it is missing or empty; any other string is kept as it is |
| SessionStore.Encode | UI/03-APP.js:101-124 | the envelope carries version 1, the save time, the identity, the counter and the deadline; a signed-in identity expires SESSION_TTL_MS after the save, and a signed-out one carries expiry 0 |
| SessionStore.Load | UI/03-APP.js:126-155 | a missing blob, an unparsable blob or a wrong version leaves the state untouched; each abuse field comes from the blob when it holds a number and is otherwise kept; the user is signed in exactly when the stored identity is signed in with an expiry that is set and still ahead, and then role, name and number are the stored ones with an empty string read as null; otherwise the whole identity is cleared; a consistent state stays consistent |
| SessionStore.PersistThenLoad | UI/03-APP.js:101-155 | loading what was persisted (at a non-negative time), before the six-hour expiry runs out, restores exactly the persisted consistent identity and abuse state, whatever the state was before the load |
| SessionStore.LoadAfterExpiry | UI/03-APP.js:136-150 | once the expiry has passed, loading a persisted session gives a signed-out user with the persisted abuse state |
| SessionStore.ExpiredNeverLoads | UI/03-APP.js:136-150 | no current-version envelope whose identity has expired can sign anyone in |
| LoginController.CurrentHash | UI/03-APP.js:209 | an empty location hash reads as "#login"; any other hash is kept |
| LoginController.Submit | UI/03-APP.js:294-338 | a submit is blocked exactly while the guard cools down; it is incomplete exactly when, otherwise, the sanitised name, the sanitised employee number or the password is empty; these two outcomes change nothing; a refusal comes exactly from DemoAuth failing and counts one failure; a grant stores the role DemoAuth returned with the sanitised name and number, and clears the abuse state; a consistent identity stays consistent |
| LoginController.StoredAfter | UI/03-APP.js:285-331 | a blocked or incomplete submit leaves storage as it was; a refused or granted submit writes the new state's envelope |
| LoginController.WrongAttemptsCount | UI/03-APP.js:285-338 | complete but wrong submits, sent outside the cooldown, that stay below MAX_FAILS only add their number to the counter; the identity and the deadline are unchanged |
| LoginController.FiveWrongAttemptsLockOut | UI/03-APP.js:285-338 | after five complete but wrong submits, any submit within 30 seconds of the fifth is blocked, with between 1 and 30 000 ms still to wait |
| LoginController.AppState.constructor | UI/03-APP.js:20-33 | the controller starts on "#login", signed out, with a clean guard and the given storage |
| LoginController.AppState.PersistState | UI/03-APP.js:101-124 | storage now holds the encoding of the current state at now; nothing else changes |
| LoginController.AppState.LoadState | UI/03-APP.js:126-155 | the new state is Load of the old state and the stored blob; storage and route are untouched |
| LoginController.AppState.ClearState | UI/03-APP.js:157-168 | the user is signed out, the guard is clean, and storage is empty |
| LoginController.AppState.BumpFail | UI/03-APP.js:285-292 | the guard becomes AbuseGuard.BumpFail of the old guard, the identity is kept, and the result is persisted |
| LoginController.AppState.SubmitCredentials | UI/03-APP.js:294-331 | the new state and the outcome are those of Submit on the old state; the new storage is that of StoredAfter |
| LoginController.AppState.OnLogout | UI/03-APP.js:347-351 | the user is signed out with a clean guard, storage is emptied, and the page is sent to "#login" |
| LoginPageV2.Route | UI/03-APP.js:208-266 | a signed-out visitor on "#admin" or "#employee" is sent to "#login"; a signed-in employee always leaves for the employee home page; a signed-in admin sees the admin view on "#admin" and is sent there from any other hash; the login view is shown exactly when the hash is neither protected route and the user is neither a signed-in admin nor a signed-in employee, and it is locked exactly while the guard cools down; the admin view is shown exactly on "#admin" to any signed-in user who is not an employee, and the employee view exactly on "#employee" to a signed-in user whose role is neither admin nor employee |
| LoginPageV2.UncheckedRoleOpensViews | UI/03-APP.js:218-253 | a signed-in session whose role is neither admin nor employee is shown the admin view on "#admin" and the employee view on "#employee" |
| LoginPageV2.StoredUncheckedRoleOpensAdminView | UI/03-APP.js:126-155 | a live stored identity whose role is missing, empty or unknown loads as signed in and is shown the admin view on "#admin" |
| LoginPageV2.RouteSettles | UI/03-APP.js:208-266 | following a hash change that Route asks for leads, on the next render, to a view or to leaving the page, never to another hash change |
| LoginPageV2.Render | UI/03-APP.js:208-266 | records the current hash as the route and returns Route's decision for the controller's state |
| LoginPageV2.AfterSubmit | UI/03-APP.js:294-338 | a blocked submit, or a refused one that started the cooldown, re-renders; any other refused or incomplete submit shows the credentials error; a granted employee leaves for the home page, and a granted admin is sent to "#admin" |
| LoginPageV2.OnLoginSubmit | UI/03-APP.js:294-338 | the state and storage change as SubmitCredentials says, and the effect is AfterSubmit of that step |
| LoginPageV2.AdminLogin | UI/03-APP.js:294-338 | outside a cooldown, a complete submit with 9999/"admin" signs in an admin, clears the guard and goes to "#admin" |
| LoginPageV2.ParamsFromQuery | UI/03-APP.js:187-199 | hasAny holds exactly when one of name, empNo or password is in the query; the name is the sanitised query name, the number the sanitised query number, and the password the query password, each empty when absent; the name and number are already fixed points of sanitising |
| LoginPageV2.PrefillIsTransparent | UI/03-APP.js:187-199 | submitting the form filled from the parsed parameters decides exactly as submitting the raw query values |
| LoginPageV2.DecideAutoLogin | UI/03-APP.js:353-378 | exactly a signed-in user, or a query with none of the parameters, is skipped; otherwise exactly an incomplete set only prefills, whether or not a cooldown runs; a complete set prefills and renders exactly while cooling down, and prefills and submits exactly otherwise |
| LoginPageV2.TryAutoLogin | UI/03-APP.js:353-378 | follows DecideAutoLogin: the form is prefilled exactly when the decision is not to skip; skipping and prefilling only change nothing else; rendering records the current hash as the route; submitting gives the state, storage, route and effect of OnLoginSubmit |
| LoginPageV2.AutoLoginEmployee | UI/03-APP.js:353-378 | a signed-out visitor outside a cooldown, with a name, a non-9999 number and password "employee" in the URL, is signed in as an employee and leaves for the home page |
| LoginPageV2.Init | UI/03-APP.js:380-404 | the stored session is loaded first; a signed-in employee then only leaves for the home page; otherwise an empty hash is set to "#login" and the page renders on the current hash; the URL auto-login then runs on the hash that render wrote, if it wrote one, with the state, storage, route and effect TryAutoLogin gives for the loaded session on that hash |
| LoginPageV2.ProtectedHashDuringCooldownShowsLockedLogin | UI/03-APP.js:218-220 | a signed-out visitor on "#admin" or "#employee" with complete URL parameters during a cooldown is sent to "#login", and the auto-login's render then shows the locked login view there |
| LoginPageV2.FreshLoadWithEmployeeParams | UI/03-APP.js:380-404 | a page load without a stored session and with valid employee parameters submits them and leaves for the employee home page |
| LoginPageV1.DemoAuth | UI/UI/UI-03-APP.js:181-191 | ignores the name and decides exactly as Credentials.DemoAuth: admin for 9999/"admin", employee for any other number with "employee", refusal otherwise |
| LoginPageV1.RouteForRole | UI/UI/UI-03-APP.js:193-197 | admin maps to "#admin", employee to "#employee", and any other or missing role to "#login" |
| LoginPageV1.Route | UI/UI/UI-03-APP.js:199-258 | a signed-out visitor on a protected route is sent to "#login"; a signed-in user on the other protected route, or on "#login", is sent to their role's route; the admin view is shown exactly on "#admin" to a signed-in admin, and likewise the employee view; any other hash shows the login view, locked exactly while cooling down |
| LoginPageV1.SignedInNeverSeesLogin | UI/UI/UI-03-APP.js:210-229 | a signed-in user with a known role is never shown the login view on "#login", "#admin" or "#employee" |
| LoginPageV1.OtherHashShowsLogin | UI/UI/UI-03-APP.js:231-247 | on a hash other than the three routes, the login view is shown even to a signed-in user |
| LoginPageV1.UnknownRoleStaysOnLoginHash | UI/UI/UI-03-APP.js:215-229 | a signed-in user whose stored role is unknown is sent to "#login" from both "#login" and "#admin", so neither shows a view |
| LoginPageV1.RouteSettles | UI/UI/UI-03-APP.js:199-258 | for a signed-out visitor or a known role, a hash change that Route asks for leads to a view on the next render |
| LoginPageV1.Render | UI/UI/UI-03-APP.js:199-258 | records the current hash as the route and returns Route's decision for the controller's state |
| LoginPageV1.AfterSubmit | UI/UI/UI-03-APP.js:288-335 | a blocked submit, or a refused one that started the cooldown, re-renders; any other refused or incomplete submit shows the credentials error; a grant sets the hash to RouteForRole of the granted role |
| LoginPageV1.OnLoginSubmit | UI/UI/UI-03-APP.js:288-335 | the state and storage change as SubmitCredentials says, and the effect is AfterSubmit of that step |
| LoginPageV1.GrantedLandsOnOwnView | UI/UI/UI-03-APP.js:288-335 | after a grant, rendering on the hash the submit set shows exactly the granted role's view |
| LoginPageV1.Init | UI/UI/UI-03-APP.js:353-371 | the stored session is loaded; a signed-in user's hash is set to RouteForRole of their role, and an empty hash otherwise to "#login"; the page then renders on that hash |
| LoginPageV1.RefreshKeepsOwnView | UI/UI/UI-03-APP.js:353-371 | reloading within the session's lifetime shows a signed-in admin or employee their own view |

## Left out

- Sanitize.SanitizeText, Sanitize.SanitizeEmpNo: their own ensures only bound the length. What they guarantee is proved by SanitizeTextShape and SanitizeEmpNoShape, which are kept separate so that callers do not pay for those facts.
- DOM work is not modelled: showing and hiding views, messages, `setNavCurrent`, the who/role labels, and `disableLoginUI`. A view's lock is only the `locked` flag of `ShowLogin`.
- `startCooldownTicker` and `Math.ceil` of the seconds left: timers and message text are not modelled. `RemainingCooldownMs` gives the milliseconds.
- Event-listener wiring and `onReset` are not modelled. `onReset` only clears the form fields and the message.
- LoginPageV2.Init, LoginPageV1.Init: the start-up sequence is modelled, but not the `hashchange` event that its own hash write fires afterwards. That event runs `render` again later. The DOM lookups before `init()` are not modelled either.
- LoginController.AppState.PersistState: the write always succeeds. A storage write that throws and is swallowed is not modelled.
- SessionStore.Load: JSON values are narrowed to typed fields. An abuse field that is not a number is `None`. An identity whose fields have other JSON types, and a non-boolean truthy `isAuthed`, are not modelled. A blob that fails to parse is `None`.
- The `pinRequired` hook is not modelled: it is always false and nothing reads it.
- Each handler reads the clock once, as its `now` parameter. The few milliseconds between the source's separate `Date.now()` calls within one handler are not modelled: `savedAt` and `expiresAt` in `persistState`, and the cooldown checks and `bumpFail` in `onLoginSubmit`.
- Numbers are unbounded integers. JavaScript's floating-point times, NaN and Infinity are not modelled.
- LoginPageV2.ParamsFromQuery: URL parsing is not modelled. It takes the three query values as options. A URL that fails to parse behaves like one with no parameters, which is the same result.
- LoginPageV2.Route: the employee safety net inside the `#employee` branch cannot be reached, because a signed-in employee has already left the page earlier in `render`. The model has no separate case for it.
- LoginPageV1.OnLoginSubmit: it uses the shared `Submit`, which calls `Credentials.DemoAuth`. The three-argument `LoginPageV1.DemoAuth` is proved to decide the same way.
