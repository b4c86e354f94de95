# BrowserID: wsapi authorisation layer and sign-in dialog controller

This project models two parts of BrowserID, Mozilla's email-based sign-in
system, in Dafny and proves properties of the models.

**The server's wsapi layer** (`lib/wsapi.js`). This is what stands in front of
every `/wsapi/<operation>` call. It contains:

- the session helpers: `clearAuthenticatedUser`, `setAuthenticatedUser`, and
  the lazy expiry check `isAuthed`;
- the start-up loop that builds the operation registry from the files of the
  `wsapi/` directory;
- the request pipeline: the session is attached only under `/wsapi`, then the
  CSRF guard screens every POST, then the dispatch middleware resolves the
  operation, applies the authentication gate and validates the arguments. Only
  then does it run the operation.

**The client's dialog controller**
(`resources/static/dialog/controllers/dialog_controller.js`). It subscribes to
the protocol messages of the page's hub (`user_staged`, `email_confirmed`,
`assertion_generated`, `cancel`, …). It answers each one by asking a
collaborator for something: a `user.*` network call, a UI sub-controller, an
error panel, or the relying party's callbacks.

The modules:

- `common.dfy`: `Option`, `Result`, prefix tests and ASCII lower-casing.
- `sessions.dfy`: the session as a map from keys to values, in the class
  `Session`, and the reference function `AuthCheck` for `isAuthed`.
  - `Date.parse` is abstracted by what it yields: a millisecond count or NaN.
  - The test `!Date.parse(x) > 0` is modelled as JavaScript reads it: it
    rejects only NaN and 0.
- `registry.dfy`: the directory listing is a sequence of (file name, loaded
  module) pairs.
  - `Setup` is the registration loop.
  - `Registry` is its reference definition.
  - A module whose `args` is not an array aborts start-up. This is modelled as a
    `Failure` carrying the message the code throws.
- `router.dfy`: the request pipeline over a registry `Table`.
  - The methods `CsrfGuard`, `DispatchRequest` and `HandleRequest` run on a
    `Session` object.
  - The pure functions `CsrfViolation`, `Dispatch` and `Serve` are their
    reference definitions.
  - The outcomes are `Next`, `BadRequest(reason)`, `ArgsRejected`, `Processed`
    and `ServerError`.
  - `ServerError` is the exception `isAuthed` throws when an authenticated
    operation is reached with no session attached. This happens when the url
    does not start with `/wsapi` but its pathname does.
- `dialog.dfy`: the class `DialogController`.
  - Its fields are the controller's `onsuccess`, `onerror` and `confirmEmail`.
    The module-level `offline` flag and `subscriptions` array are fields too.
  - An effect log records every request the controller makes of a
    collaborator, in order.
  - The hub is replaced by the controller's own subscription table.
  - `Transition` and `Run` are the pure specification of one step and of a
    sequence of steps. The class method `Step` and the handler methods `Do…`
    are proved to follow them.
  - A call to `onsuccess` records the `onerror` the controller held at that
    moment, so the clear-before-call ordering can be stated and proved.

Inputs that the code reads from its environment become parameters:

- the clock (`now`);
- `authentication_duration_ms` (`duration`);
- `only_write_apis`;
- the verdict of the external `validate` module on a request (`accepts`);
- whether `setupChannel` succeeds (`channelReady`);
- whether `navigator.onLine` is false (`navigatorOffline`).

Four points of the dialog code that the model keeps as written:

- `user.getAssertion`'s success handler (line 253) passes its result straight
  to `doAssertionGenerated`; only the `assertion_generated` handler
  (lines 148-155) checks for null.
- `doCancel` (lines 212-217) unsubscribes nothing, so messages after `cancel`
  are still handled.
- The `xhrError` subscription's handler has its body commented out
  (lines 124-127), so the message does nothing; `DoXHRError` is modelled but
  no message reaches it.
- `doCancel` (lines 212-217) calls `onsuccess(null)` without clearing
  `onerror`, although the comment at lines 259-261 says the success callback's
  `window.close` triggers `onerror` unless it was cleared. `CancelCallsSuccessIffSet`
  records the `onerror` still held at that call, and `NoErrorCallbackAtSuccess`
  is stated for non-null results only because of this case.

## Model

| member | source | states |
|---|---|---|
| `Common.LowerFolds` | lib/wsapi.js:216 | the lower-cased string holds no ASCII capital and lower-casing is idempotent, so `POST` and `post` compare equal after it |
| `Sessions.Cleared` | lib/wsapi.js:29-33 | the cleared session holds exactly the `csrf` key of the original, with its value |
| `Sessions.WithUser` | lib/wsapi.js:75-78 | a sign-in adds `authenticatedUser` and `authenticatedAt`, and leaves every other key as it was |
| `Sessions.Session.ClearAuthenticatedUser` | lib/wsapi.js:29-33 | deleting key by key leaves the session equal to `Cleared` of the old one |
| `Sessions.Session.IsAuthed` | lib/wsapi.js:35-53 | returns and leaves exactly what `AuthCheck` says; a bad or expired timestamp clears the session |
| `Sessions.Session.SetAuthenticatedUser` | lib/wsapi.js:75-78 | the new session is `WithUser` of the old one at the current time |
| `Sessions.ClearKeepsOnlyCsrf` | lib/wsapi.js:29-33 | clearing keeps only `csrf`, keeps it exactly when it was present, and is idempotent |
| `Sessions.AuthCheckIff` | lib/wsapi.js:35-53 | `isAuthed` yields a user if and only if a truthy user has a timestamp that is not NaN or 0 and lies within the window; the user yielded is the stored, truthy one |
| `Sessions.AuthCheckSessionEffect` | lib/wsapi.js:35-53 | no user or a current sign-in leaves the session unchanged; a stale one clears user and timestamp; `csrf` always survives |
| `Sessions.SignInRoundTrip` | lib/wsapi.js:35-78 | after `setAuthenticatedUser`, `isAuthed` returns the same email while within the window, and clears the session after it |
| `Sessions.NegativeTimestampNotBad` | lib/wsapi.js:39 | as operator precedence makes the test read, a pre-1970 timestamp is not rejected as bad; only the window can reject it |
| `Sessions.WeekWindowScenario` | lib/wsapi.js:35-53 | with a one-week window, a fresh sign-in is accepted and an eight-day-old one leaves only the `csrf` token |
| `Sessions.DateStringStampAccepted` | lib/wsapi.js:38-45 | a sign-in time stored as a date string is checked like a `Date` object, and a current one is accepted |
| `Registry.Setup` | lib/wsapi.js:174-208 | the registration loop returns exactly the reference `Registry` of the listing, including the error of the first module with non-array `args` |
| `Registry.FailureIsFinal` | lib/wsapi.js:200-204 | once a file fails to register, the rest of the listing cannot undo the failure or change its message |
| `Registry.FailsIff` | lib/wsapi.js:179-204 | start-up fails if and only if some loaded, unfiltered module has non-array `args`; the message names the first such operation |
| `Registry.RegisteredIff` | lib/wsapi.js:177-190 | on success, an operation is registered exactly when some kept file is named after it |
| `Registry.RegisteredFromLastFile` | lib/wsapi.js:190-198 | a registered operation carries the module of the last kept file with its name, and its validator |
| `Registry.OnlyWritersRegistered` | lib/wsapi.js:186 | with `only_write_apis`, every registered operation writes to the database |
| `Registry.AllFilesRegistered` | lib/wsapi.js:177-190 | without the filter, every `.js` file that is not a dot-file and is longer than `.js` becomes an operation |
| `Registry.ApiFileShape` | lib/wsapi.js:179-180 | a file is loaded exactly when it is a non-empty name that does not start with a dot, followed by `.js` |
| `Router.NoArgsAlwaysProcessed` | lib/wsapi.js:196-198 | a module without `args` gets the validator that always continues, so `process` runs whatever the request carries |
| `Router.NamedArgsCheckedIff` | lib/wsapi.js:193-195 | a module with an `args` array runs `process` exactly when the validator accepts the request for those names, and otherwise the validator replies |
| `Router.CsrfGuard` | lib/wsapi.js:138-169 | the guard denies exactly the requests `CsrfViolation` describes |
| `Router.DispatchRequest` | lib/wsapi.js:210-234 | the dispatch middleware yields the outcome and leaves the session as the reference `Dispatch` does |
| `Router.HandleRequest` | lib/wsapi.js:111-234 | one request through the layer yields the outcome and written-back session of the reference `Serve` |
| `Router.ProcessedIff` | lib/wsapi.js:138-234 | `process` runs if and only if the request passes CSRF, names a registered operation with a matching method, carries a current sign-in when required, and has its arguments accepted |
| `Router.TokenMismatchDenied` | lib/wsapi.js:158-165 | a POST whose body token differs from the session's is refused with "CSRF violation", leaving the session untouched |
| `Router.PostOutsideApiDenied` | lib/wsapi.js:142-145 | a POST outside `/wsapi` is refused, and no session is attached to it |
| `Router.CsrfPassIff` | lib/wsapi.js:140-165 | a POST under `/wsapi` passes exactly when the session holds a string token equal to the body's |
| `Router.DateStringTokenPasses` | lib/wsapi.js:153-159 | a session token that reads as a date is still a string, and passes when the body carries the same token |
| `Router.NonPostNotScreened` | lib/wsapi.js:140 | the guard never refuses a request whose method is not exactly "POST" |
| `Router.SignInRequiredDenied` | lib/wsapi.js:219-221 | an authenticated operation without a current sign-in is refused with "requires authentication"; the written-back session is untouched when nobody signed in, and keeps only `csrf` when the sign-in was stale |
| `Router.UnknownAndWrongMethodAlike` | lib/wsapi.js:215-229 | an unknown operation and a wrong method both get "no such api", with the session unchanged |
| `Router.OtherPathsPassThrough` | lib/wsapi.js:231-233 | a request outside `/wsapi/` that passes the guard is handed on, with the session unchanged |
| `Router.LowerCasePostNotScreened` | lib/wsapi.js:138-216 | the guard compares the method case-sensitively and dispatch does not, so a method string "post" is not screened yet reaches a POST operation; whether such a method arrives at all is up to the HTTP parser |
| `Dialog.TopicIndex` | resources/static/dialog/controllers/dialog_controller.js:116-185 | every message the controller handles has its topic among the ones `stateMachine` subscribes |
| `Dialog.NewSubsAt` | resources/static/dialog/controllers/dialog_controller.js:54-56 | the i-th subscription added carries the i-th topic and the handle issued i-th |
| `Dialog.AppendNewSubs` | resources/static/dialog/controllers/dialog_controller.js:54-56 | appending freshly issued subscriptions keeps handles positive, distinct and below the next one |
| `Dialog.DialogController.constructor` | resources/static/dialog/controllers/dialog_controller.js:45-52 | the controller starts with no callbacks, not offline, no subscriptions and an empty log |
| `Dialog.DialogController.Init` | resources/static/dialog/controllers/dialog_controller.js:59-82 | resets `offline` and both callbacks; subscribes every topic when the channel is set up, else renders the relay-setup error and subscribes nothing |
| `Dialog.DialogController.Subscribe` | resources/static/dialog/controllers/dialog_controller.js:54-56 | appends one subscription with the next handle, and changes nothing else |
| `Dialog.DialogController.StateMachine` | resources/static/dialog/controllers/dialog_controller.js:116-185 | appends one subscription per topic, in order, with consecutive handles |
| `Dialog.DialogController.Destroy` | resources/static/dialog/controllers/dialog_controller.js:84-92 | empties the table, unsubscribing from the last handle to the first, then tears down the base controller |
| `Dialog.DialogController.GetVerifiedEmail` | resources/static/dialog/controllers/dialog_controller.js:94-113 | stores both callbacks; offline, it shows the offline error and stops; otherwise it sets the origin, shows the site name, starts the authentication check and binds unload |
| `Dialog.DialogController.Step` | resources/static/dialog/controllers/dialog_controller.js:116-288 | one event changes the state and extends the log exactly as `Transition` does, and keeps the subscription table well formed |
| `Dialog.DialogController.DoOffline` | resources/static/dialog/controllers/dialog_controller.js:187-190 | shows the offline error, then sets `offline` |
| `Dialog.DialogController.DoXHRError` | resources/static/dialog/controllers/dialog_controller.js:192-198 | shows the XHR error only while not offline |
| `Dialog.DialogController.DoConfirmUser` | resources/static/dialog/controllers/dialog_controller.js:200-210 | remembers the email and starts polling for the user's confirmation |
| `Dialog.DialogController.DoCancel` | resources/static/dialog/controllers/dialog_controller.js:212-217 | calls `onsuccess(null)` only when `onsuccess` is set |
| `Dialog.DialogController.DoPickEmail` | resources/static/dialog/controllers/dialog_controller.js:219-226 | opens the pick-email panel |
| `Dialog.DialogController.DoAuthenticate` | resources/static/dialog/controllers/dialog_controller.js:228-230 | opens the authenticate panel with the given prefill |
| `Dialog.DialogController.DoForgotPassword` | resources/static/dialog/controllers/dialog_controller.js:232-236 | opens the forgot-password panel for the email |
| `Dialog.DialogController.DoConfirmEmail` | resources/static/dialog/controllers/dialog_controller.js:238-248 | remembers the email and starts polling for the new address's confirmation |
| `Dialog.DialogController.DoEmailConfirmed` | resources/static/dialog/controllers/dialog_controller.js:250-255 | requests an assertion for the remembered email |
| `Dialog.DialogController.DoAssertionGenerated` | resources/static/dialog/controllers/dialog_controller.js:257-264 | clears `onerror` before calling `onsuccess`; with no `onsuccess` the call fails |
| `Dialog.DialogController.DoNotMe` | resources/static/dialog/controllers/dialog_controller.js:266-269 | requests a logout |
| `Dialog.DialogController.SyncEmails` | resources/static/dialog/controllers/dialog_controller.js:271-275 | requests an email sync |
| `Dialog.DialogController.DoCheckAuth` | resources/static/dialog/controllers/dialog_controller.js:277-288 | requests the authentication check and sync |
| `Dialog.DeliverFacts` | resources/static/dialog/controllers/dialog_controller.js:116-185 | no handler touches the subscription table or resets `offline`; only staging handlers change the remembered email; assertions are requested only for the remembered email |
| `Dialog.TransitionKeepsTable` | resources/static/dialog/controllers/dialog_controller.js:116-288 | no step changes the subscription table or leaves the offline state, and every non-null success is called with `onerror` cleared |
| `Dialog.StepStaging` | resources/static/dialog/controllers/dialog_controller.js:200-255 | a step changes the remembered email only to the email of a staging message |
| `Dialog.NoErrorCallbackAtSuccess` | resources/static/dialog/controllers/dialog_controller.js:257-264 | over any run, `onsuccess` never receives a non-null result while an `onerror` is still set |
| `Dialog.AssertionOnlyForStagedEmail` | resources/static/dialog/controllers/dialog_controller.js:200-255 | over any run, assertions are requested only for an email that was staged during the run, or was held before it |
| `Dialog.RunKeepsSubscriptions` | resources/static/dialog/controllers/dialog_controller.js:116-288 | a run never changes the subscription table, and once offline the controller stays offline |
| `Dialog.UnsubscribedIgnoresMessages` | resources/static/dialog/controllers/dialog_controller.js:84-92 | after `destroy` emptied the table, hub messages change nothing and request nothing |
| `Dialog.UnsubscribesEvery` | resources/static/dialog/controllers/dialog_controller.js:84-92 | `destroy` unsubscribes each held handle exactly once, from the last to the first |
| `Dialog.SubscribedAfterStateMachine` | resources/static/dialog/controllers/dialog_controller.js:116-185 | after `stateMachine`, every message the controller handles has a subscription |
| `Dialog.StagingRemembersEmail` | resources/static/dialog/controllers/dialog_controller.js:129-159 | `user_staged`, `reset_password` and `email_staged` remember the email and start the matching confirmation poll |
| `Dialog.ConfirmedRequestsAssertion` | resources/static/dialog/controllers/dialog_controller.js:133-163 | `user_confirmed` and `email_confirmed` request an assertion for the remembered email, and change nothing |
| `Dialog.AssertionGeneratedOutcome` | resources/static/dialog/controllers/dialog_controller.js:148-155 | a non-null assertion clears `onerror` and goes to `onsuccess`; a null one returns to picking an email |
| `Dialog.CancelCallsSuccessIffSet` | resources/static/dialog/controllers/dialog_controller.js:181-183 | `cancel` calls `onsuccess(null)` once if and only if `onsuccess` is set, and changes no state |
| `Dialog.XhrErrorSuppressedOffline` | resources/static/dialog/controllers/dialog_controller.js:187-198 | the XHR error panel appears if and only if not offline, and never after `doOffline` |
| `Dialog.CheckAuthRouting` | resources/static/dialog/controllers/dialog_controller.js:277-288 | the authentication check leads to picking an email when signed in, and to authentication otherwise |
| `Dialog.StageThenConfirm` | resources/static/dialog/controllers/dialog_controller.js:129-135 | staging a user and then confirming requests an assertion for the staged email |
| `Dialog.TransitionWellFormed` | resources/static/dialog/controllers/dialog_controller.js:54-56 | every step keeps the subscription table well formed |

## Left out

- `bcryptPassword` (lib/wsapi.js:55-73) is not modelled. It only wraps the external bcrypt library, with no logic of its own besides forwarding errors.
- Cookie encryption, the cookie's attributes, the `Cache-Control` header and `proxySecure` are not modelled. They are settings passed to external middleware. The session cookie is given already decoded, as `cookie`.
- Express's cookie and body parsers, logging and `require` are not modelled. The directory listing and the loaded modules are an input, and the body's `csrf` field is `Option<string>`.
- The `validate` module is external. Its verdict is the parameter `accepts`, and its error reply is the outcome `ArgsRejected`.
- `url.parse` is not modelled. The request carries the pathname it would yield.
- `Sessions.WithUser`: the email `setAuthenticatedUser` stores is given the date reading NaN; nothing reads that key as a date.
- `Router.LowerCasePostNotScreened`: Node's HTTP parser, which decides whether a lower-case method reaches the layer, is not part of this model.
- `Router.CsrfGuard`: the comparison `req.body.csrf != req.session.csrf` is loose. The model treats the body token as an optional string, so type coercion of non-string bodies is not captured.
- `Common.Lower` folds only ASCII letters, not all of Unicode.
- `Sessions.AuthCheck`: dates are abstracted by one value, what `Date.parse` yields in whole milliseconds, and `new Date() - new Date(x)` uses that same value. This is exact for a stored string. For a stored `Date` object it is not: `Date.parse` reads the object through `toString()`, which drops the milliseconds, while `new Date(x)` keeps them. So a `Date` stamp within the first second of 1970 is a bad timestamp in the code but is accepted by `AuthCheck`, and `SignInRoundTrip`'s `t != 0` would read "t outside [0, 1000)". Stamps come from `new Date()` at sign-in, so such a stamp does not arise.
- Session values (`Sessions.Value`) are limited to strings, `Date` objects, booleans and null. The cookie session is JSON and could also hold numbers, objects and arrays (a number `csrf`, a user of `0`); these are not modelled.
- The operation's `process` function and `httputils.badRequest` are external. Reaching them is the outcome, `Processed` or `BadRequest`.
- The OpenAjax hub is replaced by the controller's own subscription table. Each subscribed topic has one handler, so a topic subscribed twice is not delivered twice. Publishing to other subscribers is not modelled.
- `Dialog.DialogController.StateMachine` subscribes the thirteen topics with a loop over `Topics`, rather than as thirteen calls. Which handler answers which topic is given by `Deliver`.
- The DOM and UI sub-controllers (`checkregistration`, `pickemail`, `authenticate`, `forgotpassword`), `renderError`, `getErrorDialog` and the `user.*` calls are external. Each request to them is an effect in the log. The completion callbacks that come back are the events of `Transition`: `AuthCheckDone`, `EmailsSynced`, `LoggedOut` and `AssertionReady`.
- The unload handler bound in `getVerifiedEmail` is not run. Only the binding is logged.
- The `options.window` override in `init` is not modelled, because the window is only used as the route to `setupChannel`.
- `DoXHRError` and `DoForgotPassword` are modelled, but no subscription reaches them: the `xhrError` handler in the code is commented out, and no topic is routed to forgot-password.
- `Dialog.DialogController.DoXHRError`: the code renders `$.extend({action: errors.xhrError}, info)`, so the caller's `info` could add fields or override `action`. The model takes no `info` and always renders the xhrError action; since no message reaches the handler, no caller supplies an `info`.
- The `logoutUser` success callback passes its own argument to `doAuthenticate`. That argument is not modelled, and the step is modelled as authenticating with no prefill.
- The communication iframe and the email-verification page are not part of this model.
