# Plaited waitlist landing page: the submit logic, modelled in Dafny

The landing page is one React component. It shows a pitch and a "Join the
Waitlist" button that opens a modal form with a name field and an email field.
Submitting the form validates both fields, POSTs them to a fixed waitlist
endpoint, and reports the result in a toast that hides itself after a delay.
Apart from the markup, the component has four pieces of state (`showModal`,
`form`, `toast`, `loading`) and the handlers that update them. This project
models that state and those handlers and proves what they promise.

- `validation.dfy`, module `Validation`. The guards at the start of the submit
  handler. `IsSpace` is the ECMAScript `\s` class. `MatchesPattern` is the
  language of `/^[^\s@]+@[^\s@]+\.[^\s@]+$/`, read off the pattern's structure.
  `PatternTest` is a direct check: no whitespace, exactly one `@`, something
  before it, and a `.` inside the part after it. `PatternTestCorrect` proves the
  two agree on every string. `Validate` is the handler's two guards, in order.
- `landing.dfy`, module `Landing`. The component state as a record `View`,
  and each handler as a function on it. The network result is an input:
  `TransportFailure`, `NotOk(body)` or `Ok`. The lemmas state the outcome of
  each submit path and of the toast and form events.
- `landing_app.dfy`, module `LandingApp`. The component as a class `App`.
  Its fields are the four state variables plus the pending hide callbacks.
  Each method is one handler, written as the setter calls it makes in order;
  the submit handler's early returns, `try`/`catch` and `finally` are kept.
  Each method is proved to make exactly the transition `Landing` specifies.
- `session.dfy`, module `Session`. Runs of the page as sequences of events.
  An event is offered only when its control is on screen: the inputs and the
  submit button are inside the modal, and the submit button is disabled while
  `loading`. `RunPreservesInv` proves by induction that every reachable state
  keeps an invariant. `loading` is set exactly while a request is in flight.
  While a toast is visible, at least one hide callback is pending, and the
  newest pending one carries the toast's kind. A hidden toast has an empty
  message.

The submit handler is split at its `await`. `Submit` / `HandleSubmit` cover
the guards and setting `loading`. `Respond` / `HandleResponse` cover the
handling of the response. Other events (typing, toggling the modal, a hide
callback) can happen between the two, as they can in the page.

Hide callbacks all use the same delay, so they fire in the order they were
scheduled. Each one remembers the toast kind it was scheduled with. The model
keeps them as a queue of kinds. A hide event runs the oldest one. This shows
the race in the source: an older callback can hide a newer toast
(`StaleTimerHidesNewerToast`).

Behaviours of the code worth noting:

- A non-ok response whose body does not parse reaches the `catch`, since
  `res.json()` runs inside the `try` (src/App.js:37), and shows the
  network-error toast. A JSON `null` body does too, because reading
  `err.message` of `null` throws.
- The `.` after the `@` must be neither the first nor the last character of
  the domain part: `a@.b` and `a@b.` are rejected (`BareSeparatorsRejected`).
- The hide callback restores the toast type it was scheduled with and clears
  the message.

## Model

| member | source | states |
|---|---|---|
| `Validation.PatternTestCorrect` | src/App.js:19 | the direct check accepts a string exactly when it is in the regex's language (a run of non-space non-`@`, `@`, a run, `.`, a run) |
| `Validation.SamplesRejected` | src/App.js:19 | `foo`, `foo@bar` and `a@b` are outside the pattern |
| `Validation.BareSeparatorsRejected` | src/App.js:19 | `a@b.`, `a@.b` and `@b.c` are outside the pattern: both the `@` and the `.` need characters on both sides |
| `Validation.SpaceOrSecondAtRejected` | src/App.js:19 | `a b@c.d` (a space) and `a@b@c.d` (a second `@`) are outside the pattern |
| `Validation.Validate` | src/App.js:18-22 | "Please enter your name and email." exactly when a field is empty, whatever the email; otherwise "Please enter a valid email." exactly when the email is outside the pattern; accepted exactly when both are filled and the email matches |
| `Landing.MissingFieldsRejected` | src/App.js:21 | an empty field gives the error toast "Please enter your name and email.", no request, and no change besides the toast and its scheduled hide |
| `Landing.MalformedEmailRejected` | src/App.js:22 | filled fields with an email outside the pattern give the error toast "Please enter a valid email.", no request, and no change besides the toast and its scheduled hide |
| `Landing.RequestIffValid` | src/App.js:21-34 | a request is made exactly when both guards pass; it carries the form, and only `loading` (now true) changes |
| `Landing.MessageOr` | src/App.js:48 | the server message when present and non-empty, otherwise "An error occurred."; never empty |
| `Landing.React` | src/App.js:36-59 | every outcome's toast message is non-empty; the toast is a success exactly for an ok response or the duplicate-email body, and exactly then the modal closes and the form clears |
| `Landing.RespondSettles` | src/App.js:36-62 | after any outcome `loading` is false and a toast with a non-empty message is visible and scheduled to hide; success means modal closed and form empty, error means modal and form as they were |
| `Landing.OkJoins` | src/App.js:54-56 | an ok response shows "You're on the waitlist! 🎉" as a success, closes the modal and clears the form |
| `Landing.DuplicateJoins` | src/App.js:38-46 | message "The given data was invalid." together with "The email has already been taken." among the email errors shows "You're already on the waitlist! 🎉" as a success, closes the modal and clears the form |
| `Landing.OtherRejection` | src/App.js:47-49 | any other non-ok body shows its message, or "An error occurred." when the message is absent or empty, as an error, with modal and form unchanged |
| `Landing.FailureReportsNetworkError` | src/App.js:26-59 | a rejected fetch, an unparsable body and a null body all show "Network error. Please try again." as an error, with modal and form unchanged |
| `Landing.HideAfterShow` | src/App.js:11-14 | a toast whose hide callback is the only one pending is hidden by it: invisible, empty message, same kind, nothing else changed |
| `Landing.StaleTimerHidesNewerToast` | src/App.js:11-14 | after two toasts, the first toast's callback hides the second toast with the first kind while the second callback is still pending |
| `Landing.EditsCommute` | src/App.js:112-120 | a keystroke in one field replaces that field only; edits to the two fields commute |
| `Landing.ToggleTwice` | src/App.js:9 | toggling negates `showModal`; toggling twice restores the state |
| `LandingApp.App.constructor` | src/App.js:4-7 | the initial state: modal closed, empty form, hidden success toast with empty message, not loading, no callbacks pending |
| `LandingApp.App.ToggleModal` | src/App.js:9 | the new state is `Landing.ToggleModal` of the old one |
| `LandingApp.App.ShowToast` | src/App.js:11-14 | the new state is `Landing.ShowToast` of the old one: toast visible with the given message and kind, one more hide callback pending |
| `LandingApp.App.HideTimerFires` | src/App.js:13 | the new state is `Landing.HideToast` of the old one |
| `LandingApp.App.ChangeName` | src/App.js:112 | the new state is `Landing.ChangeName` of the old one |
| `LandingApp.App.ChangeEmail` | src/App.js:120 | the new state is `Landing.ChangeEmail` of the old one |
| `LandingApp.App.HandleSubmit` | src/App.js:16-34 | the early returns and `setLoading(true)` give the new state and request of `Landing.Submit` |
| `LandingApp.App.HandleResponse` | src/App.js:26-62 | the `try`/`catch`/`finally` gives the new state `Landing.Respond` of the old state and the outcome |
| `Validation.PatternTest` | src/App.js:19-22 | no ensures; `emailPattern.test(email)`, specified by `PatternTestCorrect` (and through it `Validate`) |
| `Landing.Submit` | src/App.js:16-24 | no ensures; the handler up to the request, specified by `MissingFieldsRejected`, `MalformedEmailRejected` and `RequestIffValid` |
| `Landing.Respond` | src/App.js:36-62 | no ensures; the handler from the response on, specified by `RespondSettles`, `React`, `OkJoins`, `DuplicateJoins`, `OtherRejection` and `FailureReportsNetworkError` |
| `Landing.IsDuplicate` | src/App.js:38-43 | no ensures; the duplicate-email test, specified by `React`, `DuplicateJoins` and `OtherRejection` |
| `Landing.ShowToast` | src/App.js:11-14 | no ensures; specified by `HideAfterShow`, `StaleTimerHidesNewerToast` and `Session.StepPreservesInv` |
| `Landing.HideToast` | src/App.js:13 | no ensures; specified by `HideAfterShow`, `StaleTimerHidesNewerToast` and `Session.StepPreservesInv` |
| `Landing.ToggleModal` | src/App.js:9 | no ensures; specified by `ToggleTwice` |
| `Landing.ChangeName` | src/App.js:112 | no ensures; specified by `EditsCommute` |
| `Landing.ChangeEmail` | src/App.js:120 | no ensures; specified by `EditsCommute` |
| `Session.Enabled` | src/App.js:100-128 | no ensures; which events the markup offers (inputs and submit inside the modal, submit disabled while `loading`), used by `NoOverlappingRequests` and `RunPreservesInv` |
| `Session.StepPreservesInv` | src/App.js:9-63 | every handler keeps the invariant: `loading` exactly while a request is in flight, a visible toast has its newest callback pending with its kind, a hidden toast has no message |
| `Session.RunPreservesInv` | src/App.js:9-63 | the invariant holds after any run of offered events |
| `Session.ReachableInv` | src/App.js:4-14 | every state reachable from the first render keeps the invariant |
| `Session.NoOverlappingRequests` | src/App.js:128 | with the submit button disabled while `loading`, no second request starts while one is in flight |
| `Session.ResponseEndsLoading` | src/App.js:60-62 | in any reachable run with a request in flight, its response is accepted and leaves `loading` false |
| `Session.SampleAccepted` | src/App.js:19-22 | name `A` with email `x@y.com` passes both guards |
| `Session.FirstSignUp` | src/App.js:16-56 | opening the modal, typing `A` and `x@y.com`, submitting and an ok response leave modal closed, form empty, the join toast visible as a success, `loading` false |

## Left out

- Rendering: the JSX, the Tailwind classes, the logo, the feature list and the spinner are presentation. The model uses the markup only for which controls are on screen, which is what `Session.Enabled` encodes.
- The network call is an input. The fetch, its URL and headers, `JSON.stringify` and the JSON parsing are not modelled. `Outcome` says only whether fetch rejected, and whether the status was ok. For a non-ok status it also says what `res.json()` gave.
- Response bodies are limited to the shape the handler reads (src/App.js:39-42): `message` is a string or absent, and `errors.email` is an array of strings or absent. A non-string `message` is not modelled. A string `errors.email` would make `includes` a substring test. A non-array, non-string `errors.email` makes `includes` throw into the `catch`. Neither is modelled. A non-object, non-null JSON body acts like `Fields(None, None)`.
- Time: the 4000 ms delay is not modelled. A hide callback fires as a separate event, in scheduling order.
- React's asynchronous, batched state updates and component unmounting are not modelled. Each setter is an immediate assignment. `toggleModal` and the `onChange` handlers read the state of the last render, which is the current state here.
- `console.error` and `e.preventDefault()` have no effect on the model's state.
- Strings are sequences of Unicode scalar values. JavaScript strings are UTF-16 code units and may hold lone surrogates, which are not modelled. No character the pattern treats specially (`@`, `.`, `\s`) lies outside the Basic Multilingual Plane, so for other strings the pattern gives the same answer.
- The browser's own form validation is not modelled: `required` on both inputs (src/App.js:114, src/App.js:122) and `type="email"` (src/App.js:117) stop the submit event in a browser when a field is empty or the value is not an email address, and an email input's value has newlines and leading and trailing whitespace stripped. `Session.Enabled(SubmitPressed)` therefore offers more runs than the page does; the invariants hold for all of them, so they hold for the page's runs too, but the missing-fields toast may never appear in a browser.
