# Telehealth page session model

A Dafny model of the client-side session logic of the Telehealth demo page
(`script.js`). The page keeps three variables for as long as it is open:
whether a user is logged in, the name it greets them with, and the ordered
list of appointments they have booked. Its event handlers change them:

- submitting the login form,
- submitting the registration form,
- logging out,
- submitting the booking form,
- the delayed callback that `joinCall` schedules to mark an appointment completed.

`updateDashboard` reads them back as counts. Two guards, `openModal` and
`showSection`, keep the booking and video-call modals and the appointments
and dashboard sections away from a logged-out visitor. `bookWithDoctor`
preselects a doctor in the booking form by a linear search.

The model has three modules:

- `JsString` (`jsstring.dfy`) covers the JavaScript string built-ins the
  handlers use: `split('@')[0]`, `charAt(0).toUpperCase() + slice(1)`, `trim()`
  and `includes`. Each has a contract that characterises its result
  independently of how it is computed.
- `Navigation` (`navigation.dfy`) covers the two guards, as pure functions of
  the logged-in flag and the target id.
- `Telehealth` (`telehealth.dfy`) has one pure step function per handler on a
  `SessionState` value, the dashboard counts, and lemmas about any sequence
  of user actions.
  - The class `Session` holds the page's three variables as fields.
  - Each method is proved to change them exactly as its step function says.
  - Each method keeps the invariant that a logged-out session has no
    appointments.
  - `SelectDoctor` is the `bookWithDoctor` loop. It is proved to select the
    first matching option.

Logging in and registering leave the appointment list as it was. The code
does not clear it (script.js:72-86). A fresh session might be expected to
start empty, but the model follows the code. The list can only be non-empty
after a login anyway, because logging out clears it and booking needs a login.

The booking handler itself checks nothing. It can only be reached through the
booking modal, which `openModal` refuses while logged out. So `Session.Book`
requires `loggedIn`. In the action semantics, `Telehealth.Apply` gives the
effect of one action, and a booking attempted while logged out changes
nothing. `Telehealth.Run` applies a sequence of actions in order.

## Model

| member | source | states |
|---|---|---|
| `JsString.ToUpperAscii` | script.js:75 | a lower-case ASCII letter becomes the matching upper-case letter; every other character is unchanged |
| `JsString.FirstField` | script.js:74 | `split('@')[0]` is a prefix of the input that contains no separator and is followed by the separator whenever it is shorter than the input |
| `JsString.FirstFieldUnique` | script.js:74 | any prefix with those three properties equals the first field, so they characterise `split(sep)[0]` completely |
| `JsString.CapitalizeFirst` | script.js:75 | same length; the first character is upper-cased and the rest is kept unchanged; the empty string stays empty |
| `JsString.TrimStart` | script.js:82 | the result is a suffix of the input; everything dropped is whitespace; the result does not start with whitespace |
| `JsString.TrimEnd` | script.js:82 | the result is a prefix of the input; everything dropped is whitespace; the result does not end with whitespace |
| `JsString.Trim` | script.js:82 | `trim()` is a slice of the input whose margins on both sides are all whitespace and which neither starts nor ends with whitespace; it is empty exactly when every character of the input is whitespace |
| `JsString.Includes` | script.js:117 | `includes(pat)` holds exactly when `pat` occurs at some position of the text |
| `Navigation.OpenModal` | script.js:22-29 | while logged out, the booking and video-call modals are refused and the login modal opens instead; otherwise the requested modal opens; a guarded modal is never shown to a logged-out visitor |
| `Navigation.ShowSection` | script.js:35-46 | the requested section is shown exactly when the visitor is logged in or the section is not appointments/dashboard; otherwise the login modal opens |
| `Navigation.LoggedOutRefusals` | script.js:22-40 | while logged out, the refused modals are exactly booking/video-call and the refused sections exactly appointments/dashboard |
| `Navigation.LoggedInNeverRedirected` | script.js:22-40 | a logged-in user is never redirected by either guard |
| `Telehealth.DisplayName` | script.js:74-75 | the name after login is the part of the email before the first '@' (all of it when there is none), with only its first character upper-cased |
| `Telehealth.DisplayNameOfEmail` | script.js:74-75 | logging in as `local@domain`, with no '@' in `local`, shows `local` capitalised |
| `Telehealth.RegisteredName` | script.js:81-84 | a name that is all whitespace (or empty) becomes "User"; any other name is kept exactly as typed, not trimmed |
| `Telehealth.ReasonLabel` | script.js:185 | the reason line shown in the list is never empty; it is the reason when one was given, and "General Consultation" otherwise |
| `Telehealth.AfterLogin` | script.js:72-77 | login sets logged-in, sets the derived display name and leaves the appointment list untouched |
| `Telehealth.AfterRegister` | script.js:79-86 | registration sets logged-in, sets the registered name and leaves the appointment list untouched |
| `Telehealth.AfterLogout` | script.js:60-68 | logout leaves a logged-out "Guest" with an empty list |
| `Telehealth.AfterBook` | script.js:88-97 | booking appends exactly one record with the given fields and status upcoming; every earlier record and the session fields are unchanged |
| `Telehealth.AfterComplete` | script.js:129-135 | for an existing index only that record changes, and only its status (to completed); for any other index nothing changes; the invariant is kept |
| `Telehealth.Count` | script.js:149-150 | a status count never exceeds the list length |
| `Telehealth.CountsAddUp` | script.js:149-150 | upcoming plus completed equals the list length |
| `Telehealth.CountAppend` | script.js:149-150 | appending a record adds one to the count of its status and nothing to the other |
| `Telehealth.CountUpdate` | script.js:149-150 | changing one record's status moves it from its old status count to its new one |
| `Telehealth.SummaryOf` | script.js:148-161 | total is the list length; upcoming plus completed equals total; a most-recent doctor exists exactly when the list is non-empty, and it is the last record's doctor |
| `Telehealth.SummaryAfterLogout` | script.js:60-68 | after logout the dashboard shows 0, 0, 0 and no recent activity |
| `Telehealth.SummaryAfterBook` | script.js:88-99 | a booking adds one to the total and to upcoming, keeps completed, and its doctor becomes the most recent |
| `Telehealth.SummaryAfterComplete` | script.js:129-135 | completing an upcoming record moves one from upcoming to completed; completing a completed one changes no figure |
| `Telehealth.Initial` | script.js:3-5 | the page starts logged out, as "Guest", with no appointments |
| `Telehealth.Apply` | script.js:22-27 | one user action: every action keeps "logged out implies an empty list"; a booking while logged out is refused by the booking modal's guard and changes nothing; a booking while logged in is `AfterBook` (script.js:88-97) |
| `Telehealth.RunKeepsInv` | script.js:60-135 | any sequence of actions, applied one after another by `Run`, keeps the invariant |
| `Telehealth.ReachableKeepsInv` | script.js:3-207 | every state reachable from the initial state satisfies the invariant |
| `Telehealth.BookingsAddUp` | script.js:88-97 | a run of n bookings while logged in keeps every earlier record and raises the total by exactly n |
| `Telehealth.CompleteIdempotent` | script.js:129-135 | completing the same index twice is the same as completing it once |
| `Telehealth.CompletedStaysCompleted` | script.js:72-135 | under any actions other than logout, a completed record stays at its index, unchanged |
| `Telehealth.StaleCallbackCompletesNewRecord` | script.js:129-135 | the completion callback looks the index up when it fires: after logout, a new login and a new booking, a pending callback for index 0 completes the new record |
| `Telehealth.LoginScenario` | script.js:72-77 | logging in as "jane.doe@example.com" shows "Jane.doe" |
| `Telehealth.RegisterScenario` | script.js:79-86 | registering with a blank name logs in as "User" |
| `Telehealth.BookThenCompleteScenario` | script.js:88-135 | after login and one booking the dashboard shows 1, 1, 0 and "Dr. Smith"; after completing it, 1, 0, 1 and "Dr. Smith" |
| `Telehealth.FirstMatching` | script.js:116-121 | the first index whose option text includes the name: it matches and no earlier option does; none when no option matches |
| `Telehealth.FirstMatchingIsFirst` | script.js:116-121 | a matching index with no earlier match is the first match |
| `Telehealth.SelectDoctor` | script.js:116-121 | the loop selects the first matching option, and keeps the previous selection when none matches |
| `Telehealth.Session.constructor` | script.js:3-5 | the page's variables start in the initial state, which satisfies the invariant |
| `Telehealth.Session.Login` | script.js:72-77 | the fields change as `AfterLogin` says, and the invariant holds |
| `Telehealth.Session.Register` | script.js:79-86 | the fields change as `AfterRegister` says, and the invariant holds |
| `Telehealth.Session.Logout` | script.js:60-68 | the fields change as `AfterLogout` says, and the invariant holds |
| `Telehealth.Session.Book` | script.js:88-97 | returns the new upcoming record; the fields change as `AfterBook` says and the invariant is kept |
| `Telehealth.Session.Complete` | script.js:129-135 | the fields change as `AfterComplete` says and the invariant is kept |
| `Telehealth.Session.Dashboard` | script.js:148-155 | the dashboard figures of the current list: upcoming plus completed equals the total, which is the list length |
| `Telehealth.Session.BookWithDoctor` | script.js:109-123 | logged out: the selection is unchanged and the login modal opens. Logged in: the first matching option is selected (or the selection is kept) and the booking modal opens |

## Left out

- DOM manipulation is not modelled. This covers element lookups,
  `classList` changes, `style.display`, `alert`, `closeModal`,
  `closeAllModals`, `toggleUserDropdown` and the click-outside handler.
  These are presentation side effects on elements outside the model.
- The values read from form fields become method parameters. The same holds
  for the booking form's list of option texts and its `selectedIndex`.
- Rendering is not modelled: the HTML built by `updateAppointmentsList` and
  the recent-activity text. Only the reason fallback is modelled, as
  `ReasonLabel`.
- The user interface's section and modal changes after login, booking and
  logout (`showSection('dashboard')` and the like) are not modelled.
- The ten-second `setTimeout` in `joinCall` is not modelled as time. Its
  callback is the separate later call `Complete(index)`. A callback that
  fires while no record exists at `index` does nothing. One that fires
  after a logout, a new login and a new booking completes the new record at
  that index (`StaleCallbackCompletesNewRecord`).
- `Session.Book` requires `loggedIn`, standing for the booking modal's
  guard. The handler does not check it itself. `updateUIForLogout` does not
  close an open booking modal, and the model does not capture the page
  state in which such a modal stays open across a logout.
- Appointments are stored as a sequence of values that is reassigned. JS
  object identity and aliasing are not modelled; no other code holds
  references to the records.
- `ToUpperAscii` upper-cases ASCII letters only. JavaScript's full Unicode
  `toUpperCase` is not modelled: it also maps non-ASCII letters and can
  lengthen a string, as 'ß' becomes "SS".
- Strings are sequences of Unicode scalar values, not UTF-16 code units.
  So `charAt(0)` on a surrogate pair is not modelled.
