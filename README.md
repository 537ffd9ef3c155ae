# Restaurant reservation form and admin dashboard: a verified model

This project is a Dafny model of the two parts of the reservation app that hold
logic.

- **The reservation intake form** (`ReservationForm`, `src/components/card/card.jsx`).
  - The phone check (`^\+?\d{10,15}$`) and the error text it sets.
  - The two triggers that re-run the check: typing and leaving the field.
  - The submit button's `disabled` rule.
  - The submit handler. It guards, inserts the reservation, invokes the
    `reservation` notification function for the staff, and resets all seven
    fields.
- **The admin dashboard** (`AdminDashboard`, `src/components/admin-dash/AdminDashboard.jsx`).
  - Its local list of pending reservations.
  - The snapshot callback, which replaces the list.
  - The realtime INSERT callback, which prepends to it.
  - `handleConfirm`. It updates the store, notifies the requester, and removes
    the entry from the list.

The hosted backend is a `Store` object. It holds the `reservations` table and a
log of every insert, update and function call sent to it. The dashboard's
snapshot query is not logged: its result is a parameter of `OnSnapshot`, not
derived from the table. Whether a logged request succeeds is not decided by
the model: each handler takes an `Outcome` (`Success` or `Failure`) per request.
This lets the contracts say which of these requests are sent, in which order,
and that nothing else happens.

Files:
- `records.dfy`: the shared values (reservation row, insert request, function
  body, request log entries, outcomes).
- `phone.dfy`: the phone pattern, as a regex matcher and as a direct
  description, proved equal.
- `backend.dfy`: the store, and what an update does to the table.
- `reservation_form.dfy`: the form as a class with the component's state fields.
- `admin_dashboard.dfy`: the dashboard as a class over `seq<Reservation>`.
- `scenarios.dfy`: client runs built only from the components' contracts.

React state updates take effect at the next render. So inside `handleSubmit`,
the guard at `card.jsx:44` reads the `phoneError` the render captured, not the
one `validatePhone(phone)` has just set. `Form.HandleSubmit` keeps that
behaviour: its guard is `SubmitProceeds(old(phoneError), …)`. See "## Findings".

Behaviours worth noting, all as the code has them:
- A failed snapshot leaves the list as it was. It does not clear it
  (`AdminDashboard.jsx:25-29`).
- The live feed handles INSERT events only. Nothing handles UPDATE events.
- INSERT prepends with no de-duplication by id.
- The confirmation writes the text `"true"`, while the snapshot filters on the
  boolean `false`. `FlagValue` keeps the two kinds apart.

## Model

| member | source | states |
|---|---|---|
| `Phone.DigitsToEndMatchesDigitRun` | src/components/card/card.jsx:33 | Matching `\d{10,15}$` after `n` digits succeeds exactly when the rest is all ASCII digits and `n` plus its length is between 10 and 15 |
| `Phone.RegexTest` | src/components/card/card.jsx:33-34 | `phoneRegex.test(s)` (optional `+` tried taken, then skipped) accepts exactly the strings made of an optional `+` and 10–15 ASCII digits, both directions |
| `Phone.PhoneError` | src/components/card/card.jsx:32-39 | The error `validatePhone(v)` sets is empty exactly when `v` is a phone number, and is otherwise the fixed text "Enter a valid phone number (10–15 digits)"; it depends on `v` alone |
| `Phone.PhoneErrorExamples` | src/components/card/card.jsx:32-39 | "5551234567" and "+15551234567" are accepted; "123" and "abc1234567" get the error text |
| `Backend.SetAdminResponse` | src/components/admin-dash/AdminDashboard.jsx:55-58 | The update keeps every row and its position. Rows with another id are unchanged. Rows with that id differ only in `adminResponse`, which takes the written value |
| `Backend.ConfirmLeavesPendingFilter` | src/components/admin-dash/AdminDashboard.jsx:19-58 | After writing `"true"` to an id, a row matches the snapshot's `adminResponse = false` filter exactly when it has another id and matched it before |
| `Backend.Store.Insert` | src/components/card/card.jsx:55-62 | Logs one insert request. On success it appends a row with a fresh id, the request's fields and the pending flag. On failure the table is unchanged. Ids stay unique |
| `Backend.UpdateChangesAtMostOneRow` | src/components/admin-dash/AdminDashboard.jsx:55-58 | With unique ids, the update by id leaves all rows but at most one unchanged |
| `Backend.Created` | src/components/card/card.jsx:55-62 | The inserted row: the request's phone, message, reservation time and party size, an id picked by the store, and the pending `adminResponse` value (the column default) |
| `Backend.Store.Update` | src/components/admin-dash/AdminDashboard.jsx:55-58 | Logs one update request. On success the table becomes `SetAdminResponse` of the old table, and at most one row changes, because ids are unique. On failure the table is unchanged |
| `Backend.Store.Invoke` | src/components/card/card.jsx:70-81 | Logs one function call with its name and body. The table is not touched |
| `ReservationForm.SubmitDisabled` | src/components/card/card.jsx:183-191 | The button is disabled when phone, date, time, party size or message is empty, when an error is shown, or while loading |
| `ReservationForm.SubmitProceeds` | src/components/card/card.jsx:44 | The guard as written: it passes only when the captured error is empty and a date and a time are chosen |
| `ReservationForm.StaffNotice` | src/components/card/card.jsx:73-79 | The staff notice carries the inserted phone, message, date-time and party size, with `notifyStaff` true |
| `ReservationForm.Form.Request` | src/components/card/card.jsx:55-61 | The inserted row is built from the current phone, message, party size and the combined date and time |
| `ReservationForm.EnabledSubmitProceeds` | src/components/card/card.jsx:183-191 | When the button is enabled, every field is filled, the shown error is empty and nothing is loading. Then the handler's guard at :44 lets a submit through |
| `ReservationForm.StaleErrorAdmitsInvalidPhone` | src/components/card/card.jsx:43-44 | With "123" typed, no error shown yet and the other fields filled, the button is enabled and the guard proceeds, yet "123" is no phone number |
| `ReservationForm.FreshGuardAdmitsOnlyPhoneNumbers` | src/components/card/card.jsx:43-44 | A guard that reads the freshly computed error passes only phone numbers with a date and a time chosen |
| `ReservationForm.Form.constructor` | src/components/card/card.jsx:24-30 | Initial state: empty phone, error and message, no date, time or party size, not loading |
| `ReservationForm.Form.ValidatePhone` | src/components/card/card.jsx:32-39 | Sets only `phoneError`, to `PhoneError(v)`, whatever it was before. So it is idempotent, and the error is empty exactly when `v` matches the pattern |
| `ReservationForm.Form.OnPhoneChange` | src/components/card/card.jsx:125-128 | Stores the typed value. Revalidates only when an error is shown; an empty error stays empty |
| `ReservationForm.Form.OnPhoneBlur` | src/components/card/card.jsx:129 | Leaving the field always revalidates |
| `ReservationForm.Form.OnDateChange` | src/components/card/card.jsx:135 | Sets only the date |
| `ReservationForm.Form.OnTimeChange` | src/components/card/card.jsx:144 | Sets only the time |
| `ReservationForm.Form.OnPartySizeChange` | src/components/card/card.jsx:156 | Sets only the party size |
| `ReservationForm.Form.OnMessageChange` | src/components/card/card.jsx:174 | Sets only the message |
| `ReservationForm.Form.PlaceReservation` | src/components/card/card.jsx:45-100 | Failed insert: only the insert is sent, no function call, fields unchanged, `loading` false. Successful insert: the insert, then exactly one call whose phone, message, date-time and party size equal the inserted ones with `notifyStaff` true, then every field reset, whatever the call reported |
| `ReservationForm.Form.HandleSubmit` | src/components/card/card.jsx:41-101 | When the captured error is non-empty, or there is no date or time: no request is sent, the store is unchanged and only `phoneError` is revalidated. Otherwise it behaves as `PlaceReservation` |
| `ReservationForm.Form.HandleSubmitRevalidated` | src/components/card/card.jsx:41-101 | The handler with its guard on the fresh error: same steps, and every insert it sends carries a phone number |
| `AdminDashboard.WithoutId` | src/components/admin-dash/AdminDashboard.jsx:83 | The filter leaves no entry with that id. Every other entry keeps its multiplicity and its relative order (a subsequence). A list without that id comes back unchanged |
| `AdminDashboard.WithoutIdLength` | src/components/admin-dash/AdminDashboard.jsx:83 | The filter drops exactly as many entries as carry that id |
| `AdminDashboard.WithoutIdIdempotent` | src/components/admin-dash/AdminDashboard.jsx:83 | Confirming the same id twice removes nothing more |
| `AdminDashboard.ConfirmationNotice` | src/components/admin-dash/AdminDashboard.jsx:66-74 | The confirmation notice carries the given phone, the fixed message "Your order has been confirmed!", no date-time or party size, and `notifyStaff` false |
| `AdminDashboard.Dashboard.constructor` | src/components/admin-dash/AdminDashboard.jsx:10 | The list starts empty |
| `AdminDashboard.Dashboard.OnSnapshot` | src/components/admin-dash/AdminDashboard.jsx:24-29 | Returned data replaces the list wholesale. An error leaves the list unchanged |
| `AdminDashboard.Dashboard.OnInsert` | src/components/admin-dash/AdminDashboard.jsx:36-38 | The list grows by exactly one: the new record first, then the old entries unchanged. No filter on `adminResponse`, and no de-duplication: the count of the new id rises by one even if it was listed, and every other id's count stays the same |
| `AdminDashboard.Dashboard.HandleConfirm` | src/components/admin-dash/AdminDashboard.jsx:53-84 | Failed update: only the update is sent, no notification, table and list unchanged. Successful update: the table gets `"true"` for that id, one notification follows (the phone, "Your order has been confirmed!", `notifyStaff` false), and the list loses every entry of that id even if the notification failed |
| `Scenarios.EnterKeyInsertsInvalidPhone` | src/components/card/card.jsx:41-44 | Typing "123" and pressing Enter in a filled form sends an insert whose phone is no phone number |
| `Scenarios.EnterKeyRevalidatedSendsNothing` | src/components/card/card.jsx:41-44 | The same keystrokes against the revalidating handler send nothing and show the error text |
| `Scenarios.SubmitThenConfirm` | src/components/admin-dash/AdminDashboard.jsx:53-84 | Submitting, then confirming on the dashboard, leaves one row in the table, now confirmed. The log is exactly: the insert of phone "5551234567", message "Table for two" and party size 2; the `reservation` call with `StaffNotice` of that inserted row; the update of that row's id; the requester's notice. The dashboard list ends empty |

## Findings

| source | as written | input that shows it | evidently intended | confidence | as-written member | corrected member |
|---|---|---|---|---|---|---|
| src/components/card/card.jsx:43-44 | The guard reads `phoneError` from the current render. The `setPhoneError` that `validatePhone(phone)` just issued is not visible yet | A fresh form with date, time, party size and message filled; "123" typed into the phone field (no blur, so no error is shown and the button is enabled); Enter pressed in that field. The insert is sent with phone "123" | The guard should reject the submit whenever the phone fails the pattern it has just checked | not executed; high, follows from React's deferred state updates | `ReservationForm.StaleErrorAdmitsInvalidPhone` | `ReservationForm.Form.HandleSubmitRevalidated` |

`Scenarios.EnterKeyInsertsInvalidPhone` runs the finding through `Form.HandleSubmit`.
`Scenarios.EnterKeyRevalidatedSendsNothing` runs the same keystrokes through the
corrected handler. `Form.HandleSubmit` itself stays as written, because it is the
component's actual behaviour.

## Left out

- ReservationForm.Form.PlaceReservation: assumes the `Notification` block at `card.jsx:82-86` does not throw. Some browsers (Chrome on Android) reject `new Notification(...)` with a TypeError even when permission is granted. The throw comes after the insert and the staff notice, so the reset at `:94-100` is skipped: the fields stay filled and `loading` stays true. That path is not modelled. The same throw at `AdminDashboard.jsx:40` does no harm to the list, because the prepend at `:38` is already queued.
- ReservationForm.Form.HandleSubmit: assumes the chosen date and time are valid instants. A partly typed picker value is an `Invalid Date`. It is truthy, so it passes the checks at `card.jsx:44` and `:186-187`. Then `toISOString()` at `card.jsx:50` throws, after `setLoading(true)` at `:45`. So nothing is sent and `loading` stays true. That throw and the stuck `loading` are not modelled.
- Building the ISO-8601 string from the date and the time (`card.jsx:48-50`). It
  depends on JavaScript `Date`, the local time zone and `toISOString`.
  `CombineDateTime` keeps the instant as an opaque value: the day plus the
  hours and minutes, seconds zeroed.
- The store-assigned `created_at` column, and the snapshot's ordering by it.
  The snapshot result is a parameter of `OnSnapshot`.
- The query, insert, update, function-invoke and realtime transport. This
  includes opening and removing the channel (`AdminDashboard.jsx:32-50`). For
  inserts, updates and function calls, the outcome and the request sent are
  modelled. The snapshot query (`AdminDashboard.jsx:19-24`) is neither logged
  nor tied to the table: its result is a free parameter of `OnSnapshot`, not
  the `Pending` rows of `Store.rows`.
- Interleaving of asynchronous callbacks. Examples: an INSERT event arriving
  before the snapshot resolves, or the user typing while a submit awaits. The
  handlers are modelled as sequential events.
- The database's own conversion of the text `"true"` for a boolean column. The
  model keeps the value as sent.
- The column default for `adminResponse` on insert. It is assumed to be the
  pending value `false`.
- The browser's own `required`-field checks on form submission.
- Browser `Notification` permission and display, `console` logging, and all
  rendering. `src/App.jsx` (routing, layout, notification permission) is not part
  of this model.
- `src/onesignal-setup.js`. It is a one-time wrapper around the OneSignal SDK,
  which is foreign code.
