# Equipment lending front-end: borrow-request page and landing redirect

This project is a Dafny model of the two pieces of the school equipment-lending
web client that hold logic of their own.

- **The student's borrow-request page** (`app/student/requests/page.tsx`) is
  modelled in `student_requests.dfy`. It covers the pure helpers its markup
  evaluates: the status badge class, the capitalised status label, the
  quantity and date bounds of the creation dialog, the POST payload and the
  `data.results || data` envelope rule. The component's seven state cells
  (`requests`, `equipmentList`, `loading`, `showModal`, `submitting`, `error`,
  `formData`) are fields of the class `RequestsPage`. Its handlers are methods
  whose contracts give the whole new state in terms of the old one.
- **The landing page's redirect** (`app/page.tsx`) is modelled in
  `landing.dfy`. It has the role-to-dashboard choice, the effect's decision,
  the `isChecking` render branch, and a `LandingPage` class holding
  `isChecking`, the pending timer and a log of router pushes.
- **`js_values.dfy`** holds the JavaScript conversions both pages rely on:
  truthiness of a stored string, `String(id)` for an option value and
  `Number(s)` for form values. It proves that `Number(String(id))` is `id`.

Everything outside these pages is a parameter:
- A network call becomes the reply it produced (`ReadReply`, `PostReply`).
- `localStorage` reads become `Option<string>` arguments.
- `router.push` becomes the `navigations` log.
- The clock becomes a `today` date string.
- The timer becomes "fires" or "is cleared first".

A POST that succeeds starts a re-fetch of the list. `SettleSubmit` reports
this as `refetch`. `SubmitAndRefetch` then runs `FetchRequests` with the
reply that re-fetch receives.

Three behaviours of the code are easy to misread:
- A failed read of the request list leaves the previous list in place. It
  does not empty it.
- The equipment read does not check `response.ok`. Any body that parses
  replaces the list, an error body included. An error body that is an object
  without `results` (such as `{"detail": ...}`) is stored as it is. The dialog
  then cannot render, because `equipmentList.map` and `equipmentList.find`
  throw on it. `RenderDialog` models this as `RenderFailed`, and
  `OpenDialogAfterEquipmentRead` proves that such a reply leads there.
- A non-2xx answer to the POST shows "Failed to create request". Only a thrown
  non-`Error` value shows "Request failed".

## Model

| member | source | states |
|---|---|---|
| `StudentRequests.StatusColor` | app/student/requests/page.tsx:128-143 | each of pending, approved, rejected, issued maps to its fixed class string; `returned` and every unknown status map to the neutral gray classes |
| `StudentRequests.StatusColorClasses` | app/student/requests/page.tsx:128-143 | a status shares the `returned` badge iff it is `returned` or unknown; two distinct known statuses other than `returned` never share a badge |
| `StudentRequests.UpperCase` | app/student/requests/page.tsx:179 | a lower-case ASCII letter becomes the matching upper-case letter; every other character is unchanged |
| `StudentRequests.StatusLabel` | app/student/requests/page.tsx:179 | the label has the status's length, its first character upper-cased and every later character unchanged; `""` gives `""` |
| `StudentRequests.ApprovedLabel` | app/student/requests/page.tsx:179 | `approved` is shown as `Approved` |
| `StudentRequests.FirstSelectedIndex` | app/student/requests/page.tsx:240 | the scan stops at the first equipment whose `String(id)` equals the selection, and no earlier entry matches; it runs off the end only when none matches |
| `StudentRequests.FindSelected` | app/student/requests/page.tsx:240 | `find` yields nothing iff no equipment's `String(id)` equals the selection; otherwise it yields the first listed equipment that matches |
| `StudentRequests.QuantityMax` | app/student/requests/page.tsx:238-241 | the `max` is never 0; it is 1 when nothing matches; otherwise it is the first match's `available_quantity`, or 1 when that is 0 |
| `StudentRequests.QuantityMaxOfSelection` | app/student/requests/page.tsx:226-241 | choosing the option built from an equipment's id bounds the quantity by that equipment's availability (1 if 0), provided no earlier entry has the same id |
| `StudentRequests.BorrowFromMin` | app/student/requests/page.tsx:265 | `borrow_from`'s `min` is today's date string, unchanged |
| `StudentRequests.BorrowUntilMin` | app/student/requests/page.tsx:277 | `borrow_until`'s `min` is `borrow_from` or today; it equals today iff `borrow_from` is empty or is today; it is never empty when today is not |
| `StudentRequests.DateLeqTransitive` | app/student/requests/page.tsx:263-282 | the order in which the date inputs compare `YYYY-MM-DD` strings is transitive |
| `StudentRequests.WithinBounds` | app/student/requests/page.tsx:219-282 | the browser's constraint check passes only when every field is filled in and the quantity is a number of at least 1; with no equipment matched the quantity must be exactly 1 |
| `StudentRequests.WithinBoundsOrdersDates` | app/student/requests/page.tsx:219-282 | a draft that passes the inputs' `required`/`min`/`max` constraints has today <= borrow_from <= borrow_until, and a quantity no larger than the chosen equipment's nonzero availability |
| `StudentRequests.BuildPayload` | app/student/requests/page.tsx:100-103 | quantity, purpose and both dates pass through unchanged; an unselected equipment is sent as 0, and the option of any id is sent as that id |
| `StudentRequests.PayloadOfSelection` | app/student/requests/page.tsx:100-103 | the POST body carries the selected equipment's id as a number; quantity, purpose and both dates are the draft's own values, unvalidated |
| `StudentRequests.ExamplePayload` | app/student/requests/page.tsx:100-103 | the draft `{"3", 2, "Lab demo", 2025-06-01, 2025-06-05}` is sent as `{3, 2, "Lab demo", 2025-06-01, 2025-06-05}` |
| `StudentRequests.Normalise` | app/student/requests/page.tsx:65 | a bare array, or an envelope with a truthy `results`, yields that array; an envelope without one is stored as a non-list |
| `StudentRequests.NormaliseEitherShape` | app/student/requests/page.tsx:81 | the same items, bare or wrapped in `{results}` (even when empty), give the same list |
| `StudentRequests.StoredListing` | app/student/requests/page.tsx:56-85 | a read handler calls its setter iff `fetch` resolved, the body parsed and (for the request list only) `ok` was set; the stored value is the normalised body |
| `StudentRequests.RenderList` | app/student/requests/page.tsx:161-200 | the spinner shows iff loading; the empty notice shows iff not loading and the stored list is empty or not an array; otherwise there is one card per request, in order |
| `StudentRequests.CardOf` | app/student/requests/page.tsx:168-193 | a card shows its request's equipment name, quantity and purpose, the badge class `getStatusColor` gives its status, the capitalised status, which is as long as the status, and its stored `borrow_from` and `borrow_until` dates |
| `StudentRequests.CardsShowStatus` | app/student/requests/page.tsx:168-180 | each card's badge class is its request's `getStatusColor`, and its label is its request's status capitalised |
| `StudentRequests.RenderDialog` | app/student/requests/page.tsx:205-305 | the dialog is closed iff `showModal` is false; it fails to render iff it is open over a stored non-array; otherwise it lists the placeholder and one option value `String(id)` per equipment, with the quantity `max`, the date `min`s and an error banner iff the error is non-empty |
| `StudentRequests.OnMount` | app/student/requests/page.tsx:45-54 | the page redirects to `/login` iff the stored token is missing or empty; otherwise it starts both reads |
| `StudentRequests.WithField` | app/student/requests/page.tsx:219-281 | an `onChange` replaces only its own field of the draft; the quantity input stores `Number(value)` |
| `StudentRequests.SelectionKeepsQuantity` | app/student/requests/page.tsx:221-243 | selecting an equipment keeps the draft's quantity and moves the quantity bound to that equipment's availability |
| `StudentRequests.SubmitError` | app/student/requests/page.tsx:106-112 | a non-ok answer gives "Failed to create request"; a thrown `Error` gives its message; any other thrown value gives "Request failed" |
| `StudentRequests.RequestsPage.constructor` | app/student/requests/page.tsx:29-43 | the cells start as: empty lists, `loading` true, dialog closed, not submitting, no error, the initial draft |
| `StudentRequests.RequestsPage.FetchRequests` | app/student/requests/page.tsx:56-72 | `loading` becomes false on every outcome; only an ok, parsable reply replaces `requests`; nothing else changes |
| `StudentRequests.RequestsPage.FetchAvailableEquipment` | app/student/requests/page.tsx:74-85 | any parsable reply replaces `equipmentList`, whatever its `ok`; a failed fetch or body changes nothing |
| `StudentRequests.RequestsPage.ResetForm` | app/student/requests/page.tsx:118-126 | the draft becomes exactly the initial draft and nothing else changes, so a second reset changes nothing |
| `StudentRequests.RequestsPage.OpenModal` | app/student/requests/page.tsx:153-154 | the button opens the dialog and changes nothing else |
| `StudentRequests.RequestsPage.CancelModal` | app/student/requests/page.tsx:294-296 | Cancel closes the dialog and keeps the draft and the error |
| `StudentRequests.RequestsPage.EditField` | app/student/requests/page.tsx:219-281 | an input's change updates the draft through `WithField` and nothing else |
| `StudentRequests.RequestsPage.BeginSubmit` | app/student/requests/page.tsx:87-104 | entering `submitRequest` sets `submitting` and clears `error`; it sends the payload of the draft as it stands |
| `StudentRequests.RequestsPage.SettleSubmit` | app/student/requests/page.tsx:106-115 | an ok answer closes the dialog, resets the draft and starts a re-fetch; any other outcome sets the error and keeps dialog and draft; `submitting` is false on every exit |
| `StudentRequests.RequestsPage.SubmitRequest` | app/student/requests/page.tsx:87-116 | the whole handler: the payload is the old draft's; on success the error is empty, the dialog closed and the draft reset; on failure only `error` and `submitting` change |
| `StudentRequests.OpenDialogAfterEquipmentRead` | app/student/requests/page.tsx:74-85 | after the equipment read, opening the dialog fails exactly when the stored list is not an array; an error reply whose body has no `results` always leads there; a bare list gives one option per item plus the placeholder |
| `StudentRequests.SubmitAndRefetch` | app/student/requests/page.tsx:87-116 | one submission and its single re-fetch: on success, `requests` is the re-fetched list when that read succeeds and otherwise the old list, and `loading` is false; on failure the state differs only in `error` and `submitting` |
| `JsValues.Truthy` | app/page.tsx:15 | a stored value is truthy iff it is present and non-empty; `null` and `""` are falsy |
| `JsValues.ToNumber` | app/student/requests/page.tsx:243 | `Number` of an empty or all-white-space string is 0; any other numeric result comes from a string whose trimmed form ends in a digit, and a negative one from a string whose trimmed form starts with `-` |
| `JsValues.NatToString` | app/student/requests/page.tsx:227 | the decimal notation of a natural number is a nonempty run of digits with no leading zero; it is `"0"` iff the number is 0 |
| `JsValues.IdString` | app/student/requests/page.tsx:240 | `String(id)` is nonempty, starts with no white space and ends in a digit |
| `JsValues.DigitsRoundTrip` | app/student/requests/page.tsx:102 | reading back the digits of a natural number gives the number |
| `JsValues.NumberOfIdString` | app/student/requests/page.tsx:102 | `Number(String(id))` is `id` for every integer id |
| `JsValues.IdStringInjective` | app/student/requests/page.tsx:240 | two ids with the same `String` are equal, so the `find` comparison singles out one id |
| `JsValues.NumberOfEmpty` | app/student/requests/page.tsx:38 | `Number("")` is 0: an unselected equipment would be sent as id 0 |
| `Landing.DashboardFor` | app/page.tsx:18-22 | the target is always a dashboard; it is `/admin/dashboard` iff the role is `admin` or `staff`, and `/student/dashboard` otherwise, including a missing role |
| `Landing.Decide` | app/page.tsx:12-27 | the landing content is chosen iff the token is missing or empty; otherwise a redirect to the role's dashboard is scheduled after 500 ms |
| `Landing.Render` | app/page.tsx:30-42 | the loading view is rendered iff `isChecking` |
| `Landing.LandingPage.constructor` | app/page.tsx:9 | `isChecking` starts true, no timer is pending, nothing has been pushed |
| `Landing.LandingPage.RunEffect` | app/page.tsx:11-28 | with a token, `isChecking` is kept and exactly the role's dashboard is scheduled; without one, `isChecking` becomes false and nothing is scheduled; nothing is pushed |
| `Landing.LandingPage.TimerFires` | app/page.tsx:17-23 | the scheduled path, if any, is pushed once and the timer is gone |
| `Landing.LandingPage.Cleanup` | app/page.tsx:24 | clearing the timer pushes nothing |
| `Landing.Visit` | app/page.tsx:9-40 | a visit ends on the loading view iff a token is stored; it pushes at most one path, always a dashboard: the role's dashboard when a token is stored and the delay elapsed, and nothing otherwise |

## Left out

- Network I/O (`fetch`, headers, the `API_URL` fallback) is not modelled; each handler takes the reply as a parameter. JSON parsing is reduced to "parsed into a list body, or rejected".
- `localStorage` and `router.push` are not modelled as such. Storage values are arguments; pushes are recorded in `LandingPage.navigations`. The requests page's redirect to `/login` is the value `OnMount` returns.
- `console.error` logging in the read handlers is not modelled; it has no effect on state.
- Timing is not modelled: the 500 ms delay is only "fires" or "is cleared first". The two mount-time reads are independent calls in either order. State writes after unmount are not modelled.
- `new Date().toISOString()` and `toLocaleDateString()` are not modelled. They depend on the clock, the locale and the time zone. "Today" is a parameter. A card carries its request's `borrow_from` and `borrow_until` strings as stored; their locale formatting is not modelled.
- Markup and Tailwind classes other than those `getStatusColor` returns are not modelled. Of the dialog, only the option values, the input bounds, the error banner and the render failure are modelled; the option texts and the submit button's disabled state and text are not.
- Layout shells, the spinner and the root layout are not modelled. They are presentation only.
- Server-side workflow (approval, conflict checks, stock) is not modelled. It is not part of this client.
- `JsValues.NatToString`: takes an unbounded natural number. JavaScript's `String` writes numbers from 1e21 in exponent form (`"1e+21"`), which the model does not.
- `JsValues.IdString`: ids are unbounded integers in the model. In JavaScript they are doubles: `JSON.parse` rounds ids above 2^53, and `String` writes ids from 1e21 as `"1e+21"`, so above those bounds the option value and its round trip through `Number` differ from the model.
- `JsValues.ToNumber` handles only white space plus an optionally signed run of decimal digits. Fractions, exponents, hexadecimal, octal and binary prefixes, and `Infinity` give NaN in the model but a number in JavaScript.
- `StudentRequests.BuildPayload` keeps NaN as a value, while `JSON.stringify` would write it as `null`.
- `StudentRequests.UpperCase` upper-cases ASCII letters only. JavaScript's `toUpperCase` maps all of Unicode, and can lengthen a string (`ß` becomes `SS`).
- `StudentRequests.StatusLabel` inherits that ASCII restriction: its length-preserving contract is proved for the model's upper-casing only.
- Equipment availability and request quantities from the server are integers in the model. A fractional or NaN value is not modelled, nor is a truthy `results` that is not an array.
- `StudentRequests.WithinBounds` compares dates as `YYYY-MM-DD` strings, which is the browser's order only for well-formed dates. It does not model the number input's `step`. It is a predicate the browser applies before firing the submit event: `SubmitRequest` does not require it, because the handler itself re-checks nothing.
