# Storefront core of a concert ticketing front end, in Dafny

This project models the client-side logic of a React storefront for concert tickets.

Customers can:
- browse the concerts on sale;
- register and sign in;
- check out a reservation;
- pay for it on a card form.

Administrators can:
- list, create, edit and delete concerts;
- manage venues and their sections;
- manage a concert's ticket types;
- review all orders.

The pages share their state through the browser's `localStorage`, and every backend call goes through one HTTP wrapper.

The Dafny modules follow the source files:

| module | source file |
|---|---|
| `ApiService` | `src/services/apiService.jsx` |
| `UserService` | `src/services/userService.jsx` |
| `AppRoutes` | `src/routes/AppRoutes.jsx` |
| `Sidebar` | `src/components/layout/Sidebar.jsx` |
| `Timer` | `src/components/common/Timer.jsx` |
| `Checkout` | `src/pages/Checkoutpage.jsx` |
| `Payment` | `src/pages/PaymentPage.jsx` |
| `Concerts` | `src/pages/ConcertsPage.jsx` |
| `AdminConcerts` | `src/pages/AdminConcertsPage.jsx` |
| `AdminOrders` | `src/pages/AdminOrdersPage.jsx` |
| `ConcertForm` | `src/pages/ConcertForm.jsx` |
| `VenueForm` | `src/pages/VenueForm.jsx` |
| `VenueSections` | `src/pages/VenuesSectionPage.jsx` |
| `TicketTypes` | `src/pages/ConcertTicketTypesPage.jsx` |
| `RegisterPage` | `src/pages/Registerform.jsx` |
| `RegisterComponent` | `src/components/RegisterForm.jsx` |

Shared modules:
- `RegisterForms`: what the two registration forms have in common.
- `Wrappers`: `Option` and `Result`.
- `Text`: JavaScript's white space and `trim()`, digits, `String(n)`, `padStart` and ASCII `toLowerCase()`.
- `Seqs`: `filter` and sums, with their lemmas.
- `Validation`: the chain of early-return checks every form handler uses.
- `Records`: the backend's records.
- `Storage`: `localStorage`.
- `Listing`: how a list page loads its list.

How the source's constructs are modelled:
- **Stateful parts are classes.** A page component, the countdown and `localStorage` are each a class. Each `useState` hook becomes a field, and each event handler a method that assigns those fields.
- **Calls and their outcomes are parameters.** Every backend call is represented by its settled reply, a `Result` (success value or error body). User choices are parameters too: the answer to a `confirm()` dialog is a `bool`, and the clock reading is an `int` of milliseconds.
- **Navigation is a field.** A `navigate(...)` call is recorded in `navigatedTo`. The delayed `navigate('/login')` after registration is recorded in `scheduledNavigation`.
- **Pure logic is functions.** Formatting, the validation order, routing and the summary figures are functions, with lemmas about them.

## Model

| member | source | states |
|---|---|---|
| ApiService.GetAuthToken | src/services/apiService.jsx:4-6 | The token is found exactly when text is stored under `token`, and it is that text. |
| ApiService.GetHeaders | src/services/apiService.jsx:8-14 | JSON content type always. `Authorization: Bearer <token>` exactly when the token is truthy (present and non-empty). No other header. |
| ApiService.CallHeaders | src/services/apiService.jsx:16-21 | A call's headers are the default headers plus the per-call headers. On a clash the per-call header wins; every other default is kept. |
| ApiService.BuildRequest | src/services/apiService.jsx:16-62 | All four verbs keep their verb and URL and always send a content type. Without an override, they are authorised exactly when a truthy token is stored. |
| ApiService.HandleError | src/services/apiService.jsx:64-71 | An error reply's body is rethrown as it is. No reply gives the connection message. A failure before sending keeps its own message. |
| ApiService.Settle | src/services/apiService.jsx:22-24 | A call succeeds exactly when the transport does, with the response data; otherwise it fails with the handled error. |
| ApiService.MessageOr | src/pages/AdminConcertsPage.jsx:22 | `err.message \|\| fallback`: a truthy message wins; an empty or missing one gives the fallback. |
| ApiService.UnreachableServerMessage | src/services/apiService.jsx:67-68 | Whatever a page's fallback, an unreachable server always shows the connection message. |
| Storage.LocalStorage.SetItem | src/services/userService.jsx:8-9 | Stores the value under its key and changes nothing else. |
| Storage.LocalStorage.RemoveItem | src/services/userService.jsx:28-29 | Removes exactly that key. |
| UserService.GetStoredUser | src/services/userService.jsx:32-43 | A user is returned exactly when a parseable user record is stored. Missing or unparseable text gives null. |
| UserService.SaveSession | src/services/userService.jsx:7-10 | The storage becomes `AfterAuth`: token and user are written only when the reply's token is truthy. |
| UserService.Login | src/services/userService.jsx:5-12 | Returns the reply unchanged. Saves the session only on success. A failed call leaves storage untouched. |
| UserService.Register | src/services/userService.jsx:14-21 | Like `Login`, for the register endpoint. |
| UserService.Logout | src/services/userService.jsx:27-30 | Removes `token` and `user`. |
| UserService.SessionAfterAuth | src/services/userService.jsx:7-10 | After a truthy-token reply: authenticated, same token, same user, admin exactly for role 1. No other key changes. |
| UserService.NoTokenNoSession | src/services/userService.jsx:7 | A reply with a falsy token leaves storage exactly as it was. |
| UserService.LogoutEndsSession | src/services/userService.jsx:27-56 | After logout: not authenticated, no token, no user, not admin. Every other key is kept. |
| UserService.AdminNeedsStoredUser | src/services/userService.jsx:49-52 | Being admin requires a stored, parseable user whose role id is 1. |
| AppRoutes.ProtectedRoute | src/routes/AppRoutes.jsx:19-32 | Signed out goes to `/login`. An admin-only route for a non-admin goes to `/concerts`. Otherwise the page is shown. |
| AppRoutes.Segments | src/routes/AppRoutes.jsx:53-119 | A pathname splits into non-empty segments without '/'. |
| AppRoutes.SegmentsOfJoin | src/routes/AppRoutes.jsx:53-119 | Splitting `/s1/…/sn` gives back the segments: the path round trip. |
| AppRoutes.FindRoute | src/routes/AppRoutes.jsx:53-119 | The match is a route of the table whose pattern matches. There is none exactly when no pattern matches. |
| AppRoutes.SignedOutRouting | src/routes/AppRoutes.jsx:39-45 | Signed out, only `/login` and `/register` render; every other path redirects to `/login`. |
| AppRoutes.AdminOnlyIffAdminPrefix | src/routes/AppRoutes.jsx:55-115 | A route is admin-only exactly when its path starts with `/admin`. |
| AppRoutes.UserRoutesAreConcertPages | src/routes/AppRoutes.jsx:55-64 | Every route open to non-admins shows a concert page. |
| AppRoutes.NonAdminSeesOnlyConcertPages | src/routes/AppRoutes.jsx:53-119 | On any path, a signed-in non-admin sees a concert page or is sent to `/concerts`. |
| AppRoutes.AdminPathsTurnAwayUsers | src/routes/AppRoutes.jsx:72-115 | Any `/admin/...` path sends a signed-in non-admin to `/concerts`. |
| AppRoutes.AdminSeesEveryRoute | src/routes/AppRoutes.jsx:53-116 | An administrator sees the page of every matched route. |
| AppRoutes.ConcertPagesForEveryUser | src/routes/AppRoutes.jsx:55-64 | `/concerts` and `/concerts/:id` render for every signed-in user. |
| AppRoutes.SingleSegmentFallsBack | src/routes/AppRoutes.jsx:118-119 | Any one-segment path other than `concerts` falls back to `/concerts`. |
| AppRoutes.UnregisteredPagesFallBack | src/routes/AppRoutes.jsx:53-119 | `/`, `/my-orders` (commented out), `/checkout`, `/payment` and every `/admin/concerts/:id/tickets` with an id other than `edit` redirect a signed-in user to `/concerts`. |
| AppRoutes.TicketsPathFallsBack | src/pages/AdminConcertsPage.jsx:238 | The ticket-types path the admin concert list opens matches no route, so administrators too are sent to `/concerts`. |
| AppRoutes.AdminConcertsRoute | src/routes/AppRoutes.jsx:72-76 | `/admin/concerts` is matched by its own route, the third of the table. |
| AppRoutes.AdminVenuesRoute | src/routes/AppRoutes.jsx:89-93 | `/admin/venues` is matched by its own route, the sixth of the table. |
| AppRoutes.AdminListPages | src/routes/AppRoutes.jsx:72-93 | The two admin list pages render for administrators; everyone else is sent to `/concerts`. |
| AppRoutes.VenueEditOverlapsSections | src/routes/AppRoutes.jsx:99-108 | `/admin/venues/edit/sections` is matched both by the venue-edit pattern and by the venue-sections pattern, and the two show different pages. |
| AppRoutes.VenueEditBeforeSections | src/routes/AppRoutes.jsx:99-108 | On that path the first matching route is the venue-edit route, the one declared first. |
| AppRoutes.FindRouteAppend | src/routes/AppRoutes.jsx:53-119 | Searching a table extended by more routes finds the original table's match when it has one, and otherwise the match among the added routes. |
| AppRoutes.IntendedCheckoutPage | src/pages/Checkoutpage.jsx:92-95 | With `/checkout` and `/payment` registered as customer routes, `/checkout` shows the checkout page to every signed-in user. |
| AppRoutes.IntendedPaymentPage | src/pages/Checkoutpage.jsx:92-95 | In the same corrected table, `/payment` shows the payment page to every signed-in user. |
| AppRoutes.IntendedTicketsPage | src/pages/AdminConcertsPage.jsx:238 | In the corrected table, `/admin/concerts/:id/tickets` shows the ticket-types page to administrators and sends everyone else to `/concerts`. |
| AppRoutes.IntendedKeepsOtherPaths | src/routes/AppRoutes.jsx:53-119 | The corrected table routes every path that no added route matches exactly as the table as written does. |
| Sidebar.MenuItems | src/components/layout/Sidebar.jsx:8-62 | Two user entries, plus the three admin entries exactly for administrators. An entry is admin-only exactly from the third on. |
| Sidebar.ConcertsEntryExact | src/components/layout/Sidebar.jsx:84-85 | The `/concerts` entry is highlighted only on `/concerts` itself. |
| Sidebar.OtherEntriesByPrefix | src/components/layout/Sidebar.jsx:84-85 | Every other entry is highlighted exactly on the paths it prefixes. |
| Sidebar.PathsDoNotNest | src/components/layout/Sidebar.jsx:8-62 | No entry's path prefixes another's, so the `key` values are distinct. |
| Sidebar.AtMostOneActive | src/components/layout/Sidebar.jsx:83-88 | On any pathname, at most one entry is highlighted. |
| Sidebar.HighlightExamples | src/components/layout/Sidebar.jsx:84-85 | A sections page highlights "Gestión Venues". On a concert detail page no entry of either menu is highlighted. |
| Text.StripSpaces | src/pages/PaymentPage.jsx:51 | `replace(/\s/g, '')` leaves no white space and never lengthens the text. |
| Text.KeepDigits | src/pages/PaymentPage.jsx:57 | `replace(/\D/g, '')` leaves only digits and never lengthens the text. |
| Text.KeepDigitsAppend | src/pages/PaymentPage.jsx:57 | Removing non-digits from a concatenation removes them from each part. |
| Text.StripSpacesAppend | src/pages/PaymentPage.jsx:51 | Removing white space from a concatenation removes it from each part. |
| Text.TrimStart | src/pages/VenueForm.jsx:56 | The leading-white-space cut of `trim()`: a suffix of the input that does not start with white space. |
| Text.TrimEnd | src/pages/VenueForm.jsx:56 | The trailing-white-space cut of `trim()`: a prefix of the input that does not end with white space. |
| Text.TrimStartRemovesSpaces | src/pages/VenueForm.jsx:56 | Everything the leading cut removes is white space. |
| Text.TrimEndRemovesSpaces | src/pages/VenueForm.jsx:56 | Everything the trailing cut removes is white space. |
| Text.StripSpacesTrim | src/pages/PaymentPage.jsx:51 | `trim()` never changes what is left once all white space is removed. |
| Text.BlankIffTrimsToEmpty | src/pages/VenueForm.jsx:56 | `!s.trim()` holds exactly when the text is all white space. |
| Text.NatToString | src/components/common/Timer.jsx:54 | `String(n)`: at least one digit, all digits. One digit exactly below 10, two from 10 to 99. |
| Text.DecimalRoundTrip | src/components/common/Timer.jsx:54 | Reading back the digits of `String(n)` gives `n`. |
| Text.PaddedTwoDigits | src/components/common/Timer.jsx:54-60 | `String(n).padStart(2, '0')` below 100 is two digits denoting `n`. |
| Text.ToLowerAscii | src/pages/AdminConcertsPage.jsx:48 | `toLowerCase()` keeps the length and lower-cases each ASCII letter. |
| Validation.FirstFailure | src/pages/VenueForm.jsx:56-71 | A chain of early-return checks reports nothing exactly when all pass; otherwise it reports a failing check preceded only by passing ones. |
| Validation.FirstFailureAt | src/pages/VenueForm.jsx:56-71 | The chain reports exactly the message of its first failing check. |
| Listing.AfterFetch | src/pages/AdminOrdersPage.jsx:17-27 | Success shows the normalised list and keeps the error. Failure keeps the list and sets `err.message \|\| fallback`. |
| Timer.FloorOfRemainderAsInteger | src/components/common/Timer.jsx:16-17 | `Math.floor((d / unit) % m)` on exact numbers is `(d div unit) mod m`. |
| Timer.CalculateTimeLeft | src/components/common/Timer.jsx:7-20 | Null exactly when the difference is at most 0. Otherwise: minutes equal `difference div 60000 % 60`, seconds equal `difference div 1000 % 60`. |
| Timer.Render | src/components/common/Timer.jsx:31-68 | Nothing exactly for null; the expired panel exactly for the expired state. The countdown is urgent exactly under five minutes. |
| Timer.Countdown.constructor | src/components/common/Timer.jsx:4 | The countdown starts with no time left computed and no `onExpire` call made. |
| Timer.Countdown.Tick | src/components/common/Timer.jsx:8-13 | The state is the new `calculateTimeLeft()`, and `onExpire` is called once more on an expired tick. |
| Timer.Countdown.RunInterval | src/components/common/Timer.jsx:22-26 | After the ticks, the state is the last tick's, and `onExpire` has been called once per expired tick. |
| Timer.ExpiredPanelNeverShown | src/components/common/Timer.jsx:10-13 | The expired panel never shows: the stored `{ expired: true }` is overwritten by null. |
| Timer.OnExpireEveryTick | src/components/common/Timer.jsx:12 | Once expired, every tick calls `onExpire` again. |
| Timer.CountdownDigits | src/components/common/Timer.jsx:54-60 | Before expiry, both fields are two digits denoting the minutes and seconds. |
| Timer.WithinTheHour | src/components/common/Timer.jsx:16-17 | Minutes and seconds together are the whole seconds left modulo one hour. |
| Timer.UrgencyWrapsEachHour | src/components/common/Timer.jsx:42 | Urgent exactly when the minutes within the hour are under five, so also just past each hour. |
| Timer.IntendedTimeLeft | src/components/common/Timer.jsx:10-19 | Intended result: the expired state exactly when the time is up; otherwise the same minutes and seconds. |
| Timer.IntendedShowsExpiredPanel | src/components/common/Timer.jsx:33-40 | With the intended result, the expired panel shows exactly when the time is up; before that nothing else changes. |
| Checkout.StoredCheckout | src/pages/Checkoutpage.jsx:21-28 | A checkout is found exactly when a parseable checkout record is stored, and it is that record. |
| Checkout.ConcertPathShowsDetail | src/pages/Checkoutpage.jsx:35 | `/concerts/${id}` splits into `concerts` and the id, and shows the concert detail page to any signed-in user. |
| Checkout.OrderIdOf | src/pages/Checkoutpage.jsx:89 | `order.order?.id \|\| order.id`: the nested id unless it is missing or 0. |
| Checkout.PayloadIgnoresLaterLines | src/pages/Checkoutpage.jsx:75-82 | Only the first reservation and the first ticket line reach the order payload. |
| Checkout.HandOffReachesPaymentPage | src/pages/Checkoutpage.jsx:87-93 | After the hand-off, the payment page finds this checkout with its order id, no checkout record remains, and other keys are kept. |
| Checkout.PaymentPathFallsBack | src/pages/Checkoutpage.jsx:95 | `/payment` is not a registered route, so the hand-off lands on `/concerts`. |
| Checkout.CheckoutPage.constructor | src/pages/Checkoutpage.jsx:10-13 | No checkout yet, loading, not processing, no error. |
| Checkout.CheckoutPage.LoadCheckoutData | src/pages/Checkoutpage.jsx:19-46 | Missing or unparseable record: go to `/concerts`. Expired: alert the expiry message, drop the record and go to its concert; the alert is shown exactly then. Otherwise: keep it. Loading ends in every case. |
| Checkout.CheckoutPage.HandleExpire | src/pages/Checkoutpage.jsx:48-52 | Alerts the expiry message, drops the checkout record and returns to its concert. |
| Checkout.CheckoutPage.HandleCancelReservation | src/pages/Checkoutpage.jsx:54-59 | Confirmed: drop the record and return to the concert. Declined: nothing changes. |
| Checkout.CheckoutPage.HandleProceedToPayment | src/pages/Checkoutpage.jsx:61-103 | Five outcomes; `processing` ends false in all of them. (1) No stored user: go to `/login`. (2) Empty reservations or (3) empty ticket lines: the TypeError message. (4) Order created: hand-off and `/payment`. (5) Order failed: `err.message \|\| fallback`. |
| Payment.StripSpacesOfGroupDigits | src/pages/PaymentPage.jsx:51 | Grouping by four only inserts spaces. |
| Payment.CardSpacesRoundTrip | src/pages/PaymentPage.jsx:51 | Removing the spaces from a formatted card number gives back the input without white space. |
| Payment.CardFormatIdempotent | src/pages/PaymentPage.jsx:51 | Formatting a formatted card number changes nothing. |
| Payment.GroupedDigitsShape | src/pages/PaymentPage.jsx:51 | `n` digits group to `n + n/4` characters, ending in a space exactly after a full group. |
| Payment.TrimGroupedDigits | src/pages/PaymentPage.jsx:51 | `trim()` removes only the space after a final full group. |
| Payment.DigitCardLength | src/pages/PaymentPage.jsx:51 | `n` digits format to `n + (n - 1)/4` characters. |
| Payment.DigitCardAcceptedUpTo16 | src/pages/PaymentPage.jsx:50-53 | A card number typed as digits is accepted exactly up to sixteen digits, and keeps all of them. |
| Payment.FormatExpiry | src/pages/PaymentPage.jsx:56-62 | At most five characters. Fewer than two digits stay as they are. Otherwise two digits, then '/', then only digits. |
| Payment.ExpiryKeepsFourDigits | src/pages/PaymentPage.jsx:56-60 | The expiry keeps exactly the first four digits of the input, or all of them when there are fewer. |
| Payment.ExpiryFormatIdempotent | src/pages/PaymentPage.jsx:56-60 | Formatting a formatted expiry changes nothing. |
| Payment.SlashComesBack | src/pages/PaymentPage.jsx:56-60 | Erasing the '/' of `MM/`: the edit `MM` is shaped back to `MM/`. |
| Payment.FormattedInput | src/pages/PaymentPage.jsx:45-69 | Card number: accepted exactly up to 19 characters. Name: as typed. Expiry: shaped. CVV: digits only, accepted exactly up to three. |
| Payment.ApplyInputChangesOnlyItsField | src/pages/PaymentPage.jsx:70-73 | An edit changes only its own field, and only when it is accepted. |
| Payment.ValidateForm | src/pages/PaymentPage.jsx:76-94 | No error exactly when the card has at least 16 non-space characters, a name is given, the expiry has at least 5 characters and the CVV at least 3. Any error is one of the four messages. |
| Payment.ValidationOrder | src/pages/PaymentPage.jsx:76-94 | Card, holder's name, expiry, CVV: only the first failure is told. |
| Payment.ShapedFormValidity | src/pages/PaymentPage.jsx:45-94 | A form filled through the shaping passes exactly with 16 card digits, a name, 4 expiry digits and 3 CVV digits. |
| Payment.StoredPayment | src/pages/PaymentPage.jsx:28-36 | A payment record is found exactly when a parseable one is stored, and it is that record. |
| Payment.ConfirmClearsStagedRecords | src/pages/PaymentPage.jsx:115-116 | After confirmation, neither staged record remains and every other key is kept. |
| Payment.PaymentPage.constructor | src/pages/PaymentPage.jsx:8-20 | No payment record yet, loading, not processing, no error, no confirmation, an empty card form. |
| Payment.PaymentPage.LoadPaymentData | src/pages/PaymentPage.jsx:26-43 | A stored record is loaded. A missing or unparseable one sends to `/concerts`. Loading ends. |
| Payment.PaymentPage.HandleInputChange | src/pages/PaymentPage.jsx:45-74 | The form becomes the shaped edit, or stays when the edit is rejected. |
| Payment.PaymentPage.ShowConfirmation | src/pages/PaymentPage.jsx:111-116 | Shows the confirmed order and clears both staged records. |
| Payment.PaymentPage.HandlePayment | src/pages/PaymentPage.jsx:96-123 | Invalid form: the error, nothing sent. Otherwise the staged order id is confirmed. On success: the order is shown, staged records are cleared, `processing` stays on. On failure: `err.message \|\| fallback`, `processing` off. |
| Concerts.AvailableConcerts | src/pages/ConcertsPage.jsx:22-24 | Only on-sale concerts are listed; every on-sale concert of the normalised reply is listed. |
| Concerts.AvailableKeepsBackendOrder | src/pages/ConcertsPage.jsx:22-24 | The listed concerts keep the backend's order. |
| Concerts.AfterConcertsFetch | src/pages/ConcertsPage.jsx:15-32 | Success shows the on-sale concerts; failure keeps the list and sets the message. |
| Concerts.StatusBadge | src/pages/ConcertsPage.jsx:34-49 | A state outside the five known ones shows as it is. |
| Concerts.SameBadgeOnlyForCaptionNames | src/pages/ConcertsPage.jsx:34-43 | Two different states share a badge only when one is an unknown state spelled like the other's caption. |
| Concerts.BadgeArgument | src/pages/ConcertsPage.jsx:112 | `descripcion \|\| 'unknown'`: a truthy description, otherwise 'unknown'. |
| Concerts.ListedConcertsShowOnSale | src/pages/ConcertsPage.jsx:22-24 | Every listed concert shows 'En Venta'. |
| Concerts.MissingStatusShowsUnknown | src/pages/ConcertsPage.jsx:112 | A missing or empty status shows 'unknown'. |
| AdminConcerts.StatusCountsBounded | src/pages/AdminConcertsPage.jsx:116-148 | The three status figures never count a concert twice, so together they are at most the total. |
| AdminConcerts.StatusCountLimits | src/pages/AdminConcertsPage.jsx:116-148 | Each figure is at most the total, and equals it when every concert has that state. |
| AdminConcerts.StatusBadge | src/pages/AdminConcertsPage.jsx:39-51 | A known state, looked up lower-cased, gets its caption. Another state shows as it is. A missing or empty one is 'Desconocido'. |
| AdminConcerts.SameBadgeSameState | src/pages/AdminConcertsPage.jsx:39-51 | For a known state, another known state shows the same badge exactly when the two agree up to case; an unknown state shows it exactly when it is spelled like the caption. |
| AdminConcerts.BadgeIgnoresCase | src/pages/AdminConcertsPage.jsx:48 | Lower-casing a known state first never changes its badge. |
| AdminConcerts.DeleteRemovesExactlyThatId | src/pages/AdminConcertsPage.jsx:33 | Deleting removes every concert with that id, keeps every other one, and keeps their order. |
| AdminConcerts.AdminConcertsPage.constructor | src/pages/AdminConcertsPage.jsx:7-9 | No concerts, loading, no error. |
| AdminConcerts.AdminConcertsPage.FetchConcerts | src/pages/AdminConcertsPage.jsx:16-26 | Success shows the normalised list; failure keeps it and sets `err.message \|\| fallback`. Loading ends. |
| AdminConcerts.AdminConcertsPage.HandleDelete | src/pages/AdminConcertsPage.jsx:28-37 | The call is made exactly when confirmed. Success removes that id. Failure alerts `err.message \|\| 'Error al eliminar'` and keeps the list. |
| AdminOrders.FilteredOrders | src/pages/AdminOrdersPage.jsx:56-59 | `all` keeps every order. Another filter keeps exactly the orders with that status, as a record's description or as bare text. |
| AdminOrders.FilterKeepsArrivalOrder | src/pages/AdminOrdersPage.jsx:56-59 | The filter only leaves orders out, in their arrival order. |
| AdminOrders.StatsAgreeWithTabs | src/pages/AdminOrdersPage.jsx:61-68 | The counts are the sizes of the pending and confirmed tabs, no order is in both, and the revenue is the confirmed tab's total with a missing total as 0. |
| AdminOrders.RevenueBounds | src/pages/AdminOrdersPage.jsx:65-67 | With no negative totals, the revenue is at least 0 and at most the sum over all orders. |
| AdminOrders.StatusBadge | src/pages/AdminOrdersPage.jsx:29-37 | An unknown status shows as itself. |
| AdminOrders.SameBadgeOnlyForLabelNames | src/pages/AdminOrdersPage.jsx:29-37 | Two different statuses share a label only when one is an unknown status spelled like the other's label. |
| AdminOrders.BadgeArgument | src/pages/AdminOrdersPage.jsx:266 | `status?.descripcion \|\| status`: a truthy description; a bare status text as it is. |
| AdminOrders.TabOrdersShowTheirBadge | src/pages/AdminOrdersPage.jsx:56-59 | An order kept by a status tab shows that status's badge. |
| ConcertForm.EditChangesOnlyItsField | src/pages/ConcertForm.jsx:71-77 | Each of the five fields takes the edit's value when the edit names it, and keeps its value otherwise. |
| ConcertForm.FirstVenueId | src/pages/ConcertForm.jsx:62 | `venues?.[0]?.id \|\| ''`: the first venue's id, unless there is none or it is 0. |
| ConcertForm.ConcertFormFailure | src/pages/ConcertForm.jsx:84-107 | No error exactly when title and description are not blank, a venue is chosen and the date is after now. |
| ConcertForm.ConcertChecksInOrder | src/pages/ConcertForm.jsx:84-107 | The failure is the first failing check in title, description, date, venue, future-date order. |
| ConcertForm.FutureDateIsRelative | src/pages/ConcertForm.jsx:102-106 | A form valid now is refused with 'La fecha debe ser futura' once the clock reaches its date. |
| ConcertForm.PayloadCopiesForm | src/pages/ConcertForm.jsx:115-118 | The payload copies the form; its date is after now and its venue is not 0. |
| ConcertForm.RequestFor | src/pages/ConcertForm.jsx:120-124 | With a route id it updates that concert, otherwise it creates one. |
| ConcertForm.SaveReturnsToConcertList | src/pages/ConcertForm.jsx:126 | The save returns to the concert list, which only administrators can open. |
| ConcertForm.ConcertFormPage.constructor | src/pages/ConcertForm.jsx:9-21 | Not loading, no venues, no error, the new-concert defaults. |
| ConcertForm.ConcertFormPage.FetchVenues | src/pages/ConcertForm.jsx:39-47 | Success shows the normalised venues; failure sets the fixed 'No se pudieron cargar los venues'. |
| ConcertForm.ConcertFormPage.FetchConcert | src/pages/ConcertForm.jsx:49-69 | Success fills the form from the concert; failure keeps it and sets the message. Loading ends. |
| ConcertForm.ConcertFormPage.HandleChange | src/pages/ConcertForm.jsx:71-77 | The form becomes the edited form. |
| ConcertForm.ConcertFormPage.HandleSubmit | src/pages/ConcertForm.jsx:79-132 | A failing check: its message, nothing sent. Otherwise the request is sent; success goes to `/admin/concerts`, failure shows the update/create fallback. Loading ends. |
| VenueForm.Edited | src/pages/VenueForm.jsx:43-49 | An edit sets its field and leaves the other three. |
| VenueForm.EditsOfOneField | src/pages/VenueForm.jsx:43-49 | Editing a field to its own value changes nothing; of two edits of one field, the last wins. |
| VenueForm.VenueFormFailure | src/pages/VenueForm.jsx:56-71 | No error exactly when no field is blank. |
| VenueForm.VenueChecksInOrder | src/pages/VenueForm.jsx:56-71 | Name, address, city, country: only the first blank field is told. |
| VenueForm.NewFormNeedsName | src/pages/VenueForm.jsx:13-18 | The new form is refused at its name; its 'Guatemala' default already passes. |
| VenueForm.RequestFor | src/pages/VenueForm.jsx:76-82 | With a route id it updates that venue, otherwise it creates one. |
| VenueForm.SaveReturnsToVenueList | src/pages/VenueForm.jsx:84 | The save returns to the venue list, which only administrators can open. |
| VenueForm.VenueFormPage.constructor | src/pages/VenueForm.jsx:8-18 | Not loading, no error, the new-venue defaults. |
| VenueForm.VenueFormPage.FetchVenue | src/pages/VenueForm.jsx:26-41 | Success fills the form with the venue; failure keeps it and sets the message. |
| VenueForm.VenueFormPage.HandleChange | src/pages/VenueForm.jsx:43-49 | The form becomes the edited form. |
| VenueForm.VenueFormPage.HandleSubmit | src/pages/VenueForm.jsx:51-88 | A blank field: its message, nothing sent. Otherwise the request is sent; success goes to `/admin/venues`, failure shows the update/create fallback. |
| VenueSections.EditChangesOnlyItsInput | src/pages/VenuesSectionPage.jsx:61-67 | An edit sets its own input and leaves the other. |
| VenueSections.SectionFormFailure | src/pages/VenuesSectionPage.jsx:73-80 | No error exactly when the name is not blank and the capacity is above 0. |
| VenueSections.SectionChecksInOrder | src/pages/VenuesSectionPage.jsx:73-80 | The name is checked before the capacity. |
| VenueSections.PayloadIsPositive | src/pages/VenuesSectionPage.jsx:83-86 | A payload that passed carries the form's name and a positive capacity. |
| VenueSections.RequestFor | src/pages/VenuesSectionPage.jsx:88-92 | Editing updates that section of the venue, otherwise the section is created. |
| VenueSections.DeleteSplitsCapacity | src/pages/VenuesSectionPage.jsx:107-114 | Deleting a section takes exactly its capacity out of the total. |
| VenueSections.DeleteLowersCapacity | src/pages/VenuesSectionPage.jsx:107-114 | With non-negative capacities, a delete never raises the total. |
| VenueSections.DeleteRemovesExactlyThatId | src/pages/VenuesSectionPage.jsx:107-108 | Deleting removes every section with that id, keeps the others, and keeps their order. |
| VenueSections.VenueSectionsPage.constructor | src/pages/VenuesSectionPage.jsx:9-18 | No venue or sections, loading, no error, the modal closed with an empty form. |
| VenueSections.VenueSectionsPage.FetchData | src/pages/VenuesSectionPage.jsx:24-38 | Success shows the venue and its normalised sections; failure keeps them and sets the message. Loading ends. |
| VenueSections.VenueSectionsPage.OpenModal | src/pages/VenuesSectionPage.jsx:40-52 | Opens the modal; editing pre-fills the form, creating starts empty. |
| VenueSections.VenueSectionsPage.CloseModal | src/pages/VenuesSectionPage.jsx:54-59 | Closes the modal and clears the form, the edited section and the error. |
| VenueSections.VenueSectionsPage.HandleChange | src/pages/VenuesSectionPage.jsx:61-67 | The form becomes the edited form. |
| VenueSections.VenueSectionsPage.HandleSubmit | src/pages/VenuesSectionPage.jsx:69-99 | A failing check: its message, nothing else changes. Otherwise the request is sent. Success closes the modal and refetches: a successful refetch sets the venue and its normalised sections, a failed one keeps both. Failure sets the fallback and keeps the modal. |
| VenueSections.VenueSectionsPage.HandleDelete | src/pages/VenuesSectionPage.jsx:101-112 | The call is made exactly when confirmed. Success removes that id. Failure alerts and keeps the list. |
| TicketTypes.EditChangesOnlyItsInput | src/pages/ConcertTicketTypesPage.jsx:72-78 | Each of the four inputs takes the edit's value when the edit names it, and keeps its value otherwise. |
| TicketTypes.TicketFormFailure | src/pages/ConcertTicketTypesPage.jsx:84-95 | No error exactly when the name is not blank and price and quantity are above 0. |
| TicketTypes.TicketChecksInOrder | src/pages/ConcertTicketTypesPage.jsx:84-95 | Name, price, quantity: only the first failure is told. |
| TicketTypes.PayloadIsPositive | src/pages/ConcertTicketTypesPage.jsx:98-103 | A payload that passed carries the name, a positive price and quantity, and the section. |
| TicketTypes.RequestFor | src/pages/ConcertTicketTypesPage.jsx:105-109 | Editing updates that ticket type, otherwise one is created for the concert. |
| TicketTypes.DeleteSplitsTicketTotal | src/pages/ConcertTicketTypesPage.jsx:124-135 | Deleting a ticket type takes exactly its quantity out of the ticket total. |
| TicketTypes.DeleteSplitsRevenueTotal | src/pages/ConcertTicketTypesPage.jsx:124-135 | Deleting a ticket type takes exactly its price × quantity out of the potential revenue. |
| TicketTypes.DeleteRemovesExactlyThatId | src/pages/ConcertTicketTypesPage.jsx:124-125 | Deleting removes every ticket type with that id, keeps the others, and keeps their order. |
| TicketTypes.TicketTypesPage.constructor | src/pages/ConcertTicketTypesPage.jsx:10-22 | No ticket types or sections, loading, no error, the modal closed with an empty form. |
| TicketTypes.TicketTypesPage.FetchData | src/pages/ConcertTicketTypesPage.jsx:28-47 | Success shows the ticket types and the first venue's sections; failure keeps them and sets the message. Loading ends. |
| TicketTypes.TicketTypesPage.OpenModal | src/pages/ConcertTicketTypesPage.jsx:49-63 | Opens the modal; editing pre-fills the form, creating starts empty. |
| TicketTypes.TicketTypesPage.CloseModal | src/pages/ConcertTicketTypesPage.jsx:65-70 | Closes the modal and clears the form and the error. |
| TicketTypes.TicketTypesPage.HandleChange | src/pages/ConcertTicketTypesPage.jsx:72-78 | The form becomes the edited form. |
| TicketTypes.TicketTypesPage.HandleSubmit | src/pages/ConcertTicketTypesPage.jsx:80-116 | A failing check: its message. Otherwise the request is sent. Success closes the modal and refetches: a successful refetch sets the ticket types and the first venue's sections (or `[]`), a failed one keeps both. Failure sets the fallback. |
| TicketTypes.TicketTypesPage.HandleDelete | src/pages/ConcertTicketTypesPage.jsx:118-129 | The call is made exactly when confirmed. Success removes that id. Failure alerts and keeps the list. |
| RegisterForms.Edited | src/pages/Registerform.jsx:23-28 | An edit sets its named field and leaves the other six. |
| RegisterForms.PasswordFailure | src/pages/Registerform.jsx:37-47 | No error exactly when the passwords match and have at least 6 characters. |
| RegisterForms.MismatchBeforeLength | src/pages/Registerform.jsx:37-47 | A mismatch is told before the length, even for a short password. |
| RegisterForms.PayloadDropsConfirmation | src/pages/Registerform.jsx:50-58 | The payload copies the six profile fields, always with role 2, and ignores the confirmation. |
| RegisterForms.EditingProfileKeepsChecks | src/pages/Registerform.jsx:23-47 | Editing a profile field never changes the password verdict. |
| RegisterPage.RegisterPage.constructor | src/pages/Registerform.jsx:6-17 | An empty form, not loading, no error or success text, nothing scheduled. |
| RegisterPage.RegisterPage.HandleChange | src/pages/Registerform.jsx:23-28 | The form becomes the edited form. |
| RegisterPage.RegisterPage.HandleSubmit | src/pages/Registerform.jsx:30-74 | Loading always ends. A failing check: its message, nothing sent. Otherwise the payload is sent. On success: the success text, storage as `register` leaves it, and `/login` scheduled. On failure: `err.message \|\| fallback`. |
| RegisterComponent.RegisterComponent.constructor | src/components/RegisterForm.jsx:6-17 | An empty form, not loading, no error or success text, nothing scheduled. |
| RegisterComponent.RegisterComponent.HandleChange | src/components/RegisterForm.jsx:23-28 | The form becomes the edited form. |
| RegisterComponent.RegisterComponent.HandleSubmit | src/components/RegisterForm.jsx:30-79 | As the page, except that `loading` stays on exactly after a successful registration. |

## Left out

- Transport, timing and rendering:
  - Network I/O (axios) is not modelled. A call is its settled `Result`, and `Settle` relates it to the transport outcome.
  - Concurrency is not modelled: interleaved `await`s, the batching of React state updates, and effects re-running on dependency changes.
  - Timers are left out: `setInterval`, the payment page's 2-second delay, and the 2-second delay before navigating to `/login`. The interval is a sequence of clock readings; the delayed navigation is the `scheduledNavigation` field.
  - Rendering is left out: markup, icons, CSS classes, loading spinners, the display of `alert` (each handler that alerts returns the message it alerts), `console` output and `window.confirm`, which is a `bool` parameter.
- Values and formats:
  - Dates are not parsed or formatted. `new Date(...)`, `toISOString().slice(0, 16)`, local-time parsing and `toLocaleDateString` are absent; instants are whole milliseconds. The concert form's date input is an `Option<int>`, None for ''.
  - Concert payloads keep the timestamp rather than its ISO text.
  - ConcertForm.ConcertFormPage.FetchConcert: the model fills the form with the concert's exact instant. The source fills the `datetime-local` input with the UTC wall time (`toISOString().slice(0, 16)`, src/pages/ConcertForm.jsx:54-55), and the submit parses that text back as local time (lines 102 and 113). So saving an edit without touching the date moves the concert by the browser's UTC offset (six hours later at UTC−6) and drops its seconds, and the future-date check runs on the shifted instant. None of this is modelled.
  - `parseInt`/`parseFloat` on number inputs are not modelled. Inputs arrive parsed, with None standing for '' and for NaN.
  - VenueSections.SectionFormFailure: the source's check `!v || parseInt(v) <= 0` lets through a non-empty capacity whose `parseInt` is NaN. For example, `.5e1` is a valid number input that also meets `min="1"`, and the source then sends NaN. The model reads NaN as None and rejects it. Text such as `1e3` is sent as 1; the model sees only the parsed value.
  - TicketTypes.TicketFormFailure: the same holds for the quantity check `!v || parseInt(v) <= 0`. A non-empty quantity whose `parseInt` is NaN, such as `.5e1`, passes in the source and is sent as NaN, but is rejected here. The price check uses `parseFloat`, which never gives NaN for a valid number input.
  - Floating point is not modelled. Prices and totals are exact reals.
  - JSON stringify/parse is not modelled. A stored item is the record it was made from. Text under a record key, or a record of the wrong kind, stands for text that `JSON.parse` rejects.
  - Text.ToLowerAscii: lower-cases only ASCII letters, not all of Unicode.
  - RegisterForms.PasswordFailure: the length counts characters, not UTF-16 code units, so it differs from `length` only outside the Basic Multilingual Plane.
  - Payment.FormattedInput: the card number's 19-character limit counts characters, not UTF-16 code units as `value.length` does. A card number holding a character outside the Basic Multilingual Plane is accepted here at lengths JavaScript rejects.
  - Payment.ValidateForm: the 16-character minimum on the space-free card number counts characters, not UTF-16 code units. For example, 14 digits plus one character outside the Basic Multilingual Plane pass in JavaScript (16 units) but fail here (15 characters).
  - Prototype keys (such as `constructor`) in the badge tables' `statusMap` lookups are not modelled. Such a key is treated like any unknown state.
  - AdminOrders.BadgeArgument: a status record with a falsy description hands the record object itself to `getStatusBadge`. The model gives None there and says nothing about what would render.
- Routing and browser behaviour:
  - AppRoutes.FindRoute: React Router picks the best-ranked route, not the first in declaration order. Only one path shape is matched by two patterns of the table: `/admin/venues/edit/sections` matches both `/admin/venues/edit/:id` and `/admin/venues/:venueId/sections` (`AppRoutes.VenueEditOverlapsSections`). React Router ranks the two patterns equally and breaks the tie by declaration order, so both rules show the venue form (`AppRoutes.VenueEditBeforeSections`). On every other path at most one pattern matches, so the two rules agree.
  - AppRoutes.Segments: case-insensitive matching, trailing slashes and repeated slashes are not modelled. `Segments` drops empty segments, so `//concerts/7` shows the concert detail page here, while React Router's compiled matcher does not match it.
  - The browser's own constraint validation (`required`, `min`, `step`, `maxLength`) is not modelled. Only the handlers' own checks are.
  - Checkout.CheckoutPage.HandleProceedToPayment: the TypeError text for an empty list is V8's wording, a constant of the model.
  - Payment.PaymentPage.HandlePayment: in the source, the import on line 4 is malformed and `orderService.confirm` names an undefined identifier. The model takes the confirmation call as intended, `OrderService.confirm(paymentData.orderId)`, and which error it raises is left to its reply.
- Out of scope:
  - Only the state fields the handlers read or write are modelled. Fields used only for display are not: the concert record of the ticket-type page, the `showPassword` toggles, and `filter` as page state (it is the `FilteredOrders` argument).
  - `getCurrentUser` in `src/services/userService.jsx` is not modelled; it is a plain `get` with no logic of its own.
  - The login page, navbar, order-detail, my-orders, concert-detail and venue-list pages are not modelled. They are callers of the modelled core.
  - The endpoint table (`src/config/apiEndpoints.jsx`) is not modelled. A request's URL is a parameter.
  - The backend's reservation lifecycle is not modelled: the storefront only reads `expiresAt`.

## Findings

| source | as written | input that shows it | evidently intended | confidence | as-written member | corrected member |
|---|---|---|---|---|---|---|
| src/components/common/Timer.jsx:10-13 | On expiry, `calculateTimeLeft` stores `{ expired: true }` and then returns null. That null is stored over it at line 22 or 25, so the "Tiempo expirado" panel (lines 33-40) can never show: the component renders nothing. It also calls `onExpire` again on every later tick. | `expiresAt` one second in the past: the tick stores the expired state and then null; `Render` gives `Nothing`. | The expired state is the result, so the expired panel stays on screen once the reservation has run out. | not executed | Timer.ExpiredPanelNeverShown | Timer.IntendedShowsExpiredPanel |
| src/routes/AppRoutes.jsx:53-119 | The route table registers neither `/checkout` nor `/payment`, yet the checkout page hands off to `/payment` (src/pages/Checkoutpage.jsx:92-95) and the payment page's back button goes to `/checkout` (src/pages/PaymentPage.jsx:261). Both paths fall to the catch-all redirect. So once the order is created, `paymentData` is stored and `checkoutData` is removed, the buyer lands on `/concerts` instead of the payment page. | Any signed-in user who confirms a checkout: the navigation to `/payment` resolves to the redirect to `/concerts`. | Both pages are registered as customer routes beside `/concerts`. | not executed | Checkout.PaymentPathFallsBack | AppRoutes.IntendedPaymentPage |
| src/pages/AdminConcertsPage.jsx:238 | The "Gestionar tickets" button opens `/admin/concerts/${id}/tickets`, but the route table neither registers that path nor imports the ticket-types page (src/routes/AppRoutes.jsx:1-16, 53-119). The click falls to the catch-all redirect, so the ticket-types page cannot be reached. | An administrator clicks the button of concert 7: `/admin/concerts/7/tickets` redirects to `/concerts`. | The path is registered as an admin-only route showing the ticket-types page. | not executed | AppRoutes.TicketsPathFallsBack | AppRoutes.IntendedTicketsPage |

`AppRoutes.UnregisteredPagesFallBack`, `AppRoutes.TicketsPathFallsBack` and `Checkout.PaymentPathFallsBack` model the route table as written. `AppRoutes.IntendedProtectedRoutes` adds the two customer routes and the admin ticket-types route after the existing ones. `AppRoutes.IntendedCheckoutPage`, `AppRoutes.IntendedPaymentPage` and `AppRoutes.IntendedTicketsPage` prove that the added routes then show their pages. `AppRoutes.IntendedKeepsOtherPaths` proves that every other path is routed as before. The rest of the model keeps the table as written, since that is what the storefront does.

`Timer.Countdown.Tick` models the code as written; `Timer.ExpiredPanelNeverShown` proves that the panel never shows. `Timer.IntendedTimeLeft` is the corrected result; `Timer.IntendedShowsExpiredPanel` proves that the panel shows exactly when the time is up, and that nothing else changes.

The component evidently means `onExpire` as a one-time signal: its parent uses it to drop the reservation and leave the page, which needs to happen once, when the reservation runs out (`onExpire={handleExpire}`, src/pages/Checkoutpage.jsx:146). The code calls it on every tick after that (src/components/common/Timer.jsx:11-12), and the model follows the code (`Timer.OnExpireEveryTick`, `Timer.Countdown.RunInterval`).
