# Service Hub booking logic in Dafny

This project models the decision logic of a two-service booking system and proves properties
about it. Customers book appointments with service providers. The **appointment service**
stores appointment rows: book, cancel, reschedule, list. Before it books or reschedules, it asks
the **provider service** whether the provider is available. The provider service also stores
provider documents: weekly availability rules, reviews and a verification flag. A web client
offers booking times for a date, splits a customer's appointments into upcoming and past,
filters the provider directory and checks the sign-up form.

Modules, one per source file (the client's shared record types and a filter helper are the
exceptions):

- `AppointmentModel` (`appointment_model.dfy`): the appointment row. It has three statuses,
  BOOKED by default, and its four required columns must be non-null.
- `AppointmentLifecycle` (`appointment_lifecycle.dfy`): the four handlers as pure transitions
  of a `Table` (`Book`, `Cancel`, `Reschedule`, `List`). They return an HTTP status and body.
  The class `AppointmentStore` holds the table. Its methods look a row up, change its
  fields, save it or insert a new row. Each method is proved equal to its transition.
  Availability is an oracle `Query -> Answer`, where `Answer` is Available, Unavailable or
  Failed.
- `ProviderRoutes` (`provider_routes.dfy`): the inline check-availability handler, and the route
  table with first-match dispatch.
- `ProviderModel` (`provider_model.dfy`): the provider document: required fields, the 1..5 rating
  range, and defaults for `isVerified` and `createdAt`.
- `ProviderStore` (`provider_store.dfy`): the seven provider handlers as transitions of a
  `Directory`, and the class `ProviderCollection` whose methods follow them.
- `ServiceComposition` (`service_composition.dfy`): the appointment service wired to the real
  check-availability handler, reached over HTTP.
- `Seqs` (`seqs.dfy`): order-preserving `Filter` with its lemmas.
- `FrontTypes` (`front_types.dfy`): the client's records, with four appointment statuses.
- `AppointmentBooking`, `MyAppointments`, `ProvidersPage`, `ProviderDetail`, `RegisterForm`:
  the client pages.

Conventions:

- A request field that may be missing is an `Option<string>`. A string is "truthy", as
  JavaScript reads it, when it is present and non-empty.
- Whether the database answers is a boolean parameter `dbUp`.
- The client reads "HH:mm" times as minutes since midnight.
- The client reads a calendar date as a day number counted from 1970-01-01, which was a
  Thursday.
- When the appointment page builds an instant from a date and a time, that is an abstract
  function. It returns None for an invalid date.

Points where the code does not do what a booking system would be expected to do (the model
follows the code):

- The availability check reserves nothing and never looks at existing bookings. It says yes
  whenever the three query values are present and non-empty.
- Through the HTTP client, a 400 from that check is an exception, and the booking handler turns
  it into 502. So with the deployed services the 400 "Provider not available" branch is
  unreachable (`BookNeverSaysUnavailable`). Booking one slot twice succeeds twice
  (`DoubleBookingSucceeds`).
- Cancel and reschedule have no status guard and free no slot. A cancelled appointment can be
  rescheduled.
- The backend has no COMPLETED status; only the client's type has it.
- The provider-side reserve/release operations do not exist in the code and are not modelled.

## Model

| member | source | states |
|---|---|---|
| AppointmentModel.DefaultStatus | Backend/appointment-service/models/appointmentModel.js:9-12 | a new row's status is the supplied one, otherwise BOOKED |
| AppointmentModel.Build | Backend/appointment-service/models/appointmentModel.js:4-13 | creation is refused exactly when one of customerId, providerId, date, time is null; otherwise the row carries those values, its id, and BOOKED when no status is given |
| AppointmentLifecycle.BookingQuery | Backend/appointment-service/controllers/appointmentController.js:8 | booking asks about the request's own provider, date and time |
| AppointmentLifecycle.Book | Backend/appointment-service/controllers/appointmentController.js:4-18 | unavailable gives 400 "Provider not available at the given time." and an oracle failure gives 502, both with the table unchanged; 201 exactly when the oracle says yes, the database answers and no required field is null; then exactly one row is added under a fresh id with the request's values and BOOKED, and all other rows are kept; otherwise nothing is added |
| AppointmentLifecycle.Cancel | Backend/appointment-service/controllers/appointmentController.js:20-32 | 500 on a database failure and 404 "Appointment not found" for an unknown id, table unchanged; otherwise status becomes CANCELLED whatever it was; all other columns and rows are kept, and no id is removed |
| AppointmentLifecycle.RescheduleQuery | Backend/appointment-service/controllers/appointmentController.js:41 | rescheduling asks about the stored provider with the new date and time |
| AppointmentLifecycle.Reschedule | Backend/appointment-service/controllers/appointmentController.js:34-52 | a database failure is 502 with the table unchanged; an unknown id is 404 whatever the oracle would say; unavailable is 400 "New time not available" and a failure 502, row unchanged; 200 exactly when the oracle says yes and both new values are present, and a yes with a missing value is 502 from the failed save; then date and time are overwritten, status becomes RESCHEDULED, customer and provider are kept, and there is no status guard |
| AppointmentLifecycle.List | Backend/appointment-service/controllers/appointmentController.js:54-61 | 200 with exactly the stored rows, or 500 when the database fails |
| AppointmentLifecycle.CancelIdempotent | Backend/appointment-service/controllers/appointmentController.js:26-27 | cancelling twice leaves the same table and reply as cancelling once |
| AppointmentLifecycle.NoRowIsRemoved | Backend/appointment-service/controllers/appointmentController.js:4-52 | no handler removes a stored id |
| AppointmentLifecycle.CancelledCanBeRescheduled | Backend/appointment-service/controllers/appointmentController.js:38-48 | a cancelled appointment is rescheduled to RESCHEDULED when the oracle says yes |
| AppointmentLifecycle.AppointmentStore.BookAppointment | Backend/appointment-service/controllers/appointmentController.js:4-18 | the insert-based handler yields exactly the reply and table of `Book` and keeps the table well formed |
| AppointmentLifecycle.AppointmentStore.CancelAppointment | Backend/appointment-service/controllers/appointmentController.js:20-32 | find, set status and save yield exactly the reply and table of `Cancel` |
| AppointmentLifecycle.AppointmentStore.RescheduleAppointment | Backend/appointment-service/controllers/appointmentController.js:34-52 | find, ask, set three fields and save yield exactly the reply and table of `Reschedule` |
| AppointmentLifecycle.AppointmentStore.GetAppointments | Backend/appointment-service/controllers/appointmentController.js:54-61 | the reply is the one `List` specifies |
| ProviderRoutes.CheckAvailability | Backend/provider-service/routes/providerRoutes.js:11-17 | available (200) exactly when providerId, date and time are all present and non-empty; otherwise 400 with available false and "Invalid query" |
| ProviderRoutes.AvailabilityIgnoresValues | Backend/provider-service/routes/providerRoutes.js:11-17 | the answer depends only on which values are present and non-empty, never on what they are |
| ProviderRoutes.Dispatch | Backend/provider-service/routes/providerRoutes.js:2-23 | the handler chosen is that of a fitting route with no earlier fitting route; None exactly when no route fits; fixed words match whatever their letter case and one trailing slash is ignored, as the default router does |
| ProviderRoutes.FirstFitHandles | Backend/provider-service/routes/providerRoutes.js:5-23 | a fitting route with no earlier fitting route is the one dispatched |
| ProviderRoutes.Trimmed | Backend/provider-service/routes/providerRoutes.js:2 | a path ending in a slash is matched without it; any other path as it is |
| ProviderRoutes.ByEmailIsStatic | Backend/provider-service/routes/providerRoutes.js:8-20 | GET /by-email, in any letter case and with or without a trailing slash, reaches getProviderByEmail, not get-by-id |
| ProviderRoutes.CheckAvailabilityIsStatic | Backend/provider-service/routes/providerRoutes.js:11-20 | GET /check-availability, in any letter case and with or without a trailing slash, reaches the availability handler, not get-by-id |
| ProviderRoutes.OtherSegmentIsAnId | Backend/provider-service/routes/providerRoutes.js:20 | any other non-empty single segment, that is one whose lower-cased form is neither "by-email" nor "check-availability", reaches getProviderById, with or without a trailing slash |
| ProviderRoutes.AvailabilityRouteIgnoresCase | Backend/provider-service/routes/providerRoutes.js:21 | PUT /{id}/availability reaches updateAvailability whatever the letter case of "availability" |
| ProviderRoutes.ByEmailNeedsItsPlace | Backend/provider-service/routes/providerRoutes.js:8 | with `/:id` registered first, "by-email" would be read as an id, so the order matters |
| ProviderModel.ValidRule | Backend/provider-service/models/Provider.js:3-7 | a stored rule has non-empty day, startTime and endTime |
| ProviderModel.ValidReview | Backend/provider-service/models/Provider.js:9-14 | a stored review has a non-empty userId and a rating in 1..5 |
| ProviderModel.ValidProvider | Backend/provider-service/models/Provider.js:16-25 | name, email, phone and serviceType are non-empty and every rule and review is valid |
| ProviderModel.Text | Backend/provider-service/models/Provider.js:17-20 | a text field is stored as given, "" when missing, and is "" exactly when it is missing or empty |
| ProviderModel.CastRule | Backend/provider-service/models/Provider.js:3-7 | a rule holds the body's day, startTime and endTime ("" when missing), and is valid exactly when all three are present and non-empty |
| ProviderModel.CastReview | Backend/provider-service/models/Provider.js:9-14 | a review holds the body's userId, rating and comment, and the body's createdAt or else the creation time; it is valid exactly when userId is present and non-empty and the rating is present and in 1..5 |
| ProviderModel.Cast | Backend/provider-service/models/Provider.js:16-25 | a document holds the body's name, email, phone, serviceType and address; isVerified is true only when the body says true (default false); rules and reviews are cast one by one, in order |
| ProviderModel.Create | Backend/provider-service/models/Provider.js:16-25 | a document is created exactly when name, email, phone and serviceType are present and non-empty and every rule and review is acceptable; the result is valid, and unverified when the body says nothing |
| ProviderStore.CreateProvider | Backend/provider-service/controllers/providerController.js:3-10 | 201 with a new valid document under a fresh id exactly when the database answers and the body is acceptable; any other case is 400 with nothing stored |
| ProviderStore.CreatedProviderIsFetched | Backend/provider-service/controllers/providerController.js:3-29 | after a 201, fetching the new id returns a document with the body's name, email, phone, serviceType, address and rule days, in order |
| ProviderStore.GetAllProviders | Backend/provider-service/controllers/providerController.js:12-19 | 200 with exactly the stored documents, or 500 |
| ProviderStore.GetProviderById | Backend/provider-service/controllers/providerController.js:21-29 | 404 "Provider not found" for an absent id, otherwise 200 with the document; 500 when the database fails |
| ProviderStore.GetProviderByEmail | Backend/provider-service/controllers/providerController.js:31-44 | 200 with exactly the documents whose email equals the query, possibly none; never 404 |
| ProviderStore.UpdateAvailability | Backend/provider-service/controllers/providerController.js:46-58 | 404 for an absent id; otherwise the whole rule list is replaced, stored without validation, and every other field and document is kept |
| ProviderStore.VerifyProvider | Backend/provider-service/controllers/providerController.js:60-72 | 404 for an absent id; otherwise isVerified becomes true and nothing else changes |
| ProviderStore.AddReview | Backend/provider-service/controllers/providerController.js:74-85 | 404 for an absent id; 201 exactly when the document with the review appended still validates, and the review is then last with the earlier reviews kept in order; a failing validation is 500 with nothing stored |
| ProviderStore.AddReviewToValid | Backend/provider-service/controllers/providerController.js:74-85 | on a valid document, adding a review succeeds exactly when the review is valid, and the document stays valid |
| ProviderStore.AddedReviewIsFetched | Backend/provider-service/controllers/providerController.js:74-85 | after a 201, fetching the provider returns the new review last, with the body's userId, rating and comment |
| ProviderStore.VerifyIdempotent | Backend/provider-service/controllers/providerController.js:60-72 | verifying twice leaves the same state and reply as verifying once |
| ProviderStore.SharedEmail | Backend/provider-service/models/Provider.js:18 | the same body created twice gives two distinct documents, and a lookup by that email finds both |
| ProviderStore.ProviderCollection.Create | Backend/provider-service/controllers/providerController.js:3-10 | the insert yields exactly the reply and state of `CreateProvider` |
| ProviderStore.ProviderCollection.GetAll | Backend/provider-service/controllers/providerController.js:12-19 | the reply is the one `GetAllProviders` specifies |
| ProviderStore.ProviderCollection.GetById | Backend/provider-service/controllers/providerController.js:21-29 | the reply is the one `GetProviderById` specifies |
| ProviderStore.ProviderCollection.GetByEmail | Backend/provider-service/controllers/providerController.js:31-44 | the reply is the one `GetProviderByEmail` specifies |
| ProviderStore.ProviderCollection.SetAvailability | Backend/provider-service/controllers/providerController.js:46-58 | the in-place overwrite yields exactly the reply and state of `UpdateAvailability` |
| ProviderStore.ProviderCollection.Verify | Backend/provider-service/controllers/providerController.js:60-72 | the in-place overwrite yields exactly the reply and state of `VerifyProvider` |
| ProviderStore.ProviderCollection.PushReview | Backend/provider-service/controllers/providerController.js:74-85 | push and save yield exactly the reply and state of `AddReview` |
| ServiceComposition.RemoteOracle | Backend/appointment-service/services/providerService.js:5-15 | the deployed oracle never answers Unavailable; it answers Available exactly when the three values are present and non-empty, and Failed otherwise |
| ServiceComposition.BookNeverSaysUnavailable | Backend/appointment-service/controllers/appointmentController.js:7-17 | with the deployed oracle a booking never gets 400; a missing or empty provider, date or time gives 502 with the table unchanged |
| ServiceComposition.DoubleBookingSucceeds | Backend/appointment-service/controllers/appointmentController.js:8-14 | two bookings of the same provider, date and time both get 201 and leave two distinct BOOKED rows for that slot |
| ServiceComposition.RescheduleOntoHeldSlot | Backend/appointment-service/controllers/appointmentController.js:38-48 | rescheduling onto the slot of another BOOKED row succeeds |
| ServiceComposition.BookTwice | Backend/appointment-service/controllers/appointmentController.js:4-18 | through the store object, both bookings get 201 and the table grows by two rows |
| Seqs.Filter | frontend/src/pages/dashboard/MyAppointments.tsx:75-84 | the result holds exactly the elements that pass, all of them, as an order-preserving subsequence |
| Seqs.FilterComplement | frontend/src/pages/dashboard/MyAppointments.tsx:75-84 | two predicates that disagree on every element split the sequence between their filters |
| AppointmentBooking.WeekdayName | frontend/src/pages/AppointmentBooking.tsx:65 | the weekday of a date is one of the seven weekday names |
| AppointmentBooking.WeekdayIndex | frontend/src/pages/AppointmentBooking.tsx:65 | the calendar counted day by day from a Thursday, always one of seven positions |
| AppointmentBooking.WeekdayCalendar | frontend/src/pages/AppointmentBooking.tsx:65 | 1970-01-01 is a Thursday, every date carries the name after its predecessor's, and names repeat every seven days |
| AppointmentBooking.RuleTimes | frontend/src/pages/AppointmentBooking.tsx:78-82 | every time a rule offers lies in [start, end) |
| AppointmentBooking.Expand | frontend/src/pages/AppointmentBooking.tsx:73-83 | the times of the rules, rule after rule, each rule's times ascending |
| AppointmentBooking.RuleTimesShape | frontend/src/pages/AppointmentBooking.tsx:78-82 | a rule yields ceil((end - start)/30) times when end > start and none otherwise, the k-th being start + 30k, so ascending |
| AppointmentBooking.RuleTimesMembers | frontend/src/pages/AppointmentBooking.tsx:78-82 | a time is yielded by a rule exactly when start <= t < end and t - start is a multiple of 30 |
| AppointmentBooking.ExpandMembers | frontend/src/pages/AppointmentBooking.tsx:73-85 | a time is offered exactly when one of the rules yields it |
| AppointmentBooking.DayRules | frontend/src/pages/AppointmentBooking.tsx:66 | an order-preserving subsequence of the rules, holding only rules of the chosen weekday and every such rule |
| AppointmentBooking.GenerateTimes | frontend/src/pages/AppointmentBooking.tsx:62-86 | without a date or provider the list is left as it was; otherwise it is each of that weekday's rules' times, rule after rule, unsorted and with repeats; with no rule for the weekday it is empty |
| AppointmentBooking.OfferedTimesFitARule | frontend/src/pages/AppointmentBooking.tsx:65-83 | every offered time lies in a rule of the chosen weekday, on that rule's 30-minute grid |
| AppointmentBooking.FilterDate | frontend/src/pages/AppointmentBooking.tsx:116-123 | false without a provider; otherwise true exactly when some rule's day is the date's weekday |
| AppointmentBooking.RefusedDateOffersNothing | frontend/src/pages/AppointmentBooking.tsx:116-123 | a date the picker refuses has no offered times |
| AppointmentBooking.BookingPayload | frontend/src/pages/AppointmentBooking.tsx:88-99 | nothing is sent unless providerId, date and user are all present; the body always has time "03:00:00", the chosen date, the route's provider and the user's id or "user1" |
| AppointmentBooking.PayloadIgnoresPickedTime | frontend/src/pages/AppointmentBooking.tsx:94-99 | the picked time never changes the request |
| MyAppointments.IsUpcoming | frontend/src/pages/dashboard/MyAppointments.tsx:75-78 | booked or rescheduled, with a valid date at or after now |
| MyAppointments.IsPast | frontend/src/pages/dashboard/MyAppointments.tsx:80-84 | with a valid date, past exactly when not upcoming |
| MyAppointments.Upcoming | frontend/src/pages/dashboard/MyAppointments.tsx:75-78 | exactly the BOOKED or RESCHEDULED appointments at or after now, in list order |
| MyAppointments.Past | frontend/src/pages/dashboard/MyAppointments.tsx:80-84 | exactly the COMPLETED or CANCELLED appointments and those before now, in list order |
| MyAppointments.TabsPartition | frontend/src/pages/dashboard/MyAppointments.tsx:74-84 | with valid dates every appointment is in exactly one tab, and the two tabs' lengths add up to the list's |
| MyAppointments.InvalidDateShowsNowhere | frontend/src/pages/dashboard/MyAppointments.tsx:75-84 | a BOOKED appointment with an invalid date appears in neither tab |
| MyAppointments.MarkCancelled | frontend/src/pages/dashboard/MyAppointments.tsx:38-42 | same length; matching ids become CANCELLED with every other field kept; other entries unchanged |
| MyAppointments.MarkRescheduled | frontend/src/pages/dashboard/MyAppointments.tsx:62-66 | same length; matching ids take the new date and time and RESCHEDULED, keeping id, customer and provider; other entries unchanged |
| MyAppointments.HandleCancel | frontend/src/pages/dashboard/MyAppointments.tsx:34-48 | the list changes only when the user confirms and the call succeeds |
| MyAppointments.OpenRescheduleDialog | frontend/src/pages/dashboard/MyAppointments.tsx:50-55 | the dialog opens on the appointment, pre-filled with its date and time |
| MyAppointments.HandleReschedule | frontend/src/pages/dashboard/MyAppointments.tsx:57-72 | nothing changes without a selection or when the call fails; on success the list is updated and the dialog closes |
| MyAppointments.RescheduleUnchangedKeepsSlot | frontend/src/pages/dashboard/MyAppointments.tsx:50-66 | saving the pre-filled dialog keeps date and time and marks the entry RESCHEDULED |
| ProvidersPage.AverageRating | frontend/src/pages/Providers.tsx:51-55 | 0 for no reviews, otherwise the exact total divided by the count |
| ProvidersPage.AverageAtLeast | frontend/src/pages/Providers.tsx:69-70 | with reviews, the average reaches m exactly when the total reaches m times the count |
| ProvidersPage.NoReviewsRatingFilter | frontend/src/pages/Providers.tsx:51-70 | a provider without reviews passes the rating filter exactly when the minimum is not above 0 |
| Ascii.Lower | frontend/src/pages/Providers.tsx:60-62 | lower-casing keeps the length, leaves no A-Z letter, keeps every other character and moves each A-Z letter to its lower-case code |
| Ascii.LowerIdempotent | frontend/src/pages/Providers.tsx:60-62 | lower-casing twice is lower-casing once |
| ProvidersPage.MatchesSearch | frontend/src/pages/Providers.tsx:59-63 | an empty term, or the lower-cased term inside the lower-cased name or service type |
| ProvidersPage.NameOccurrenceMatches | frontend/src/pages/Providers.tsx:60-62 | a term found verbatim in the name is found by the search |
| ProvidersPage.SearchIgnoresCase | frontend/src/pages/Providers.tsx:60-62 | two terms that differ only in letter case select the same providers; a term selects what its lower-cased form selects |
| ProvidersPage.Shown | frontend/src/pages/Providers.tsx:58-76 | a listed provider meets search, service type, minimum rating and verified-only together |
| ProvidersPage.FilteredProviders | frontend/src/pages/Providers.tsx:58-76 | an order-preserving subsequence holding exactly the providers that meet search, type, rating and verified conditions |
| ProvidersPage.ResetFilters | frontend/src/pages/Providers.tsx:78-84 | service type "", minimum rating 0 and verified-only off, which counts as no active filter |
| ProvidersPage.ActiveFilterCount | frontend/src/pages/Providers.tsx:180 | between 0 and 3; 0 exactly when every filter is at its default, 3 exactly when none is |
| ProvidersPage.ActiveFilterCountSteps | frontend/src/pages/Providers.tsx:180 | turning on any one filter that was off raises the count by exactly one, so the badge counts the active filters |
| ProvidersPage.ResetListsEveryone | frontend/src/pages/Providers.tsx:58-84 | with reset filters and no search text every provider with non-negative ratings is listed, in order |
| ProvidersPage.DisplayProviders | frontend/src/pages/Providers.tsx:144-145 | with nothing fetched, the sample list whatever the filters; otherwise the filtered list itself: an order-preserving subsequence of the fetched providers holding exactly those shown |
| ProviderDetail.DayAvailability | frontend/src/pages/ProviderDetail.tsx:100-103 | empty without a provider; otherwise exactly the rules whose day is the active day, in order |
| ProviderDetail.AverageRating | frontend/src/pages/ProviderDetail.tsx:93-97 | 0 without a provider or reviews, otherwise total over count |
| ProviderDetail.InitialActiveDay | frontend/src/pages/ProviderDetail.tsx:32-34 | the first rule's day when there are rules, otherwise still "" |
| ProviderDetail.InitialDayHasRules | frontend/src/pages/ProviderDetail.tsx:32-34 | the weekday first shown has at least one rule when there are any |
| ProviderDetail.SubmitReview | frontend/src/pages/ProviderDetail.tsx:58-90 | nothing changes without an id, a signed-in user or a successful call; otherwise the new review is first, the earlier ones follow unchanged, the dialog closes and the form resets to 5 and "" |
| ProviderDetail.HandleBooking | frontend/src/pages/ProviderDetail.tsx:49-56 | signed out: /login with from /providers/{id}; signed in: /booking/{id} |
| RegisterForm.HasCharIn | frontend/src/pages/Register.tsx:23-25 | true exactly when some character lies in the range |
| RegisterForm.ValidatePassword | frontend/src/pages/Register.tsx:21-34 | each flag is its own test (length >= 8, A-Z, a-z, 0-9) and isValid is their conjunction |
| RegisterForm.HandleSubmit | frontend/src/pages/Register.tsx:38-60 | an empty field gives "Please fill in all fields" first, then a weak password "Please ensure your password meets all requirements", then "Passwords do not match"; register is called exactly when all three checks pass |
| RegisterForm.ShowMismatchHint | frontend/src/pages/Register.tsx:180-189 | the hint shows exactly when the confirmation is non-empty and differs from the password |
| RegisterForm.HintForecastsMismatch | frontend/src/pages/Register.tsx:42-55 | a shown hint means submitting does not register; with every field filled and a strong password, the hint shows exactly when submitting stops with "Passwords do not match" |
| RegisterForm.RegisteredPasswordIsStrong | frontend/src/pages/Register.tsx:42-60 | a password that reaches register has length >= 8 and an upper-case letter, a lower-case letter and a digit |
| RegisterForm.ValidatePasswordExamples | frontend/src/pages/Register.tsx:21-34 | "Password1" is valid; "password1" lacks an upper-case letter |

## Left out

- HTTP transport, JSON encoding and the axios client are not modelled. The availability call
  is an oracle, and the real one is rebuilt from the handler and the rule that a non-2xx
  reply throws.
- The `bookProviderSlot` client is not modelled. It targets a route the provider service does
  not define, and nothing calls it.
- Persistence is not modelled beyond a `dbUp` flag. That covers the Sequelize and Mongoose
  calls, the connection retry loop with timers, the server bootstrap and concurrency between
  requests.
- Auth and session are not modelled: token decoding, local storage, the Java user service.
- Rendering, animations and toasts are not modelled. Neither are the mock-data fallbacks of
  the client services or their random availability.
- Date and time library semantics are abstract. date-fns `format` and `parse`, time zones and
  DST are left out. The booking body keeps the day number instead of "yyyy-MM-dd" text.
- AppointmentModel.Build: stores date and time as the request's text. Checking them against
  DATEONLY and TIME formats is left out.
- AppointmentLifecycle.Cancel: treats the id as an integer. A non-numeric id fails in the
  database (500 for cancel, 502 for reschedule) and is not modelled.
- Provider ids are naturals handed out in order. Mongo ObjectId generation, and the cast error
  for a malformed id, are left out.
- ProviderStore.GetProviderByEmail: takes the email as given. A request without an email
  query is not modelled.
- ProviderStore.UpdateAvailability: takes an already-cast list of rules. A body without an
  `availability` field is not modelled.
- ProviderModel.CastReview: ratings are integers. Mongoose also accepts fractional numbers in
  1..5, and the client only sends whole stars.
- Ascii.Lower: lowers ASCII letters only. JavaScript's `toLowerCase` also maps
  non-ASCII letters.
- RegisterForm.ValidatePassword: length counts characters. JavaScript counts UTF-16 code
  units.
- The register call's failure message, the booking call's error display and the
  `window.confirm` text are left out. Only whether the call succeeded is modelled.
- Averages are exact reals. The `toFixed` display rounding and star counts are not modelled.
- Express query values that arrive as arrays (repeated parameters) are not modelled.
- Timestamp columns and subdocument ids are not modelled. Sequelize adds `createdAt` and
  `updatedAt` to appointment rows, and `timestamps: true` (Provider.js:25) adds them to
  provider documents. Every save and update refreshes `updatedAt`, and Mongoose gives each
  rule and review its own `_id`. So "every other field is kept" in `Cancel`, `Reschedule`,
  `UpdateAvailability`, `VerifyProvider` and `AddReview` holds for the modelled fields only.
- ProviderRoutes.Dispatch: takes the path already split into segments. Percent-decoding,
  repeated slashes and the service's mount prefix are not modelled.
