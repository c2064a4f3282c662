# Car rental marketplace — a verified Dafny model of its core

This project models the server core of a car rental marketplace.

- **Owners** list cars. Each car document carries a brand, model, image, year, category, seats, fuel type, transmission, daily price, location and description.
- **Customers** book a car for a pickup and a return date.
- **The booking ledger** decides who may create, view, re-status, cancel or delete a booking.
- **The dashboard** gives an owner counts, revenue and the most recent bookings.
- **The client search box** filters the car list by free-text terms.

The model follows the program's structure, one module per concern:

| file | module | models |
|---|---|---|
| `outcomes.dfy` | `Outcomes` | a handler's result: a value or a failure, and the HTTP status of each failure |
| `seqs.dfy` | `Seqs` | the document-store queries as sequence operations: filter, newest-first sort over a creation-ordered store, limit, lookup by id, sum |
| `text.dfy` | `Text` | the JavaScript string operations used: `trim`, `toLowerCase`, `includes`, `split`/`join` |
| `records.dfy` | `Records` | the Booking and Car schemas: datatypes, enum parsing, validity predicates |
| `cars.dfy` | `Cars` | the car controller: `class CarStore` |
| `bookings.dfy` | `Bookings` | the booking controller: `class Ledger` |
| `dashboard.dfy` | `Dashboard` | the dashboard statistics: pure functions |
| `client_search.dfy` | `ClientSearch` | the car page's `applyfilter`: pure functions |

Each handler is modelled in two parts:

- A pure check function reproduces the handler's chain of early returns. The first failing test decides the failure, in the source's order, with the source's status codes.
- A method on the store object applies the change. Its `ensures` ties the new state to that check function and to the old state.

The stores are sequences in creation order. Clock readings are parameters, and creation times never decrease. The store invariants are `CarStore.Valid` and `Ledger.Valid`: schema-valid records, unique ids, creation order.

Headline result: no two pending or confirmed bookings of the same car have overlapping dates (`Bookings.NoDoubleBooking`).

- `CreateBooking`, `CancelBooking` and `DeleteBooking` preserve it.
- `UpdateBookingStatus` preserves it except when the owner turns a cancelled or completed booking back into a pending or confirmed one.
  - `Bookings.ReactivationDoubleBooks` exhibits that case on a two-booking store.
  - `Bookings.ReactivationScenario` reaches it through the handlers: a customer books and cancels, a second customer books the same dates, and the owner sets the first booking back to pending.

Three more behaviours follow the code as written:

- **`updateCar` unlinks the old image file before validating the update** (`server/controllers/carController.js:191-205`). A rejected update therefore still loses the file. `Cars.CarStore.UpdateCar` returns the discarded path in both cases.
- **`updateCar` spreads the request body into the update**, so an owner can overwrite the `owner` and `isAvailable` fields (`Cars.PatchCanTransferOwnership`). Bookings keep the owner id copied when they were made.
- **The dashboard's monthly revenue stops at midnight of the month's last day** (`server/controllers/dashboardController.js:39-48`). `Dashboard.DashboardStats` uses that window (`Dashboard.MonthlyRevenueAsWritten`). The whole-month window `Dashboard.MonthlyRevenue` is the correction recorded under Findings, and `Dashboard.AsWrittenAtMostWholeMonth` relates the two.

## Model

| member | source | states |
|---|---|---|
| Outcomes.HttpStatus | server/controllers/bookingController.js:196-241 | validation failures answer 400, an authorisation failure 403 and only it, a missing record 404 and only it, the catch-all 500 and only it |
| Records.ParseStatus | server/models/Booking.js:28-32 | exactly the four lower-case names are statuses, and a parsed status prints back as the text it came from |
| Records.ParseCategory | server/models/Car.js:30-34 | exactly the four category names are accepted, each as itself |
| Records.ParseFuelType | server/models/Car.js:41-45 | exactly the four fuel type names are accepted, each as itself |
| Records.ParseTransmission | server/models/Car.js:46-50 | exactly the three transmission names (with "Semi-Automatic") are accepted, each as itself |
| Records.ParseLocation | server/models/Car.js:56-60 | exactly the four city names are accepted, each as itself |
| Records.SchemaAllowsReversedDates | server/models/Booking.js:20-27 | the booking schema alone admits a return date before the pickup date; only the handler orders them |
| Text.Trim | server/models/Car.js:10-19 | the trimmed text is the one slice of the input that has no whitespace at either end and only whitespace around it; it is empty exactly when the input is all whitespace |
| Text.TrimIdempotent | server/models/Car.js:10-19 | trimming an already trimmed value changes nothing |
| Text.TrimOfTrimmed | server/models/Car.js:10-19 | a value with no whitespace at either end is stored as typed |
| Text.Lower | src/pages/Cars.jsx:28 | lower-casing keeps the length and maps every character on its own |
| Text.LowerIdempotent | src/pages/Cars.jsx:28-31 | lower-casing twice is lower-casing once |
| Text.IndexOf | src/pages/Cars.jsx:32 | the result is the first occurrence at or after the start, and none means no occurrence at all |
| Text.Split | server/controllers/carController.js:194 | split gives at least one piece, no piece contains the separator, and pieces only hold characters of the input |
| Text.JoinSplit | server/controllers/carController.js:194 | joining the pieces with the separator gives back the input |
| Seqs.Filter | server/controllers/bookingController.js:111 | a query result holds exactly the matching records, and no more of them than the store holds |
| Seqs.FilterIsSubsequence | server/controllers/bookingController.js:111 | a query result keeps the store's order |
| Seqs.NewestFirstQuery | server/controllers/bookingController.js:111-114 | over a creation-ordered store, filtering then sorting by createdAt descending lists exactly the matches, newest first, as the reverse of an order-preserving selection |
| Seqs.Find | server/controllers/bookingController.js:155 | lookup by id finds the first record with the id, and fails exactly when none has it |
| Seqs.Take | server/controllers/dashboardController.js:74 | limit keeps the first n records, or all when fewer |
| Seqs.NewestOfReverse | server/controllers/dashboardController.js:73-74 | sorting newest first and keeping n gives the last n in creation order, reversed, an order-preserving selection |
| Seqs.SumFilterMonotone | server/controllers/dashboardController.js:45-64 | summing non-negative prices over a narrower query gives no more |
| Cars.CarFromForm | server/controllers/carController.js:47-65 | a car is built exactly when the four enum fields name enum values, year, seats and price parse and lie in 1990..2030, 2..12 and >= 0, and brand, model and description keep text once trimmed; the car then passes every schema validator and carries the given id, owner, upload URL, creation time, availability on, the trimmed texts and the parsed enums and numbers |
| Cars.AddCarCheck | server/controllers/carController.js:21-65 | 400 (missing field) exactly when some field is empty; 400 (missing image) exactly when the form is complete and no file came; 500 exactly when both passed and the schema refuses the form; otherwise the car is stored with the caller as owner, the upload URL as image, availability on, trimmed text and the parsed enums and numbers |
| Cars.BlankBrandIsServerError | server/controllers/carController.js:21-77 | a whitespace-only brand passes the presence check and is refused by the schema after trimming, which surfaces as a 500 |
| Cars.SearchIgnoresCase | server/controllers/carController.js:95-101 | the search matches regardless of the case of the query text |
| Cars.SearchHit | server/controllers/carController.js:95-101 | the search text, ignoring case, occurs in the brand, the model or the description (definition, no contract) |
| Cars.Matches | server/controllers/carController.js:86-101 | the listing filter: the car is available, and each given parameter (category, location, price bounds, search) holds of it (definition, no contract) |
| Cars.UploadPathOfImageUrl | server/controllers/carController.js:194 | the file path derived from a stored upload URL is the uploaded file under ./uploads |
| Cars.UploadPath | server/controllers/carController.js:194 | the path `./uploads` followed by the second piece of the URL split on "/uploads", or "undefined" when there is none (definition; its property is UploadPathOfImageUrl) |
| Cars.GeneratedNameMapsBack | server/routes/carRoutes.js:22-25 | for every name the upload middleware generates, "car-" and a suffix without '/', the stored URL never reintroduces "/uploads" and maps back to the uploaded file under ./uploads |
| Cars.OwnedCarCheck | server/controllers/carController.js:171-186 | update, toggle and delete fail with 404 exactly when no car has the id, with 403 only when the car belongs to someone else, and succeed whenever the caller owns it |
| Cars.ApplyPatch | server/controllers/carController.js:188-205 | an accepted update keeps the car schema-valid and its id and creation time, takes the owner and the cast availability flag from the body when given, and a new upload always sets the image |
| Cars.PatchSetsFields | server/controllers/carController.js:188-205 | an accepted update stores every field the body gives (texts trimmed, enums and numbers cast) and keeps every field it leaves out; the image is the upload's URL when a file came, else the body's image when given, else the old one |
| Cars.PatchRejectedExactly | server/controllers/carController.js:202-205 | an update of a stored car is refused exactly when some field the body gives fails its cast or validator: an unknown enum name, an unparsable or out-of-range number, a blank text, a flag the Boolean cast refuses, or an empty image without a file |
| Cars.EmptyPatchKeepsCar | server/controllers/carController.js:188-205 | an update with an empty body and no file leaves the car unchanged |
| Cars.PatchCanTransferOwnership | server/controllers/carController.js:188 | a body naming another owner hands the car to that user |
| Cars.Toggle | server/controllers/carController.js:241 | the toggle flips the availability flag and changes nothing else |
| Cars.ToggleInvolution | server/controllers/carController.js:241 | toggling twice restores the car |
| Cars.CarStore.AddCar | server/controllers/carController.js:5-79 | the store gains exactly the car the check builds, at the end, with a fresh id; on failure nothing changes; the store invariant holds |
| Cars.CarStore.GetAllCars | server/controllers/carController.js:82-105 | the listing holds exactly the available cars matching every given parameter, newest first |
| Cars.CarStore.GetCarById | server/controllers/carController.js:122-134 | the car with the id, or 404 exactly when none has it |
| Cars.CarStore.GetOwnerCars | server/controllers/carController.js:150-152 | exactly the caller's cars, newest first |
| Cars.CarStore.UpdateCar | server/controllers/carController.js:169-205 | after the ownership check the old image path is discarded whenever a file came, and the car is replaced by the patched car, or left as it was when validation fails |
| Cars.CarStore.ToggleAvailability | server/controllers/carController.js:222-242 | only the caller's car has its flag flipped; every other car is untouched |
| Cars.CarStore.DeleteCar | server/controllers/carController.js:261-288 | only the caller's car is removed, its image path is discarded, no car with the id remains, and the rest keep their order |
| Cars.ToggleTwiceRestores | server/controllers/carController.js:222-242 | two toggle requests for the same car leave the store as it was |
| Bookings.ConflictIsSharedInstant | server/controllers/bookingController.js:55-64 | the conflict query holds exactly when an active booking of the same car shares an instant with the requested range, ends included |
| Bookings.InactiveNeverConflicts | server/controllers/bookingController.js:57 | cancelled and completed bookings never block a request |
| Bookings.Conflicts | server/controllers/bookingController.js:55-64 | the conflict query on one booking: same car, pending or confirmed, and the closed date ranges meet (definition; its meaning is ConflictIsSharedInstant) |
| Bookings.HasConflict | server/controllers/bookingController.js:55-64 | `findOne` of the conflict query finds a booking (definition) |
| Bookings.AppendKeepsNoDoubleBooking | server/controllers/bookingController.js:55-88 | a booking that passed the conflict query can be saved without double-booking its car |
| Bookings.StatusChangeKeepsNoDoubleBooking | server/controllers/bookingController.js:224 | a status change that does not reactivate a booking cannot double-book a car |
| Bookings.SetStatus | server/controllers/bookingController.js:224 | the ledger with one booking's status overwritten: same length, that booking differs only in its status, every other booking is unchanged |
| Bookings.RemoveKeepsNoDoubleBooking | server/controllers/bookingController.js:309 | deleting a booking cannot double-book a car |
| Bookings.CeilDiv | server/controllers/bookingController.js:74 | the ceiling quotient is the least q with a <= d*q |
| Bookings.RentalDays | server/controllers/bookingController.js:74 | the billed days are one more than the fewest whole days covering the span |
| Bookings.RentalPrice | server/controllers/bookingController.js:74-75 | billed days times the car's daily rate (definition; its properties are WholeDaysBillInclusive, ValidRangeBillsTwoDaysOrMore and FiveDayExample) |
| Bookings.WholeDaysBillInclusive | server/controllers/bookingController.js:74-75 | dates n whole days apart bill n + 1 days |
| Bookings.ValidRangeBillsTwoDaysOrMore | server/controllers/bookingController.js:47-75 | an accepted range bills at least two days and a non-negative price |
| Bookings.FiveDayExample | server/controllers/bookingController.js:74-75 | 10 to 14 December at 150 a day costs 750 |
| Bookings.CreateCheck | server/controllers/bookingController.js:10-71 | each failure holds exactly when its own test fails and every earlier one passed, in the source's order: 400 missing field; 404 no car with the id; 400 the first car with the id is unavailable; 400 pickup before today; 400 return not after pickup; 500 an unparseable date; 400 a conflict; success exactly when all pass, and then the car is the looked-up one, available, with ordered conflict-free dates |
| Bookings.NewBooking | server/controllers/bookingController.js:78-86 | the saved booking: the car, the caller as user, the car's owner, the requested dates, the day-formula price and status pending (definition; Ledger.CreateBooking states its use) |
| Bookings.ViewCheck | server/controllers/bookingController.js:155-176 | 404 exactly when no booking has the id, 403 only for a caller who is neither its user nor its owner, success for either party |
| Bookings.UpdateStatusCheck | server/controllers/bookingController.js:196-222 | 400 exactly when the status is not one of the four names (checked before the lookup), then 404 exactly when no booking has the id, 403 only for a non-owner, and success for the owner with any status |
| Bookings.CancelCheck | server/controllers/bookingController.js:247-270 | 404 exactly when no booking has the id, 403 only for a caller who did not book it, 400 only for a booking no longer pending or confirmed, success otherwise |
| Bookings.DeleteCheck | server/controllers/bookingController.js:292-307 | 404 exactly when no booking has the id, 403 only for a non-owner, success for the owner |
| Bookings.ReactivationDoubleBooks | server/controllers/bookingController.js:196-224 | the owner's unrestricted status overwrite can turn a store without double bookings into one with a double booking |
| Bookings.SetStatusKeepsWellFormed | server/controllers/bookingController.js:224 | a status overwrite keeps the ledger invariant |
| Bookings.RemoveKeepsWellFormed | server/controllers/bookingController.js:309 | a delete keeps the ledger invariant and leaves no booking with the deleted id |
| Bookings.ScenarioRequestPasses | server/controllers/bookingController.js:55-71 | a request whose dates are held only by a cancelled booking passes every check |
| Bookings.ScenarioFormAccepted | server/controllers/carController.js:21-65 | an owner's complete, valid form with an upload is accepted and yields exactly the scenario car |
| Bookings.ScenarioStore | server/controllers/carController.js:5-79 | adding that form to an empty catalogue through the add-car handler stores exactly the scenario car |
| Bookings.CancelledBookingScenario | server/controllers/bookingController.js:245-273 | with the catalogue built through the add-car handler, a customer's booking followed by their cancellation leaves the booking stored as cancelled |
| Bookings.ReactivationScenario | server/controllers/bookingController.js:196-224 | through the handlers: a booking, its cancellation, a second booking of the same dates and the owner's status change back to pending leave a valid ledger with two overlapping active bookings of one car |
| Bookings.Ledger.CreateBooking | server/controllers/bookingController.js:5-98 | on success the ledger gains exactly one pending booking for the caller, the car's owner and the requested dates, priced by the day formula, with a fresh id; on failure nothing changes; the invariant and the absence of double bookings are preserved |
| Bookings.Ledger.GetUserBookings | server/controllers/bookingController.js:109-114 | exactly the caller's bookings, newest first |
| Bookings.Ledger.GetOwnerBookings | server/controllers/bookingController.js:131-136 | exactly the bookings whose recorded owner is the caller, newest first |
| Bookings.Ledger.GetBookingById | server/controllers/bookingController.js:153-181 | the booking is returned only to its user or its owner; 404 exactly when none has the id, 403 exactly when the caller is neither party |
| Bookings.Ledger.UpdateBookingStatus | server/controllers/bookingController.js:192-234 | only the owner's booking changes, and only its status; the absence of double bookings is preserved unless a booking is reactivated |
| Bookings.Ledger.CancelBooking | server/controllers/bookingController.js:245-279 | only the caller's active booking becomes cancelled; the absence of double bookings is preserved |
| Bookings.Ledger.DeleteBooking | server/controllers/bookingController.js:290-314 | only the owner's booking is removed, no booking with the id remains, the rest keep their order and the absence of double bookings is preserved |
| Dashboard.TotalRevenueIsEarnings | server/controllers/dashboardController.js:57-64 | total revenue is the sum over the owner's bookings of the price of confirmed or completed ones; pending and cancelled bookings contribute nothing |
| Dashboard.TotalRevenue | server/controllers/dashboardController.js:57-64 | the sum of the prices of the owner's confirmed or completed bookings (definition; its meaning is TotalRevenueIsEarnings) |
| Dashboard.WithStatus | server/controllers/dashboardController.js:17-30 | the owner's bookings with one status, counted by the handler (definition; StatusCountsPartition relates the counts) |
| Dashboard.OwnedCars | server/controllers/dashboardController.js:10 | the cars whose owner is the caller, counted as totalCars (definition) |
| Dashboard.AppendChangesRevenueByEarnings | server/controllers/dashboardController.js:57-64 | a new booking changes an owner's revenue by its price only when it is theirs and confirmed or completed |
| Dashboard.StatusCountsPartition | server/controllers/dashboardController.js:13-30 | pending, confirmed, completed and cancelled counts add up to the owner's total bookings |
| Dashboard.WindowRevenueAtMostTotal | server/controllers/dashboardController.js:45-64 | revenue over any creation window is at most the total revenue when prices are non-negative |
| Dashboard.RecentIsNewestFive | server/controllers/dashboardController.js:67-74 | over a creation-ordered store the recent list holds min(5, total) of the owner's bookings, newest first, and no omitted booking of the owner is newer than a listed one |
| Dashboard.RecentAreTheLatest | server/controllers/dashboardController.js:67-74 | read backwards, the recent list is exactly the last min(5, total) of the owner's bookings in store order, an order-preserving selection, so no booking is listed twice |
| Dashboard.Recent | server/controllers/dashboardController.js:67-74 | the owner's bookings sorted newest first and limited to five (definition) |
| Dashboard.DaysInMonth | server/controllers/dashboardController.js:39-43 | February has 29 days exactly in a Gregorian leap year and 28 otherwise; April, June, September and November exactly have 30; the other months exactly have 31 |
| Dashboard.LastDayStart | server/controllers/dashboardController.js:39-43 | `new Date(year, month + 1, 0)`: midnight of the month's last day, one day before the next month's first midnight, between day 28 and day 31 of the month |
| Dashboard.MonthsMakeTheYear | server/controllers/dashboardController.js:39-43 | the twelve month lengths add up to 366 in a leap year and 365 otherwise |
| Dashboard.MonthlyRevenueAsWritten | server/controllers/dashboardController.js:39-54 | the revenue of bookings created from the month's first midnight up to midnight of its last day, the window as written (definition) |
| Dashboard.MonthlyRevenue | server/controllers/dashboardController.js:33-54 | the revenue of bookings created during the whole month (definition; its meaning is MonthlyRevenueCoversMonth) |
| Dashboard.AsWrittenAtMostWholeMonth | server/controllers/dashboardController.js:39-54 | the window as written never counts more than the whole month for non-negative prices |
| Dashboard.LastDayMissedAsWritten | server/controllers/dashboardController.js:39-48 | a booking earned at noon on the month's last day counts under the whole-month window but not under the window as written |
| Dashboard.MonthlyRevenueCoversMonth | server/controllers/dashboardController.js:33-54 | the monthly revenue sums exactly the owner's confirmed or completed bookings created during the month |
| Dashboard.AllThisMonthIsTotal | server/controllers/dashboardController.js:45-64 | when all the owner's earnings were made this month, monthly and total revenue agree |
| Dashboard.NonNegativeRevenue | server/controllers/dashboardController.js:51-54 | a revenue sum of non-negative prices is not negative |
| Dashboard.DashboardStats | server/controllers/dashboardController.js:5-88 | totalCars is the number of the caller's cars; totalBookings and the pending, confirmed and completed counts are the sizes of the caller's bookings and of each status among them, and with the cancelled count they add up to the total; the monthly revenue is the window as written and lies between 0 and both the total revenue and the whole-month revenue; total revenue is the earnings sum; the recent list is the newest-first five (Recent) |
| ClientSearch.Terms | src/pages/Cars.jsx:28 | the terms are exactly the non-blank pieces of the lower-cased input split on spaces, each as often as it occurs there, in their order; none contains a space |
| ClientSearch.Descriptor | src/pages/Cars.jsx:31 | the lower-cased "brand model category transmission" text a car is searched in (definition) |
| ClientSearch.KeepCar | src/pages/Cars.jsx:32 | every term occurs in the car's descriptor (definition) |
| ClientSearch.ApplyFilter | src/pages/Cars.jsx:24-36 | empty input lists every car; otherwise a car stays exactly when its lower-cased descriptor contains every term |
| ClientSearch.ApplyFilterIsSubsequence | src/pages/Cars.jsx:30 | the result is an order-preserving selection of the available cars |
| ClientSearch.BlankInputKeepsAll | src/pages/Cars.jsx:28-33 | whitespace-only input gives no terms and lists every car |
| ClientSearch.CaseDoesNotMatter | src/pages/Cars.jsx:28-31 | inputs that differ only in letter case list the same cars |

## Left out

- HTTP framing, response bodies and messages, and `populate` are left out. A handler's response is its `Outcome`, and `Outcomes.HttpStatus` gives the status code.
- Authentication and JWT verification are left out. The caller's id and role are a parameter, so the 401 answers are not modelled.
- The owner-only routes' role check is a precondition (`caller.role == Owner`), so its 403 answer is not an outcome.
- Malformed object ids are not modelled. Ids are naturals, so the cast errors that such ids turn into 500 answers cannot happen.
- `Cars.PatchRejectedExactly`: the owner and the text fields of an update body are taken as already cast. An owner that is not an object id, or a text field given a non-text JSON value, fails that cast and is answered 500; this is not modelled. The availability flag's cast is modelled: it is the result of the Boolean cast, and a refused flag is rejected.
- `getBookingById` answers 500 when the booking's user or owner account was deleted (`populate` yields null), which is not modelled. `Bookings.Ledger.GetBookingById` compares stored ids instead.
- JavaScript `Date` semantics are not modelled: parsing, local time zones and daylight saving. Instants are integer milliseconds, every day is 86 400 000 ms long, and the following are parameters:
  - today's midnight;
  - the creation time;
  - the month's first midnight, year and month.
- Stored creation times are assumed not to decrease (a precondition on `now`), so the newest-first sort is a reversal of the store.
- Floating point is not modelled. Prices and daily rates are integers, so `parseFloat` prices with fractions and the float division inside `Math.ceil` are not modelled.
- `parseInt`/`parseFloat` in `addCar` and the schema's Number cast in `updateCar` are not modelled. Each numeric field carries the value they read (`Cars.NumberField`), so their treatment of trailing text is a parameter.
- The price-bound parsing in `getAllCars` is not modelled: a non-numeric bound, which becomes NaN, cannot be expressed.
- `Cars.SearchHit`: the search text is matched as a literal substring, so regular-expression metacharacters in the listing search are not modelled.
- `Text.Lower`: only A-Z are lower-cased. Unicode case mapping, in the listing search and in the client filter, is not modelled.
- The file system is not modelled: `fs.existsSync` and `fs.unlinkSync`. The path a handler would unlink is returned as `discarded`, and multer's disk storage and file filter are left out.
- Concurrency is not modelled. Requests run one at a time, so two simultaneous `createBooking` calls that could both pass the conflict query are outside the model.
- Deleting a car leaves its bookings in the ledger, as the handler does. No lemma relates the two stores.
- `updatedAt` timestamps are left out.
- `getRevenueAnalytics` is left out: it is a database-side aggregation pipeline with calendar grouping.
- `seed.js`, the React pages other than `applyfilter`, and the client's data fetching are left out.

## Findings

| source | as written | input that shows it | evidently intended | confidence | as-written member | corrected member |
|---|---|---|---|---|---|---|
| server/controllers/dashboardController.js:39-48 | the monthly window ends at `new Date(year, month + 1, 0)`, which is midnight at the start of the month's last day | a confirmed booking of the owner created at noon on the last day of the month: it is absent from monthlyRevenue although created this month | the window covers the whole last day, up to the month's last instant | high (not executed) | Dashboard.LastDayMissedAsWritten | Dashboard.MonthlyRevenueCoversMonth |
