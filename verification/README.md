# Car rental: a verified model of the booking, car, user and review logic

This project is a Dafny model of a small car-rental application. The
application has two parts:

- an Express/MySQL backend, `diabcar-backend`;
- a React frontend, `diabrentfront2`.

The model covers four groups of logic:

- **Tables.** The four tables behind `models/*.js` (users, cars, bookings,
  reviews) are classes. Each holds a map from id to row and an
  auto-increment counter. INSERT, UPDATE and DELETE are methods that change
  the map in place. Each SELECT is a function reading it.
- **Request handlers.** The routes and controllers are total functions from
  a request to an `Outcome`. An outcome is the store call the handler issues
  (if any) and the response it sends: status, `success` flag, error list,
  payload. Several things enter as parameters: the validation library's
  error list, the store's failure, its affected-row count and its result
  rows. Registration, login and logout change a table and the session, so
  they are methods of a class.
- **The car listing page** (`AvailableCarsPage.js`). This page holds the
  only availability check of the application: the closed-interval overlap
  test of the booking modal against the car's ongoing bookings. It also
  holds:
  - the type checkboxes, the type filter and the in-place price sort;
  - pagination;
  - the modal's price, error and booking guards.
- **The admin pages and star rendering.** The admin pages update their lists
  by id after a server call and search case-insensitively. The review page
  renders five stars.

Several JavaScript behaviours are written out explicitly:

- Values that arrive from JSON are the `Js.Value` datatype.
- Truthiness and `||` follow JavaScript.
- `undefined` is bound as SQL NULL.
- Dates are `(day, milliseconds)` pairs on the backend and whole days on the
  frontend.

## Model

| member | source | states |
|---|---|---|
| UserModel.ApplySetAppend | diabcar-backend/controllers/userController.js:71-76 | A SET clause list applies its clauses in order: appending one clause and value applies it after the others |
| UserModel.UserTable.Create | diabcar-backend/models/User.js:4-7 | INSERT adds exactly one row, under a fresh id, holding the given values (undefined bound as NULL, status left to the column default) |
| UserModel.UserTable.FindByEmail | diabcar-backend/models/User.js:9-12 | Exactly the rows whose email equals the given one, unchanged |
| UserModel.UserTable.GetAll | diabcar-backend/models/User.js:14-17 | One entry per row, with id, name, email, phone and role and without the password |
| UserModel.UserTable.DeleteById | diabcar-backend/models/User.js:19-22 | Removes the row with that id and nothing else; affected rows is 1 iff it existed |
| UserModel.UserTable.UpdateColumns | diabcar-backend/controllers/userController.js:72-76 | `UPDATE users SET ... WHERE id = ?` changes only that row, by the SET clauses, and reports whether it existed |
| UserModel.UserTable.UpdateStatus | diabcar-backend/controllers/userController.js:107-110 | Only that row's status changes |
| CarModel.AsObject | diabcar-backend/models/Car.js:15-24 | `SELECT *` yields the id and the ten columns under their column names |
| CarModel.Columns | diabcar-backend/models/Car.js:34-45 | updateById reads `price`, `fuel` and `image_url` from its object; a missing `image_url` is undefined |
| CarModel.CarTable.Create | diabcar-backend/models/Car.js:5-12 | INSERT adds one row under a fresh id holding the ten given values, undefined as NULL |
| CarModel.CarTable.GetAll | diabcar-backend/models/Car.js:15-18 | One object per stored row, carrying that row's columns |
| CarModel.CarTable.GetById | diabcar-backend/models/Car.js:21-24 | At most one row; exactly one iff the id exists, and it is that row |
| CarModel.CarTable.UpdateById | diabcar-backend/models/Car.js:27-52 | All ten columns of that row are overwritten from the object, missing properties as NULL; no other row changes |
| CarModel.CarTable.UpdateAvailability | diabcar-backend/models/Car.js:55-58 | Only that row's availability changes |
| CarModel.CarTable.DeleteById | diabcar-backend/models/Car.js:61-64 | Removes the row with that id and nothing else |
| BookingModel.BookingTable.Create | diabcar-backend/models/Booking.js:14-20 | INSERT adds one row under a fresh id with exactly the given user, car, dates, price and status |
| BookingModel.BookingTable.GetAll | diabcar-backend/models/Booking.js:26-34 | Exactly the bookings whose user and car both exist (inner joins), each with the user's and the car's names |
| BookingModel.BookingTable.GetById | diabcar-backend/models/Booking.js:41-50 | The joined row with that id if it is in the join, otherwise nothing |
| BookingModel.BookingTable.GetByUserId | diabcar-backend/models/Booking.js:57-66 | Exactly the joined rows of that user |
| BookingModel.BookingTable.UpdateById | diabcar-backend/models/Booking.js:74-83 | All four columns (dates, price, status) are written, absent values as NULL; user and car and every other row are kept |
| BookingModel.Applied | diabcar-backend/models/Booking.js:74-83 | The row an update leaves: dates, price and status all taken from the update, absent ones as NULL; user and car kept |
| BookingModel.BookingTable.UpdateStatus | diabcar-backend/models/Booking.js:104-111 | Only that row's status changes |
| BookingModel.BookingTable.DeleteById | diabcar-backend/models/Booking.js:90-96 | Removes the row with that id and nothing else |
| ReviewModel.ApprovedIn | diabcar-backend/models/Review.js:14-17 | After approval that row's status is "approved" and every other row is unchanged |
| ReviewModel.ApproveIdempotent | diabcar-backend/models/Review.js:14-17 | Approving twice is approving once |
| ReviewModel.ReviewTable.Create | diabcar-backend/models/Review.js:4-7 | INSERT adds one row with user, car, rating and comment; status is left to the column default |
| ReviewModel.ReviewTable.GetAllApproved | diabcar-backend/models/Review.js:9-12 | Exactly the approved reviews whose user and car exist, with their names |
| ReviewModel.ReviewTable.Approve | diabcar-backend/models/Review.js:14-17 | The table becomes `ApprovedIn(old table, id)` |
| ReviewModel.ReviewTable.DeleteById | diabcar-backend/models/Review.js:19-22 | Removes the row with that id and nothing else |
| Http.HandleValidationErrors | diabcar-backend/routes/bookingRoutes.js:7-13 | A non-empty error list answers 400 with the list; an empty one lets the request through |
| Dates.ToDateOnly | diabcar-backend/routes/bookingRoutes.js:19-28 | Null iff the input is missing or does not parse; otherwise the UTC day containing the moment |
| Dates.ToDateOnlyOfMidnight | diabcar-backend/routes/bookingRoutes.js:19-28 | A date-only input is normalised to itself |
| Dates.DayOrderIsWeak | diabcar-backend/routes/bookingRoutes.js:19-28 | Truncation to the day keeps the order of two moments only weakly |
| Bcrypt.CompareHash | diabcar-backend/routes/authRoutes.js:140-152 | A digest matches the password it was made from and no other |
| BookingRoutes.CreateBooking | diabcar-backend/routes/bookingRoutes.js:34-79 | POST: validation errors give 400 with the list; start not before end gives 400 with no store call; otherwise the date-only days are stored with status "pending", answering 201 or 500 |
| BookingRoutes.CreatedDatesWeaklyOrdered | diabcar-backend/routes/bookingRoutes.js:51-63 | A stored booking never ends on a day before its start day |
| BookingRoutes.CreateStoresSameDayBooking | diabcar-backend/routes/bookingRoutes.js:51-63 | As written: 10:00 to 20:00 on one day is accepted and stored as a zero-length booking |
| BookingRoutes.CreateBookingDayChecked | diabcar-backend/routes/bookingRoutes.js:34-79 | Corrected POST: the order is checked on the stored days; same envelope and statuses |
| BookingRoutes.DayCheckedStoresStrictRanges | diabcar-backend/routes/bookingRoutes.js:51-63 | With the corrected check every stored booking has both days, start strictly before end, and it refuses whatever the original refuses |
| BookingRoutes.UpdateBooking | diabcar-backend/routes/bookingRoutes.js:126-177 | PUT: the order is checked only when both dates are sent; all four fields are forwarded normalised, absent ones as none; 200 or 500 |
| BookingRoutes.UpdateSingleDateIsOnlyNormalised | diabcar-backend/routes/bookingRoutes.js:159-163 | A body with one date is never refused for its order, and the missing date stays absent |
| BookingController.CreateBooking | diabcar-backend/controllers/bookingController.js:5-33 | 400 for errors or start not before end; otherwise the dates are forwarded unnormalised with status "pending"; 201 or 500 |
| BookingController.GetBookingsForUser | diabcar-backend/controllers/bookingController.js:53-75 | A missing or non-numeric id answers 400 with no query; otherwise that user's bookings or 500 |
| BookingController.UpdateBooking | diabcar-backend/controllers/bookingController.js:78-108 | The order is checked only when both dates are present; all fields are forwarded; 200 or 500 |
| BookingController.DeleteBooking | diabcar-backend/controllers/bookingController.js:111-130 | A missing or non-numeric id answers 400 with no query; otherwise the delete, 200 or 500 |
| BookingController.DigitIdsPass | diabcar-backend/controllers/bookingController.js:111-130 | Every digit-only id passes the controller's `isNaN` guard |
| Text.DigitStringIsNumber | diabcar-backend/controllers/bookingController.js:57-61 | A digit string is never rejected by the `isNaN` guard |
| UserController.BuildSetClause | diabcar-backend/controllers/userController.js:56-73 | One clause per truthy field, aligned with its value, in name/email/phone order, followed by the id; applying them writes exactly the truthy fields |
| UserController.PushIfTruthy | diabcar-backend/controllers/userController.js:59-69 | One guarded push appends the clause and its value together, or neither |
| UserController.ChosenSteps | diabcar-backend/controllers/userController.js:59-69 | The chosen assignments are name, email, phone, each kept iff its value is truthy |
| UserController.SetClauseEffect | diabcar-backend/controllers/userController.js:56-76 | Clauses aligned with the chosen assignments write the truthy fields and nothing else |
| UserController.ApplySetIgnoresExtra | diabcar-backend/controllers/userController.js:71-76 | The trailing id value (bound to the WHERE) changes no column |
| UserController.UpdateUser | diabcar-backend/controllers/userController.js:45-89 | No truthy field answers 400 with no query; otherwise the built UPDATE, and 500, 404 (no row affected) or 200 |
| UserController.UpdateUserStatus | diabcar-backend/controllers/userController.js:92-122 | A query is sent iff the status is "approved" or "pending" (400 otherwise); then 500, 404 or 200 |
| UserController.GetUsers | diabcar-backend/controllers/userController.js:5-22 | 404 iff the table is empty, 200 with every row iff it is not, 500 on error |
| UserController.GetUserById | diabcar-backend/controllers/userController.js:25-42 | 404 iff no row; 500 on error; a row found without error answers 200 carrying the first row |
| UserController.DeleteUser | diabcar-backend/controllers/userController.js:125-143 | 404 iff no row was affected, 200 iff one was, 500 on error |
| UserRoutes.Route | diabcar-backend/routes/userRoutes.js:7-31 | A request reaching an `:id` handler has a digit-only id; a rejected one has not; GET `/` reaches getUsers |
| UserRoutes.IdRoutesAreGuarded | diabcar-backend/routes/userRoutes.js:7-31 | Every `:id` route is rejected iff the id is not digit-only, and reached iff it is |
| UserRoutes.IdExamples | diabcar-backend/routes/userRoutes.js:7-16 | "", "-1", "1.5" and "12a" are refused, "007" is accepted |
| CarController.ImagePath | diabcar-backend/controllers/carController.js:31 | Null iff no file was uploaded, else `/uploads/<filename>` |
| CarController.CreateCar | diabcar-backend/controllers/carController.js:18-57 | The body's fields in column order, `availability` replaced by true when falsy, the upload path as image; 201 or 500 |
| CarController.CreatedCarsAreAvailable | diabcar-backend/controllers/carController.js:42 | Every car created this way is stored with a truthy availability |
| CarController.WithImage | diabcar-backend/controllers/carController.js:69-72 | Each listed car keeps its properties and gains `image`: host + image_url when that is truthy, else null |
| CarController.GetCars | diabcar-backend/controllers/carController.js:60-81 | Every row in order with its image URL, or 500 |
| CarController.ListedCarKeepsColumns | diabcar-backend/controllers/carController.js:60-81 | A stored car keeps its columns in the listing and its image path becomes an absolute URL |
| CarController.GetCarById | diabcar-backend/controllers/carController.js:85-106 | 404 iff the lookup fails or finds nothing; otherwise the first row with its image URL |
| CarController.CarPatch | diabcar-backend/controllers/carController.js:126-135 | The update object holds each text field iff truthy, `availability` iff not undefined, `image` iff a file was uploaded, and nothing else |
| CarController.CopyTruthyFields | diabcar-backend/controllers/carController.js:126-133 | The eight guarded assignments build exactly the truthy text fields of the body |
| CarController.CopyIfTruthy | diabcar-backend/controllers/carController.js:126-133 | One guarded assignment copies the field iff it is truthy, keeping the copied-so-far invariant |
| CarController.AddAvailability | diabcar-backend/controllers/carController.js:134 | `availability` is added iff it is not undefined |
| CarController.AddImage | diabcar-backend/controllers/carController.js:135 | `image` is added iff a file was uploaded |
| CarController.BuildCarPatch | diabcar-backend/controllers/carController.js:126-135 | The statements build exactly `CarPatch` |
| CarController.UpdateCar | diabcar-backend/controllers/carController.js:110-151 | The built object goes to `Car.updateById`; 200 or 500 |
| CarController.UpdateCarLosesImageAndUnsentColumns | diabcar-backend/controllers/carController.js:135 | As written: the stored image_url is always NULL, and a price that is not sent is stored as NULL |
| CarController.RenamingWithPictureClearsColumns | diabcar-backend/controllers/carController.js:126-135 | As written: renaming a car with a new picture clears its price and image |
| CarController.MergedRow | diabcar-backend/models/Car.js:27-52 | Corrected update: columns the object does not name keep their values; `image` is written to image_url |
| CarController.MergedUpdateKeepsAndStores | diabcar-backend/controllers/carController.js:110-151 | With the merge an upload is stored, no upload keeps the picture, and an unsent price keeps the price |
| CarController.DeleteCar | diabcar-backend/controllers/carController.js:154-189 | 404 iff the lookup fails or finds nothing; otherwise the delete, and an unlink of `car.image` only when the delete succeeded and it is truthy |
| CarController.DeleteCarNeverUnlinks | diabcar-backend/controllers/carController.js:174-181 | As written: a row of the cars table has no `image` property, so no file is ever removed |
| CarController.DeleteCarByImageUrl | diabcar-backend/controllers/carController.js:154-189 | Corrected delete: the same 404 without a delete, then `DELETE ... WHERE id` with 500 or 200; unlinks iff the delete succeeded and image_url is truthy |
| CarController.DeleteCarByImageUrlUnlinks | diabcar-backend/controllers/carController.js:174-181 | With the correction a deleted car's picture is removed |
| CarController.UpdateAvailability | diabcar-backend/controllers/carController.js:192-215 | 400 with no update iff availability is undefined; otherwise that update |
| ReviewController.CreateReview | diabcar-backend/controllers/reviewController.js:5-46 | Errors give 400 with the list; a rating whose JavaScript number is outside 1..5 gives 400 with no insert, and any other rating, NaN included, is forwarded as sent; NULL-column errors 400, other errors 500, success 201 |
| ReviewController.AcceptedRatingsInRange | diabcar-backend/controllers/reviewController.js:14-20 | A rating that is not NaN and reaches the insert is between 1 and 5 |
| ReviewController.CoercedRatings | diabcar-backend/controllers/reviewController.js:14-20 | null, "" and false compare as 0 and are refused; true and a missing rating are let through; a number sent as text is let through iff it is from 1 to 5 |
| ReviewController.NumberOfTemplate | diabcar-backend/controllers/reviewController.js:15 | The comparison reads a number written as text back as that number |
| ReviewController.DigitsOfDecimalText | diabcar-backend/controllers/reviewController.js:15 | The decimal text of a natural number is a run of digits whose value is that number |
| ReviewController.NumberOfDigits | diabcar-backend/controllers/reviewController.js:15 | A run of digits, with or without a leading minus, compares as its value |
| ReviewController.ApproveReview | diabcar-backend/controllers/reviewController.js:49-74 | A missing or non-numeric id answers 400 with no update; otherwise the approve |
| ReviewController.GetApprovedReviews | diabcar-backend/controllers/reviewController.js:77-91 | The approved reviews with 200, or 500 |
| ReviewController.DeleteReview | diabcar-backend/controllers/reviewController.js:94-119 | A missing or non-numeric id answers 400 with no delete; otherwise the delete |
| ReviewController.IdGuardExamples | diabcar-backend/controllers/reviewController.js:49-119 | An empty id is refused and "12" reaches the store |
| ContactController.SubmitMessage | diabcar-backend/controllers/contactController.js:5-50 | Errors give 400 with the list and no insert; 201 iff the insert succeeded; NULL column 400, duplicate 409, other 500 |
| ContactController.StatusIdentifiesOutcome | diabcar-backend/controllers/contactController.js:20-50 | After a valid request the status determines the driver's outcome |
| AuthRoutes.AuthRouter.Register | diabcar-backend/routes/authRoutes.js:8-104 | Errors or a registered email give 400 before hashing; hashing happens iff neither; a failed lookup, hash, insert or re-fetch gives 500; one user is inserted iff hashing and the insert succeed; a new email with no errors and no failure gives 201, and 201 happens only then; 201 logs in the new user with the stored role (the sent role, or "customer" when none is sent), whose digest matches the password |
| AuthRoutes.AuthRouter.Login | diabcar-backend/routes/authRoutes.js:107-168 | Errors give 400; a failed lookup or compare 500; 404 iff no user has the email; when every user with the email has a non-matching digest 401, when every one has a matching digest 200; only 200 changes the session, to a stored user's id, role and email, whose digest matches |
| AuthRoutes.AuthRouter.Logout | diabcar-backend/routes/authRoutes.js:171-187 | No session gives 400; a failed destroy 500 and keeps it; otherwise 200 and no session |
| BookingModal.OverlapIsSharedDay | diabrentfront2/src/pages/AvailableCarsPage.js:130-132 | For ordered ranges, overlap iff they share a day; the test is symmetric; a range ending on another's start day overlaps it |
| BookingModal.ScanOverlap | diabrentfront2/src/pages/AvailableCarsPage.js:152-157 | The `.some` scan answers true iff some booked range overlaps |
| BookingModal.OnlyOngoingBlocks | diabrentfront2/src/pages/AvailableCarsPage.js:400-404 | The ranges handed to the modal block a choice iff one of the car's own "ongoing" bookings overlaps it |
| BookingModal.Listed | diabrentfront2/src/pages/AvailableCarsPage.js:152-156 | A table row as the page reads it: same car, "ongoing" iff the stored status is, and a NULL date read as `new Date(null)`, day 0 |
| BookingModal.NullDatesNeverBlock | diabrentfront2/src/pages/AvailableCarsPage.js:129-131 | Bookings whose dates are both NULL block no range that starts after 1970-01-01 |
| BookingModal.QuoteFor | diabrentfront2/src/pages/AvailableCarsPage.js:134-171 | Missing date clears both; start not before end gives the order error; an overlap gives the unavailable error; every error sets price 0; an ordered, free range clears the error and prices days x price per day |
| BookingModal.QuoteAllowsBooking | diabrentfront2/src/pages/AvailableCarsPage.js:145-170 | No error and a positive price iff both dates are set, ordered, free, and the daily price is positive |
| BookingModal.Modal.ChooseDates | diabrentfront2/src/pages/AvailableCarsPage.js:134-171 | The effect sets price and error to `QuoteFor` of the chosen dates and keeps the modal's invariant |
| BookingModal.Modal.HandleBooking | diabrentfront2/src/pages/AvailableCarsPage.js:173-211 | A request is posted iff no error, positive price and a stored user; it carries the chosen dates and price, ordered and free |
| BookingModal.Modal.ReceiveReply | diabrentfront2/src/pages/AvailableCarsPage.js:200-209 | A reply with `success` closes the modal; a 2xx reply without it shows its message or the default; a thrown request (the API client throws on every non-2xx reply) shows the fixed text "Failed to create booking. Please try again." and keeps the modal open |
| CarListing.ToggleFlips | diabrentfront2/src/pages/AvailableCarsPage.js:46-51 | Toggling flips the toggled type's membership and no other |
| CarListing.FilterByTypeKeeps | diabrentfront2/src/pages/AvailableCarsPage.js:329-333 | A car is kept iff "All" or nothing is selected or its type is selected; a car without a type is hidden by any other selection |
| CarListing.SortByPrice | diabrentfront2/src/pages/AvailableCarsPage.js:336-340 | The array is sorted by price (ascending or descending) and is a permutation of the input |
| CarListing.InsertAt | diabrentfront2/src/pages/AvailableCarsPage.js:336-340 | One insertion pass extends the ordered prefix by one car and keeps the same cars |
| CarListing.OrderedMeansByPrice | diabrentfront2/src/pages/AvailableCarsPage.js:336-340 | "Lowest price" order is non-decreasing price_per_day, "Highest price" non-increasing |
| CarListing.TotalPages | diabrentfront2/src/pages/AvailableCarsPage.js:353-354 | The ceiling of n / perPage: enough pages for n items, one fewer is not |
| CarListing.PageSlice | diabrentfront2/src/pages/AvailableCarsPage.js:380-382 | Page p shows items (p-1)·perPage onwards, at most perPage of them, a full page when the list reaches p·perPage, none past the end |
| CarListing.PagesCoverList | diabrentfront2/src/pages/AvailableCarsPage.js:353-382 | The first n pages are the list's prefix of n·perPage items, so all pages show every car once, in order |
| CarListing.ListingPage.CurrentCars | diabrentfront2/src/pages/AvailableCarsPage.js:380-382 | The cars shown are the current page's slice |
| CarListing.ListingPage.Load | diabrentfront2/src/pages/AvailableCarsPage.js:290-312 | Cars and bookings are stored only when both requests succeed |
| CarListing.ListingPage.ToggleType | diabrentfront2/src/pages/AvailableCarsPage.js:46-51 | The selection becomes `Toggle` of the old one |
| CarListing.ListingPage.ChangeSort | diabrentfront2/src/pages/AvailableCarsPage.js:392-394 | The sort order is replaced |
| CarListing.ListingPage.ApplyFilterAndSort | diabrentfront2/src/pages/AvailableCarsPage.js:324-348 | The filtered list is a permutation of the type filter's result, sorted by price when a price order is chosen and unchanged otherwise; the page resets to 1 |
| CarListing.ListingPage.ResetIfBeyond | diabrentfront2/src/pages/AvailableCarsPage.js:357-361 | A page beyond the last is reset to 1, any other is kept |
| CarListing.ListingPage.GoToPage | diabrentfront2/src/pages/AvailableCarsPage.js:363-365 | The chosen page becomes current |
| CarListing.ListingPage.NextPage | diabrentfront2/src/pages/AvailableCarsPage.js:367-371 | Advances only before the last page; a page in range stays in range |
| CarListing.ListingPage.PrevPage | diabrentfront2/src/pages/AvailableCarsPage.js:373-377 | Goes back only after page 1; a page in range stays in range |
| CarListing.ListingPage.ChangeShowCount | diabrentfront2/src/pages/AvailableCarsPage.js:387-390 | New page size and page 1 |
| CarListing.ListingPage.BookNow | diabrentfront2/src/pages/AvailableCarsPage.js:530-534 | The modal opens empty for that car with only its ongoing bookings as booked ranges |
| AdminBookings.FormatDate | diabrentfront2/src/pages/AdminBookingManagementPage.js:16-19 | "N/A" for a null or empty date |
| AdminBookings.FormatDateIsDatePart | diabrentfront2/src/pages/AdminBookingManagementPage.js:18 | Otherwise a prefix without 'T' that is the whole string or ends at the first 'T' |
| Text.BeforeFirstIsPrefix | diabrentfront2/src/pages/AdminBookingManagementPage.js:18 | `split(c)[0]` is the longest prefix without `c` |
| AdminBookings.WithStatus | diabrentfront2/src/pages/AdminBookingManagementPage.js:58-60 | Same length and ids; bookings with that id get the new status and keep their dates; all others are unchanged |
| AdminBookings.WithoutBookingRemovesOnlyId | diabrentfront2/src/pages/AdminBookingManagementPage.js:78 | Exactly the bookings with that id are removed, and the rest keep their order |
| AdminBookings.BookingsPage.HandleStatusChange | diabrentfront2/src/pages/AdminBookingManagementPage.js:54-65 | The list changes, to `WithStatus`, only after the server accepted |
| AdminBookings.StatusChangeClearsDates | diabrentfront2/src/pages/AdminBookingManagementPage.js:56 | As written: sending only the status makes the PUT route write NULL dates, price and the new status; the booking then lists as ongoing on day 0 and blocks no later range |
| AdminBookings.ChangeStatusAsWritten | diabrentfront2/src/pages/AdminBookingManagementPage.js:56 | As written, on the table: the status change rewrites that row's dates and price to NULL and leaves every other row; the page lists it on day 0 |
| AdminBookings.ChangeStatusKeepingDates | diabcar-backend/models/Booking.js:104-111 | Corrected: the status change through `updateStatus` writes the status alone; the row keeps its dates and price, and so does its listing |
| AdminBookings.KeptDatesStillBlock | diabrentfront2/src/pages/AvailableCarsPage.js:151-158 | Corrected: a booking marked "ongoing" with its dates kept blocks exactly the ranges that overlap its days |
| AdminBookings.BookingsPage.HandleDeleteBooking | diabrentfront2/src/pages/AdminBookingManagementPage.js:71-83 | A declined confirmation sends nothing; the list changes, to `WithoutBooking`, only after the server accepted |
| AdminUsers.SearchKeepsMatches | diabrentfront2/src/pages/AdminUserManagementPage.js:76-80 | Exactly the users whose lower-cased name or email contains the lower-cased query; the query's case does not matter; an empty query keeps every user |
| Text.IncludesEmpty | diabrentfront2/src/pages/AdminUserManagementPage.js:76-80 | Every string includes the empty query |
| AdminUsers.ToggledStatus | diabrentfront2/src/pages/AdminUserManagementPage.js:139-142 | "pending" iff the user is approved, "approved" otherwise |
| AdminUsers.WithStatus | diabrentfront2/src/pages/AdminUserManagementPage.js:49-53 | Only the matching user's status changes |
| AdminUsers.WithoutUser | diabrentfront2/src/pages/AdminUserManagementPage.js:67 | Exactly the matching users are removed |
| AdminUsers.UsersPage.UpdateUserStatus | diabrentfront2/src/pages/AdminUserManagementPage.js:44-59 | Success changes only that status and confirms; failure leaves the list and sets the action error |
| AdminUsers.UsersPage.DeleteUser | diabrentfront2/src/pages/AdminUserManagementPage.js:62-73 | Success removes only that user and confirms; failure leaves the list and sets the action error |
| FeedbackStars.RenderStars | diabrentfront2/src/pages/FeedbackAndReviewsPage.js:38-45 | Exactly five stars; star i is filled iff i < rating |
| FeedbackStars.FilledStarsCount | diabrentfront2/src/pages/FeedbackAndReviewsPage.js:39-43 | The number of filled stars is the rating clamped to [0, 5], and filled stars precede empty ones |

## Left out

- The SQL engine is replaced by maps from id to row. Left out are:
  - result row order, and the `created_at` column and its ordering;
  - collation, which the model treats as exact, case-sensitive comparison of emails;
  - column types, foreign keys and unique keys, except as the driver error codes handed to the handlers.
- Column defaults are unknown: `users.status` and `reviews.status` stay "unwritten" (None) until a statement writes them.
- express-validator (`isEmail`, `isISO8601`, `isInt`, `isMobilePhone`, the length checks) is abstract. It becomes an error-list parameter, plus a `requires` saying what an empty list guarantees.
- bcrypt is abstract: a digest made from a password and a salt, and a compare that holds only for the same password.
- Bcrypt.CompareHash: states that a digest matches only its own password, which is stronger than bcrypt. bcrypt reads only the first 72 bytes of a password, so two passwords that share those bytes compare equal; registration bounds the length only from below (at least 6), and the truncation is not modelled.
- JavaScript `Date` parsing and time zones are not modelled. A backend date is a UTC day plus milliseconds. A frontend date is a whole day.
- The backend's `new Date(null)` (epoch) is not distinguished from an unparsable date.
- Floats are not modelled. Prices, ratings and days are integers.
  - Non-integer ratings are not modelled.
  - ReviewController.NumberOf reads only an empty text and an optionally signed run of digits as a number. Texts with a decimal point, an exponent, a hex prefix or surrounding spaces are taken as NaN, although JavaScript reads them as numbers.
  - `isNaN` is modelled on optionally signed decimal text only.
- Lower-casing is ASCII only. Unicode case mapping is not modelled.
- CarListing.SortByPrice: proves sortedness and permutation but not the stability of `Array.prototype.sort`.
- Sorting prices that are not numbers is not modelled.
- BookingModal: a booking with NULL dates does reach the modal. The page reads each NULL date as `new Date(null)`, the epoch, which is day 0 (`BookingModal.Listed`). Every booking an admin moves to a new status gets NULL dates, as the Findings section shows, so such bookings are the usual case.
- AuthRoutes.AuthRouter.Register and Login keep the session as one optional user. Cookies, session storage and `req.session.save` are not modelled.
- Concurrency is out: each handler is one atomic step, so the race between the email lookup and the insert is not modelled.
- Logging, alert texts, timers that clear messages, loading flags and fetch error banners are not modelled.
- The GET `/`, GET `/:id` and DELETE `/:id` booking routes (routes/bookingRoutes.js:85-124, 183-end) are left out. They are one store call plus an error mapping, already shown by the controller handlers.
- The booking and review controllers are not mounted by the server. They are modelled anyway, as written.
- Several parts of the repository are not part of this model:
  - server.js, authController.js and authMiddleware.js (JWT);
  - uploadMiddleware.js (multer), and the file system beyond the unlink call `deleteCar` decides on;
  - the analytics and admin controllers (SQL aggregates), the remaining route files (wiring and validator declarations) and Contact.js;
  - network.js and the presentational React components.
- `userController.getUsers` and `getUserById` use `SELECT *`, so their responses include password digests. The model passes result rows through as given and does not model this.
- The car listing reads `car.car_type`, but `Car.create` never writes such a column. A car without a type is hidden by every selection other than "All" (`CarListing.FilterByTypeKeeps`).
- `doRangesOverlap` compares closed ranges, so a booking ending on the day another starts counts as overlapping. The model follows the code rather than a half-open reading.

## Findings

| source | as written | input that shows it | evidently intended | confidence | as-written member | corrected member |
|---|---|---|---|---|---|---|
| diabcar-backend/routes/bookingRoutes.js:51-63 | The start/end order is checked on the full timestamps, and the days are truncated afterwards | start 2025-01-17T10:00Z, end 2025-01-17T20:00Z: accepted, stored as 2025-01-17 to 2025-01-17 | Stored bookings have start day strictly before end day | medium, not executed | BookingRoutes.CreateStoresSameDayBooking | BookingRoutes.CreateBookingDayChecked (BookingRoutes.DayCheckedStoresStrictRanges) |
| diabcar-backend/controllers/carController.js:135 | updateCar stores the upload under `image`, and `Car.updateById` reads `image_url` and overwrites all ten columns | body `{name: "Clio"}` with an uploaded file: image_url and price_per_day become NULL | The upload is stored and unsent columns keep their values | high, not executed | CarController.UpdateCarLosesImageAndUnsentColumns | CarController.MergedRow (CarController.MergedUpdateKeepsAndStores) |
| diabcar-backend/controllers/carController.js:174-175 | deleteCar unlinks `car.image`, but a cars row has `image_url` | a car stored with image_url "/uploads/a.jpg" and then deleted: the file remains | The car's picture file is removed | high, not executed | CarController.DeleteCarNeverUnlinks | CarController.DeleteCarByImageUrl (CarController.DeleteCarByImageUrlUnlinks) |
| diabrentfront2/src/pages/AdminBookingManagementPage.js:56 | The admin's status change sends only `{ status }` to `PUT /bookings/:id`. That route forwards the left-out dates and price as undefined, and `Booking.updateById` writes all four columns, so the dates become NULL. `Booking.updateStatus` is never called. | a booking for 2025-03-01 to 2025-03-05 set to "ongoing": it is stored with NULL dates, and the car page then accepts 2025-03-02 to 2025-03-04 for the same car | Changing the status keeps the booking's dates and price, and an ongoing booking keeps blocking its days | high, not executed | AdminBookings.StatusChangeClearsDates (AdminBookings.ChangeStatusAsWritten) | AdminBookings.ChangeStatusKeepingDates (AdminBookings.KeptDatesStillBlock) |
