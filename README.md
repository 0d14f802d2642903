# DriveMeHome ride engine — a Dafny model

DriveMeHome is a ride service where customers book a driver to drive their
own vehicle. This project models its server core and proves properties of it:

- how drivers qualify for a vehicle and how they are ranked;
- the ride lifecycle (booking with driver assignment, a driver accepting a
  ride, ride status updates, the driver online/offline toggle, reviews and
  the rides a driver's dashboard offers);
- the fare estimate and the pricing configuration that is the only active one;
- decoding of the directions service's reply;
- the derived fields and validators of the user models;
- the notification read state;
- the sign-up form's client-side checks.

Modules, one per file:

- `Wrappers` (wrappers.dfy): `Option` and `Result`.
- `Text` (text.dfy): Python `strip` and JavaScript `trim` whitespace, `replace`, digit extraction.
- `Decimal` (decimal.dfy): Python `round` on a `Decimal` (half to even) and `round(x, 6)`.
- `Profiles` (profiles.dfy): users/models.py, the score table and the `clean`/`save` of the profile records.
- `Pricing` (pricing.dfy): rides/models.py, `PricingConfiguration.save` and the active config lookup.
- `Directions` (directions.dfy): rides/utils.py, `get_distance_and_duration` with the HTTP reply as a parameter.
- `Fare` (fare.dfy): the estimate formula and `get_ride_estimate_view`.
- `Matching` (matching.dfy): the eligibility filter, the stable ranking and `get_qualified_drivers_view`.
- `Lifecycle` (lifecycle.dfy): booking, accept, status update, toggle, reviews, the dashboard, and the ride store.
- `Notifications` (notifications.dfy): notifications/views.py, the polling list, mark read and mark all read.
- `ClientValidation` (client_validation.dfy): the validators of static/js/authentication.js.

Each endpoint that changes the database is written twice: a function from
the tables before the request to the tables after it (or the error it
answers with), and a method of a class holding those tables that performs
the source's steps in place and is proved to agree with the function. The
properties are proved as lemmas about the functions.

Decimals are exact `real`s. Python's `round` is defined by its meaning
(nearest integer, ties to even) in `Decimal.IsHalfEvenRounding`, and the
rounding function is proved to be the only one with that meaning.

The driver table is a sequence, not a map keyed by id. Neither driver query
has an `order_by` and the driver model declares no default ordering, so the
database yields drivers in an unspecified order; the sequence stands for that
order. The ranking is a stable sort, so its ties follow it. A driver row is written by id (`Lifecycle.WriteDriver`), as the
database does.

The ranking is specified by its meaning: ordered by the key `(0 if AVAILABLE
else 1, -rating)`, a permutation of the qualified drivers, and stable. That
means each key's drivers stay in the order the query yields them. `Matching.RankIsTheStableSort`
proves that exactly one list has these properties.

## Model

| member | source | states |
|---|---|---|
| Decimal.RoundHalfEven | rides/views.py:293 | the result is an integer within 0.5 of the input, and on an exact half it is the even neighbour |
| Decimal.RoundHalfEvenUnique | rides/views.py:293 | only one integer is a half-to-even rounding of a given value |
| Decimal.RoundHalfEvenOfInt | rides/views.py:293 | an integer rounds to itself |
| Decimal.RoundHalfEvenMonotone | rides/views.py:293 | rounding never reverses the order of two values |
| Decimal.Round6 | users/models.py:77-79 | `round(x, 6)` is a whole number of millionths, the half-even rounding of x at that scale, hence within half a millionth of x |
| Decimal.Round6Unique | users/models.py:77-79 | any half-even rounding of x to six places is `Round6(x)` |
| Decimal.Round6OfMicros | users/models.py:77-79 | a value that is already a whole number of millionths is unchanged |
| Decimal.Round6Idempotent | users/models.py:154-156 | rounding to six places twice is rounding once |
| Profiles.ScoreTable | users/models.py:82 | the score table is defined exactly for the categories A to F |
| Profiles.DriverLicenseScore | users/models.py:83 | a driver's score is the table entry, or 0 for an unknown category |
| Profiles.VehicleRequiredScore | users/models.py:118 | a vehicle's required score is the table entry, or 10 for an unknown category |
| Profiles.ScoreTableStrictlyIncreasing | users/models.py:82 | a later category in A..F has a strictly higher score |
| Profiles.ScoreOrderIsCategoryOrder | users/models.py:117-118 | for known categories, driver score >= vehicle score iff driver category >= vehicle category |
| Profiles.UnknownDriverCategoryQualifiesForNothing | users/models.py:83 | a driver with an unknown category (score 0) meets no vehicle's required score |
| Profiles.RoundCoordinate | users/models.py:76-79 | a missing coordinate stays missing; a present one becomes a whole number of millionths, rounded half to even |
| Profiles.RoundCoordinateIdempotent | users/models.py:153-156 | cleaning coordinates twice is cleaning them once |
| Profiles.ContactPhoneAcceptedChars | users/models.py:131-134 | a non-empty phone is accepted iff it has only digits and '+' and at least one digit |
| Profiles.BarePlusRejected | users/models.py:133 | the phone "+" alone is rejected |
| Profiles.NormalizedPhone | users/models.py:137-138 | the saved phone has no spaces, and its characters are exactly the phone's non-space characters, each as often |
| Profiles.NormalizedPhoneAppend | users/models.py:137-138 | normalising a concatenation normalises each part, so the kept characters stay in order |
| Profiles.NormalizedPhoneOfChar | users/models.py:137-138 | a single character is kept unless it is a space |
| Profiles.NormalizedPhoneIdempotent | users/models.py:137-138 | stripping spaces twice is stripping them once |
| Profiles.DriverProfile.Clean | users/models.py:71-79 | fails, changing nothing, exactly when the driver is verified and has no licence number; otherwise rounds present coordinates |
| Profiles.DriverProfile.Save | users/models.py:81-84 | the score becomes the table lookup of the category, whatever it held before |
| Profiles.CustomerVehicle.Save | users/models.py:116-119 | the required score becomes the table lookup with default 10 |
| Profiles.EmergencyContact.Clean | users/models.py:130-134 | accepts exactly the empty phone or one that is digits once '+' is removed |
| Profiles.EmergencyContact.Save | users/models.py:136-139 | a non-empty phone loses its spaces |
| Profiles.PreferredDestination.Clean | users/models.py:151-156 | present coordinates are rounded to six places |
| Profiles.PreferredDestination.Save | users/models.py:158-160 | what is stored is always the cleaned coordinates |
| Pricing.SavedTable | rides/models.py:26-30 | the saved row holds the new config; the table grows only when the config is new |
| Pricing.SaveActiveIsTheOnlyActive | rides/models.py:28-30 | after saving an active config, it is the one and only active config |
| Pricing.SaveInactiveKeepsOthers | rides/models.py:28 | saving an inactive config changes no other row |
| Pricing.SaveKeepsOtherRates | rides/models.py:29 | other rows keep their name and rates; only their active flag may change |
| Pricing.SavePreservesAtMostOneActive | rides/models.py:26-30 | "at most one active config" holds after any save if it held before |
| Pricing.FirstActive | rides/views.py:285 | no config iff none is active; otherwise the first active row |
| Pricing.EstimateUsesLastActivated | rides/views.py:285 | after saving an active config, the estimate's lookup finds exactly it |
| Pricing.PricingTable.Save | rides/models.py:26-30 | deactivates the other active rows, then writes the row, as `SavedTable` states |
| Pricing.PricingTable.Active | rides/views.py:285 | the stored rows' `FirstActive`: none iff no row is active, otherwise the active row with the lowest primary key |
| Directions.DistanceAndDuration | rides/utils.py:17-68 | no result without a token, on a raised call, an undecodable body, a status other than 200, a code other than "Ok", no routes, or a missing distance or duration; otherwise km·1000 and min·60 are the first route's meters and seconds |
| Directions.DecodeSingleRouteReply | rides/utils.py:46-59 | decoding a reply made from metrics gives those metrics back |
| Directions.LaterRoutesIgnored | rides/utils.py:46 | only the first route matters |
| Fare.EstimatedPrice | rides/views.py:289-299 | the price is the half-to-even rounding of base + km·per_km + min·per_min with a config, or of 2000 + km·1000 without one |
| Fare.FallbackIgnoresDuration | rides/views.py:296-299 | without a config the duration does not affect the price |
| Fare.EstimateMonotone | rides/views.py:289-299 | a longer trip never costs less (non-negative rates) |
| Fare.WorkedExample | rides/views.py:289-293 | a concrete config and trip give the expected price |
| Fare.HalfwayRoundsToEven | rides/views.py:298-299 | fallback costs 2000.5 and 2001.5 round to 2000 and 2002 |
| Fare.Round1 | rides/views.py:303 | `round(d, 1)` is a whole number of tenths, the half-even rounding of d at that scale, hence within 0.05 of d |
| Fare.EstimateView | rides/views.py:264-307 | missing coordinates and an unusable route are the two errors, and a request with coordinates and a route is answered; a reply carries the price of the first active config and the rounded metrics |
| Matching.SavedDriver | users/models.py:81-84 | a saved driver row differs from the in-memory one only in its recomputed score |
| Matching.Qualified | rides/views.py:159-166 | exactly the eligible drivers: verified, score high enough, not OFFLINE, and able to drive a MANUAL vehicle if it is one |
| Matching.QualifiedAppend | rides/views.py:159-166 | filtering distributes over concatenation, so the qualified drivers keep the order the rows come in |
| Matching.QualifiedOfOne | rides/views.py:159-166 | a single row is kept exactly when it is eligible |
| Matching.InsertAddsOne | rides/views.py:182 | inserting a driver into the ranked list adds exactly that driver and removes none |
| Matching.InsertKeepsRanked | rides/views.py:182 | inserting into a list ordered by the key `(0 if AVAILABLE else 1, -rating)` keeps it ordered |
| Matching.Rank | rides/views.py:182 | the ranked list is a permutation of its input and is ordered by the key |
| Matching.RankKeepsKeyGroups | rides/views.py:182 | the sort is stable: the drivers sharing a key keep their input order |
| Matching.RankedWithSameGroupsAreEqual | rides/views.py:182 | two ranked lists with the same drivers per key are equal |
| Matching.RankIsTheStableSort | rides/views.py:182 | any ranked, stable arrangement of the input is the ranking |
| Matching.RankedOrder | rides/views.py:182 | AVAILABLE drivers come first, and ratings do not rise within a status group |
| Matching.BestDriver | rides/views.py:77-90 | no choice iff no driver is eligible; a choice is an eligible driver of the table |
| Matching.BestDriverIsBest | rides/views.py:86-90 | the choice ranks at least as high as every eligible driver and is the first of its key in the order the query yields drivers |
| Matching.QualifiedDriversFor | rides/views.py:148-184 | the three lookup errors in order (vehicle id required, no customer profile, vehicle not found, each by its kind); otherwise a ranked, stable permutation of the eligible drivers |
| Lifecycle.FindDriver | rides/views.py:95 | finds a row with the given id exactly when one exists |
| Lifecycle.WriteDriver | rides/views.py:107 | the driver's own row takes the saved values; every other row is unchanged |
| Lifecycle.DriverToAssign | rides/views.py:75-97 | auto mode takes the best driver; a chosen id takes any existing driver, with no eligibility check |
| Lifecycle.AfterBooking | rides/views.py:73-117 | the new ride is DRIVER_ASSIGNED to the chosen driver with every other field as created (no accepted, started or completed time), and the driver becomes BUSY unless already BUSY; with no driver it is REQUESTED; no other ride changes |
| Lifecycle.BookingWithoutDriverBroadcasts | rides/views.py:93-114 | no eligible driver in auto mode, or an unknown chosen id, leaves the ride REQUESTED and the drivers untouched |
| Lifecycle.AutoBookingAssignsBestDriver | rides/views.py:76-90 | when an eligible driver exists, auto booking assigns an eligible driver ranked at least as high |
| Lifecycle.BookingMayQueueSecondActiveRide | rides/views.py:100-104 | booking can give a driver with an active ride a second one |
| Lifecycle.AfterAccept | rides/views.py:407-433 | refused, changing nothing, for a non-driver, a missing ride, a driver with an active ride or a ride no longer REQUESTED, each by its own error kind in that order; otherwise the ride gets the driver, DRIVER_ASSIGNED and accepted_at, and the driver is BUSY |
| Lifecycle.AcceptLeavesOneActiveRide | rides/views.py:413-431 | after an accept the driver's only active ride is the accepted one |
| Lifecycle.AcceptPreservesSingleActiveRide | rides/views.py:412-433 | accept keeps "no driver has two active rides" |
| Lifecycle.WithStatus | rides/views.py:519-524 | sets the status; IN_PROGRESS stamps started_at and COMPLETED stamps completed_at |
| Lifecycle.AfterStatusUpdate | rides/views.py:507-535 | no driver profile, a ride not assigned to the caller, a missing status and an unlisted status are refused by their kinds, in that order; only the ride's own driver may change it, to any listed status; completing it frees the driver iff no ride of theirs is stored as DRIVER_ASSIGNED or DRIVER_ARRIVED |
| Lifecycle.CompletionReleasesDriverUnlessQueued | rides/views.py:521-533 | on completion the driver is AVAILABLE iff they were already or no queued ride is stored |
| Lifecycle.CompletingFromArrivedKeepsDriverBusy | rides/views.py:527-535 | completing a ride stored as DRIVER_ARRIVED keeps its driver BUSY, as the query sees the stored status |
| Lifecycle.StatusMayGoBackwards | rides/views.py:515-519 | a COMPLETED ride can be set back to REQUESTED |
| Lifecycle.AfterDriverStatusUpdate | rides/views.py:373-389 | only AVAILABLE and OFFLINE may be asked for (otherwise InvalidStatus), and a BUSY driver asking for OFFLINE gets CannotGoOfflineWhileBusy |
| Lifecycle.DriverToggleNeverBusy | rides/views.py:379-389 | the toggle never sets BUSY and never touches another driver |
| Lifecycle.AfterReview | rides/views.py:556-589 | each refusal by its kind in the source's order (ride not found, not completed, not a participant, already reviewed, rating out of range); a review is added iff the ride is COMPLETED, the user is its customer or driver, has not reviewed it, and rates 1..5; the role is DRIVER for the driver |
| Lifecycle.ReviewKeepsOnePerReviewer | rides/views.py:570-572 | "one review per ride and reviewer" is kept |
| Lifecycle.OfferedRides | rides/views.py:331-356 | only REQUESTED rides are offered, and none to a driver with an active ride or not AVAILABLE; to a free AVAILABLE driver exactly the rides passing the dashboard's query |
| Lifecycle.DashboardAgreesWithMatching | rides/views.py:345-356 | for a verified driver and a vehicle whose transmission is AUTO or MANUAL, the offer filter is the matching filter |
| Lifecycle.OffChoiceTransmissionSplitsFilters | rides/views.py:345-349 | on a transmission outside AUTO/MANUAL, matching accepts an automatic-only driver the dashboard never offers the ride to; for a driver who can drive both the filters still agree |
| Lifecycle.DashboardIgnoresVerification | rides/views.py:338-356 | the offer does not depend on the driver being verified |
| Lifecycle.RideStore.BookRide | rides/views.py:73-117 | the store after booking is `AfterBooking` of the store before, under a fresh id |
| Lifecycle.RideStore.AcceptRide | rides/views.py:407-433 | error and unchanged store, or the store `AfterAccept` describes |
| Lifecycle.RideStore.UpdateRideStatus | rides/views.py:507-535 | error and unchanged store, or the store `AfterStatusUpdate` describes |
| Lifecycle.RideStore.UpdateDriverStatus | rides/views.py:373-389 | error and unchanged store, or the store `AfterDriverStatusUpdate` describes |
| Lifecycle.RideStore.CreateReview | rides/views.py:556-589 | error and unchanged store, or the store `AfterReview` describes, answering the new review's position |
| Notifications.UnreadNewestFirst | notifications/views.py:14 | exactly the user's unread notifications, as many as there are |
| Notifications.UnreadNewestFirstDecreasing | notifications/views.py:14 | when ids grow with creation, the list comes newest first (strictly decreasing ids) |
| Notifications.UnreadCountIsQueryLength | notifications/views.py:26 | the count is the number of notifications the unread query yields |
| Notifications.GetNotifications | notifications/views.py:8-28 | the user's unread notifications, newest first, exactly ten of them when more are unread and all of them otherwise; the count is the number unread |
| Notifications.ListingHoldsTheNewest | notifications/views.py:14 | an unread notification left out of the list is older than every one shown |
| Notifications.AfterMarkRead | notifications/views.py:36-38 | not found iff the user owns no notification with the id; otherwise only that row becomes read |
| Notifications.MarkReadIdempotent | notifications/views.py:37-38 | marking the same notification twice is marking it once |
| Notifications.AfterMarkAllRead | notifications/views.py:47 | exactly the user's unread rows become read |
| Notifications.MarkAllReadClearsUnread | notifications/views.py:47 | afterwards the user has nothing unread |
| Notifications.MarkAllReadIdempotent | notifications/views.py:47 | marking all read twice is marking once |
| Notifications.MarkAllReadKeepsOtherUsers | notifications/views.py:47 | another user's unread list is unchanged |
| Notifications.NotificationTable.MarkRead | notifications/views.py:32-39 | answers not found and changes nothing, or makes the table `AfterMarkRead` |
| Notifications.NotificationTable.MarkAllRead | notifications/views.py:43-48 | the table becomes `AfterMarkAllRead` |
| ClientValidation.EmailShapeIsPattern | static/js/authentication.js:45-46 | the scan accepts exactly the language of `^[^\s@]+@[^\s@]+\.[^\s@]+$` |
| ClientValidation.ValidateEmail | static/js/authentication.js:41-48 | blank is invalid with an empty message; otherwise valid iff the trimmed value matches the pattern |
| ClientValidation.EmailHasNoSpace | static/js/authentication.js:45 | a matching address has no whitespace |
| ClientValidation.ValidatePhone | static/js/authentication.js:50-56 | valid iff the value has 10 to 15 ASCII digits; the cleaned value is those digits |
| ClientValidation.ValidateUsername | static/js/authentication.js:125 | valid iff some character is not whitespace |
| ClientValidation.CheckField | static/js/authentication.js:64-91 | a blank value clears; an invalid one is rejected; a valid one is looked up |
| ClientValidation.PhoneLookupSendsDigits | static/js/authentication.js:53-55 | a phone is looked up iff it has 10 to 15 digits, and by those digits alone |
| ClientValidation.EmailLookupSendsTrimmed | static/js/authentication.js:77-90 | an email is looked up iff its trimmed value matches, and by that value |
| ClientValidation.UsernameNeverRejected | static/js/authentication.js:125 | a username is never rejected, only cleared or looked up as trimmed |
| ClientValidation.FirstPasswordOutline | static/js/authentication.js:157-161 | the first password is outlined as an error iff 0 < length < 8 |
| ClientValidation.ConfirmOutline | static/js/authentication.js:164-170 | an error iff non-empty and different; available iff non-empty, equal and at least 8 long |
| ClientValidation.OutlinesAgree | static/js/authentication.js:152-172 | an available confirmation never sits beside a first password marked as an error |

## Left out

- The HTTP call to the directions service, the Mapbox drawing, geocoding and polling of the browser scripts: foreign network and UI code. The reply is a parameter of `Directions.DistanceAndDuration`.
- `transaction.atomic` and the race between accept's checks and its writes: each endpoint is one sequential step here.
- `Ride.estimate_fare`, the Ride and Review model definitions and the status enum's string values are not part of this model. Booking is modelled from the driver assignment on; the ride it starts from is REQUESTED with no driver.
- Booking's form checks before the assignment: missing coordinates, no customer profile, a vehicle not owned by the caller. They only redirect with a message.
- `Matching.QualifiedDriversFor`: a `vehicle_id` that is not a number makes the vehicle lookup raise `ValueError`, which the view does not catch, so the request ends in a server error; the model takes the id as a number.
- `Lifecycle.RideStore.BookRide`: a chosen driver id that is not a number makes the source raise and answer with an error; the model takes the id as a number.
- HTTP status codes, JSON shaping and messages: an error is modelled by its kind only. This covers a 404 from `get_object_or_404` inside an endpoint's `try`, which the source answers with a 500.
- `Lifecycle.AfterReview`: a rating that `int()` cannot parse raises and answers 500; the model takes the rating as an integer.
- `Lifecycle.DashboardAgreesWithMatching` holds only for the declared transmissions: `add_vehicle_view` stores any `transmission` string unchecked (`Profiles.Transmission.OtherTransmission`), and on such a value the two filters disagree, as `Lifecycle.OffChoiceTransmissionSplitsFilters` shows.
- The dashboard orders its offered rides by creation time for display; `Lifecycle.OfferedRides` is the set of offered rides.
- `ride_history_view`, `reviews_list_view`, `get_ride_details_api`, `update_driver_location_api`, forms, admin, URL configuration and signals: rendering and framework glue.
- `average_rating` is a float in the source; here it is a `real` that is only compared.
- Python's `Decimal` works with 28 significant digits; the model computes exactly.
- `Text.IsDigit` is ASCII only; Python's `str.isdigit` also accepts other Unicode digits, so `Profiles.ContactPhoneAccepted` rejects non-ASCII digits that the source accepts.
- JavaScript string lengths count UTF-16 code units; `ClientValidation.FirstPasswordOutline` and `ClientValidation.ConfirmOutline` count characters.
- The debounce timer and DOM updates of `setupCheck` and the availability lookup's network reply: UI and network code.
- Notifications carry no creation time; "newest first" is descending table position, which matches the table's ordering when creation times are distinct.
- `Notifications.GetNotifications` states "newest first" only when ids grow with creation order (`IdsIncreasing`), as database-assigned ids do.
- The driver table is a sequence rather than a map; it stands for the unspecified order in which the database yields drivers, which the stable sort's ties follow.
- The in-place `list.sort` of `get_qualified_drivers_view` is modelled as assigning the sorted list.
- Persistence of the profile records beyond the fields `clean` and `save` touch.
