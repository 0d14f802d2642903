/**
 * The ride lifecycle endpoints of rides/views.py over the ride, driver and
 * review tables: booking with driver assignment, a driver accepting a ride,
 * ride status updates, the online/offline toggle, reviews, and the rides a
 * driver's dashboard offers.
 *
 * Each endpoint is a function from the tables before the request to the
 * tables after it (or the error it answers with, leaving them as they were);
 * the class RideStore at the end performs the same steps in place.
 */
module Lifecycle {
  import opened Wrappers
  import opened Text
  import opened Profiles
  import opened Matching

  type RideId = nat
  type Time = int

  /** Ride.RideStatus. */
  datatype RideStatus = Requested | DriverAssigned | DriverArrived | InProgress | Completed | Cancelled

  /** The statuses accept_ride_api and the dashboard call active. */
  predicate IsActive(s: RideStatus) {
    s == DriverAssigned || s == DriverArrived || s == InProgress
  }

  /** The statuses that keep a driver busy after completing a ride. */
  predicate IsQueued(s: RideStatus) {
    s == DriverAssigned || s == DriverArrived
  }

  /** The columns of a Ride the lifecycle reads or writes. */
  datatype Ride = Ride(
    customer: CustomerId,
    driver: Option<DriverId>,
    vehicle: Vehicle,
    status: RideStatus,
    createdAt: Time,
    acceptedAt: Option<Time>,
    startedAt: Option<Time>,
    completedAt: Option<Time>)

  datatype ReviewerType = DriverReviewer | CustomerReviewer

  datatype Review = Review(ride: RideId, reviewer: UserId, rating: int, comment: string, reviewerType: ReviewerType)

  /** The logged-in user and the profiles attached to it. */
  datatype User = User(id: UserId, driverProfile: Option<DriverId>, customerProfile: Option<CustomerId>)

  /** The tables the endpoints read and write. */
  datatype Tables = Tables(rides: map<RideId, Ride>, drivers: seq<Driver>, reviews: seq<Review>)

  datatype ApiError =
    | NotADriver
    | RideNotFound
    | DriverAlreadyActive
    | RideNoLongerAvailable
    | StatusNotProvided
    | InvalidStatus
    | CannotGoOfflineWhileBusy
    | RideNotCompleted
    | NotAParticipant
    | AlreadyReviewed
    | RatingOutOfRange

  /** The driver row with that primary key, if any. */
  function FindDriver(drivers: seq<Driver>, id: DriverId): (r: Option<Driver>)
    ensures r.Some? ==> r.value in drivers && r.value.id == id
    ensures r.None? <==> forall i :: 0 <= i < |drivers| ==> drivers[i].id != id
  {
    if drivers == [] then None
    else if drivers[0].id == id then Some(drivers[0])
    else FindDriver(drivers[1..], id)
  }

  /** `driver.save()`: the row with the driver's primary key takes its values, with the score derived again. */
  function WriteDriver(drivers: seq<Driver>, d: Driver): (r: seq<Driver>)
    ensures |r| == |drivers|
    ensures forall i :: 0 <= i < |r| ==> r[i] == if drivers[i].id == d.id then SavedDriver(d) else drivers[i]
  {
    seq(|drivers|, i requires 0 <= i < |drivers| => if drivers[i].id == d.id then SavedDriver(d) else drivers[i])
  }

  /** Driver ids are a primary key: no two rows share one. */
  predicate UniqueDriverIds(drivers: seq<Driver>) {
    forall i, j :: 0 <= i < j < |drivers| ==> drivers[i].id != drivers[j].id
  }

  /** Writing a driver row keeps every row's id, so the primary key stays unique. */
  lemma WriteDriverKeepsIds(drivers: seq<Driver>, d: Driver)
    ensures forall i :: 0 <= i < |drivers| ==> WriteDriver(drivers, d)[i].id == drivers[i].id
    ensures UniqueDriverIds(drivers) ==> UniqueDriverIds(WriteDriver(drivers, d))
  {
  }

  /** The driver profile of the caller, as its row stands. */
  function CallerDriver(t: Tables, user: User): (r: Option<Driver>) {
    if user.driverProfile.None? then None else FindDriver(t.drivers, user.driverProfile.value)
  }

  /** The rides of driver `d` in an active status. */
  function ActiveRidesOf(rides: map<RideId, Ride>, d: DriverId): set<RideId> {
    set id | id in rides && rides[id].driver == Some(d) && IsActive(rides[id].status)
  }

  /** The "other rides" query of update_ride_status_api, on the rides as stored. */
  predicate HasQueuedRide(rides: map<RideId, Ride>, d: DriverId) {
    exists id :: id in rides && rides[id].driver == Some(d) && IsQueued(rides[id].status)
  }

  /** No driver is the driver of two active rides. */
  ghost predicate SingleActiveRide(rides: map<RideId, Ride>) {
    forall a, b ::
      (a in rides && b in rides && rides[a].driver.Some? && rides[a].driver == rides[b].driver
       && IsActive(rides[a].status) && IsActive(rides[b].status)) ==> a == b
  }

  // ---------------------------------------------------------------- booking

  /** `driver_selection_mode`: 'auto', or the id of a chosen driver. */
  datatype SelectionMode = Auto | Chosen(driverId: DriverId)

  /** The driver booking assigns: the best qualified one in auto mode, any existing one otherwise. */
  function DriverToAssign(drivers: seq<Driver>, v: Vehicle, mode: SelectionMode): (r: Option<Driver>)
    ensures mode.Auto? ==> r == BestDriver(drivers, v)
    ensures mode.Chosen? ==> r == FindDriver(drivers, mode.driverId)
    ensures r.Some? ==> r.value in drivers
  {
    match mode
    case Auto => BestDriver(drivers, v)
    case Chosen(id) => FindDriver(drivers, id)
  }

  /** A ride as booking creates it: requested, with no driver and no timestamps. */
  function NewRide(customer: CustomerId, v: Vehicle, now: Time): (r: Ride) {
    Ride(customer, None, v, Requested, now, None, None, None)
  }

  /**
   * The tables after book_ride_view stores ride `id`: with a driver to
   * assign the ride is DRIVER_ASSIGNED and a driver who is not BUSY becomes
   * BUSY (a BUSY one is left as it is); without one the ride stays REQUESTED.
   */
  function AfterBooking(t: Tables, id: RideId, customer: CustomerId, v: Vehicle, mode: SelectionMode, now: Time): (r: Tables)
    ensures r.rides.Keys == t.rides.Keys + {id}
    ensures forall other :: other in t.rides && other != id ==> r.rides[other] == t.rides[other]
    ensures r.reviews == t.reviews
    ensures r.rides[id].customer == customer && r.rides[id].vehicle == v && r.rides[id].createdAt == now
    ensures DriverToAssign(t.drivers, v, mode).None? ==>
      r.rides[id] == NewRide(customer, v, now) && r.drivers == t.drivers
    ensures DriverToAssign(t.drivers, v, mode).Some? ==>
      var d := DriverToAssign(t.drivers, v, mode).value;
      && r.rides[id] == NewRide(customer, v, now).(driver := Some(d.id), status := DriverAssigned)
      && r.drivers == (if d.status == Busy then t.drivers else WriteDriver(t.drivers, d.(status := Busy)))
  {
    var ride := NewRide(customer, v, now);
    var toAssign := DriverToAssign(t.drivers, v, mode);
    if toAssign.None? then t.(rides := t.rides[id := ride])
    else
      var d := toAssign.value;
      var drivers := if d.status == Busy then t.drivers else WriteDriver(t.drivers, d.(status := Busy));
      t.(rides := t.rides[id := ride.(driver := Some(d.id), status := DriverAssigned)], drivers := drivers)
  }

  /** Auto booking with no qualified driver, or a chosen id that does not exist, broadcasts the ride. */
  lemma BookingWithoutDriverBroadcasts(t: Tables, id: RideId, customer: CustomerId, v: Vehicle, mode: SelectionMode, now: Time)
    requires mode.Auto? ==> forall d :: d in t.drivers ==> !Eligible(d, v)
    requires mode.Chosen? ==> forall d :: d in t.drivers ==> d.id != mode.driverId
    ensures var r := AfterBooking(t, id, customer, v, mode, now);
      r.rides[id].status == Requested && r.rides[id].driver.None? && r.drivers == t.drivers
  {
  }

  /** Auto booking assigns the head of the ranked qualified drivers, who is eligible and ranked first. */
  lemma AutoBookingAssignsBestDriver(t: Tables, id: RideId, customer: CustomerId, v: Vehicle, now: Time, d: Driver)
    requires d in t.drivers && Eligible(d, v)
    ensures var r := AfterBooking(t, id, customer, v, Auto, now);
      && r.rides[id].status == DriverAssigned
      && r.rides[id].driver.Some?
      && exists b :: b in t.drivers && Eligible(b, v) && b.id == r.rides[id].driver.value
           && KeyLe(KeyOf(b), KeyOf(d))
  {
    var b := BestDriver(t.drivers, v).value;
    BestDriverIsBest(t.drivers, v);
    assert b in t.drivers && Eligible(b, v) && KeyLe(KeyOf(b), KeyOf(d));
  }

  /** Booking may hand a second active ride to a driver who already has one (the queue-next-ride rule). */
  lemma BookingMayQueueSecondActiveRide()
    ensures var d := Driver(7, 70, true, "B", 10, AutomaticOnly, Busy, 4.5);
      var v := Vehicle(1, Automatic, "B", 10);
      var t := Tables(map[1 := Ride(2, Some(7), v, InProgress, 0, Some(0), Some(1), None)], [d], []);
      var r := AfterBooking(t, 2, 1, v, Chosen(7), 5);
      SingleActiveRide(t.rides) && !SingleActiveRide(r.rides) && ActiveRidesOf(r.rides, 7) == {1, 2}
  {
    var d := Driver(7, 70, true, "B", 10, AutomaticOnly, Busy, 4.5);
    var v := Vehicle(1, Automatic, "B", 10);
    var t := Tables(map[1 := Ride(2, Some(7), v, InProgress, 0, Some(0), Some(1), None)], [d], []);
    var r := AfterBooking(t, 2, 1, v, Chosen(7), 5);
    assert FindDriver([d], 7) == Some(d);
    assert r.rides[1].driver == r.rides[2].driver;
  }

  // ---------------------------------------------------------------- accept

  /**
   * accept_ride_api: refused when the caller is not a driver, the ride does
   * not exist, the driver already has an active ride, or the ride is no
   * longer REQUESTED; otherwise the ride gets this driver, DRIVER_ASSIGNED
   * and accepted_at, and the driver becomes BUSY.
   */
  function AfterAccept(t: Tables, user: User, rideId: RideId, now: Time): (r: Result<Tables, ApiError>)
    ensures CallerDriver(t, user).None? ==> r == Err(NotADriver)
    ensures CallerDriver(t, user).Some? && rideId !in t.rides ==> r == Err(RideNotFound)
    ensures CallerDriver(t, user).Some? && rideId in t.rides && ActiveRidesOf(t.rides, CallerDriver(t, user).value.id) != {}
      ==> r == Err(DriverAlreadyActive)
    ensures CallerDriver(t, user).Some? && rideId in t.rides && ActiveRidesOf(t.rides, CallerDriver(t, user).value.id) == {}
      && t.rides[rideId].status != Requested
      ==> r == Err(RideNoLongerAvailable)
    ensures r.Ok? <==>
      && CallerDriver(t, user).Some?
      && rideId in t.rides
      && ActiveRidesOf(t.rides, CallerDriver(t, user).value.id) == {}
      && t.rides[rideId].status == Requested
    ensures r.Ok? ==> var d := CallerDriver(t, user).value;
      && r.value.rides == t.rides[rideId := t.rides[rideId].(driver := Some(d.id), status := DriverAssigned, acceptedAt := Some(now))]
      && r.value.drivers == WriteDriver(t.drivers, d.(status := Busy))
      && r.value.reviews == t.reviews
  {
    match CallerDriver(t, user)
    case None => Err(NotADriver)
    case Some(d) =>
      if rideId !in t.rides then Err(RideNotFound)
      else if ActiveRidesOf(t.rides, d.id) != {} then Err(DriverAlreadyActive)
      else if t.rides[rideId].status != Requested then Err(RideNoLongerAvailable)
      else
        var ride := t.rides[rideId].(driver := Some(d.id), status := DriverAssigned, acceptedAt := Some(now));
        Ok(t.(rides := t.rides[rideId := ride], drivers := WriteDriver(t.drivers, d.(status := Busy))))
  }

  /** After a successful accept the driver has exactly one active ride: the accepted one. */
  lemma AcceptLeavesOneActiveRide(t: Tables, user: User, rideId: RideId, now: Time)
    requires AfterAccept(t, user, rideId, now).Ok?
    ensures ActiveRidesOf(AfterAccept(t, user, rideId, now).value.rides, CallerDriver(t, user).value.id) == {rideId}
  {
    var d := CallerDriver(t, user).value;
    var after := AfterAccept(t, user, rideId, now).value.rides;
    forall id | id in after && after[id].driver == Some(d.id) && IsActive(after[id].status)
      ensures id == rideId
    {
      assert id == rideId || id in ActiveRidesOf(t.rides, d.id);
    }
  }

  /** Accept never breaks "one active ride per driver". */
  lemma AcceptPreservesSingleActiveRide(t: Tables, user: User, rideId: RideId, now: Time)
    requires SingleActiveRide(t.rides) && AfterAccept(t, user, rideId, now).Ok?
    ensures SingleActiveRide(AfterAccept(t, user, rideId, now).value.rides)
  {
    var d := CallerDriver(t, user).value;
    var after := AfterAccept(t, user, rideId, now).value.rides;
    AcceptLeavesOneActiveRide(t, user, rideId, now);
    forall a, b | a in after && b in after && after[a].driver.Some? && after[a].driver == after[b].driver
      && IsActive(after[a].status) && IsActive(after[b].status)
      ensures a == b
    {
      if after[a].driver == Some(d.id) {
        assert a in ActiveRidesOf(after, d.id) && b in ActiveRidesOf(after, d.id);
      } else {
        assert a != rideId && b != rideId;
      }
    }
  }

  // ---------------------------------------------------------------- ride status

  /**
   * The `status` field of the request: missing or empty, not one of the
   * RideStatus choices, or one of them.
   */
  datatype StatusRequest = Absent | Unlisted | Listed(status: RideStatus)

  /** The ride with IN_PROGRESS stamping started_at and COMPLETED stamping completed_at. */
  function WithStatus(ride: Ride, s: RideStatus, now: Time): (r: Ride)
    ensures r.status == s && r.customer == ride.customer && r.driver == ride.driver && r.vehicle == ride.vehicle
    ensures r.startedAt == if s == InProgress then Some(now) else ride.startedAt
    ensures r.completedAt == if s == Completed then Some(now) else ride.completedAt
    ensures r.acceptedAt == ride.acceptedAt && r.createdAt == ride.createdAt
  {
    if s == InProgress then ride.(status := s, startedAt := Some(now))
    else if s == Completed then ride.(status := s, completedAt := Some(now))
    else ride.(status := s)
  }

  /**
   * update_ride_status_api: only the ride's own driver may change it, to any
   * listed status whatever the current one; completing it makes the driver
   * AVAILABLE unless a ride of theirs is stored as DRIVER_ASSIGNED or
   * DRIVER_ARRIVED. That query runs before the ride itself is saved, so it
   * sees this ride's old status.
   */
  function AfterStatusUpdate(t: Tables, user: User, rideId: RideId, req: StatusRequest, now: Time): (r: Result<Tables, ApiError>)
    ensures CallerDriver(t, user).None? ==> r == Err(NotADriver)
    ensures CallerDriver(t, user).Some? && (rideId !in t.rides || t.rides[rideId].driver != Some(CallerDriver(t, user).value.id))
      ==> r == Err(RideNotFound)
    ensures CallerDriver(t, user).Some? && rideId in t.rides && t.rides[rideId].driver == Some(CallerDriver(t, user).value.id)
      && req.Absent?
      ==> r == Err(StatusNotProvided)
    ensures CallerDriver(t, user).Some? && rideId in t.rides && t.rides[rideId].driver == Some(CallerDriver(t, user).value.id)
      && req.Unlisted?
      ==> r == Err(InvalidStatus)
    ensures r.Ok? <==>
      && CallerDriver(t, user).Some?
      && rideId in t.rides && t.rides[rideId].driver == Some(CallerDriver(t, user).value.id)
      && req.Listed?
    ensures r.Ok? ==> var d := CallerDriver(t, user).value;
      && r.value.rides == t.rides[rideId := WithStatus(t.rides[rideId], req.status, now)]
      && r.value.reviews == t.reviews
      && r.value.drivers == if req.status == Completed && !HasQueuedRide(t.rides, d.id)
                            then WriteDriver(t.drivers, d.(status := Available))
                            else t.drivers
  {
    match CallerDriver(t, user)
    case None => Err(NotADriver)
    case Some(d) =>
      if rideId !in t.rides || t.rides[rideId].driver != Some(d.id) then Err(RideNotFound)
      else match req
        case Absent => Err(StatusNotProvided)
        case Unlisted => Err(InvalidStatus)
        case Listed(s) =>
          var drivers := if s == Completed && !HasQueuedRide(t.rides, d.id)
                         then WriteDriver(t.drivers, d.(status := Available))
                         else t.drivers;
          Ok(t.(rides := t.rides[rideId := WithStatus(t.rides[rideId], s, now)], drivers := drivers))
  }

  /** Completing a ride releases the driver exactly when no ride of theirs is stored as queued. */
  lemma CompletionReleasesDriverUnlessQueued(t: Tables, user: User, rideId: RideId, now: Time, i: nat)
    requires AfterStatusUpdate(t, user, rideId, Listed(Completed), now).Ok?
    requires i < |t.drivers| && t.drivers[i].id == CallerDriver(t, user).value.id
    ensures var after := AfterStatusUpdate(t, user, rideId, Listed(Completed), now).value;
      && after.rides[rideId].completedAt == Some(now)
      && (after.drivers[i].status == Available <==>
           (t.drivers[i].status == Available || !HasQueuedRide(t.rides, t.drivers[i].id)))
  {
  }

  /**
   * Completing a ride straight from DRIVER_ARRIVED keeps its driver BUSY even
   * with no other ride: the query sees the ride's stored status.
   */
  lemma CompletingFromArrivedKeepsDriverBusy()
    ensures var d := Driver(3, 30, true, "B", 10, AutomaticOnly, Busy, 5.0);
      var t := Tables(map[9 := Ride(1, Some(3), Vehicle(1, Automatic, "B", 10), DriverArrived, 0, Some(1), None, None)], [d], []);
      var r := AfterStatusUpdate(t, User(30, Some(3), None), 9, Listed(Completed), 4);
      r.Ok? && r.value.rides[9].status == Completed && r.value.drivers[0].status == Busy
  {
    var d := Driver(3, 30, true, "B", 10, AutomaticOnly, Busy, 5.0);
    var t := Tables(map[9 := Ride(1, Some(3), Vehicle(1, Automatic, "B", 10), DriverArrived, 0, Some(1), None, None)], [d], []);
    assert FindDriver(t.drivers, 3) == Some(d);
    assert HasQueuedRide(t.rides, 3) by { assert t.rides[9].driver == Some(3); }
  }

  /** No transition order is enforced: a completed ride can be set back to REQUESTED. */
  lemma StatusMayGoBackwards(t: Tables, user: User, rideId: RideId, now: Time)
    requires CallerDriver(t, user).Some? && rideId in t.rides
    requires t.rides[rideId].status == Completed && t.rides[rideId].driver == Some(CallerDriver(t, user).value.id)
    ensures var r := AfterStatusUpdate(t, user, rideId, Listed(Requested), now);
      r.Ok? && r.value.rides[rideId].status == Requested
  {
  }

  // ---------------------------------------------------------------- online / offline

  /**
   * update_driver_status_api: only "AVAILABLE" and "OFFLINE" may be asked
   * for, and a BUSY driver may not go offline.
   */
  function AfterDriverStatusUpdate(t: Tables, user: User, requested: string): (r: Result<Tables, ApiError>)
    ensures CallerDriver(t, user).None? ==> r == Err(NotADriver)
    ensures CallerDriver(t, user).Some? && requested != "AVAILABLE" && requested != "OFFLINE" ==> r == Err(InvalidStatus)
    ensures CallerDriver(t, user).Some? && requested == "OFFLINE" && CallerDriver(t, user).value.status == Busy
      ==> r == Err(CannotGoOfflineWhileBusy)
    ensures r.Ok? <==>
      && CallerDriver(t, user).Some?
      && (requested == "AVAILABLE" || (requested == "OFFLINE" && CallerDriver(t, user).value.status != Busy))
    ensures r.Ok? ==> var d := CallerDriver(t, user).value;
      && r.value.rides == t.rides && r.value.reviews == t.reviews
      && r.value.drivers == WriteDriver(t.drivers, d.(status := if requested == "AVAILABLE" then Available else Offline))
  {
    match CallerDriver(t, user)
    case None => Err(NotADriver)
    case Some(d) =>
      if requested != "AVAILABLE" && requested != "OFFLINE" then Err(InvalidStatus)
      else if requested == "OFFLINE" && d.status == Busy then Err(CannotGoOfflineWhileBusy)
      else
        var status := if requested == "AVAILABLE" then Available else Offline;
        Ok(t.(drivers := WriteDriver(t.drivers, d.(status := status))))
  }

  /** The toggle never makes anyone BUSY, and never touches a driver other than the caller. */
  lemma DriverToggleNeverBusy(t: Tables, user: User, requested: string, i: nat)
    requires AfterDriverStatusUpdate(t, user, requested).Ok? && i < |t.drivers|
    ensures var after := AfterDriverStatusUpdate(t, user, requested).value;
      && (t.drivers[i].id == CallerDriver(t, user).value.id ==> after.drivers[i].status != Busy)
      && (t.drivers[i].id != CallerDriver(t, user).value.id ==> after.drivers[i] == t.drivers[i])
  {
  }

  // ---------------------------------------------------------------- reviews

  predicate HasReviewed(reviews: seq<Review>, rideId: RideId, reviewer: UserId) {
    exists i :: 0 <= i < |reviews| && reviews[i].ride == rideId && reviews[i].reviewer == reviewer
  }

  /** `ride.driver and ride.driver == user.driver_profile` */
  predicate IsRideDriver(ride: Ride, user: User) {
    user.driverProfile.Some? && ride.driver == user.driverProfile
  }

  /** `ride.customer == user.customer_profile` */
  predicate IsRideCustomer(ride: Ride, user: User) {
    user.customerProfile == Some(ride.customer)
  }

  /**
   * create_review_api: a review is added only for a COMPLETED ride, by its
   * customer or its driver, once per reviewer, with a rating from 1 to 5; the
   * comment is stripped and the role is DRIVER when the reviewer drove it.
   */
  function AfterReview(t: Tables, rideId: RideId, user: User, rating: int, comment: string): (r: Result<Tables, ApiError>)
    ensures r.Ok? <==>
      && rideId in t.rides
      && t.rides[rideId].status == Completed
      && (IsRideDriver(t.rides[rideId], user) || IsRideCustomer(t.rides[rideId], user))
      && !HasReviewed(t.reviews, rideId, user.id)
      && 1 <= rating <= 5
    ensures rideId !in t.rides ==> r == Err(RideNotFound)
    ensures rideId in t.rides && t.rides[rideId].status != Completed ==> r == Err(RideNotCompleted)
    ensures rideId in t.rides && t.rides[rideId].status == Completed
      && !IsRideDriver(t.rides[rideId], user) && !IsRideCustomer(t.rides[rideId], user)
      ==> r == Err(NotAParticipant)
    ensures rideId in t.rides && t.rides[rideId].status == Completed
      && (IsRideDriver(t.rides[rideId], user) || IsRideCustomer(t.rides[rideId], user))
      && HasReviewed(t.reviews, rideId, user.id)
      ==> r == Err(AlreadyReviewed)
    ensures rideId in t.rides && t.rides[rideId].status == Completed
      && (IsRideDriver(t.rides[rideId], user) || IsRideCustomer(t.rides[rideId], user))
      && !HasReviewed(t.reviews, rideId, user.id) && !(1 <= rating <= 5)
      ==> r == Err(RatingOutOfRange)
    ensures r.Ok? ==>
      && r.value.rides == t.rides && r.value.drivers == t.drivers
      && r.value.reviews == t.reviews + [Review(rideId, user.id, rating, Trim(comment, PyWhitespace),
           if IsRideDriver(t.rides[rideId], user) then DriverReviewer else CustomerReviewer)]
  {
    if rideId !in t.rides then Err(RideNotFound)
    else
      var ride := t.rides[rideId];
      if ride.status != Completed then Err(RideNotCompleted)
      else if !(IsRideDriver(ride, user) || IsRideCustomer(ride, user)) then Err(NotAParticipant)
      else if HasReviewed(t.reviews, rideId, user.id) then Err(AlreadyReviewed)
      else if rating < 1 || rating > 5 then Err(RatingOutOfRange)
      else
        var role := if IsRideDriver(ride, user) then DriverReviewer else CustomerReviewer;
        Ok(t.(reviews := t.reviews + [Review(rideId, user.id, rating, Trim(comment, PyWhitespace), role)]))
  }

  /** Each reviewer has at most one review per ride. */
  ghost predicate OneReviewPerReviewer(reviews: seq<Review>) {
    forall i, j :: 0 <= i < j < |reviews| ==> (reviews[i].ride, reviews[i].reviewer) != (reviews[j].ride, reviews[j].reviewer)
  }

  /** Creating a review keeps "one review per ride and reviewer". */
  lemma ReviewKeepsOnePerReviewer(t: Tables, rideId: RideId, user: User, rating: int, comment: string)
    requires OneReviewPerReviewer(t.reviews) && AfterReview(t, rideId, user, rating, comment).Ok?
    ensures OneReviewPerReviewer(AfterReview(t, rideId, user, rating, comment).value.reviews)
  {
    var rs := AfterReview(t, rideId, user, rating, comment).value.reviews;
    forall i, j | 0 <= i < j < |rs| ensures (rs[i].ride, rs[i].reviewer) != (rs[j].ride, rs[j].reviewer) {
      if j == |t.reviews| {
        assert rs[i] == t.reviews[i];
      }
    }
  }

  // ---------------------------------------------------------------- dashboard

  /** The dashboard's query for a driver: requested rides whose vehicle they may drive. */
  predicate IsOffered(ride: Ride, d: Driver) {
    && ride.status == Requested
    && (d.capability == AutomaticOnly ==> ride.vehicle.transmission == Automatic)
    && ride.vehicle.requiredScore <= d.licenseScore
  }

  /** driver_dashboard_view: the offered rides, shown only to an AVAILABLE driver with no active ride. */
  function OfferedRides(t: Tables, d: Driver): (r: set<RideId>)
    ensures forall id :: id in r ==> id in t.rides && t.rides[id].status == Requested
    ensures ActiveRidesOf(t.rides, d.id) != {} || d.status != Available ==> r == {}
    ensures ActiveRidesOf(t.rides, d.id) == {} && d.status == Available ==>
      forall id :: id in r <==> id in t.rides && IsOffered(t.rides[id], d)
  {
    if ActiveRidesOf(t.rides, d.id) != {} || d.status != Available then {}
    else set id | id in t.rides && IsOffered(t.rides[id], d)
  }

  /**
   * For a verified driver the dashboard offers exactly the requested rides
   * the matching filter accepts, as long as the vehicle's transmission is one
   * of the declared choices.
   */
  lemma DashboardAgreesWithMatching(t: Tables, d: Driver, id: RideId)
    requires d.isVerified && d.status == Available && ActiveRidesOf(t.rides, d.id) == {}
    requires id in t.rides && t.rides[id].status == Requested
    ensures t.rides[id].vehicle.transmission != OtherTransmission ==>
      (id in OfferedRides(t, d) <==> Eligible(d, t.rides[id].vehicle))
  {
  }

  /**
   * On a transmission outside the declared choices the two filters part:
   * matching treats it as automatic, the dashboard offers it only to drivers
   * who can drive both.
   */
  lemma OffChoiceTransmissionSplitsFilters(t: Tables, d: Driver, id: RideId)
    requires d.isVerified && d.status == Available && ActiveRidesOf(t.rides, d.id) == {}
    requires id in t.rides && t.rides[id].status == Requested && t.rides[id].vehicle.transmission == OtherTransmission
    ensures d.capability == AutomaticOnly ==>
      (id !in OfferedRides(t, d) && (d.licenseScore >= t.rides[id].vehicle.requiredScore ==> Eligible(d, t.rides[id].vehicle)))
    ensures d.capability == ManualAndAutomatic ==> (id in OfferedRides(t, d) <==> Eligible(d, t.rides[id].vehicle))
  {
  }

  /** The dashboard does not look at verification: an unverified driver is offered the same rides. */
  lemma DashboardIgnoresVerification(t: Tables, d: Driver)
    ensures OfferedRides(t, d.(isVerified := false)) == OfferedRides(t, d)
  {
  }

  // ---------------------------------------------------------------- the store

  /** The ride, driver and review tables, changed in place by the endpoints. */
  class RideStore {
    var rides: map<RideId, Ride>
    var drivers: seq<Driver>
    var reviews: seq<Review>
    /** The primary key the next booked ride receives. */
    var nextRideId: RideId

    ghost predicate Valid()
      reads this
    {
      && (forall id :: id in rides ==> id < nextRideId)
      && UniqueDriverIds(drivers)
    }

    function Contents(): Tables
      reads this
    {
      Tables(rides, drivers, reviews)
    }

    constructor (table: seq<Driver>)
      requires UniqueDriverIds(table)
      ensures Valid() && Contents() == Tables(map[], table, [])
    {
      rides, drivers, reviews, nextRideId := map[], table, [], 0;
    }

    /** `driver.save()` on the driver table. */
    method SaveDriver(d: Driver)
      modifies this`drivers
      ensures drivers == WriteDriver(old(drivers), d)
      ensures UniqueDriverIds(old(drivers)) ==> UniqueDriverIds(drivers)
    {
      WriteDriverKeepsIds(drivers, d);
      var rows := drivers;
      drivers := seq(|rows|, i requires 0 <= i < |rows| => if rows[i].id == d.id then SavedDriver(d) else rows[i]);
    }

    /** The caller's driver profile. */
    method LoadCaller(user: User) returns (d: Option<Driver>)
      ensures d == CallerDriver(Contents(), user)
    {
      if user.driverProfile.None? {
        return None;
      }
      d := FindDriver(drivers, user.driverProfile.value);
    }

    /** book_ride_view from the driver assignment on (the ride is created REQUESTED, then assigned). */
    method BookRide(customer: CustomerId, v: Vehicle, mode: SelectionMode, now: Time) returns (id: RideId)
      requires Valid()
      modifies this
      ensures Valid() && id == old(nextRideId) && id !in old(rides)
      ensures Contents() == AfterBooking(old(Contents()), id, customer, v, mode, now)
    {
      id := nextRideId;
      nextRideId := nextRideId + 1;
      var ride := NewRide(customer, v, now);
      var toAssign: Option<Driver> := None;
      if mode.Auto? {
        var ranked := Rank(Qualified(drivers, v));
        if ranked != [] {
          toAssign := Some(ranked[0]);
        }
      } else {
        toAssign := FindDriver(drivers, mode.driverId);
      }
      if toAssign.Some? {
        var d := toAssign.value;
        ride := ride.(driver := Some(d.id), status := DriverAssigned);
        if d.status != Busy {
          SaveDriver(d.(status := Busy));
        }
      } else {
        ride := ride.(status := Requested);
      }
      rides := rides[id := ride];
    }

    /** accept_ride_api. */
    method AcceptRide(user: User, rideId: RideId, now: Time) returns (r: Result<RideId, ApiError>)
      requires Valid()
      modifies this
      ensures Valid() && nextRideId == old(nextRideId)
      ensures var spec := AfterAccept(old(Contents()), user, rideId, now);
        && (spec.Err? ==> r == Err(spec.error) && Contents() == old(Contents()))
        && (spec.Ok? ==> r == Ok(rideId) && Contents() == spec.value)
    {
      var caller := LoadCaller(user);
      if caller.None? {
        return Err(NotADriver);
      }
      var d := caller.value;
      if rideId !in rides {
        return Err(RideNotFound);
      }
      var active := exists id :: id in rides && rides[id].driver == Some(d.id) && IsActive(rides[id].status);
      if active {
        assert ActiveRidesOf(rides, d.id) != {} by {
          var id :| id in rides && rides[id].driver == Some(d.id) && IsActive(rides[id].status);
          assert id in ActiveRidesOf(rides, d.id);
        }
        return Err(DriverAlreadyActive);
      }
      assert ActiveRidesOf(rides, d.id) == {};
      var ride := rides[rideId];
      if ride.status != Requested {
        return Err(RideNoLongerAvailable);
      }
      ride := ride.(driver := Some(d.id), status := DriverAssigned, acceptedAt := Some(now));
      rides := rides[rideId := ride];
      SaveDriver(d.(status := Busy));
      return Ok(rideId);
    }

    /** update_ride_status_api. */
    method UpdateRideStatus(user: User, rideId: RideId, req: StatusRequest, now: Time) returns (r: Result<RideStatus, ApiError>)
      requires Valid()
      modifies this
      ensures Valid() && nextRideId == old(nextRideId)
      ensures var spec := AfterStatusUpdate(old(Contents()), user, rideId, req, now);
        && (spec.Err? ==> r == Err(spec.error) && Contents() == old(Contents()))
        && (spec.Ok? ==> r == Ok(req.status) && Contents() == spec.value)
    {
      var caller := LoadCaller(user);
      if caller.None? {
        return Err(NotADriver);
      }
      var d := caller.value;
      if rideId !in rides || rides[rideId].driver != Some(d.id) {
        return Err(RideNotFound);
      }
      if req.Absent? {
        return Err(StatusNotProvided);
      }
      if req.Unlisted? {
        return Err(InvalidStatus);
      }
      var s := req.status;
      var ride := rides[rideId].(status := s);
      if s == InProgress {
        ride := ride.(startedAt := Some(now));
      } else if s == Completed {
        ride := ride.(completedAt := Some(now));
        var otherRides := exists id :: id in rides && rides[id].driver == Some(d.id) && IsQueued(rides[id].status);
        if !otherRides {
          SaveDriver(d.(status := Available));
        }
      }
      rides := rides[rideId := ride];
      return Ok(s);
    }

    /** update_driver_status_api. */
    method UpdateDriverStatus(user: User, requested: string) returns (r: Result<DriverStatus, ApiError>)
      requires Valid()
      modifies this
      ensures Valid() && nextRideId == old(nextRideId)
      ensures var spec := AfterDriverStatusUpdate(old(Contents()), user, requested);
        && (spec.Err? ==> r == Err(spec.error) && Contents() == old(Contents()))
        && (spec.Ok? ==> r.Ok? && Contents() == spec.value)
    {
      var caller := LoadCaller(user);
      if caller.None? {
        return Err(NotADriver);
      }
      if requested != "AVAILABLE" && requested != "OFFLINE" {
        return Err(InvalidStatus);
      }
      var d := caller.value;
      if requested == "OFFLINE" && d.status == Busy {
        return Err(CannotGoOfflineWhileBusy);
      }
      var status := if requested == "AVAILABLE" then Available else Offline;
      SaveDriver(d.(status := status));
      return Ok(status);
    }

    /** create_review_api; the result is the new review's position in the review table. */
    method CreateReview(rideId: RideId, user: User, rating: int, comment: string) returns (r: Result<nat, ApiError>)
      requires Valid()
      modifies this
      ensures Valid() && nextRideId == old(nextRideId)
      ensures var spec := AfterReview(old(Contents()), rideId, user, rating, comment);
        && (spec.Err? ==> r == Err(spec.error) && Contents() == old(Contents()))
        && (spec.Ok? ==> r == Ok(|old(reviews)|) && Contents() == spec.value)
    {
      if rideId !in rides {
        return Err(RideNotFound);
      }
      var ride := rides[rideId];
      if ride.status != Completed {
        return Err(RideNotCompleted);
      }
      var isDriver := IsRideDriver(ride, user);
      var isCustomer := IsRideCustomer(ride, user);
      if !(isDriver || isCustomer) {
        return Err(NotAParticipant);
      }
      if HasReviewed(reviews, rideId, user.id) {
        return Err(AlreadyReviewed);
      }
      if rating < 1 || rating > 5 {
        return Err(RatingOutOfRange);
      }
      var reviewerType := if isDriver then DriverReviewer else CustomerReviewer;
      reviews := reviews + [Review(rideId, user.id, rating, Trim(comment, PyWhitespace), reviewerType)];
      return Ok(|reviews| - 1);
    }
  }
}
