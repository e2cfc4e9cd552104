/**
 * The ride-booking store `useRideStore` (store/ride.ts): seven fields and the actions that
 * update them.
 *
 * Each action is specified by a pure function from the store's value before the action to its
 * value after it (`AfterDriverLookup`, `AfterBooking`, ...), and the class `RideStore` performs
 * the same action step by step on its mutable fields, proved equal to that function.
 * Backend calls are parameters: a function from the request to the outcome the awaited promise
 * settles with, so both the success and the failure branch are covered.
 * An action runs to completion before the next one starts.
 */
module RideStore {
  import opened Wrappers
  import opened Domain
  import opened Fare

  /** The fixed messages written to `error` when a backend call fails. */
  const FetchDriversError := "Failed to fetch nearby drivers"
  const EstimateFareError := "Failed to estimate fare"
  const BookRideError := "Failed to book ride"
  const UpdateStatusError := "Failed to update ride status"
  const CancelRideError := "Failed to cancel ride"

  /** `db.drivers.getNearbyDrivers(latitude, longitude, vehicleType)`. */
  type DriverLookup = (real, real, VehicleType) -> Outcome<seq<Driver>>

  /** `db.rides.create(rideData)`. */
  type RideCreate = RideInsert -> Outcome<Ride>

  /**
   * `db.rides.updateStatus(rideId, status)`. The backend helpers define no such call, so as the
   * code stands every call throws inside the action's `try`; that is `MissingUpdateStatus`.
   * Any other function stands for a helper that does exist.
   */
  type StatusUpdate = (string, RideStatus) -> Outcome<Ride>

  /** The call as it resolves today: `db.rides.updateStatus` is undefined, so it always throws. */
  const MissingUpdateStatus: StatusUpdate := (rideId: string, status: RideStatus) => Failure

  /** The value of the store's seven fields. */
  datatype RideState = RideState(
    currentRide: Option<Ride>,
    nearbyDrivers: seq<Driver>,
    pickupLocation: Option<Location>,
    destinationLocation: Option<Location>,
    estimatedFare: Option<int>,
    isLoading: bool,
    error: Option<string>)

  /** The store as `create` initialises it. */
  const Initial := RideState(None, [], None, None, None, false, None)

  /** The only values `error` ever holds besides null. */
  predicate KnownError(message: string)
  {
    message in {FetchDriversError, EstimateFareError, BookRideError, UpdateStatusError, CancelRideError}
  }

  /**
   * What holds between actions: nothing is loading, a stored fare is at least the smallest
   * base rate, and an error is one of the fixed messages.
   */
  predicate StoreInvariant(s: RideState)
  {
    && !s.isLoading
    && (s.estimatedFare.Some? ==> s.estimatedFare.value >= MinBaseRate)
    && (s.error.Some? ==> KnownError(s.error.value))
  }

  // ---------------------------------------------------------------------------------------------
  // The actions, as functions of the store's value

  /** `setPickupLocation(location)`: overwrites the pickup and nothing else. */
  function WithPickup(s: RideState, location: Location): (t: RideState)
    ensures t.pickupLocation == Some(location)
    ensures t.(pickupLocation := s.pickupLocation) == s
  {
    s.(pickupLocation := Some(location))
  }

  /** `setDestinationLocation(location)`: overwrites the destination and nothing else. */
  function WithDestination(s: RideState, location: Location): (t: RideState)
    ensures t.destinationLocation == Some(location)
    ensures t.(destinationLocation := s.destinationLocation) == s
  {
    s.(destinationLocation := Some(location))
  }

  /**
   * `getNearbyDrivers(vehicleType)`: without a pickup nothing changes (not even `isLoading`);
   * otherwise the drivers near the pickup replace the list, or on failure the list is kept and
   * the fixed message is set. Only `nearbyDrivers`, `error` and `isLoading` can change.
   */
  function AfterDriverLookup(s: RideState, vehicleType: VehicleType, lookup: DriverLookup): (t: RideState)
    ensures s.pickupLocation.None? ==> t == s
    ensures s.pickupLocation.Some? ==>
      var outcome := lookup(s.pickupLocation.value.latitude, s.pickupLocation.value.longitude, vehicleType);
      && !t.isLoading
      && t.(nearbyDrivers := s.nearbyDrivers, error := s.error, isLoading := s.isLoading) == s
      && (outcome.Success? ==> t.nearbyDrivers == outcome.value && t.error.None?)
      && (outcome.Failure? ==> t.nearbyDrivers == s.nearbyDrivers && t.error == Some(FetchDriversError))
  {
    match s.pickupLocation
    case None => s
    case Some(pickup) =>
      match lookup(pickup.latitude, pickup.longitude, vehicleType)
      case Success(drivers) => s.(nearbyDrivers := drivers, error := None, isLoading := false)
      case Failure => s.(error := Some(FetchDriversError), isLoading := false)
  }

  /**
   * `estimateFare(vehicleType)`: without both locations nothing changes; otherwise the fare for
   * the distance between them is stored, the error is cleared and loading ends. The fare is at
   * least the vehicle's base rate. Nothing in this action can fail, so its error branch, which
   * would set `EstimateFareError`, is never taken.
   */
  function AfterFareEstimate(s: RideState, vehicleType: VehicleType, distanceKm: DistanceFn): (t: RideState)
    ensures s.pickupLocation.None? || s.destinationLocation.None? ==> t == s
    ensures s.pickupLocation.Some? && s.destinationLocation.Some? ==>
      var d := DistanceBetween(distanceKm, s.pickupLocation.value, s.destinationLocation.value);
      && !t.isLoading
      && t.error.None?
      && t.estimatedFare == Some(EstimatedFare(vehicleType, d))
      && t.estimatedFare.value >= BaseRate(vehicleType)
      && t.(estimatedFare := s.estimatedFare, error := s.error, isLoading := s.isLoading) == s
  {
    match (s.pickupLocation, s.destinationLocation)
    case (Some(pickup), Some(destination)) =>
      var d := DistanceBetween(distanceKm, pickup, destination);
      FareAtLeastBase(vehicleType, d);
      s.(estimatedFare := Some(EstimatedFare(vehicleType, d)), error := None, isLoading := false)
    case _ => s
  }

  /**
   * The guard of `bookRide`: both locations are set and `estimatedFare` is truthy, that is,
   * set and not 0.
   */
  predicate CanBook(s: RideState)
  {
    s.pickupLocation.Some? && s.destinationLocation.Some? && s.estimatedFare.Some? && s.estimatedFare.value != 0
  }

  /**
   * The ride `bookRide` asks the backend to create: status pending, the stored estimate as fare,
   * the chosen vehicle type and the distance computed afresh from the two locations.
   */
  function BookingRequest(s: RideState, vehicleType: VehicleType, distanceKm: DistanceFn): (request: RideInsert)
    requires CanBook(s)
    ensures request.status == Pending
    ensures request.fare == s.estimatedFare.value && request.vehicleType == vehicleType
    ensures request.distance == DistanceBetween(distanceKm, s.pickupLocation.value, s.destinationLocation.value)
    ensures request.distance >= 0.0
    ensures request.pickupLocation == ToPlace(s.pickupLocation.value)
    ensures request.destinationLocation == ToPlace(s.destinationLocation.value)
  {
    var pickup := s.pickupLocation.value;
    var destination := s.destinationLocation.value;
    RideInsert(ToPlace(pickup), ToPlace(destination), vehicleType, Pending, s.estimatedFare.value,
               DistanceBetween(distanceKm, pickup, destination))
  }

  /**
   * `bookRide(vehicleType)`: unless `CanBook`, nothing changes; otherwise the created ride
   * becomes the current ride, or on failure the current ride is kept and the fixed message is
   * set. Only `currentRide`, `error` and `isLoading` can change; an existing current ride does
   * not block booking.
   */
  function AfterBooking(s: RideState, vehicleType: VehicleType, distanceKm: DistanceFn, create: RideCreate): (t: RideState)
    ensures !CanBook(s) ==> t == s
    ensures CanBook(s) ==>
      var outcome := create(BookingRequest(s, vehicleType, distanceKm));
      && !t.isLoading
      && t.(currentRide := s.currentRide, error := s.error, isLoading := s.isLoading) == s
      && (outcome.Success? ==> t.currentRide == Some(outcome.value) && t.error.None?)
      && (outcome.Failure? ==> t.currentRide == s.currentRide && t.error == Some(BookRideError))
  {
    if !CanBook(s) then s
    else
      match create(BookingRequest(s, vehicleType, distanceKm))
      case Success(ride) => s.(currentRide := Some(ride), error := None, isLoading := false)
      case Failure => s.(error := Some(BookRideError), isLoading := false)
  }

  /**
   * `updateRideStatus(status)`: without a current ride nothing changes; otherwise the updated
   * ride replaces it, or on failure it is kept and the fixed message is set.
   */
  function AfterStatusUpdate(s: RideState, status: RideStatus, update: StatusUpdate): (t: RideState)
    ensures s.currentRide.None? ==> t == s
    ensures s.currentRide.Some? ==>
      var outcome := update(s.currentRide.value.id, status);
      && !t.isLoading
      && t.(currentRide := s.currentRide, error := s.error, isLoading := s.isLoading) == s
      && (outcome.Success? ==> t.currentRide == Some(outcome.value) && t.error.None?)
      && (outcome.Failure? ==> t.currentRide == s.currentRide && t.error == Some(UpdateStatusError))
  {
    match s.currentRide
    case None => s
    case Some(ride) =>
      match update(ride.id, status)
      case Success(updated) => s.(currentRide := Some(updated), error := None, isLoading := false)
      case Failure => s.(error := Some(UpdateStatusError), isLoading := false)
  }

  /**
   * `cancelRide()`: without a current ride nothing changes; otherwise the ride's status is set to
   * cancelled on the backend and the current ride is dropped, or on failure it is kept and the
   * fixed message is set. Any status may be cancelled.
   */
  function AfterCancel(s: RideState, update: StatusUpdate): (t: RideState)
    ensures s.currentRide.None? ==> t == s
    ensures s.currentRide.Some? ==>
      var outcome := update(s.currentRide.value.id, Cancelled);
      && !t.isLoading
      && t.(currentRide := s.currentRide, error := s.error, isLoading := s.isLoading) == s
      && (outcome.Success? ==> t.currentRide.None? && t.error.None?)
      && (outcome.Failure? ==> t.currentRide == s.currentRide && t.error == Some(CancelRideError))
  {
    match s.currentRide
    case None => s
    case Some(ride) =>
      match update(ride.id, Cancelled)
      case Success(_) => s.(currentRide := None, error := None, isLoading := false)
      case Failure => s.(error := Some(CancelRideError), isLoading := false)
  }

  /**
   * `clearRide()`: drops the current ride, both locations, the estimate and the error; keeps the
   * driver list and the loading flag.
   */
  function Cleared(s: RideState): (t: RideState)
    ensures t.currentRide.None? && t.pickupLocation.None? && t.destinationLocation.None?
    ensures t.estimatedFare.None? && t.error.None?
    ensures t.nearbyDrivers == s.nearbyDrivers && t.isLoading == s.isLoading
  {
    s.(currentRide := None, pickupLocation := None, destinationLocation := None,
       estimatedFare := None, error := None)
  }

  // ---------------------------------------------------------------------------------------------
  // Properties of the actions

  /** Clearing twice is clearing once. */
  lemma ClearedIdempotent(s: RideState)
    ensures Cleared(Cleared(s)) == Cleared(s)
  {
  }

  /** After `clearRide` every action that needs a location, a fare or a ride does nothing. */
  lemma ClearedDisablesActions(s: RideState, vehicleType: VehicleType, distanceKm: DistanceFn,
                               lookup: DriverLookup, create: RideCreate, update: StatusUpdate,
                               status: RideStatus)
    ensures AfterDriverLookup(Cleared(s), vehicleType, lookup) == Cleared(s)
    ensures AfterFareEstimate(Cleared(s), vehicleType, distanceKm) == Cleared(s)
    ensures AfterBooking(Cleared(s), vehicleType, distanceKm, create) == Cleared(s)
    ensures AfterStatusUpdate(Cleared(s), status, update) == Cleared(s)
    ensures AfterCancel(Cleared(s), update) == Cleared(s)
  {
  }

  /**
   * As the code stands, `updateRideStatus` can never change the current ride: with a ride present
   * it always ends in its failure message.
   */
  lemma StatusUpdateAsWritten(s: RideState, status: RideStatus)
    requires s.currentRide.Some?
    ensures AfterStatusUpdate(s, status, MissingUpdateStatus)
              == s.(error := Some(UpdateStatusError), isLoading := false)
  {
  }

  /**
   * As the code stands, `cancelRide` never drops the current ride: with a ride present it always
   * ends in its failure message and the ride stays current.
   */
  lemma CancelAsWritten(s: RideState)
    requires s.currentRide.Some?
    ensures AfterCancel(s, MissingUpdateStatus).currentRide == s.currentRide
    ensures AfterCancel(s, MissingUpdateStatus)
              == s.(error := Some(CancelRideError), isLoading := false)
  {
  }

  /** With a status-update call that succeeds, cancelling drops the current ride and clears the error. */
  lemma CancelWithWorkingUpdate(s: RideState, update: StatusUpdate)
    requires s.currentRide.Some? && update(s.currentRide.value.id, Cancelled).Success?
    ensures AfterCancel(s, update).currentRide.None? && AfterCancel(s, update).error.None?
  {
  }

  /** The initial store satisfies the invariant. */
  lemma InitialInvariant()
    ensures StoreInvariant(Initial)
  {
  }

  /** Every action keeps the invariant between actions. */
  lemma ActionsPreserveInvariant(s: RideState, vehicleType: VehicleType, location: Location,
                                 distanceKm: DistanceFn, lookup: DriverLookup, create: RideCreate,
                                 update: StatusUpdate, status: RideStatus)
    requires StoreInvariant(s)
    ensures StoreInvariant(WithPickup(s, location))
    ensures StoreInvariant(WithDestination(s, location))
    ensures StoreInvariant(AfterDriverLookup(s, vehicleType, lookup))
    ensures StoreInvariant(AfterFareEstimate(s, vehicleType, distanceKm))
    ensures StoreInvariant(AfterBooking(s, vehicleType, distanceKm, create))
    ensures StoreInvariant(AfterStatusUpdate(s, status, update))
    ensures StoreInvariant(AfterCancel(s, update))
    ensures StoreInvariant(Cleared(s))
  {
  }

  /**
   * While the invariant holds, a stored fare is never 0, so `bookRide`'s truthiness test on the
   * fare amounts to "a fare has been estimated".
   */
  lemma CanBookWhenAllSet(s: RideState)
    requires StoreInvariant(s)
    ensures CanBook(s) <==> s.pickupLocation.Some? && s.destinationLocation.Some? && s.estimatedFare.Some?
  {
  }

  /**
   * The intended flow: pick both locations, estimate, then book. The ride the backend is asked
   * to create carries the fare for the distance between the two locations, which is at least the
   * vehicle's base rate, and on success it becomes the current ride.
   */
  lemma BookingFlow(s: RideState, pickup: Location, destination: Location, vehicleType: VehicleType,
                    distanceKm: DistanceFn, create: RideCreate)
    ensures
      var estimated := AfterFareEstimate(WithDestination(WithPickup(s, pickup), destination), vehicleType, distanceKm);
      var d := DistanceBetween(distanceKm, pickup, destination);
      && CanBook(estimated)
      && BookingRequest(estimated, vehicleType, distanceKm).fare == EstimatedFare(vehicleType, d)
      && BookingRequest(estimated, vehicleType, distanceKm).fare >= BaseRate(vehicleType)
      && (create(BookingRequest(estimated, vehicleType, distanceKm)).Success? ==>
            AfterBooking(estimated, vehicleType, distanceKm, create).currentRide
              == Some(create(BookingRequest(estimated, vehicleType, distanceKm)).value))
  {
  }

  // ---------------------------------------------------------------------------------------------
  // The store itself

  /** `useRideStore`: the seven fields, and one method per action. */
  class RideStore {
    var currentRide: Option<Ride>
    var nearbyDrivers: seq<Driver>
    var pickupLocation: Option<Location>
    var destinationLocation: Option<Location>
    var estimatedFare: Option<int>
    var isLoading: bool
    var error: Option<string>

    /** `calculateDistance`, which the store calls but does not own. */
    const distanceKm: DistanceFn

    /** The value of the seven fields. */
    function State(): RideState
      reads this
    {
      RideState(currentRide, nearbyDrivers, pickupLocation, destinationLocation, estimatedFare, isLoading, error)
    }

    /** The invariant between actions. */
    predicate Valid()
      reads this
    {
      StoreInvariant(State())
    }

    constructor (distanceKm: DistanceFn)
      ensures State() == Initial && Valid()
      ensures this.distanceKm == distanceKm
    {
      currentRide := None;
      nearbyDrivers := [];
      pickupLocation := None;
      destinationLocation := None;
      estimatedFare := None;
      isLoading := false;
      error := None;
      this.distanceKm := distanceKm;
    }

    method SetPickupLocation(location: Location)
      modifies this
      ensures State() == WithPickup(old(State()), location)
      ensures old(Valid()) ==> Valid()
    {
      pickupLocation := Some(location);
    }

    method SetDestinationLocation(location: Location)
      modifies this
      ensures State() == WithDestination(old(State()), location)
      ensures old(Valid()) ==> Valid()
    {
      destinationLocation := Some(location);
    }

    method GetNearbyDrivers(vehicleType: VehicleType, lookup: DriverLookup)
      modifies this
      ensures State() == AfterDriverLookup(old(State()), vehicleType, lookup)
      ensures old(Valid()) ==> Valid()
    {
      if pickupLocation.None? {
        return;
      }
      var pickup := pickupLocation.value;
      isLoading := true;
      var outcome := lookup(pickup.latitude, pickup.longitude, vehicleType);
      match outcome {
        case Success(drivers) =>
          nearbyDrivers := drivers;
          error := None;
        case Failure =>
          error := Some(FetchDriversError);
      }
      isLoading := false;
    }

    method EstimateFare(vehicleType: VehicleType)
      modifies this
      ensures State() == AfterFareEstimate(old(State()), vehicleType, distanceKm)
      ensures old(Valid()) ==> Valid()
    {
      if pickupLocation.None? || destinationLocation.None? {
        return;
      }
      var pickup, destination := pickupLocation.value, destinationLocation.value;
      isLoading := true;
      var baseRate := if vehicleType == Car then 30 else 15;
      var perKmRate := if vehicleType == Car then 15 else 6;
      var distance := distanceKm(pickup.latitude, pickup.longitude, destination.latitude, destination.longitude);
      var fare := baseRate as real + distance * perKmRate as real;
      estimatedFare := Some(Round(fare));
      error := None;
      isLoading := false;
      FareAtLeastBase(vehicleType, distance);
    }

    method BookRide(vehicleType: VehicleType, create: RideCreate)
      modifies this
      ensures State() == AfterBooking(old(State()), vehicleType, distanceKm, create)
      ensures old(Valid()) ==> Valid()
    {
      if pickupLocation.None? || destinationLocation.None? || estimatedFare.None? || estimatedFare.value == 0 {
        return;
      }
      var pickup, destination := pickupLocation.value, destinationLocation.value;
      isLoading := true;
      var request := RideInsert(
        ToPlace(pickup),
        ToPlace(destination),
        vehicleType,
        Pending,
        estimatedFare.value,
        distanceKm(pickup.latitude, pickup.longitude, destination.latitude, destination.longitude));
      var outcome := create(request);
      match outcome {
        case Success(ride) =>
          currentRide := Some(ride);
          error := None;
        case Failure =>
          error := Some(BookRideError);
      }
      isLoading := false;
    }

    method UpdateRideStatus(status: RideStatus, update: StatusUpdate)
      modifies this
      ensures State() == AfterStatusUpdate(old(State()), status, update)
      ensures old(Valid()) ==> Valid()
    {
      if currentRide.None? {
        return;
      }
      isLoading := true;
      var outcome := update(currentRide.value.id, status);
      match outcome {
        case Success(updated) =>
          currentRide := Some(updated);
          error := None;
        case Failure =>
          error := Some(UpdateStatusError);
      }
      isLoading := false;
    }

    method CancelRide(update: StatusUpdate)
      modifies this
      ensures State() == AfterCancel(old(State()), update)
      ensures old(Valid()) ==> Valid()
    {
      if currentRide.None? {
        return;
      }
      isLoading := true;
      var outcome := update(currentRide.value.id, Cancelled);
      match outcome {
        case Success(_) =>
          currentRide := None;
          error := None;
        case Failure =>
          error := Some(CancelRideError);
      }
      isLoading := false;
    }

    method ClearRide()
      modifies this
      ensures State() == Cleared(old(State()))
      ensures old(Valid()) ==> Valid()
    {
      currentRide := None;
      pickupLocation := None;
      destinationLocation := None;
      estimatedFare := None;
      error := None;
    }
  }
}
