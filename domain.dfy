/** Optional values and the outcome of a call to the hosted backend. */
module Wrappers {

  /** A nullable field of the store (`T | null` in the source). */
  datatype Option<+T> = None | Some(value: T)

  /** What an awaited backend call produced: the value it resolved with, or a thrown error. */
  datatype Outcome<+T> = Success(value: T) | Failure
}

/** The records the ride store and the subscription screen work with (types/database.types.ts). */
module Domain {
  import opened Wrappers

  /** `'car' | 'bike'`: chooses the rate table, the driver filter and the plan list. */
  datatype VehicleType = Car | Bike

  /** The `status` column of a ride row. */
  datatype RideStatus = Pending | Accepted | InProgress | Completed | Cancelled

  /** A place picked in the booking UI: `{ latitude, longitude, address }`. */
  datatype Location = Location(latitude: real, longitude: real, address: string)

  /** A place as stored in a ride row: `{ lat, lng, address }`. */
  datatype Place = Place(lat: real, lng: real, address: string)

  /** A row of the `drivers` table; the store only copies these around. */
  datatype Driver = Driver(
    id: string,
    userId: string,
    vehicleType: VehicleType,
    vehicleModel: string,
    vehicleColor: string,
    licensePlate: string,
    currentLat: real,
    currentLng: real,
    isActive: bool,
    rating: real,
    totalRides: int,
    createdAt: string,
    updatedAt: string)

  /** A row of the `rides` table, as the backend returns it. */
  datatype Ride = Ride(
    id: string,
    userId: string,
    driverId: Option<string>,
    pickupLocation: Place,
    destinationLocation: Place,
    status: RideStatus,
    vehicleType: VehicleType,
    distance: real,
    fare: int,
    createdAt: string,
    updatedAt: string)

  /** The fields the store sends when it asks the backend to create a ride. */
  datatype RideInsert = RideInsert(
    pickupLocation: Place,
    destinationLocation: Place,
    vehicleType: VehicleType,
    status: RideStatus,
    fare: int,
    distance: real)

  /** How a picked location is written into a ride row. */
  function ToPlace(loc: Location): Place
  {
    Place(loc.latitude, loc.longitude, loc.address)
  }
}
