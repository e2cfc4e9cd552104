/**
 * Fare estimation of the ride store (store/ride.ts): a base rate plus a per-kilometre rate,
 * chosen by vehicle type, applied to the straight-line distance and rounded the way
 * JavaScript's `Math.round` rounds.
 */
module Fare {
  import opened Domain

  /**
   * `calculateDistance(lat1, lon1, lat2, lon2)`: the haversine great-circle distance in km.
   * Its trigonometry is not modelled; what the store relies on is that it is never negative
   * (2 * R * atan2(sqrt a, sqrt (1 - a)) with both square roots non-negative).
   */
  type DistanceFn = f: (real, real, real, real) -> real
    | forall lat1, lon1, lat2, lon2 :: f(lat1, lon1, lat2, lon2) >= 0.0
    witness (lat1: real, lon1: real, lat2: real, lon2: real) => 0.0

  /** The distance between two picked locations, as both `estimateFare` and `bookRide` compute it. */
  function DistanceBetween(distanceKm: DistanceFn, from: Location, to: Location): (d: real)
    ensures d >= 0.0
  {
    distanceKm(from.latitude, from.longitude, to.latitude, to.longitude)
  }

  /** `baseRate`: 30 for a car, 15 for a bike. */
  function BaseRate(vehicleType: VehicleType): (rate: nat)
    ensures rate >= MinBaseRate
  {
    if vehicleType == Car then 30 else 15
  }

  /** `perKmRate`: 15 for a car, 6 for a bike. */
  function PerKmRate(vehicleType: VehicleType): (rate: nat)
    ensures rate > 0
  {
    if vehicleType == Car then 15 else 6
  }

  /** The smallest base rate of any vehicle type. */
  const MinBaseRate: nat := 15

  /**
   * `Math.round(x)`: the integer nearest to x, halves going up (towards +infinity),
   * which is `floor(x + 0.5)`.
   */
  function Round(x: real): (n: int)
    ensures n as real - 0.5 <= x < n as real + 0.5
  {
    (x + 0.5).Floor
  }

  /** `Math.round(baseRate + distance * perKmRate)`, the fare `estimateFare` stores. */
  function EstimatedFare(vehicleType: VehicleType, distance: real): (fare: int)
    ensures fare as real - 0.5
              <= BaseRate(vehicleType) as real + distance * PerKmRate(vehicleType) as real
              < fare as real + 0.5
  {
    Round(BaseRate(vehicleType) as real + distance * PerKmRate(vehicleType) as real)
  }

  /** Rounding never moves an integer, and never moves a value below an integer it exceeds. */
  lemma RoundAtLeast(x: real, k: int)
    requires x >= k as real
    ensures Round(x) >= k
  {
  }

  /** Rounding is monotone. */
  lemma RoundMonotone(x: real, y: real)
    requires x <= y
    ensures Round(x) <= Round(y)
  {
  }

  /** For a non-negative distance the fare is at least the base rate, so never 0. */
  lemma FareAtLeastBase(vehicleType: VehicleType, distance: real)
    requires distance >= 0.0
    ensures EstimatedFare(vehicleType, distance) >= BaseRate(vehicleType) >= MinBaseRate
    ensures EstimatedFare(vehicleType, distance) != 0
  {
  }

  /** A longer trip never costs less. */
  lemma FareMonotone(vehicleType: VehicleType, d1: real, d2: real)
    requires d1 <= d2
    ensures EstimatedFare(vehicleType, d1) <= EstimatedFare(vehicleType, d2)
  {
  }

  /** A bike trip never costs more than a car trip of the same distance. */
  lemma BikeCheaperThanCar(distance: real)
    requires distance >= 0.0
    ensures EstimatedFare(Bike, distance) <= EstimatedFare(Car, distance)
  {
  }
}
