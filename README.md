# EcoRide booking core, modelled in Dafny

This project models the two pieces of real logic in the EcoRide mobile client.

**The ride-booking store** (`useRideStore`, store/ride.ts) holds seven fields:

- `currentRide`
- `nearbyDrivers`
- `pickupLocation`
- `destinationLocation`
- `estimatedFare`
- `isLoading`
- `error`

Its actions are guarded updates of those fields. Four of them are remote actions: `getNearbyDrivers` calls `db.drivers.getNearbyDrivers`, `bookRide` calls `db.rides.create`, and `updateRideStatus` and `cancelRide` call `db.rides.updateStatus`. The backend helpers (lib/supabase.ts:52-92) define no `db.rides.updateStatus`, so those last two calls throw as the code stands (see Findings). Each remote action sets `isLoading`, writes the result and clears `error` on success, writes a fixed message on failure, and clears `isLoading` at the end.

**The subscription screen** (app/subscription.tsx) holds a fixed catalogue of six plans, three per vehicle type. It has three state fields: the selected plan id, the vehicle type and auto-renew. Around them are the filter and find expressions that choose what is listed and what price the subscribe button shows.

Files:

- `domain.dfy`: `Wrappers` (`Option`, and `Outcome` for a settled backend call) and `Domain` (vehicle type, ride status, locations, driver and ride rows, the ride-creation request).
- `fare.dfy`: `Fare`. The rate table (30 + 15/km for a car, 15 + 6/km for a bike), `Math.round` as `floor(x + 0.5)`, the distance function as a non-negative black box, and the fare bounds.
- `ride_store.dfy`: `RideStore`. One pure function per action, from the store's value before to its value after (`AfterDriverLookup`, `AfterBooking`, ...). Lemmas about those functions. The class `RideStore`, whose methods change the fields step by step and are proved to produce exactly what the functions say.
- `subscription.dfy`: `Subscription`. The catalogue, `filter`/`find` as recursive functions with their lemmas, and the class `SubscriptionScreen` with one method per handler.

Backend calls are parameters of the actions. Each is a function from the request to the outcome the awaited promise settles with (`Success(value)` or `Failure`). For the status update, the constant `MissingUpdateStatus` (always `Failure`) is the call as it resolves today. Any other function stands for a helper that exists. So every contract covers both the success path and the failure path, and it also records exactly which request was sent. `calculateDistance` is a constant of the store, of the subset type `DistanceFn`. That type admits any function of four reals that is never negative.

Behaviour one might expect of a ride app that the code does not enforce, and that the model therefore does not promise:

- Only one current ride at a time. `bookRide` checks only pickup, destination and the fare (store/ride.ts:94-96), not `currentRide`. `AfterBooking` replaces any existing current ride.
- Cancellation only while a ride has not started. `cancelRide` checks only that a current ride exists (store/ride.ts:147-153), whatever its status.
- Rounding half away from zero. `Math.round` (store/ride.ts:85) rounds halves up, to `floor(x + 0.5)`. The two agree for the non-negative amounts a fare can take.
- An in-ride stage sequence (searching, assigned, arriving, started, completed). The status list at data/mockData.ts:78 is only a comment, and neither core file implements it (see Left out).

## Model

| member | source | states |
|---|---|---|
| `Fare.DistanceBetween` | store/ride.ts:175-186 | the distance between two picked locations is never negative |
| `Fare.Round` | store/ride.ts:85 | the rounded value is the integer within half of x, with halves going up |
| `Fare.BaseRate` | store/ride.ts:72 | the base rate (30 for a car, 15 for a bike) is never below the smallest base rate, 15 |
| `Fare.PerKmRate` | store/ride.ts:73 | the per-km rate (15 for a car, 6 for a bike) is positive |
| `Fare.EstimatedFare` | store/ride.ts:72-85 | the fare is base rate + distance × per-km rate (30/15 for car, 15/6 for bike), rounded to within half a unit |
| `Fare.RoundAtLeast` | store/ride.ts:85 | rounding never takes a value below an integer it is at least |
| `Fare.RoundMonotone` | store/ride.ts:85 | rounding preserves order |
| `Fare.FareAtLeastBase` | store/ride.ts:72-85 | for a non-negative distance the fare is at least the vehicle's base rate, at least 15, and never 0 |
| `Fare.FareMonotone` | store/ride.ts:84-85 | a longer distance never gives a smaller fare |
| `Fare.BikeCheaperThanCar` | store/ride.ts:72-73 | for the same distance a bike fare never exceeds a car fare |
| `RideStore.WithPickup` | store/ride.ts:37-39 | setting the pickup overwrites the pickup and leaves every other field unchanged |
| `RideStore.WithDestination` | store/ride.ts:41-43 | setting the destination overwrites the destination and leaves every other field unchanged |
| `RideStore.AfterDriverLookup` | store/ride.ts:45-63 | with no pickup, nothing changes, not even isLoading. Otherwise the backend is asked for drivers at the pickup's coordinates. On success the list is replaced and error cleared. On failure the list is kept and error is "Failed to fetch nearby drivers". isLoading ends false, and no other field changes |
| `RideStore.AfterFareEstimate` | store/ride.ts:65-92 | without both locations, nothing changes. Otherwise the fare for the distance between them is stored and is at least the base rate. error is cleared, isLoading ends false, and no other field changes |
| `RideStore.BookingRequest` | store/ride.ts:100-120 | the creation request has status pending, fare = estimatedFare and the chosen vehicle type. Its distance is recomputed from the two locations and is non-negative. Its pickup and destination carry the picked locations' latitude, longitude and address |
| `RideStore.AfterBooking` | store/ride.ts:94-129 | unless pickup, destination and a truthy estimatedFare are all present, nothing changes. Otherwise the request is sent. On success the created ride becomes currentRide and error is cleared. On failure currentRide is kept and error is "Failed to book ride". isLoading ends false, and no other field changes |
| `RideStore.AfterStatusUpdate` | store/ride.ts:131-145 | with no current ride, nothing changes. Otherwise the status update for the ride's id is sent. On success the updated ride replaces it and error is cleared. On failure it is kept and error is "Failed to update ride status". isLoading ends false, and no other field changes |
| `RideStore.AfterCancel` | store/ride.ts:147-161 | with no current ride, nothing changes. Otherwise the ride's id is updated to cancelled. On success currentRide becomes null and error is cleared. On failure currentRide is kept and error is "Failed to cancel ride". isLoading ends false, and no other field changes |
| `RideStore.StatusUpdateAsWritten` | store/ride.ts:131-145 | with the update helper missing, `updateRideStatus` on a current ride always ends with "Failed to update ride status" and isLoading false, and changes nothing else |
| `RideStore.CancelAsWritten` | store/ride.ts:147-161 | with the update helper missing, `cancelRide` on a current ride keeps the ride, always ends with "Failed to cancel ride" and isLoading false, and changes nothing else |
| `RideStore.CancelWithWorkingUpdate` | store/ride.ts:147-161 | with a status update that succeeds, cancelling drops the current ride and clears the error |
| `RideStore.Cleared` | store/ride.ts:163-171 | clearing nulls currentRide, both locations, estimatedFare and error, and keeps nearbyDrivers and isLoading |
| `RideStore.ClearedIdempotent` | store/ride.ts:163-171 | clearing twice equals clearing once |
| `RideStore.ClearedDisablesActions` | store/ride.ts:163-171 | after clearing, driver lookup, fare estimate, booking, status update and cancel are all no-ops |
| `RideStore.InitialInvariant` | store/ride.ts:28-35 | the initial store is not loading, has no fare and no error |
| `RideStore.ActionsPreserveInvariant` | store/ride.ts:37-171 | every action keeps the invariant between actions: isLoading false, a stored fare ≥ 15, error null or one of the fixed messages |
| `RideStore.CanBookWhenAllSet` | store/ride.ts:94-96 | under the invariant the truthiness test on estimatedFare only asks whether a fare is set, because a stored fare is never 0 |
| `RideStore.BookingFlow` | store/ride.ts:65-129 | after picking pickup and destination and estimating, booking is enabled. The request's fare is the estimate for the distance between the two locations and is at least the base rate. On success the created ride becomes current |
| `RideStore.RideStore.constructor` | store/ride.ts:28-35 | the store starts with null ride, empty driver list, null locations, fare and error, and isLoading false |
| `RideStore.RideStore.SetPickupLocation` | store/ride.ts:37-39 | the new state is `WithPickup` of the old one, and the invariant is kept |
| `RideStore.RideStore.SetDestinationLocation` | store/ride.ts:41-43 | the new state is `WithDestination` of the old one, and the invariant is kept |
| `RideStore.RideStore.GetNearbyDrivers` | store/ride.ts:45-63 | the step-by-step action (set loading, await, write, clear loading) ends in `AfterDriverLookup` of the old state |
| `RideStore.RideStore.EstimateFare` | store/ride.ts:65-92 | the step-by-step action ends in `AfterFareEstimate` of the old state |
| `RideStore.RideStore.BookRide` | store/ride.ts:94-129 | the step-by-step action ends in `AfterBooking` of the old state |
| `RideStore.RideStore.UpdateRideStatus` | store/ride.ts:131-145 | the step-by-step action ends in `AfterStatusUpdate` of the old state |
| `RideStore.RideStore.CancelRide` | store/ride.ts:147-161 | the step-by-step action ends in `AfterCancel` of the old state |
| `RideStore.RideStore.ClearRide` | store/ride.ts:163-171 | the new state is `Cleared` of the old one |
| `Subscription.PlansOfType` | app/subscription.tsx:134 | every plan kept has the requested type, and the result is a subsequence of the list (catalogue order is kept) |
| `Subscription.PlansOfTypeMembers` | app/subscription.tsx:134 | a plan is in the filtered list exactly when it is in the list and has the type |
| `Subscription.PlansOfTypeAppend` | app/subscription.tsx:134 | filtering a concatenation is concatenating the filtered parts |
| `Subscription.PlansOfTypeUniform` | app/subscription.tsx:134 | filtering keeps a list whose plans all have the type, and empties one where none does |
| `Subscription.Find` | app/subscription.tsx:128-135 | `find` returns a plan of the list that matches, and no plan before it matches. It returns nothing exactly when no plan matches. The screen uses it by vehicle type and by id |
| `Subscription.FirstOfType` | app/subscription.tsx:128 | a plan found by type is in the list and has that type. Nothing is found exactly when no plan has the type |
| `Subscription.PlanWithId` | app/subscription.tsx:135 | a plan found by id is in the list and has that id. Nothing is found exactly when no plan has the id |
| `Subscription.FirstOfTypeIsHeadOfFilter` | app/subscription.tsx:128-134 | `find` by type returns the head of `filter` by type, or nothing when the filter is empty |
| `Subscription.PlanWithIdFindsUnique` | app/subscription.tsx:135 | with unique ids, looking up a listed plan's id returns that plan |
| `Subscription.DisplayedPrice` | app/subscription.tsx:286 | the button shows the selected plan's price, or 499 when no plan is selected (or the price is 0) |
| `Subscription.CatalogueIdsUnique` | app/subscription.tsx:16-115 | the six catalogue ids are distinct |
| `Subscription.CataloguePlansOfType` | app/subscription.tsx:16-115 | the catalogue is the three bike plans followed by the three car plans |
| `Subscription.CatalogueFirstOfType` | app/subscription.tsx:16-131 | the first bike plan is '1' and the first car plan is '4' |
| `Subscription.FirstPlanOfTypeSelectable` | app/subscription.tsx:123-134 | each type has a first plan ('1' for bike, '4' for car). Looking up its id finds it again, and it is listed for that type |
| `Subscription.CataloguePricesNonZero` | app/subscription.tsx:16-115 | every catalogue price is positive |
| `Subscription.Toggled` | app/subscription.tsx:124 | toggling gives the other vehicle type (bike to car, car to bike) |
| `Subscription.SubscriptionScreen.FilteredPlans` | app/subscription.tsx:134 | `filteredPlans` holds exactly the catalogue plans of the current type, in catalogue order, and there are three of them |
| `Subscription.SubscriptionScreen.SelectedPlan` | app/subscription.tsx:135 | `selectedPlan` is the unique catalogue plan with the selected id, or nothing when no plan has that id |
| `Subscription.SubscriptionScreen.SubscribePrice` | app/subscription.tsx:286 | when the selected id names a catalogue plan the button shows its price, otherwise 499 |
| `Subscription.SubscriptionScreen.constructor` | app/subscription.tsx:119-121 | the screen starts on plan '3' (Eco Bike Monthly) with bike plans and auto-renew on, and that plan is among the listed ones |
| `Subscription.SubscriptionScreen.ToggleVehicleType` | app/subscription.tsx:123-132 | the type flips. The selected id becomes that of the first plan of the new type ('1' or '4'), which is listed. Auto-renew is unchanged |
| `Subscription.SubscriptionScreen.ChooseBikePlans` | app/subscription.tsx:165 | only the vehicle type changes, to bike; the selection is left alone |
| `Subscription.SubscriptionScreen.ChooseCarPlans` | app/subscription.tsx:186 | only the vehicle type changes, to car; the selection is left alone |
| `Subscription.SubscriptionScreen.ChoosePlan` | app/subscription.tsx:212 | pressing a listed plan's card selects exactly that plan |
| `Subscription.SubscriptionScreen.SetAutoRenew` | app/subscription.tsx:268 | the switch changes auto-renew only |
| `Subscription.CarButtonKeepsBikePlan` | app/subscription.tsx:119-186 | from the initial state, the Car button leaves bike plan '3' selected. That plan is not among the listed car plans, and the button still shows its price |

## Findings

| source | as written | input that shows it | evidently intended | confidence | as-written member | corrected member |
|---|---|---|---|---|---|---|
| store/ride.ts:137,153 | `updateRideStatus` and `cancelRide` call `db.rides.updateStatus`, which lib/supabase.ts:52-92 does not define. The call throws inside `try`, so both actions always end in their failure message and never change `currentRide` | any store with a current ride, then `cancelRide()`: the ride stays current and `error` is "Failed to cancel ride" | a helper that sets the ride's status on the backend; on success the updated ride replaces the current one, and a cancelled ride is dropped | high (reading of the helper object; not executed) | `RideStore.CancelAsWritten` | `RideStore.CancelWithWorkingUpdate` |

## Left out

- `calculateDistance` / `deg2rad` (store/ride.ts:175-190): the haversine trigonometry is not modelled. Distance is any non-negative function of the four coordinates, so symmetry and zero self-distance are not stated.
- Numbers are exact reals and unbounded integers. JavaScript's floating point, NaN and infinities are not modelled.
- Concurrency: each action runs to completion before the next starts. The interleaving of overlapping async actions on the single `isLoading` flag is not modelled. Under this model, "isLoading is false between actions" is an invariant.
- `console.error` logging in the catch blocks.
- The driver search radius (5000 m) is a default of the backend helper in lib/supabase.ts, which is not part of this model. The lookup function receives only latitude, longitude and vehicle type, as the store passes them.
- The request `bookRide` sends has no `user_id`, which the declared insert type requires. The model sends what the store sends, and whatever the backend returns becomes the current ride.
- `RideStore.AfterFareEstimate`: the catch branch of `estimateFare` ("Failed to estimate fare") is not reachable, because nothing in its try block throws. The model has no failure path for it. The message still counts as a known error.
- The missing `db.rides.updateStatus` helper is represented only by the constant `MissingUpdateStatus`, which always fails. The general `StatusUpdate` parameter stands for a helper that exists. The `AfterStatusUpdate` and `AfterCancel` success branches therefore describe that intended helper, not the code as it resolves today.
- The backend helpers (lib/supabase.ts), authentication (store/auth.ts, context/AuthContext.tsx, hooks/useAuth.ts), and the other screens and configuration are not part of this model.
- The five-stage in-ride progress, the live fare and the elapsed-time counters are not implemented by the store or the subscription screen, so they are not modelled.
- `handleSubscribe` (app/subscription.tsx:137-142) only navigates after a timer, and the savings text (app/subscription.tsx:277) is display only. Neither is modelled.
- `toggleVehicleType` is defined in the screen but no element calls it. It is modelled all the same.
