# Shared-ride matching, pooled fares and ride handling: a Dafny model

The system is a Laravel ride-hailing back end with three ride types:
normal rides, shared rides (two riders in one private car) and shuttle
rides (fixed routes and stops). This project models its core in Dafny and
proves what that core promises.

- **Matching a second rider** to a posted shared ride (`matchSharedRide`,
  and the offline matcher `findMatches` in the standalone script):
  - the filters on status, owner, time window and 5 km radius;
  - the overhead calculation over the four pooled visiting orders (`S1 S2 E1 E2` …). It picks the first order with the shortest total duration, splits each segment's price evenly among the riders aboard, and reports detours, fares and solo fares;
  - the stable sort of the matches by total overhead.
- **The shared-ride session** (class `SharedSession.SharedRide`): creation, joining and the status actions. Also the fare-screenshot upload with its fare split (by the pooled-fare ratio, 50/50, or all to Rider 1), ending the ride, marking arrival and the riders' reviews of each other. The last three are gated by the stored visiting order.
- **The shuttle driver's handlers** (class `Shuttle.ShuttleBoard`): assigning the driver to the rides due within an hour, the riders notified at a stop, pickups and drop-offs when the shuttle leaves a stop, and the live-location broadcast once per rider.
- **The driver's ride handlers** (class `DriverRides.DriverDesk`): start with the six-digit OTP, end, cancel with the cancellation penalty, the cash-payment check and the receipt amount.
- **The login that creates an account on first use** (class `Usernames.UserTable`): the username loop that appends 1, 2, … until the name is free, and the fields of the new account.
- **The stability measures** `sum_of_drops` and `max_drop` of a row of quarterly returns (module `Drops`).

The trigonometric haversine distance and the Google distance-matrix service are parameters:
- `Geo.Distance` is a function, constrained only by `Geo.ValidMetric`: non-negative and at most half a great circle.
- `Geo.MapService` may return `None`.

Database queries become filters over sequences of records, and the clock is a `now` parameter. PHP's `round` and Python's `round` are modelled exactly on reals (module `Rounding`).

Files:

| File | Module | What it holds |
|---|---|---|
| `wrappers.dfy` | `Wrappers` | `Option` |
| `validation.dfy` | `Validation` | the `required` rule on strings |
| `rounding.dfy` | `Rounding` | PHP and Python rounding |
| `geo.dfy` | `Geo` | points, segment durations, the fallback distance estimate |
| `rides.dfy` | `Rides` | ride status, type and the posted ride |
| `sequencing.dfy` | `Sequencing` | visiting orders, durations, occupancy, cost shares, the shortest-order scan |
| `overhead.dfy` | `Overhead` | `calculateOverhead` |
| `matching.dfy` | `Matching` | both matchers |
| `session.dfy` | `SharedSession` | the shared-ride record and its handlers |
| `shuttle.dfy` | `Shuttle` | shuttle driver handlers |
| `driverrides.dfy` | `DriverRides` | driver ride handlers |
| `usernames.dfy` | `Usernames` | first-login account creation |
| `drops.dfy` | `Drops` | stability measures |

Behaviours of the code that the model keeps as written:
- `joinRide` sets the second rider but leaves the status alone.
- `confirm_pickup` moves the ride to running from any status.
- `end_ride` in `updateRideStatus` answers success and changes nothing.
- `rateOtherUser` does not require a completed ride.
- Line 71 of the login handler lower-cases the login field, but for a username login line 99 then stores the loop's username over it, so the username keeps its case. A new email account's email is stored lower-cased.
- `startTrip` overwrites the driver of every due ride, even one another driver already holds.

## Model

| member | source | states |
|---|---|---|
| Rounding.PhpRoundError | app/Http/Controllers/Api/SharedRideController.php:308-317 | PHP `round` to 0, 1 or 2 places moves a value by at most half a unit in the last place |
| Rounding.PyRoundError | abc/w.py:8-17 | Python `round` to 0, 1 or 2 places moves a value by at most half a unit in the last place |
| Rounding.PhpRoundNonNegative | app/Http/Controllers/Api/SharedRideController.php:1051-1056 | PHP rounding of a non-negative amount is non-negative |
| Rounding.RoundHalfEvenMonotone | abc/w.py:11 | half-to-even rounding to an integer never reverses the order of two values |
| Rounding.PyRoundMonotone | abc/w.py:17 | Python rounding to any number of places is monotone |
| Rounding.PhpRound | app/Http/Controllers/Api/SharedRideController.php:308-317 | defines PHP `round` to 0, 1 or 2 places: scale by 10^places, round half away from zero, scale back |
| Rounding.PyRound | abc/w.py:11 | defines Python `round` to 0, 1 or 2 places: scale by 10^places, round half to even, scale back |
| Rounding.PyRoundNonPositive | abc/w.py:11 | Python rounding keeps a non-positive value non-positive |
| Geo.SegmentDurationBounds | app/Http/Controllers/Api/SharedRideController.php:340-348 | a segment's duration (120 s per haversine km) lies between 0 and 120 × 20016 s |
| Geo.FallbackIsTwoMinutesPerKm | ride_matching_test_standalone.php:83-107 | the fallback duration is within 0.5 s of 2 minutes per haversine km and within 1.1 s of 2 minutes per reported (rounded) km |
| Geo.StandaloneDistanceMatrix | ride_matching_test_standalone.php:39-47 | the standalone service always answers, and answers with the fallback estimate when the API is off |
| Geo.SegmentDuration | app/Http/Controllers/Api/SharedRideController.php:340-348 | defines a segment's duration as the haversine distance times 120 s per km |
| Geo.FallbackEstimate | ride_matching_test_standalone.php:83-107 | defines the fallback estimate: the haversine distance rounded to 2 places and 2 minutes per km rounded to whole seconds |
| Sequencing.OrdersAreThePooledOrders | app/Http/Controllers/Api/SharedRideController.php:208-220 | the four listed orders are exactly the orders that visit each of the four waypoints once and pick both riders up before either drop-off |
| Sequencing.PooledOrderIsListed | app/Http/Controllers/Api/SharedRideController.php:213-220 | every order with both pickups first is one of the four listed |
| Sequencing.ListedOrderIsPooled | app/Http/Controllers/Api/SharedRideController.php:215-220 | every listed order visits each waypoint once with both pickups first |
| Sequencing.OrdersDistinct | app/Http/Controllers/Api/SharedRideController.php:215-220 | the four listed orders are pairwise different |
| Sequencing.Position | app/Http/Controllers/Api/SharedRideController.php:292-297 | `array_search`: the first index holding the waypoint |
| Sequencing.PickupPrecedesDropoff | app/Http/Controllers/Api/SharedRideController.php:213-220 | in every listed order each rider's pickup is in the first two places and their drop-off in the last two |
| Sequencing.SubDurationWithinTotal | app/Http/Controllers/Api/SharedRideController.php:292-298 | a rider's in-ride time is non-negative and at most the order's total duration |
| Sequencing.SubDurationNonNegative | app/Http/Controllers/Api/SharedRideController.php:350-356 | a sum of consecutive segment durations is non-negative |
| Sequencing.SubDurationAppend | app/Http/Controllers/Api/SharedRideController.php:350-356 | the duration from the start up to `hi` is the duration up to `lo` plus the duration from `lo` to `hi` |
| Sequencing.SegmentOccupancy | app/Http/Controllers/Api/SharedRideController.php:259-271 | in every listed order the first rider picked up rides alone on segment 1, both share segment 2, and the rider dropped off last rides alone on segment 3 |
| Sequencing.SharesAddUp | app/Http/Controllers/Api/SharedRideController.php:283-288 | with anyone aboard, the two riders' shares of a segment's price add up to that price |
| Sequencing.CostConservation | app/Http/Controllers/Api/SharedRideController.php:259-289 | the two riders' costs over an order add up to the price of its whole route |
| Sequencing.CostOfThreeSegments | app/Http/Controllers/Api/SharedRideController.php:259-289 | a rider's cost over an order is their share of each of the three segments |
| Sequencing.CostNonNegative | app/Http/Controllers/Api/SharedRideController.php:242-288 | a rider's running cost never goes negative |
| Sequencing.ScanFindsFirstMinimum | app/Http/Controllers/Api/SharedRideController.php:222-306 | the strict `<` scan from `PHP_INT_MAX` keeps the first smallest total below `PHP_INT_MAX`, and keeps nothing exactly when no total is below it |
| Sequencing.BestOrderChosen | app/Http/Controllers/Api/SharedRideController.php:304-306 | with haversine-bounded distances some order is always chosen |
| Sequencing.BestOrderIsFirstMinimum | app/Http/Controllers/Api/SharedRideController.php:304-319 | the chosen order has the least total duration of the four, and every earlier order takes strictly longer |
| Sequencing.SubDuration | app/Http/Controllers/Api/SharedRideController.php:350-356 | defines a sub-sequence's duration as the sum of the segment durations from `lo` up to `hi`, zero when `hi <= lo` |
| Sequencing.OccupancyAfter | app/Http/Controllers/Api/SharedRideController.php:263-271 | defines the riders in the car after the first `n` waypoints: a pickup adds its rider, a drop-off removes its rider |
| Sequencing.CostUpTo | app/Http/Controllers/Api/SharedRideController.php:274-288 | defines a rider's charge over the first `n` segments: for each segment, the price at 2.00 per km split evenly among the riders aboard, when the rider is aboard |
| Overhead.SubSequenceDuration | app/Http/Controllers/Api/SharedRideController.php:350-356 | the loop's sum equals the sum of the segment durations from `lo` to `hi` |
| Overhead.WalkSegments | app/Http/Controllers/Api/SharedRideController.php:259-289 | after the three segments the costs are each rider's share of the route and the duration is the order's total |
| Overhead.DriveSegment | app/Http/Controllers/Api/SharedRideController.php:260-288 | one segment step takes occupancy, costs and duration from their values after `i` points to their values after `i + 1` |
| Overhead.ChargeSegment | app/Http/Controllers/Api/SharedRideController.php:283-288 | each rider aboard is charged the price divided by the number aboard; a rider not aboard is charged nothing |
| Overhead.EvaluateOrder | app/Http/Controllers/Api/SharedRideController.php:233-302 | the per-order values (in-ride times, overheads, fares, total duration) are those of the order |
| Overhead.PickShortest | app/Http/Controllers/Api/SharedRideController.php:222-320 | the order kept after the loop over the four orders is the first shortest one |
| Overhead.ConsiderOrder | app/Http/Controllers/Api/SharedRideController.php:304-319 | one permutation step keeps the record of the first shortest order among those seen |
| Overhead.CalculateOverhead | app/Http/Controllers/Api/SharedRideController.php:176-338 | the method's result is the overhead record of the first shortest order, or none when the second rider's distance lookup fails |
| Overhead.NoMatchIffNoEstimate | app/Http/Controllers/Api/SharedRideController.php:200-204 | the calculation gives no record exactly when the second rider's distance-matrix lookup fails |
| Overhead.MatchOrderIsListed | app/Http/Controllers/Api/SharedRideController.php:304-311 | a record's sequence is one of the four listed orders |
| Overhead.MatchHasShortestOrder | app/Http/Controllers/Api/SharedRideController.php:222-320 | a record's sequence picks both riders up first and is the first order of least total duration |
| Overhead.OverheadsAreDetours | app/Http/Controllers/Api/SharedRideController.php:300-310 | each reported overhead is within 0.05 min of the rider's in-ride time minus their solo time, in minutes, and the total is within 0.05 min of the sum of the two detours |
| Overhead.InRideWithinRoute | app/Http/Controllers/Api/SharedRideController.php:292-298 | each rider's in-ride time is between 0 and the chosen order's total duration |
| Overhead.PooledFaresCoverRoute | app/Http/Controllers/Api/SharedRideController.php:316-328 | each pooled fare is at least the base fare, and the two fares add up to two base fares plus the route price, to within a cent |
| Overhead.PooledFaresAtLeastBase | app/Http/Controllers/Api/SharedRideController.php:324-328 | every pooled fare reported is at least the base fare |
| Overhead.SoloFaresArePerKm | app/Http/Controllers/Api/SharedRideController.php:331-334 | each solo fare is within half a cent of 5.00 plus 2.00 per solo km |
| Overhead.OverheadFor | app/Http/Controllers/Api/SharedRideController.php:176-338 | defines `calculateOverhead`'s result: none without a solo estimate for Rider 2, else the record of the first shortest order with base fares and solo fares added |
| Matching.CandidatesFromRides | app/Http/Controllers/Api/SharedRideController.php:63-152 | a match is collected exactly when some listed ride yields it |
| Matching.SortedCandidateFromRide | app/Http/Controllers/Api/SharedRideController.php:155-157 | every sorted match comes from a listed ride |
| Matching.RideCandidateSorted | app/Http/Controllers/Api/SharedRideController.php:155-157 | every ride's match survives the sort |
| Matching.InsertByOverhead | app/Http/Controllers/Api/SharedRideController.php:155-157 | inserting into an ascending list keeps it ascending by total overhead and adds exactly that match |
| Matching.SortByOverhead | app/Http/Controllers/Api/SharedRideController.php:155-157 | the result is ascending by total overhead and a permutation of the matches |
| Matching.InsertIsStable | app/Http/Controllers/Api/SharedRideController.php:155-157 | among matches of one total overhead, insertion puts the new match first and keeps the others in their order |
| Matching.SortIsStable | app/Http/Controllers/Api/SharedRideController.php:155-157 | the sort keeps matches of equal total overhead in the order the rides were listed |
| Matching.ControllerConsider | app/Http/Controllers/Api/SharedRideController.php:63-151 | one ride's step yields the annotated overhead record when the ride passes the filters, and nothing otherwise |
| Matching.ControllerTimes | app/Http/Controllers/Api/SharedRideController.php:85-147 | the estimated pickup is the ride's scheduled time plus the travel time to the second pickup, or absent when that lookup fails |
| Matching.MatchSharedRide | app/Http/Controllers/Api/SharedRideController.php:21-163 | the handler's list is the sorted list of the records of the rides that pass the filters |
| Matching.OverheadForRide | app/Http/Controllers/Api/SharedRideController.php:88-93 | a record names its ride, and its sequence contains both pickups |
| Matching.ControllerMatchSound | app/Http/Controllers/Api/SharedRideController.php:54-151 | every match comes from an active shared ride that has no second rider, is not the caller's and is within ±40 min and 5 km at both ends; it carries that ride's id, scheduled time and estimated pickup |
| Matching.ControllerCandidateSound | app/Http/Controllers/Api/SharedRideController.php:63-149 | a ride yields a match only when it passes every filter, and the match carries its id, time and estimated pickup |
| Matching.ControllerMatchComplete | app/Http/Controllers/Api/SharedRideController.php:63-152 | every ride that passes the filters appears among the matches when the second rider's lookup answers |
| Matching.ControllerNoEstimateNoMatches | app/Http/Controllers/Api/SharedRideController.php:79-82 | when the second rider's distance lookup fails there are no matches |
| Matching.Listed | app/Http/Controllers/Api/SharedRideController.php:54-59 | defines the rides the query lists: active, shared, with no second rider, not the requester's, scheduled within ±40 min of the requested time |
| Matching.StandaloneConsider | ride_matching_test_standalone.php:179-245 | one ride's step of the offline matcher yields its annotated record when it passes the owner, time and radius filters |
| Matching.StandaloneTimes | ride_matching_test_standalone.php:213-241 | a scheduled ride's estimated pickup is its time plus the travel time to the second pickup; an unscheduled ride gets none |
| Matching.FindMatches | ride_matching_test_standalone.php:154-254 | the offline matcher's list is the sorted list of the records of the rides that pass its filters |
| Matching.StandaloneMatchSound | ride_matching_test_standalone.php:179-246 | every offline match comes from a ride that is not the caller's, whose time (if any) is within ±40 min and is within 5 km at both ends, and carries its id, time and estimated pickup |
| Matching.StandaloneCandidateSound | ride_matching_test_standalone.php:181-243 | a ride yields an offline match only when it passes every filter |
| Matching.StandaloneMatchComplete | ride_matching_test_standalone.php:179-246 | every ride that passes the offline filters appears among the matches when the service answers |
| Matching.OwnRide | ride_matching_test_standalone.php:181-183 | defines the requester's own ride: one whose owner equals a given, non-zero user id |
| Matching.TimeAccepted | ride_matching_test_standalone.php:186-194 | defines the offline time filter: a ride with no scheduled time passes, one with a time passes when it is within ±40 min |
| SharedSession.FirstDropoff | app/Http/Controllers/Api/SharedRideController.php:1202-1215 | the first drop-off is a drop-off of the order, and there is none exactly when the order has no drop-off |
| SharedSession.FindFirstDropoff | app/Http/Controllers/Api/SharedRideController.php:1202-1208 | the loop with `break` finds the first drop-off of the order |
| SharedSession.GatesAdmitOneRider | app/Http/Controllers/Api/SharedRideController.php:1004-1006 | for every listed order exactly one rider may upload the fare, namely the one picked up first. Likewise exactly one may mark arrival, the one dropped off first, and the other one ends the ride |
| SharedSession.SplitByRatio | app/Http/Controllers/Api/SharedRideController.php:1048-1052 | the ratio split rounds each rider's share of the total to cents |
| SharedSession.RatioSharesAddUp | app/Http/Controllers/Api/SharedRideController.php:1048-1049 | the two unrounded ratio shares are non-negative and add up to the total |
| SharedSession.EvenSplitReconciles | app/Http/Controllers/Api/SharedRideController.php:1055-1056 | the two rounded halves are non-negative and add up to the total to within a cent |
| SharedSession.RatioSplitReconciles | app/Http/Controllers/Api/SharedRideController.php:1048-1052 | the rounded ratio shares are non-negative, add up to the total to within a cent, and are each within half a cent of the exact share |
| SharedSession.FareSplitReconciles | app/Http/Controllers/Api/SharedRideController.php:1028-1062 | whichever basis is used, both fares are non-negative and add up to the total to within a cent |
| SharedSession.FareSplitFollowsBasis | app/Http/Controllers/Api/SharedRideController.php:1031-1062 | without a second rider Rider 1 pays everything; the fallback split is even; the ratio split follows the pooled fares |
| SharedSession.JoinedOrder | app/Http/Controllers/Api/SharedRideController.php:385-404 | an order is stored only when the joiner sent a trip, and it is one of the four listed orders |
| SharedSession.ChooseOrder | app/Http/Controllers/Api/SharedRideController.php:385-404 | the method's result is the order to store for the joiner's trip |
| SharedSession.SharedRide.constructor | app/Http/Controllers/Api/SharedRideController.php:556-596 | a new shared ride is active, has no second rider, order, fare or review, costs 5.00 plus 2.00 per km, and is scheduled at the requested time or now |
| SharedSession.SharedRide.Join | app/Http/Controllers/Api/SharedRideController.php:358-426 | a full ride and one's own ride are refused unchanged. Otherwise the joiner becomes the second rider, and their trip and the best order are stored when the overhead can be computed |
| SharedSession.SharedRide.Admit | app/Http/Controllers/Api/SharedRideController.php:382-404 | records the second rider and, when given, their trip and order; nothing else changes |
| SharedSession.SharedRide.UpdateRideStatus | app/Http/Controllers/Api/SharedRideController.php:480-522 | non-riders are refused. Only Rider 1 may start driving or announce arrival; only Rider 2 confirms pickup, which sets the ride running; ending answers success without a change |
| SharedSession.SharedRide.SplitBasis | app/Http/Controllers/Api/SharedRideController.php:1031-1049 | a ratio basis comes from pooled fares, each at least the base fare |
| SharedSession.SharedRide.SplitFare | app/Http/Controllers/Api/SharedRideController.php:1028-1062 | the method's result is the split of the total on the ride's basis |
| SharedSession.SharedRide.UploadFare | app/Http/Controllers/Api/SharedRideController.php:964-1069 | the upload succeeds exactly when the amount is non-negative, the caller is a rider, the order has at least two entries, the caller was picked up first and the image is stored. On success it records the image, the amount and the split; otherwise nothing changes |
| SharedSession.SharedRide.RecordFare | app/Http/Controllers/Api/SharedRideController.php:1065-1069 | stores the image, the total and both fares, and nothing else |
| SharedSession.SharedRide.EndSharedRide | app/Http/Controllers/Api/SharedRideController.php:1093-1146 | ending succeeds exactly when the caller is a rider, the ride is running and the caller is dropped off last; it then completes the ride at `now`, and otherwise changes nothing |
| SharedSession.SharedRide.MarkArrived | app/Http/Controllers/Api/SharedRideController.php:1166-1225 | arrival is accepted exactly when the caller is a rider, the ride is running and the caller is dropped off first |
| SharedSession.SharedRide.RateOtherUser | app/Http/Controllers/Api/SharedRideController.php:1247-1310 | a review succeeds exactly when the rating is 1–5, the text is not blank (empty once PHP-trimmed) and at most 500 characters, there is another rider and the caller has not reviewed them yet. It appends one review of the other rider |
| SharedSession.CreateSharedRide | app/Http/Controllers/Api/SharedRideController.php:524-598 | a ride is created exactly when the distance lookup answers; it is new and active, and its price is 5.00 plus 2.00 per km |
| Shuttle.UniqueKeepsValuesOnce | app/Http/Controllers/Api/Driver/ShuttleDriverController.php:206 | `unique()` keeps every value exactly once and adds none |
| Shuttle.BoardingRiders | app/Http/Controllers/Api/Driver/ShuttleDriverController.php:84-95 | a user is notified at a stop exactly when one of their active rides on the route and driver starts there |
| Shuttle.TrackedRiders | app/Http/Controllers/Api/Driver/ShuttleDriverController.php:199-206 | a user is tracked exactly when they have an active or running shuttle ride with the driver |
| Shuttle.LiveLocationReachesEachRiderOnce | app/Http/Controllers/Api/Driver/ShuttleDriverController.php:199-219 | the live location reaches every tracked user, once each, and nobody else |
| Shuttle.AssignDriverOnlyWhenDue | app/Http/Controllers/Api/Driver/ShuttleDriverController.php:46-59 | starting a trip changes only the driver, and only on active shuttle rides of the route due within 60 min |
| Shuttle.DepartEffect | app/Http/Controllers/Api/Driver/ShuttleDriverController.php:119-147 | leaving a stop moves every ride forward only. Riders boarding there start running, or complete at once when they also end there; riders ending there complete; all other rides are unchanged |
| Shuttle.MultiStopRun | app/Http/Controllers/Api/Driver/ShuttleDriverController.php:119-147 | over three stops, two riders boarding at the first are each completed at their own stop and not touched afterwards |
| Shuttle.DueForTrip | app/Http/Controllers/Api/Driver/ShuttleDriverController.php:46-51 | defines a ride due for the trip: the route's active shuttle ride starting within 60 min either way of now |
| Shuttle.BoardsAt | app/Http/Controllers/Api/Driver/ShuttleDriverController.php:84-88 | defines a ride boarding at the stop: active, of the route and driver, starting at the stop |
| Shuttle.AlightsAt | app/Http/Controllers/Api/Driver/ShuttleDriverController.php:136-141 | defines a ride ending at the stop: running, of the route and driver, ending at the stop |
| Shuttle.Tracked | app/Http/Controllers/Api/Driver/ShuttleDriverController.php:199-203 | defines a tracked ride: the driver's active or running shuttle ride |
| Shuttle.Unique | app/Http/Controllers/Api/Driver/ShuttleDriverController.php:206 | defines `unique()`: each value once, at its first occurrence |
| Shuttle.ShuttleBoard.constructor | app/Http/Controllers/Api/Driver/ShuttleDriverController.php:46-51 | the board holds the given rides |
| Shuttle.ShuttleBoard.StartTrip | app/Http/Controllers/Api/Driver/ShuttleDriverController.php:34-70 | every ride is replaced by its driver assignment, one for one |
| Shuttle.ShuttleBoard.ArriveAtStop | app/Http/Controllers/Api/Driver/ShuttleDriverController.php:73-99 | the users notified are those boarding at the stop, in ride order |
| Shuttle.ShuttleBoard.DepartStop | app/Http/Controllers/Api/Driver/ShuttleDriverController.php:104-181 | every ride is replaced by its pickup-then-drop-off update, one for one |
| Shuttle.ShuttleBoard.LiveLocation | app/Http/Controllers/Api/Driver/ShuttleDriverController.php:184-223 | the recipients are the tracked users without repeats, in first-seen order |
| DriverRides.Find | Initial_Release_READONLY/Files/Laravel/core/app/Http/Controllers/Api/Driver/RideController.php:44 | `find($id)` gives the ride with that id, or none when no ride has it |
| DriverRides.OwnRide | Initial_Release_READONLY/Files/Laravel/core/app/Http/Controllers/Api/Driver/RideController.php:44-49 | the ride is found exactly when the row with that id belongs to the driver and has one of the given statuses |
| DriverRides.OtpIgnoresLeadingZeros | Initial_Release_READONLY/Files/Laravel/core/app/Http/Controllers/Api/Driver/RideController.php:58 | the loose `!=` compares the OTP as a number, so a leading zero does not change it |
| DriverRides.StartedCommission | Initial_Release_READONLY/Files/Laravel/core/app/Http/Controllers/Api/Driver/RideController.php:63-67 | the commission is the percentage of the amount and lies between 0 and the amount |
| DriverRides.CancelCountUpdate | Initial_Release_READONLY/Files/Laravel/core/app/Http/Controllers/Api/Driver/RideController.php:167-169 | replacing one ride changes the driver's cancellation count by that ride's difference only |
| DriverRides.CancelCountsOnce | Initial_Release_READONLY/Files/Laravel/core/app/Http/Controllers/Api/Driver/RideController.php:167-183 | a driver's cancellation of a ride not yet cancelled raises their count by exactly one |
| DriverRides.Started | Initial_Release_READONLY/Files/Laravel/core/app/Http/Controllers/Api/Driver/RideController.php:63-67 | defines a start: running from now, with the commission `amount / 100 * percentage` |
| DriverRides.Ended | Initial_Release_READONLY/Files/Laravel/core/app/Http/Controllers/Api/Driver/RideController.php:131-134 | defines an end: payment pending, status ended, end time now |
| DriverRides.CanceledByDriver | Initial_Release_READONLY/Files/Laravel/core/app/Http/Controllers/Api/Driver/RideController.php:179-183 | defines a driver cancellation: the reason, cancelled by the driver, status cancelled, time now |
| DriverRides.DriverCancelCount | Initial_Release_READONLY/Files/Laravel/core/app/Http/Controllers/Api/Driver/RideController.php:167-169 | defines the count of the driver's rides cancelled by the driver |
| DriverRides.FinalAmount | Initial_Release_READONLY/Files/Laravel/core/app/Http/Controllers/Api/Driver/RideController.php:291 | defines the receipt amount: amount plus tips minus discount |
| DriverRides.DriverDesk.constructor | Initial_Release_READONLY/Files/Laravel/core/app/Http/Controllers/Api/Driver/RideController.php:44 | the desk holds the driver, the balance and the rides |
| DriverRides.DriverDesk.Start | Initial_Release_READONLY/Files/Laravel/core/app/Http/Controllers/Api/Driver/RideController.php:33-89 | the OTP must be six digits, the ride the driver's and active, no other ride running, and the OTP equal. In that order of errors; on success only that ride starts, with its commission |
| DriverRides.DriverDesk.End | Initial_Release_READONLY/Files/Laravel/core/app/Http/Controllers/Api/Driver/RideController.php:91-135 | only the driver's running ride ends; nothing else changes |
| DriverRides.DriverDesk.Cancel | Initial_Release_READONLY/Files/Laravel/core/app/Http/Controllers/Api/Driver/RideController.php:147-208 | a non-blank reason (not empty once PHP-trimmed) and the driver's active or running ride are required. The penalty is deducted exactly when the earlier driver cancellations reach the limit; the ride is cancelled by the driver and the count rises by one |
| DriverRides.DriverDesk.ReceivedCashPayment | Initial_Release_READONLY/Files/Laravel/core/app/Http/Controllers/Api/Driver/RideController.php:246-261 | accepted exactly when the driver's ride has ended and is waiting for a cash payment |
| DriverRides.DriverDesk.Receipt | Initial_Release_READONLY/Files/Laravel/core/app/Http/Controllers/Api/Driver/RideController.php:277-291 | a receipt needs the driver's completed ride, and its amount is amount plus tips minus discount |
| Usernames.Decimal | app/Http/Controllers/Api/User/Auth/LoginController.php:83 | a counter is written with at least one digit, two from 10 on, and only digits |
| Usernames.DecimalInjective | app/Http/Controllers/Api/User/Auth/LoginController.php:83 | different counters are written differently |
| Usernames.CandidateInjective | app/Http/Controllers/Api/User/Auth/LoginController.php:80-85 | different counters give different usernames, so the loop never tries a name twice |
| Usernames.TriedBelowSize | app/Http/Controllers/Api/User/Auth/LoginController.php:80-85 | the first n names tried are n different names |
| Usernames.FirstFreeUnique | app/Http/Controllers/Api/User/Auth/LoginController.php:80-85 | at most one name is the first free one, so the loop's result is determined |
| Usernames.UniqueUsername | app/Http/Controllers/Api/User/Auth/LoginController.php:80-86 | the loop ends with the first free name tried: the base when free, else the base followed by some counter of at least 1 |
| Usernames.BeforeAt | app/Http/Controllers/Api/User/Auth/LoginController.php:75 | the base is the prefix of the email up to its first `@` (all of it when there is none) and contains no `@` |
| Usernames.LowerIsIdempotent | app/Http/Controllers/Api/User/Auth/LoginController.php:71 | lower-casing keeps the length, leaves no capital and is idempotent |
| Usernames.Taken | app/Http/Controllers/Api/User/Auth/LoginController.php:82 | the names the loop avoids are exactly the usernames of all rows, deleted ones included |
| Usernames.FindLive | app/Http/Controllers/Api/User/Auth/LoginController.php:64-66 | the lookup finds a live row whose login field equals the value, and finds none exactly when there is no such row |
| Usernames.FreshUsernameKeepsDistinct | app/Http/Controllers/Api/User/Auth/LoginController.php:80-110 | appending an account with the loop's username keeps all usernames distinct |
| Usernames.Candidate | app/Http/Controllers/Api/User/Auth/LoginController.php:80-85 | defines the name tried after `counter` taken ones: the base, then the base followed by 1, 2, … |
| Usernames.EmailAccount | app/Http/Controllers/Api/User/Auth/LoginController.php:71-86 | defines a new email account: the lower-cased email, the loop's username, the part before `@` as first name, `User` as last name |
| Usernames.UsernameAccount | app/Http/Controllers/Api/User/Auth/LoginController.php:87-100 | defines a new username account: `<login>@example.com`, the loop's username, the login as first name, `User` as last name |
| Usernames.UserTable.constructor | app/Http/Controllers/Api/User/Auth/LoginController.php:64 | an empty table has distinct usernames |
| Usernames.UserTable.Login | app/Http/Controllers/Api/User/Auth/LoginController.php:52-127 | refuses a blank login value or password. Otherwise logs in with the live row whose login field matches. Otherwise appends exactly one new account: its username is the first free one for the base (the part before `@`, or the whole login) and its fields are the defaults. Usernames stay distinct |
| Usernames.UserTable.DevLogin | app/Http/Controllers/Api/User/Auth/LoginController.php:229-281 | a blank or non-email value is refused. Otherwise it logs in with the live row of that email or appends one new account named after the part before `@`; usernames stay distinct |
| Drops.Negatives | abc/w.py:10 | the kept values are the negative entries of the row, each as many times as the row holds it, and nothing else |
| Drops.MinIsLeast | abc/w.py:16-17 | `min` is an entry and no entry is smaller |
| Drops.SumAtMostMin | abc/w.py:8-17 | a non-empty run of drops sums to something negative and no greater than its worst drop |
| Drops.NoDrops | abc/w.py:8-17 | a row without negative entries scores 0.0 on both measures |
| Drops.SumOfDropsNonPositive | abc/w.py:8-11 | the sum of drops is never positive |
| Drops.MaxDropIsWorst | abc/w.py:14-17 | with a drop present, the max drop is the rounded smallest negative entry, and no rounded drop is below it |
| Drops.SumOfDropsAtMostMaxDrop | abc/w.py:8-17 | the sum of drops is never above the max drop |
| Drops.SumOfDrops | abc/w.py:8-11 | defines `sum_of_drops`: the negative entries summed and rounded to one place, 0.0 when there are none |
| Drops.MaxDrop | abc/w.py:14-17 | defines `max_drop`: the smallest negative entry rounded to one place, 0.0 when there are none |

## Left out

- Haversine trigonometry: it is floating point and becomes the `Geo.Distance` parameter, constrained only by `Geo.ValidMetric` (0 to 20016 km).
- The Google Maps calls: the distance matrix is the `Geo.MapService` parameter, and the directions-with-waypoints call, which only decorates the response, is left out.
- Floating point: every rounding and fare is computed on exact reals, so results can differ from PHP's or Python's doubles in the last bit. Where a value lies at a rounding tie, that last-bit difference can move the result of `round(…, 1)` by a whole 0.1 and of `round(…, 2)` by a whole 0.01.
- Clock: `now()` and Carbon dates are integer seconds passed in as `now`. The date formatting and the readable time strings are left out.
- Events, push notifications and e-mails: `event`, `notify` and their texts are left out; they change no state the model keeps.
- File storage: the screenshot upload is an `Option<string>` parameter, `None` when the upload fails.
- Payments: `RidePaymentManager` is not part of this model. This covers both the payment on cash receipt and the shuttle drop-off payments.
- Driver zone: for an inter-city ride the driver's `end` also moves the driver to the first active zone containing the coordinates sent; zones and the point-in-zone test are not part of this model. The ride's duration text set by `end` is left out too.
- The receipt PDF: only the amount it prints is modelled.
- Rating aggregation: the reviewed user's average and count after a review are left out.
- Concurrency: two riders joining at once, or two logins creating the same username at once, are not modelled. Each handler runs alone on the record.
- Validation rules beyond the ones the handlers branch on are preconditions of the request and are not modelled. These are the existence of ids in the database, numeric and date formats, and the image type. `FILTER_VALIDATE_EMAIL` is abstracted as the `isEmail` flag, and a user id is a positive integer, so it is truthy.
- Database collation: lookups compare strings exactly. MySQL's case-insensitive comparison is not modelled.
- The other shared-ride endpoints (`activeSharedRide`, the pending and confirmed lists, `updateLiveLocation`) only read records or broadcast; they are not part of this model.
- The pandas driver `main` of the stability script, which reads and writes CSV files, is left out; only the two per-row measures are modelled.
- Usernames.UserTable.Login: the random password hash and the verification flags of the new account are not modelled, and the validation that requires a login value and a password is modelled as the `Validation.Blank` check (empty once PHP-trimmed).
