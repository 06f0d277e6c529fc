/**
 * The shared-ride record after it is posted: a second rider joins, the two
 * riders move it through pickup, fare upload, arrival and the end of the
 * ride, and each may review the other once.
 */
module SharedSession {
  import opened Wrappers
  import opened Rounding
  import opened Geo
  import opened Rides
  import opened Sequencing
  import opened Overhead
  import opened Validation

  /** The outcome of a request: success, or the error the handler answers with. */
  datatype Outcome =
    | Ok
    | InvalidInput       // a request field fails validation
    | NotFound           // no such shared ride with the caller as a rider
    | RideFull           // a second rider has already joined
    | OwnRide            // the owner tried to join their own ride
    | Unauthorized       // the caller is neither rider
    | OnlyRiderOne       // the action is Rider 1's
    | OnlyRiderTwo       // the action is Rider 2's
    | InvalidSequence    // no stored order, or one too short
    | NotFirstPickup     // only the rider picked up first uploads the fare
    | UploadFailed       // the screenshot could not be stored
    | NotRunning         // the ride is not running
    | NotLastDropoff     // only the rider dropped off last ends the ride
    | NotFirstDropoff    // only the rider dropped off first marks arrival
    | NoOtherUser        // nobody to review yet
    | AlreadyReviewed    // the caller has already reviewed the other rider on this ride

  /** The actions of `updateRideStatus`. */
  datatype Action = StartDriving | ArrivedAtPickup | ConfirmPickup | EndRide

  /** A review of one rider by the other. */
  datatype Review = Review(reviewer: int, reviewed: int, rating: int, text: string)

  /** What the fare split is based on. */
  datatype FareBasis =
    | SoloBasis                              // no second rider with stored coordinates: Rider 1 pays all
    | EvenBasis                              // the overhead could not be recalculated: half each
    | RatioBasis(r1Fare: real, r2Fare: real) // the recalculated pooled fares give the ratio

  /** The fields of the record that the handlers change. */
  datatype SessionState = SessionState(
    status: RideStatus,
    secondUserId: Option<int>,
    secondTrip: Option<(Point, Point)>,
    sequence: Option<seq<Waypoint>>,
    fareScreenshot: Option<string>,
    fareAmount: Option<real>,
    rider1Fare: Option<real>,
    rider2Fare: Option<real>,
    endTime: Option<int>,
    reviews: seq<Review>)

  // ---------------------------------------------------------------------------
  // The role gates and the fare split

  /** Only the rider picked up first may upload the fare. */
  predicate MayUpload(o: seq<Waypoint>, isRiderOne: bool)
    requires |o| >= 1
  {
    (o[0] == S1 && isRiderOne) || (o[0] == S2 && !isRiderOne)
  }

  /** Only the rider dropped off last may end the ride. */
  predicate MayEnd(o: seq<Waypoint>, isRiderOne: bool)
    requires |o| >= 4
  {
    (o[3] == E1 && isRiderOne) || (o[3] == E2 && !isRiderOne)
  }

  /** The first drop-off code of a stored order, if any. */
  function FirstDropoff(o: seq<Waypoint>): (w: Option<Waypoint>)
    ensures w.Some? ==> w.value in o && w.value.Dropoff?
    ensures w.None? <==> forall i :: 0 <= i < |o| ==> !o[i].Dropoff?
  {
    if |o| == 0 then None
    else if o[0].Dropoff? then Some(o[0])
    else FirstDropoff(o[1..])
  }

  /** The loop of `markArrived` that looks for the first drop-off code of the stored order. */
  method FindFirstDropoff(o: seq<Waypoint>) returns (firstDropoff: Option<Waypoint>)
    ensures firstDropoff == FirstDropoff(o)
  {
    firstDropoff := None;
    var i := 0;
    while i < |o|
      invariant 0 <= i <= |o|
      invariant firstDropoff.None? ==> FirstDropoff(o) == FirstDropoff(o[i..])
      invariant firstDropoff.Some? ==> firstDropoff == FirstDropoff(o)
      decreases if firstDropoff.None? then |o| - i else 0
    {
      if o[i] == E1 || o[i] == E2 {
        firstDropoff := Some(o[i]);
        break;
      }
      RiderCases(o[i].rider);
      assert o[i..][1..] == o[i + 1..];
      i := i + 1;
    }
  }

  /** Only the rider dropped off first may mark arrival. */
  predicate MayMarkArrived(firstDropoff: Waypoint, isRiderOne: bool)
  {
    (firstDropoff == E1 && isRiderOne) || (firstDropoff == E2 && !isRiderOne)
  }

  /**
   * For every pooled order each gate admits exactly one of the two riders:
   * the one picked up first uploads the fare, the one dropped off first marks
   * arrival, and the other one (dropped off last) ends the ride.
   */
  lemma GatesAdmitOneRider(o: seq<Waypoint>, isRiderOne: bool)
    requires o in Orders
    ensures MayUpload(o, isRiderOne) <==> (o[0].rider == One) == isRiderOne
    ensures FirstDropoff(o) == Some(o[2])
    ensures MayMarkArrived(o[2], isRiderOne) <==> (o[2].rider == One) == isRiderOne
    ensures MayEnd(o, isRiderOne) <==> !MayMarkArrived(o[2], isRiderOne)
  {
    assert !o[0].Dropoff? && !o[1].Dropoff? && o[2].Dropoff?;
    assert FirstDropoff(o) == FirstDropoff(o[1..]);
    assert o[1..][1..] == o[2..];
    assert FirstDropoff(o[1..]) == FirstDropoff(o[2..]);
    assert o[2..][0] == o[2];
  }

  /**
   * The fares of the two riders from the amount on the screenshot: all of it
   * to Rider 1 without a second rider's trip, half each when the overhead
   * cannot be recalculated, otherwise in the ratio of the pooled fares; each
   * share is rounded to cents.
   */
  function FareSplit(total: real, basis: FareBasis): (real, real)
    requires basis.RatioBasis? ==> basis.r1Fare + basis.r2Fare > 0.0
  {
    match basis
    case SoloBasis => (total, 0.0)
    case EvenBasis => (PhpRound(total / 2.0, 2), PhpRound(total / 2.0, 2))
    case RatioBasis(f1, f2) =>
      (RatioShare(total, f1, f1 + f2), RatioShare(total, f2, f1 + f2))
  }

  /** The share of `total` in the ratio `part / sum`, rounded to cents. */
  function RatioShare(total: real, part: real, sum: real): real
    requires sum > 0.0
  {
    PhpRound(total * (part / sum), 2)
  }

  /** The ratio branch of the fare split: each rider's share of the ratio, applied to the amount. */
  method SplitByRatio(total: real, f1: real, f2: real) returns (r1: real, r2: real)
    requires f1 + f2 > 0.0
    ensures (r1, r2) == FareSplit(total, RatioBasis(f1, f2))
  {
    var sum := f1 + f2;
    r1 := RatioShare(total, f1, sum);
    r2 := RatioShare(total, f2, sum);
  }

  /** Shares in the ratio of two non-negative fares add up to the whole. */
  lemma RatioSharesAddUp(total: real, f1: real, f2: real)
    requires total >= 0.0 && f1 >= 0.0 && f2 >= 0.0 && f1 + f2 > 0.0
    ensures total * (f1 / (f1 + f2)) >= 0.0 && total * (f2 / (f1 + f2)) >= 0.0
    ensures total * (f1 / (f1 + f2)) + total * (f2 / (f1 + f2)) == total
  {
    var p, q := f1 / (f1 + f2), f2 / (f1 + f2);
    assert p + q == (f1 + f2) / (f1 + f2);
    assert p + q == 1.0;
    QuotientNonNegative(f1, f1 + f2);
    QuotientNonNegative(f2, f1 + f2);
    assert total * p + total * q == total * (p + q);
  }

  lemma QuotientNonNegative(x: real, y: real)
    requires x >= 0.0 && y > 0.0
    ensures x / y >= 0.0
  {
    assert (x / y) * y == x;
  }

  /** Half each, rounded to cents, adds up to the whole to within a cent. */
  lemma EvenSplitReconciles(total: real)
    requires total >= 0.0
    ensures PhpRound(total / 2.0, 2) >= 0.0
    ensures -0.01 <= PhpRound(total / 2.0, 2) + PhpRound(total / 2.0, 2) - total <= 0.01
  {
    PhpRoundError(total / 2.0, 2);
    PhpRoundNonNegative(total / 2.0, 2);
  }

  /** Shares in the ratio of the pooled fares, rounded to cents, add up to the whole to within a cent. */
  lemma RatioSplitReconciles(total: real, f1: real, f2: real)
    requires total >= 0.0 && f1 >= 0.0 && f2 >= 0.0 && f1 + f2 > 0.0
    ensures RatioShare(total, f1, f1 + f2) >= 0.0 && RatioShare(total, f2, f1 + f2) >= 0.0
    ensures -0.01 <= RatioShare(total, f1, f1 + f2) + RatioShare(total, f2, f1 + f2) - total <= 0.01
    ensures -0.005 <= RatioShare(total, f1, f1 + f2) - total * (f1 / (f1 + f2)) <= 0.005
  {
    var a, b := total * (f1 / (f1 + f2)), total * (f2 / (f1 + f2));
    RatioSharesAddUp(total, f1, f2);
    PhpRoundError(a, 2);
    PhpRoundError(b, 2);
    PhpRoundNonNegative(a, 2);
    PhpRoundNonNegative(b, 2);
  }

  /**
   * The split reconciles with the amount on the screenshot to within a cent
   * and no share is negative.
   */
  lemma FareSplitReconciles(total: real, basis: FareBasis)
    requires total >= 0.0
    requires basis.RatioBasis? ==> basis.r1Fare >= 0.0 && basis.r2Fare >= 0.0 && basis.r1Fare + basis.r2Fare > 0.0
    ensures FareSplit(total, basis).0 >= 0.0 && FareSplit(total, basis).1 >= 0.0
    ensures -0.01 <= FareSplit(total, basis).0 + FareSplit(total, basis).1 - total <= 0.01
  {
    match basis
    case SoloBasis =>
      assert FareSplit(total, basis) == (total, 0.0);
    case EvenBasis =>
      var half := PhpRound(total / 2.0, 2);
      EvenSplitReconciles(total);
      assert FareSplit(total, basis) == (half, half);
    case RatioBasis(f1, f2) =>
      var r1, r2 := RatioShare(total, f1, f1 + f2), RatioShare(total, f2, f1 + f2);
      RatioSplitReconciles(total, f1, f2);
      assert FareSplit(total, basis) == (r1, r2);
  }

  /**
   * Rider 1 pays everything when riding alone, and under the ratio split
   * Rider 1's share follows the pooled fares to within half a cent.
   */
  lemma FareSplitFollowsBasis(total: real, basis: FareBasis)
    requires total >= 0.0
    requires basis.RatioBasis? ==> basis.r1Fare >= 0.0 && basis.r2Fare >= 0.0 && basis.r1Fare + basis.r2Fare > 0.0
    ensures basis.SoloBasis? ==> FareSplit(total, basis) == (total, 0.0)
    ensures basis.EvenBasis? ==> FareSplit(total, basis).0 == FareSplit(total, basis).1
    ensures basis.RatioBasis? ==>
              -0.005 <= FareSplit(total, basis).0 - total * (basis.r1Fare / (basis.r1Fare + basis.r2Fare)) <= 0.005
  {
    match basis
    case SoloBasis =>
    case EvenBasis =>
    case RatioBasis(f1, f2) =>
      var r1, r2 := RatioShare(total, f1, f1 + f2), RatioShare(total, f2, f1 + f2);
      RatioSplitReconciles(total, f1, f2);
      assert FareSplit(total, basis) == (r1, r2);
  }

  /**
   * The order `joinRide` stores: the one chosen by the overhead computation
   * for the joiner's trip, when the trip is given and the map service has an
   * estimate for it.
   */
  function JoinedOrder(dist: Distance, maps: MapService, ride: Ride, trip: Option<(Point, Point)>): (order: Option<seq<Waypoint>>)
    requires ValidMetric(dist)
    ensures order.Some? ==> trip.Some? && order.value in Orders
  {
    if trip.None? then None
    else
      var pooled := OverheadFor(dist, maps, ride, trip.value.0, trip.value.1);
      MatchOrderIsListed(dist, maps, ride, trip.value.0, trip.value.1);
      if pooled.Some? then Some(pooled.value.sequence) else None
  }

  /** The overhead computation `joinRide` runs for the joiner's trip, reduced to the order it stores. */
  method ChooseOrder(dist: Distance, maps: MapService, ride: Ride, trip: Option<(Point, Point)>) returns (order: Option<seq<Waypoint>>)
    requires ValidMetric(dist)
    ensures order == JoinedOrder(dist, maps, ride, trip)
  {
    order := None;
    if trip.Some? {
      var matchData := CalculateOverhead(dist, maps, ride, trip.value.0, trip.value.1);
      if matchData.Some? {
        order := Some(matchData.value.sequence);
      }
    }
  }

  /** The stored coordinates are all non-zero, which is what makes them count as present. */
  predicate TruthyTrip(trip: (Point, Point))
  {
    trip.0.lat != 0.0 && trip.0.lng != 0.0 && trip.1.lat != 0.0 && trip.1.lng != 0.0
  }

  // ---------------------------------------------------------------------------
  // The record

  class SharedRide {
    const id: int
    const userId: int
    const pickup: Point
    const destination: Point
    const distanceKm: real
    const durationMin: real
    const amount: real
    const scheduledTime: int
    var status: RideStatus
    var secondUserId: Option<int>
    var secondTrip: Option<(Point, Point)>
    var sequence: Option<seq<Waypoint>>
    var fareScreenshot: Option<string>
    var fareAmount: Option<real>
    var rider1Fare: Option<real>
    var rider2Fare: Option<real>
    var endTime: Option<int>
    var reviews: seq<Review>

    /** The changing part of the record, as a value. */
    ghost function State(): SessionState
      reads this
    {
      SessionState(status, secondUserId, secondTrip, sequence, fareScreenshot, fareAmount,
                   rider1Fare, rider2Fare, endTime, reviews)
    }

    /** The record as the matcher and the overhead computation see it. */
    function AsRide(): Ride
      reads this
    {
      Ride(id, userId, status, Shared, secondUserId, pickup, destination, distanceKm, durationMin, Some(scheduledTime))
    }

    /**
     * The owner is never the second rider; an order and the second rider's
     * trip are stored together, only once a second rider has joined, and the
     * order is a pooled one; every review is by one rider of the other, at
     * most one per reviewer.
     */
    ghost predicate Valid()
      reads this
    {
      && secondUserId != Some(userId)
      && (sequence.Some? <==> secondTrip.Some?)
      && (sequence.Some? ==> secondUserId.Some? && sequence.value in Orders)
      && (secondUserId.None? ==> reviews == [])
      && (forall k :: 0 <= k < |reviews| ==> ReviewBetweenRiders(reviews[k]))
      && (forall j, k :: 0 <= j < k < |reviews| ==> reviews[j].reviewer != reviews[k].reviewer)
    }

    /** A review written by one rider about the other. */
    ghost predicate ReviewBetweenRiders(r: Review)
      reads this
    {
      secondUserId.Some?
      && ((r.reviewer == userId && r.reviewed == secondUserId.value)
          || (r.reviewer == secondUserId.value && r.reviewed == userId))
    }

    /** One of the two riders. */
    predicate Participant(caller: int)
      reads this
    {
      caller == userId || secondUserId == Some(caller)
    }

    /**
     * `createSharedRide`, once the map service has given the solo estimate:
     * an active shared ride costing the base fare plus 2.00 per km, scheduled
     * at the requested time when the ride is marked as scheduled and a time is
     * given, and now otherwise.
     */
    constructor (id: int, userId: int, start: Point, end: Point, solo: Estimate,
                 isScheduled: bool, scheduled: Option<int>, now: int)
      ensures Valid()
      ensures this.id == id && this.userId == userId && pickup == start && destination == end
      ensures distanceKm == solo.distanceKm && durationMin == solo.durationSec as real / 60.0
      ensures amount == BaseFare + solo.distanceKm * PricePerKm
      ensures scheduledTime == if isScheduled && scheduled.Some? then scheduled.value else now
      ensures State() == SessionState(Active, None, None, None, None, None, None, None, None, [])
    {
      this.id := id;
      this.userId := userId;
      pickup := start;
      destination := end;
      distanceKm := solo.distanceKm;
      durationMin := solo.durationSec as real / 60.0;
      amount := BaseFare + solo.distanceKm * PricePerKm;
      scheduledTime := if isScheduled && scheduled.Some? then scheduled.value else now;
      status := Active;
      secondUserId := None;
      secondTrip := None;
      sequence := None;
      fareScreenshot := None;
      fareAmount := None;
      rider1Fare := None;
      rider2Fare := None;
      endTime := None;
      reviews := [];
    }

    /**
     * `joinRide`: refused when a second rider is already in or the caller is
     * the owner; otherwise the caller becomes the second rider, and when the
     * caller's trip is given and the overhead can be computed, the trip and
     * the chosen order are stored too.
     */
    method Join(dist: Distance, maps: MapService, joiner: int, trip: Option<(Point, Point)>) returns (outcome: Outcome)
      requires Valid() && ValidMetric(dist)
      modifies this
      ensures Valid()
      ensures old(secondUserId).Some? ==> outcome == RideFull && State() == old(State())
      ensures old(secondUserId).None? && joiner == userId ==> outcome == OwnRide && State() == old(State())
      ensures old(secondUserId).None? && joiner != userId ==>
                && outcome == Ok
                && var order := JoinedOrder(dist, maps, old(AsRide()), trip);
                   State() == old(State()).(
                     secondUserId := Some(joiner),
                     secondTrip := if order.Some? then trip else old(secondTrip),
                     sequence := if order.Some? then order else old(sequence))
    {
      if secondUserId.Some? {
        return RideFull;
      }
      if userId == joiner {
        return OwnRide;
      }
      var order := ChooseOrder(dist, maps, AsRide(), trip);
      Admit(joiner, trip, order);
      outcome := Ok;
    }

    /** The update `joinRide` makes: the second rider, and the trip and order when an order was chosen. */
    method Admit(joiner: int, trip: Option<(Point, Point)>, order: Option<seq<Waypoint>>)
      requires Valid() && secondUserId.None? && joiner != userId
      requires order.Some? ==> trip.Some? && order.value in Orders
      modifies this
      ensures Valid()
      ensures State() == old(State()).(
                secondUserId := Some(joiner),
                secondTrip := if order.Some? then trip else old(secondTrip),
                sequence := if order.Some? then order else old(sequence))
    {
      secondUserId := Some(joiner);
      if order.Some? {
        secondTrip := trip;
        sequence := order;
      }
    }

    /**
     * `updateRideStatus`: only the two riders may act; start-driving and
     * arrived-at-pickup are Rider 1's and change nothing; confirm-pickup is
     * Rider 2's and makes the ride running; end-ride changes nothing.
     */
    method UpdateRideStatus(caller: int, action: Action) returns (outcome: Outcome)
      requires Valid()
      modifies this
      ensures Valid()
      ensures !old(Participant(caller)) ==> outcome == Unauthorized && State() == old(State())
      ensures old(Participant(caller)) ==>
                match action
                case StartDriving | ArrivedAtPickup =>
                  outcome == (if caller == userId then Ok else OnlyRiderOne) && State() == old(State())
                case ConfirmPickup =>
                  if secondUserId == Some(caller) then outcome == Ok && State() == old(State()).(status := Running)
                  else outcome == OnlyRiderTwo && State() == old(State())
                case EndRide => outcome == Ok && State() == old(State())
    {
      if userId != caller && secondUserId != Some(caller) {
        return Unauthorized;
      }
      match action {
        case StartDriving =>
          if userId != caller {
            return OnlyRiderOne;
          }
        case ArrivedAtPickup =>
          if userId != caller {
            return OnlyRiderOne;
          }
        case ConfirmPickup =>
          if secondUserId != Some(caller) {
            return OnlyRiderTwo;
          }
          status := Running;
        case EndRide =>
      }
      outcome := Ok;
    }

    /**
     * The basis of the fare split: the recalculated pooled fares when a
     * second rider is in and the stored coordinates are present, half each
     * when the recalculation fails, and Rider 1 alone otherwise.
     */
    function SplitBasis(dist: Distance, maps: MapService): (basis: FareBasis)
      reads this
      requires ValidMetric(dist)
      ensures basis.RatioBasis? ==> basis.r1Fare >= BaseFare && basis.r2Fare >= BaseFare
    {
      if secondUserId.Some? && secondTrip.Some? && TruthyTrip(secondTrip.value) then
        var pooled := OverheadFor(dist, maps, AsRide(), secondTrip.value.0, secondTrip.value.1);
        if pooled.Some? then
          PooledFaresAtLeastBase(dist, maps, AsRide(), secondTrip.value.0, secondTrip.value.1);
          RatioBasis(pooled.value.r1Fare, pooled.value.r2Fare)
        else EvenBasis
      else SoloBasis
    }

    /** The fare computation of `uploadFareScreenshot`, which reads the record and changes nothing. */
    method SplitFare(dist: Distance, maps: MapService, total: real) returns (r1: real, r2: real)
      requires ValidMetric(dist)
      ensures (r1, r2) == FareSplit(total, SplitBasis(dist, maps))
    {
      if secondUserId.Some? && secondTrip.Some? && TruthyTrip(secondTrip.value) {
        var matchData := CalculateOverhead(dist, maps, AsRide(), secondTrip.value.0, secondTrip.value.1);
        if matchData.Some? {
          PooledFaresAtLeastBase(dist, maps, AsRide(), secondTrip.value.0, secondTrip.value.1);
          r1, r2 := SplitByRatio(total, matchData.value.r1Fare, matchData.value.r2Fare);
          assert SplitBasis(dist, maps) == RatioBasis(matchData.value.r1Fare, matchData.value.r2Fare);
        } else {
          r1 := PhpRound(total / 2.0, 2);
          r2 := PhpRound(total / 2.0, 2);
          assert SplitBasis(dist, maps) == EvenBasis;
        }
      } else {
        r1 := total;
        r2 := 0.0;
        assert SplitBasis(dist, maps) == SoloBasis;
      }
    }

    /**
     * `uploadFareScreenshot`: the amount must not be negative; only a rider
     * may upload, only with a stored order, and only the rider picked up
     * first; the screenshot must be stored; then the amount and the two
     * riders' fares are recorded.
     */
    method UploadFare(dist: Distance, maps: MapService, caller: int, total: real, stored: Option<string>)
      returns (outcome: Outcome)
      requires Valid() && ValidMetric(dist)
      modifies this
      ensures Valid()
      ensures outcome != Ok ==> State() == old(State())
      ensures outcome == Ok <==>
                && total >= 0.0
                && old(Participant(caller))
                && old(sequence).Some? && |old(sequence).value| >= 2
                && MayUpload(old(sequence).value, caller == userId)
                && stored.Some?
      ensures outcome == Ok ==>
                var split := FareSplit(total, old(SplitBasis(dist, maps)));
                State() == old(State()).(
                  fareScreenshot := stored, fareAmount := Some(total),
                  rider1Fare := Some(split.0), rider2Fare := Some(split.1))
    {
      if total < 0.0 {
        return InvalidInput;
      }
      if !Participant(caller) {
        return NotFound;
      }
      if sequence.None? || |sequence.value| < 2 {
        return InvalidSequence;
      }
      var firstPickup := sequence.value[0];
      var isRiderOne := userId == caller;
      var canUpload := (firstPickup == S1 && isRiderOne) || (firstPickup == S2 && !isRiderOne);
      if !canUpload {
        return NotFirstPickup;
      }
      if stored.None? {
        return UploadFailed;
      }
      var r1, r2 := SplitFare(dist, maps, total);
      RecordFare(stored, total, r1, r2);
      outcome := Ok;
    }

    /** The update `uploadFareScreenshot` makes: the stored screenshot, the amount and the two fares. */
    method RecordFare(stored: Option<string>, total: real, r1: real, r2: real)
      requires Valid()
      modifies this
      ensures Valid()
      ensures State() == old(State()).(
                fareScreenshot := stored, fareAmount := Some(total),
                rider1Fare := Some(r1), rider2Fare := Some(r2))
    {
      fareScreenshot := stored;
      fareAmount := Some(total);
      rider1Fare := Some(r1);
      rider2Fare := Some(r2);
    }

    /**
     * `endSharedRide`: only a rider, only while running, only with a full
     * stored order, and only the rider dropped off last; the ride is then
     * completed at `now`.
     */
    method EndSharedRide(caller: int, now: int) returns (outcome: Outcome)
      requires Valid()
      modifies this
      ensures Valid()
      ensures outcome != Ok ==> State() == old(State())
      ensures outcome == Ok <==>
                && old(Participant(caller))
                && old(status) == Running
                && old(sequence).Some? && |old(sequence).value| >= 4
                && MayEnd(old(sequence).value, caller == userId)
      ensures outcome == Ok ==> State() == old(State()).(status := Completed, endTime := Some(now))
    {
      if !Participant(caller) {
        return NotFound;
      }
      if status != Running {
        return NotRunning;
      }
      if sequence.None? || |sequence.value| < 4 {
        return InvalidSequence;
      }
      var lastDropoff := sequence.value[3];
      var isRiderOne := userId == caller;
      var canEndRide := (lastDropoff == E1 && isRiderOne) || (lastDropoff == E2 && !isRiderOne);
      if !canEndRide {
        return NotLastDropoff;
      }
      status := Completed;
      endTime := Some(now);
      outcome := Ok;
    }

    /**
     * `markArrived`: only a rider, only while running, only with a full
     * stored order that has a drop-off, and only the rider dropped off first.
     * The record does not change (the handler only notifies the other rider).
     */
    method MarkArrived(caller: int) returns (outcome: Outcome)
      requires Valid()
      ensures outcome == Ok <==>
                && Participant(caller)
                && status == Running
                && sequence.Some? && |sequence.value| >= 4
                && FirstDropoff(sequence.value).Some?
                && MayMarkArrived(FirstDropoff(sequence.value).value, caller == userId)
      ensures outcome != Ok ==> outcome in {NotFound, NotRunning, InvalidSequence, NotFirstDropoff}
    {
      if !Participant(caller) {
        return NotFound;
      }
      if status != Running {
        return NotRunning;
      }
      if sequence.None? || |sequence.value| < 4 {
        return InvalidSequence;
      }
      var firstDropoff := FindFirstDropoff(sequence.value);
      if firstDropoff.None? {
        return InvalidSequence;
      }
      var isRiderOne := userId == caller;
      var canMarkArrived := (firstDropoff.value == E1 && isRiderOne) || (firstDropoff.value == E2 && !isRiderOne);
      if !canMarkArrived {
        return NotFirstDropoff;
      }
      outcome := Ok;
    }

    /**
     * `rateOtherUser`: the rating must be 1 to 5 and the review present (not
     * blank) and at most 500 characters; only a rider may rate, only once the other rider exists,
     * and only once per ride; the review is then recorded.
     */
    method RateOtherUser(caller: int, rating: int, text: string) returns (outcome: Outcome)
      requires Valid()
      modifies this
      ensures Valid()
      ensures outcome != Ok ==> State() == old(State())
      ensures outcome == Ok <==>
                && 1 <= rating <= 5 && !Blank(text) && |text| <= 500
                && old(Participant(caller))
                && old(secondUserId).Some?
                && (forall k :: 0 <= k < |old(reviews)| ==> old(reviews)[k].reviewer != caller)
      ensures outcome == Ok ==>
                var other := if caller == userId then old(secondUserId).value else userId;
                State() == old(State()).(reviews := old(reviews) + [Review(caller, other, rating, text)])
    {
      if rating < 1 || rating > 5 || Blank(text) || |text| > 500 {
        return InvalidInput;
      }
      if !Participant(caller) {
        return NotFound;
      }
      var other: Option<int> := if userId == caller then secondUserId else Some(userId);
      if other.None? {
        return NoOtherUser;
      }
      var exists_ := false;
      var k := 0;
      while k < |reviews|
        invariant 0 <= k <= |reviews|
        invariant exists_ <==> exists j :: 0 <= j < k && reviews[j].reviewer == caller && reviews[j].reviewed == other.value
      {
        if reviews[k].reviewer == caller && reviews[k].reviewed == other.value {
          exists_ := true;
        }
        k := k + 1;
      }
      if exists_ {
        return AlreadyReviewed;
      }
      reviews := reviews + [Review(caller, other.value, rating, text)];
      outcome := Ok;
    }
  }

  /**
   * `createSharedRide`: fails when the map service gives no estimate for the
   * trip; otherwise a new active shared ride is posted.
   */
  method CreateSharedRide(maps: MapService, id: int, userId: int, start: Point, end: Point,
                          isScheduled: bool, scheduled: Option<int>, now: int) returns (ride: SharedRide?)
    ensures maps(start, end).None? <==> ride == null
    ensures ride != null ==>
              && fresh(ride) && ride.Valid() && ride.userId == userId
              && ride.State() == SessionState(Active, None, None, None, None, None, None, None, None, [])
              && ride.amount == BaseFare + maps(start, end).value.distanceKm * PricePerKm
  {
    var distanceData := maps(start, end);
    if distanceData.None? {
      return null;
    }
    ride := new SharedRide(id, userId, start, end, distanceData.value, isScheduled, scheduled, now);
  }
}
