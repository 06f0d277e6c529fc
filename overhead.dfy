/**
 * `calculateOverhead`: given a posted ride (Rider 1) and a requested trip
 * (Rider 2), evaluate the four pooled orders, keep the one with the shortest
 * total duration, and report each rider's detour and fare.
 */
module Overhead {
  import opened Wrappers
  import opened Rounding
  import opened Geo
  import opened Rides
  import opened Sequencing

  /** What the evaluation of one order records (fares before the base fare). */
  datatype Evaluation = Evaluation(
    sequence: seq<Waypoint>,
    r1Overhead: real,
    r2Overhead: real,
    totalOverhead: real,
    r1Shared: real,
    r2Shared: real,
    r1Fare: real,
    r2Fare: real)

  /**
   * A match as returned to the requester: the chosen order, the detours in
   * minutes, the solo and in-pool durations in seconds, the pooled and solo
   * fares, and (filled in by the matchers) the estimated pickup time of
   * Rider 2 and the ride's scheduled time.
   */
  datatype Match = Match(
    rideId: int,
    sequence: seq<Waypoint>,
    r1Overhead: real,
    r2Overhead: real,
    totalOverhead: real,
    r1Solo: real,
    r2Solo: int,
    r1Shared: real,
    r2Shared: real,
    r1Fare: real,
    r2Fare: real,
    r1SoloFare: real,
    r2SoloFare: real,
    estimatedPickup: Option<int>,
    rideScheduledTime: Option<int>)

  /** Rider 1's solo duration in seconds: the stored minutes times 60. */
  function SoloSeconds(ride: Ride): real
  {
    ride.durationMin * 60.0
  }

  /** The points of the pooled trip: the ride's own pickup and destination, then the requester's. */
  function TripOf(ride: Ride, start2: Point, end2: Point): Trip
  {
    Trip(ride.pickup, ride.destination, start2, end2)
  }

  /** How long rider `r` is in the car under order `o`: from its pickup to its drop-off. */
  function InRide(dist: Distance, t: Trip, o: seq<Waypoint>, r: Rider): real
    requires o in Orders
  {
    PickupPrecedesDropoff(o, r);
    SubDuration(dist, t, o, Position(o, Pickup(r)), Position(o, Dropoff(r)))
  }

  /** The record kept for an order: detours rounded to 0.1 minute, costs rounded to cents. */
  function Record(o: seq<Waypoint>, r1Shared: real, r2Shared: real, r1Solo: real, r2Solo: real, r1Cost: real, r2Cost: real): Evaluation
  {
    var overhead1 := r1Shared - r1Solo;
    var overhead2 := r2Shared - r2Solo;
    Evaluation(
      o,
      PhpRound(overhead1 / 60.0, 1),
      PhpRound(overhead2 / 60.0, 1),
      PhpRound((overhead1 + overhead2) / 60.0, 1),
      r1Shared,
      r2Shared,
      PhpRound(r1Cost, 2),
      PhpRound(r2Cost, 2))
  }

  /** The record kept for order `o` of trip `t`. */
  function Evaluate(dist: Distance, ride: Ride, solo2: Estimate, t: Trip, o: seq<Waypoint>): Evaluation
    requires o in Orders
  {
    Record(
      o, InRide(dist, t, o, One), InRide(dist, t, o, Two), SoloSeconds(ride), solo2.durationSec as real,
      CostUpTo(dist, t, o, One, 3), CostUpTo(dist, t, o, Two, 3))
  }

  /** The solo fare of a trip: the base fare plus 2.00 per km, rounded to cents. */
  function SoloFare(distanceKm: real): real
  {
    PhpRound(BaseFare + distanceKm * PricePerKm, 2)
  }

  /** The chosen evaluation with the base fare added to each pooled fare and the solo fares attached. */
  function Finish(ride: Ride, solo2: Estimate, e: Evaluation): Match
  {
    Match(
      ride.id, e.sequence, e.r1Overhead, e.r2Overhead, e.totalOverhead,
      SoloSeconds(ride), solo2.durationSec, e.r1Shared, e.r2Shared,
      e.r1Fare + BaseFare, e.r2Fare + BaseFare,
      SoloFare(ride.distanceKm), SoloFare(solo2.distanceKm),
      None, None)
  }

  /**
   * The result of `calculateOverhead`: nothing when the map service gives no
   * solo estimate for Rider 2, otherwise the match built from the first order
   * of least total duration.
   */
  function OverheadFor(dist: Distance, maps: MapService, ride: Ride, start2: Point, end2: Point): Option<Match>
    requires ValidMetric(dist)
  {
    match maps(start2, end2)
    case None => None
    case Some(solo2) =>
      var t := TripOf(ride, start2, end2);
      BestOrderChosen(dist, t);
      var k := BestOrder(dist, t).value;
      Some(Finish(ride, solo2, Evaluate(dist, ride, solo2, t, Orders[k])))
  }

  // ---------------------------------------------------------------------------
  // The imperative computation

  /** `getSubSequenceDuration`: the sum of the segment durations from waypoint `lo` to waypoint `hi`. */
  method SubSequenceDuration(dist: Distance, t: Trip, o: seq<Waypoint>, lo: nat, hi: nat) returns (dur: real)
    requires lo < |o| && hi < |o|
    ensures dur == SubDuration(dist, t, o, lo, hi)
  {
    dur := 0.0;
    var i := lo;
    while i < hi
      invariant lo <= i && (i <= hi || i == lo)
      invariant dur == SubDuration(dist, t, o, lo, i)
    {
      dur := dur + SegmentDuration(dist, Coord(t, o[i]), Coord(t, o[i + 1]));
      i := i + 1;
    }
  }

  /**
   * The segment loop of `calculateOverhead` for one order: before each
   * segment the waypoint it leaves updates the riders in the car, then the
   * segment's price is split evenly among them and its duration is added to
   * the total.
   */
  method WalkSegments(dist: Distance, t: Trip, o: seq<Waypoint>) returns (r1Cost: real, r2Cost: real, totalSeqDuration: real)
    requires |o| == 4
    ensures r1Cost == CostUpTo(dist, t, o, One, 3)
    ensures r2Cost == CostUpTo(dist, t, o, Two, 3)
    ensures totalSeqDuration == TotalDuration(dist, t, o)
  {
    var active: set<Rider> := {};
    r1Cost, r2Cost, totalSeqDuration := 0.0, 0.0, 0.0;
    for i := 0 to 3
      invariant active == OccupancyAfter(o, i)
      invariant r1Cost == CostUpTo(dist, t, o, One, i)
      invariant r2Cost == CostUpTo(dist, t, o, Two, i)
      invariant totalSeqDuration == SubDuration(dist, t, o, 0, i)
    {
      active, r1Cost, r2Cost, totalSeqDuration := DriveSegment(dist, t, o, i, active, r1Cost, r2Cost, totalSeqDuration);
    }
  }

  /**
   * One pass of the segment loop: the car takes on or lets off at waypoint
   * `i`, then drives segment `i`, whose duration is added to the total and
   * whose price is shared among the riders aboard.
   */
  method DriveSegment(dist: Distance, t: Trip, o: seq<Waypoint>, i: nat, active: set<Rider>, r1Cost: real, r2Cost: real, totalSeqDuration: real)
    returns (active': set<Rider>, r1': real, r2': real, total': real)
    requires i + 1 < |o|
    requires active == OccupancyAfter(o, i)
    requires r1Cost == CostUpTo(dist, t, o, One, i) && r2Cost == CostUpTo(dist, t, o, Two, i)
    requires totalSeqDuration == SubDuration(dist, t, o, 0, i)
    ensures active' == OccupancyAfter(o, i + 1)
    ensures r1' == CostUpTo(dist, t, o, One, i + 1) && r2' == CostUpTo(dist, t, o, Two, i + 1)
    ensures total' == SubDuration(dist, t, o, 0, i + 1)
  {
    active' := Board(active, o[i]);
    var segDur := SegmentDuration(dist, Coord(t, o[i]), Coord(t, o[i + 1]));
    assert segDur == SegDur(dist, t, o, i);
    var segPrice := segDur / SecondsPerKm * PricePerKm;
    total' := totalSeqDuration + segDur;
    r1', r2' := ChargeSegment(active', segPrice, r1Cost, r2Cost);
  }

  /** One segment's price split evenly among the riders in the car and added to their running costs. */
  method ChargeSegment(active: set<Rider>, segPrice: real, r1Cost: real, r2Cost: real) returns (r1: real, r2: real)
    ensures r1 == r1Cost + ShareOf(One, active, segPrice)
    ensures r2 == r2Cost + ShareOf(Two, active, segPrice)
  {
    r1, r2 := r1Cost, r2Cost;
    var count := |active|;
    if count > 0 {
      var costPerRider := segPrice / count as real;
      if One in active {
        r1 := r1 + costPerRider;
      }
      if Two in active {
        r2 := r2 + costPerRider;
      }
    }
  }

  /**
   * The body of the permutation loop of `calculateOverhead` for one order:
   * its total duration and the record kept should it be the best so far.
   */
  method EvaluateOrder(dist: Distance, ride: Ride, solo2: Estimate, t: Trip, o: seq<Waypoint>)
    returns (e: Evaluation, totalSeqDuration: real)
    requires o in Orders
    ensures e == Evaluate(dist, ride, solo2, t, o)
    ensures totalSeqDuration == TotalDuration(dist, t, o)
  {
    var r1Cost, r2Cost;
    r1Cost, r2Cost, totalSeqDuration := WalkSegments(dist, t, o);
    PickupPrecedesDropoff(o, One);
    PickupPrecedesDropoff(o, Two);
    var r1DurationInRide := SubSequenceDuration(dist, t, o, Position(o, S1), Position(o, E1));
    var r2DurationInRide := SubSequenceDuration(dist, t, o, Position(o, S2), Position(o, E2));
    e := Record(o, r1DurationInRide, r2DurationInRide, SoloSeconds(ride), solo2.durationSec as real, r1Cost, r2Cost);
  }

  /**
   * `calculateOverhead`: evaluates the orders in turn and keeps the one whose
   * total duration beats the running minimum (which starts at `PHP_INT_MAX`);
   * then adds the base fares and the solo fares. Nothing is returned when the
   * map service has no solo estimate for Rider 2.
   */
  method CalculateOverhead(dist: Distance, maps: MapService, ride: Ride, start2: Point, end2: Point)
    returns (result: Option<Match>)
    requires ValidMetric(dist)
    ensures result == OverheadFor(dist, maps, ride, start2, end2)
  {
    var r2SoloEstimate := maps(start2, end2);
    if r2SoloEstimate.None? {
      return None;
    }
    var solo2 := r2SoloEstimate.value;
    var t := TripOf(ride, start2, end2);
    var best := PickShortest(dist, ride, solo2, t);
    result := Some(Finish(ride, solo2, best));
  }

  /**
   * The permutation loop of `calculateOverhead`: evaluates the orders in turn
   * and keeps the evaluation of the first one whose total duration is below
   * the running minimum, which starts at `PHP_INT_MAX`.
   */
  method PickShortest(dist: Distance, ride: Ride, solo2: Estimate, t: Trip) returns (best: Evaluation)
    requires ValidMetric(dist)
    ensures BestOrder(dist, t).Some? && BestOrder(dist, t).value < 4
    ensures best == Evaluate(dist, ride, solo2, t, Orders[BestOrder(dist, t).value])
  {
    var kept: Option<Evaluation> := None;
    var minTotalDuration := PhpIntMax;
    ghost var bestIdx: Option<nat> := None;
    for k := 0 to 4
      invariant Kept(dist, ride, solo2, t, k, kept, minTotalDuration, bestIdx)
    {
      kept, minTotalDuration, bestIdx := ConsiderOrder(dist, ride, solo2, t, k, kept, minTotalDuration, bestIdx);
    }
    BestOrderChosen(dist, t);
    best := kept.value;
  }

  /**
   * What the permutation loop knows after the first `k` orders: the ghost
   * index `bestIdx` is the one the strict-less-than scan keeps, the running
   * minimum is its total, and `kept` is its evaluation.
   */
  ghost predicate Kept(dist: Distance, ride: Ride, solo2: Estimate, t: Trip, k: nat,
                       kept: Option<Evaluation>, minTotalDuration: real, bestIdx: Option<nat>)
    requires k <= 4
  {
    && bestIdx == Scan(Totals(dist, t), k)
    && minTotalDuration == MinSoFar(Totals(dist, t), bestIdx)
    && (bestIdx.None? ==> kept.None?)
    && (bestIdx.Some? ==> bestIdx.value < 4 && kept == Some(Evaluate(dist, ride, solo2, t, Orders[bestIdx.value])))
  }

  /** One pass of the permutation loop: order `k` replaces the kept one when its total is strictly smaller. */
  method ConsiderOrder(dist: Distance, ride: Ride, solo2: Estimate, t: Trip, k: nat,
                       kept: Option<Evaluation>, minTotalDuration: real, ghost bestIdx: Option<nat>)
    returns (kept': Option<Evaluation>, min': real, ghost bestIdx': Option<nat>)
    requires k < 4
    requires Kept(dist, ride, solo2, t, k, kept, minTotalDuration, bestIdx)
    ensures Kept(dist, ride, solo2, t, k + 1, kept', min', bestIdx')
  {
    var e, totalSeqDuration := EvaluateOrder(dist, ride, solo2, t, Orders[k]);
    assert totalSeqDuration == Totals(dist, t)[k];
    kept', min', bestIdx' := kept, minTotalDuration, bestIdx;
    if totalSeqDuration < minTotalDuration {
      min' := totalSeqDuration;
      kept' := Some(e);
      bestIdx' := Some(k);
    }
  }

  // ---------------------------------------------------------------------------
  // What the result promises

  /** No match exactly when the map service gives no solo estimate for Rider 2. */
  lemma NoMatchIffNoEstimate(dist: Distance, maps: MapService, ride: Ride, start2: Point, end2: Point)
    requires ValidMetric(dist)
    ensures OverheadFor(dist, maps, ride, start2, end2).None? <==> maps(start2, end2).None?
  {
  }

  /** The reported order is one of the four listed orders. */
  lemma MatchOrderIsListed(dist: Distance, maps: MapService, ride: Ride, start2: Point, end2: Point)
    requires ValidMetric(dist)
    ensures OverheadFor(dist, maps, ride, start2, end2).Some? ==>
              OverheadFor(dist, maps, ride, start2, end2).value.sequence in Orders
  {
    if maps(start2, end2).Some? {
      BestOrderChosen(dist, TripOf(ride, start2, end2));
    }
  }

  /**
   * The reported order is a pooled order of the least total duration among
   * the four, and no earlier order in the list is as short.
   */
  lemma MatchHasShortestOrder(dist: Distance, maps: MapService, ride: Ride, start2: Point, end2: Point)
    requires ValidMetric(dist)
    requires OverheadFor(dist, maps, ride, start2, end2).Some?
    ensures var m := OverheadFor(dist, maps, ride, start2, end2).value;
            && PooledOrder(m.sequence) && m.sequence in Orders
            && FirstShortest(dist, TripOf(ride, start2, end2), m.sequence)
  {
    var t := TripOf(ride, start2, end2);
    BestOrderIsFirstMinimum(dist, t);
    var k := BestOrder(dist, t).value;
    var m := OverheadFor(dist, maps, ride, start2, end2).value;
    assert m.sequence == Orders[k];
    ListedOrderIsPooled(m.sequence);
    forall j | 0 <= j < 4 && Orders[j] == m.sequence
      ensures j == k
    {
      OrdersDistinct(j, k);
    }
  }

  /**
   * The detours are the in-pool durations minus the solo durations, in
   * minutes, each to within the 0.05 of rounding to one decimal.
   */
  lemma OverheadsAreDetours(dist: Distance, maps: MapService, ride: Ride, start2: Point, end2: Point)
    requires ValidMetric(dist)
    requires OverheadFor(dist, maps, ride, start2, end2).Some?
    ensures var m := OverheadFor(dist, maps, ride, start2, end2).value;
            && -0.05 <= m.r1Overhead - (m.r1Shared - m.r1Solo) / 60.0 <= 0.05
            && -0.05 <= m.r2Overhead - (m.r2Shared - m.r2Solo as real) / 60.0 <= 0.05
            && -0.05 <= m.totalOverhead - ((m.r1Shared - m.r1Solo) + (m.r2Shared - m.r2Solo as real)) / 60.0 <= 0.05
  {
    var m := OverheadFor(dist, maps, ride, start2, end2).value;
    var o1 := m.r1Shared - m.r1Solo;
    var o2 := m.r2Shared - m.r2Solo as real;
    PhpRoundError(o1 / 60.0, 1);
    PhpRoundError(o2 / 60.0, 1);
    PhpRoundError((o1 + o2) / 60.0, 1);
  }

  /** Each rider's time in the car is non-negative and at most the length of the whole pooled route. */
  lemma InRideWithinRoute(dist: Distance, maps: MapService, ride: Ride, start2: Point, end2: Point)
    requires ValidMetric(dist)
    requires OverheadFor(dist, maps, ride, start2, end2).Some?
    ensures var m := OverheadFor(dist, maps, ride, start2, end2).value;
            var t := TripOf(ride, start2, end2);
            && 0.0 <= m.r1Shared <= TotalDuration(dist, t, m.sequence)
            && 0.0 <= m.r2Shared <= TotalDuration(dist, t, m.sequence)
  {
    var t := TripOf(ride, start2, end2);
    BestOrderChosen(dist, t);
    var o := Orders[BestOrder(dist, t).value];
    PickupPrecedesDropoff(o, One);
    PickupPrecedesDropoff(o, Two);
    SubDurationWithinTotal(dist, t, o, Position(o, S1), Position(o, E1));
    SubDurationWithinTotal(dist, t, o, Position(o, S2), Position(o, E2));
  }

  /**
   * The pooled fares are at least the base fare each, and together they are
   * two base fares plus the price of the whole pooled route, to within the
   * cent of rounding each fare.
   */
  lemma PooledFaresCoverRoute(dist: Distance, maps: MapService, ride: Ride, start2: Point, end2: Point)
    requires ValidMetric(dist)
    requires OverheadFor(dist, maps, ride, start2, end2).Some?
    ensures var m := OverheadFor(dist, maps, ride, start2, end2).value;
            var routePrice := SegmentPrice(TotalDuration(dist, TripOf(ride, start2, end2), m.sequence));
            && m.r1Fare >= BaseFare && m.r2Fare >= BaseFare
            && -0.01 <= m.r1Fare + m.r2Fare - (2.0 * BaseFare + routePrice) <= 0.01
  {
    var t := TripOf(ride, start2, end2);
    BestOrderChosen(dist, t);
    var o := Orders[BestOrder(dist, t).value];
    var c1, c2 := CostUpTo(dist, t, o, One, 3), CostUpTo(dist, t, o, Two, 3);
    CostConservation(dist, t, o);
    CostNonNegative(dist, t, o, One, 3);
    CostNonNegative(dist, t, o, Two, 3);
    PhpRoundNonNegative(c1, 2);
    PhpRoundNonNegative(c2, 2);
    PhpRoundError(c1, 2);
    PhpRoundError(c2, 2);
  }

  /** Each pooled fare is at least the base fare. */
  lemma PooledFaresAtLeastBase(dist: Distance, maps: MapService, ride: Ride, start2: Point, end2: Point)
    requires ValidMetric(dist)
    ensures var m := OverheadFor(dist, maps, ride, start2, end2);
            m.Some? ==> m.value.r1Fare >= BaseFare && m.value.r2Fare >= BaseFare
  {
    if maps(start2, end2).Some? {
      var t := TripOf(ride, start2, end2);
      BestOrderChosen(dist, t);
      var o := Orders[BestOrder(dist, t).value];
      CostNonNegative(dist, t, o, One, 3);
      CostNonNegative(dist, t, o, Two, 3);
      PhpRoundNonNegative(CostUpTo(dist, t, o, One, 3), 2);
      PhpRoundNonNegative(CostUpTo(dist, t, o, Two, 3), 2);
    }
  }

  /** The solo fares are the base fare plus 2.00 per km of each rider's solo distance, to the cent. */
  lemma SoloFaresArePerKm(dist: Distance, maps: MapService, ride: Ride, start2: Point, end2: Point)
    requires ValidMetric(dist)
    requires maps(start2, end2).Some?
    ensures var m := OverheadFor(dist, maps, ride, start2, end2).value;
            && -0.005 <= m.r1SoloFare - (BaseFare + PricePerKm * ride.distanceKm) <= 0.005
            && -0.005 <= m.r2SoloFare - (BaseFare + PricePerKm * maps(start2, end2).value.distanceKm) <= 0.005
  {
    var t := TripOf(ride, start2, end2);
    var solo2 := maps(start2, end2).value;
    BestOrderChosen(dist, t);
    var k := BestOrder(dist, t).value;
    assert OverheadFor(dist, maps, ride, start2, end2) == Some(Finish(ride, solo2, Evaluate(dist, ride, solo2, t, Orders[k])));
    PhpRoundError(BaseFare + ride.distanceKm * PricePerKm, 2);
    PhpRoundError(BaseFare + maps(start2, end2).value.distanceKm * PricePerKm, 2);
  }
}
