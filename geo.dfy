/**
 * Points, the abstract haversine distance, segment durations and the
 * distance-matrix service with its offline fallback.
 */
module Geo {
  import opened Wrappers
  import opened Rounding

  /** A coordinate pair in degrees. */
  datatype Point = Point(lat: real, lng: real)

  /** A distance-matrix answer: distance in km and `duration_value` in seconds. */
  datatype Estimate = Estimate(distanceKm: real, durationSec: int)

  /**
   * The haversine great-circle distance in km (Earth radius 6371 km). Its
   * trigonometry is floating point and is kept abstract: every operation that
   * needs it takes it as a parameter.
   */
  type Distance = (Point, Point) -> real

  /** The distance-matrix call: `None` when the service fails. */
  type MapService = (Point, Point) -> Option<Estimate>

  /** Half the Earth's circumference (pi * 6371 km), rounded up: no haversine distance exceeds it. */
  const MaxHaversineKm: real := 20016.0

  /** The speed model of the sources: 120 seconds per km (30 km/h). */
  const SecondsPerKm: real := 120.0

  /** What every haversine distance satisfies: it is non-negative and at most half a great circle. */
  ghost predicate ValidMetric(dist: Distance)
  {
    forall p: Point, q: Point :: 0.0 <= dist(p, q) <= MaxHaversineKm
  }

  /** `getSegmentDuration`: the travel time in seconds between two points. */
  function SegmentDuration(dist: Distance, p: Point, q: Point): real
  {
    dist(p, q) * SecondsPerKm
  }

  /** Under the haversine bounds a segment lasts between 0 and 120 * 20016 seconds. */
  lemma SegmentDurationBounds(dist: Distance, p: Point, q: Point)
    requires ValidMetric(dist)
    ensures 0.0 <= SegmentDuration(dist, p, q) <= SecondsPerKm * MaxHaversineKm
  {
  }

  /**
   * `getFallbackDistance`: the haversine distance rounded to 2 decimals and the
   * duration at 2 minutes per km, rounded to whole seconds.
   */
  function FallbackEstimate(dist: Distance, p: Point, q: Point): Estimate
  {
    var distance := dist(p, q);
    var durationMinutes := distance * 2.0;
    var durationSeconds := durationMinutes * 60.0;
    Estimate(PhpRound(distance, 2), RoundHalfAway(durationSeconds))
  }

  /**
   * The fallback charges 2 minutes per km: its duration is within half a
   * second of 120 s per haversine km, and within 1.1 s of 120 s per reported
   * (rounded) km.
   */
  lemma FallbackIsTwoMinutesPerKm(dist: Distance, p: Point, q: Point)
    ensures -0.5 <= FallbackEstimate(dist, p, q).durationSec as real - SecondsPerKm * dist(p, q) <= 0.5
    ensures -1.1 <= FallbackEstimate(dist, p, q).durationSec as real
                    - SecondsPerKm * FallbackEstimate(dist, p, q).distanceKm <= 1.1
  {
    var d := dist(p, q);
    assert d * 2.0 * 60.0 == SecondsPerKm * d;
    RoundHalfAwayClose(d * 2.0 * 60.0);
    PhpRoundError(d, 2);
  }

  /**
   * The standalone matcher's `getDistanceMatrix`: the API answer when the API
   * is enabled and answers, and the fallback estimate otherwise.
   */
  function StandaloneDistanceMatrix(api: MapService, useApi: bool, dist: Distance): (service: MapService)
    ensures forall p: Point, q: Point :: service(p, q).Some?
    ensures forall p: Point, q: Point :: !useApi ==> service(p, q) == Some(FallbackEstimate(dist, p, q))
  {
    (p: Point, q: Point) =>
      if useApi && api(p, q).Some? then api(p, q) else Some(FallbackEstimate(dist, p, q))
  }
}
