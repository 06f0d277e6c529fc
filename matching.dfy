/**
 * The two matchers: `matchSharedRide` in the shared-ride controller, which
 * draws candidates from the posted rides table, and `findMatches` in the
 * standalone matcher, which scans a given list. Both keep the rides whose
 * endpoints are within 5 km of the request's, compute the overhead of
 * pooling, attach the estimated pickup time and sort by total overhead.
 */
module Matching {
  import opened Wrappers
  import opened Geo
  import opened Rides
  import opened Sequencing
  import opened Overhead

  /** The matching radius in km, at both ends of the trip. */
  const RadiusKm: real := 5.0

  /** The half-width of the time window: 40 minutes. */
  const WindowSeconds: int := 40 * 60

  /** The requested time: the given scheduled time, or now. */
  function RequestedTime(scheduled: Option<int>, now: int): int
  {
    if scheduled.Some? then scheduled.value else now
  }

  /** A ride time within 40 minutes either side of the requested time, bounds included. */
  predicate InWindow(requested: int, time: int)
  {
    requested - WindowSeconds <= time <= requested + WindowSeconds
  }

  /** Both the pickup-to-pickup and the destination-to-destination distances are at most 5 km. */
  predicate WithinRadius(dist: Distance, ride: Ride, start2: Point, end2: Point)
  {
    dist(ride.pickup, start2) <= RadiusKm && dist(ride.destination, end2) <= RadiusKm
  }

  /** The estimated pickup time of Rider 2: a base time plus the travel time from Rider 1's pickup to Rider 2's. */
  function EstimatedPickup(maps: MapService, ride: Ride, start2: Point, base: int): Option<int>
  {
    match maps(ride.pickup, start2)
    case None => None
    case Some(e) => Some(base + e.durationSec)
  }

  /** The candidates in ride order: the matches that `candidate` yields for the rides, the failures dropped. */
  function Candidates(candidate: Ride -> Option<Match>, rides: seq<Ride>): seq<Match>
  {
    if |rides| == 0 then []
    else
      var before := Candidates(candidate, rides[..|rides| - 1]);
      match candidate(rides[|rides| - 1])
      case None => before
      case Some(m) => before + [m]
  }

  /** A match is a candidate exactly when some ride yields it. */
  lemma {:induction false} CandidatesFromRides(candidate: Ride -> Option<Match>, rides: seq<Ride>, m: Match)
    ensures m in Candidates(candidate, rides) <==> exists i :: 0 <= i < |rides| && candidate(rides[i]) == Some(m)
  {
    if |rides| > 0 {
      var front := rides[..|rides| - 1];
      CandidatesFromRides(candidate, front, m);
      if exists i :: 0 <= i < |front| && candidate(front[i]) == Some(m) {
        var i :| 0 <= i < |front| && candidate(front[i]) == Some(m);
        assert rides[i] == front[i];
      }
      if exists i :: 0 <= i < |rides| && candidate(rides[i]) == Some(m) {
        var i :| 0 <= i < |rides| && candidate(rides[i]) == Some(m);
        if i < |front| {
          assert front[i] == rides[i];
        }
      }
    }
  }

  /** A match of the sorted candidates comes from some ride of the list. */
  lemma SortedCandidateFromRide(candidate: Ride -> Option<Match>, rides: seq<Ride>, m: Match)
    requires m in SortByOverhead(Candidates(candidate, rides))
    ensures exists i :: 0 <= i < |rides| && candidate(rides[i]) == Some(m)
  {
    var found := Candidates(candidate, rides);
    assert m in multiset(SortByOverhead(found));
    CandidatesFromRides(candidate, rides, m);
  }

  /** The match a ride yields is among the sorted candidates. */
  lemma RideCandidateSorted(candidate: Ride -> Option<Match>, rides: seq<Ride>, i: nat)
    requires i < |rides| && candidate(rides[i]).Some?
    ensures candidate(rides[i]).value in SortByOverhead(Candidates(candidate, rides))
  {
    var m := candidate(rides[i]).value;
    CandidatesFromRides(candidate, rides, m);
    assert m in multiset(Candidates(candidate, rides));
  }

  // ---------------------------------------------------------------------------
  // Sorting by total overhead

  /** Ascending by total overhead. */
  predicate Ascending(ms: seq<Match>)
  {
    forall i, j :: 0 <= i < j < |ms| ==> ms[i].totalOverhead <= ms[j].totalOverhead
  }

  /** Inserts `m` before the first match whose total overhead is not smaller. */
  function InsertByOverhead(m: Match, sorted: seq<Match>): (r: seq<Match>)
    requires Ascending(sorted)
    ensures Ascending(r)
    ensures multiset(r) == multiset(sorted) + multiset{m}
    ensures |r| == |sorted| + 1 && (r[0] == m || (|sorted| > 0 && r[0] == sorted[0]))
  {
    if |sorted| == 0 || m.totalOverhead <= sorted[0].totalOverhead then [m] + sorted
    else
      var rest := InsertByOverhead(m, sorted[1..]);
      assert sorted == [sorted[0]] + sorted[1..];
      assert sorted[0].totalOverhead <= rest[0].totalOverhead;
      [sorted[0]] + rest
  }

  /** `usort` by total overhead: ascending, a permutation of its input. */
  function SortByOverhead(ms: seq<Match>): (r: seq<Match>)
    ensures Ascending(r)
    ensures multiset(r) == multiset(ms)
  {
    if |ms| == 0 then []
    else
      assert ms == [ms[0]] + ms[1..];
      InsertByOverhead(ms[0], SortByOverhead(ms[1..]))
  }

  /** The matches of the list with total overhead `k`, in their order. */
  function WithOverhead(ms: seq<Match>, k: real): seq<Match>
  {
    if |ms| == 0 then []
    else (if ms[0].totalOverhead == k then [ms[0]] else []) + WithOverhead(ms[1..], k)
  }

  /** Filtering a sequence with a match in front. */
  lemma WithOverheadCons(x: Match, ms: seq<Match>, k: real)
    ensures WithOverhead([x] + ms, k) == (if x.totalOverhead == k then [x] else []) + WithOverhead(ms, k)
  {
    assert ([x] + ms)[1..] == ms;
  }

  lemma {:induction false} InsertIsStable(m: Match, sorted: seq<Match>, k: real)
    requires Ascending(sorted)
    ensures WithOverhead(InsertByOverhead(m, sorted), k)
         == (if m.totalOverhead == k then [m] else []) + WithOverhead(sorted, k)
  {
    if |sorted| == 0 || m.totalOverhead <= sorted[0].totalOverhead {
      WithOverheadCons(m, sorted, k);
    } else {
      var rest := InsertByOverhead(m, sorted[1..]);
      InsertIsStable(m, sorted[1..], k);
      WithOverheadCons(sorted[0], rest, k);
      assert sorted == [sorted[0]] + sorted[1..];
      WithOverheadCons(sorted[0], sorted[1..], k);
      var tail := WithOverhead(sorted[1..], k);
      if sorted[0].totalOverhead == k {
        assert m.totalOverhead != k;
        assert WithOverhead(sorted, k) == [sorted[0]] + tail;
      } else {
        assert WithOverhead(sorted, k) == tail;
        assert WithOverhead([sorted[0]] + rest, k) == WithOverhead(rest, k);
      }
    }
  }

  /** The sort is stable: matches with equal total overhead keep their relative order. */
  lemma {:induction false} SortIsStable(ms: seq<Match>, k: real)
    ensures WithOverhead(SortByOverhead(ms), k) == WithOverhead(ms, k)
  {
    if |ms| > 0 {
      SortIsStable(ms[1..], k);
      InsertIsStable(ms[0], SortByOverhead(ms[1..]), k);
    }
  }

  // ---------------------------------------------------------------------------
  // matchSharedRide

  /**
   * The rides table query: active shared rides without a second rider, not
   * posted by the requester, scheduled within the window (a ride without a
   * scheduled time never matches the range).
   */
  predicate Listed(ride: Ride, authId: int, requested: int)
  {
    && ride.status == Active
    && ride.rideType == Shared
    && ride.secondUserId.None?
    && ride.userId != authId
    && ride.scheduledTime.Some?
    && InWindow(requested, ride.scheduledTime.value)
  }

  /** The ride's scheduled time (now when there is none), its estimated pickup of Rider 2 and the ride time attached to a match. */
  function ControllerAnnotate(maps: MapService, ride: Ride, start2: Point, now: int, m: Match): Match
  {
    var rideTime := if ride.scheduledTime.Some? then ride.scheduledTime.value else now;
    var estimate := if S1 in m.sequence && S2 in m.sequence then EstimatedPickup(maps, ride, start2, rideTime) else None;
    m.(estimatedPickup := estimate, rideScheduledTime := Some(rideTime))
  }

  /** What `matchSharedRide` makes of one ride of the table: a match, or nothing. */
  function ControllerCandidate(dist: Distance, maps: MapService, authId: int, requested: int, now: int,
                               start2: Point, end2: Point, ride: Ride): Option<Match>
    requires ValidMetric(dist)
  {
    if Listed(ride, authId, requested) && WithinRadius(dist, ride, start2, end2) then
      match OverheadFor(dist, maps, ride, start2, end2)
      case None => None
      case Some(m) => Some(ControllerAnnotate(maps, ride, start2, now, m))
    else None
  }

  /** The matches `matchSharedRide` returns: the candidates in table order, then sorted by total overhead. */
  function ControllerMatches(dist: Distance, maps: MapService, rides: seq<Ride>, authId: int, scheduled: Option<int>,
                             now: int, start2: Point, end2: Point): seq<Match>
    requires ValidMetric(dist)
  {
    var requested := RequestedTime(scheduled, now);
    SortByOverhead(Candidates(ride => ControllerCandidate(dist, maps, authId, requested, now, start2, end2, ride), rides))
  }

  /** The body of `matchSharedRide`'s loop for one ride of the table. */
  method ControllerConsider(dist: Distance, maps: MapService, authId: int, requested: int, now: int,
                            start2: Point, end2: Point, ride: Ride) returns (found: Option<Match>)
    requires ValidMetric(dist)
    ensures found == ControllerCandidate(dist, maps, authId, requested, now, start2, end2, ride)
  {
    found := None;
    if Listed(ride, authId, requested)
      && dist(ride.pickup, start2) <= RadiusKm && dist(ride.destination, end2) <= RadiusKm
    {
      var matchData := CalculateOverhead(dist, maps, ride, start2, end2);
      if matchData.Some? {
        var m := ControllerTimes(maps, ride, start2, now, matchData.value);
        found := Some(m);
      }
    }
  }

  /** The times `matchSharedRide` attaches to the match of one ride. */
  method ControllerTimes(maps: MapService, ride: Ride, start2: Point, now: int, m: Match) returns (r: Match)
    ensures r == ControllerAnnotate(maps, ride, start2, now, m)
  {
    var rideTime := if ride.scheduledTime.Some? then ride.scheduledTime.value else now;
    var estimate: Option<int> := None;
    if S1 in m.sequence && S2 in m.sequence {
      var travel := maps(ride.pickup, start2);
      if travel.Some? {
        estimate := Some(rideTime + travel.value.durationSec);
      }
    }
    r := m.(estimatedPickup := estimate, rideScheduledTime := Some(rideTime));
  }

  /**
   * `matchSharedRide`: scans the rides table, keeps the listed rides within
   * the radius, computes their overhead, attaches the times and sorts.
   */
  method MatchSharedRide(dist: Distance, maps: MapService, rides: seq<Ride>, authId: int, scheduled: Option<int>,
                         now: int, start2: Point, end2: Point) returns (matches: seq<Match>)
    requires ValidMetric(dist)
    ensures matches == ControllerMatches(dist, maps, rides, authId, scheduled, now, start2, end2)
  {
    var requested := if scheduled.Some? then scheduled.value else now;
    ghost var candidate := ride => ControllerCandidate(dist, maps, authId, requested, now, start2, end2, ride);
    matches := [];
    for i := 0 to |rides|
      invariant matches == Candidates(candidate, rides[..i])
    {
      var found := ControllerConsider(dist, maps, authId, requested, now, start2, end2, rides[i]);
      assert rides[..i + 1][..i] == rides[..i];
      assert found == candidate(rides[i]);
      if found.Some? {
        matches := matches + [found.value];
      }
    }
    assert rides[..|rides|] == rides;
    matches := SortByOverhead(matches);
  }

  /** What the overhead computation reports for a ride carries the ride's id and a pooled order. */
  lemma OverheadForRide(dist: Distance, maps: MapService, ride: Ride, start2: Point, end2: Point)
    requires ValidMetric(dist)
    requires OverheadFor(dist, maps, ride, start2, end2).Some?
    ensures OverheadFor(dist, maps, ride, start2, end2).value.rideId == ride.id
    ensures S1 in OverheadFor(dist, maps, ride, start2, end2).value.sequence
    ensures S2 in OverheadFor(dist, maps, ride, start2, end2).value.sequence
  {
    MatchOrderIsListed(dist, maps, ride, start2, end2);
    var o := OverheadFor(dist, maps, ride, start2, end2).value.sequence;
    PickupPrecedesDropoff(o, One);
    PickupPrecedesDropoff(o, Two);
  }

  /**
   * Every returned match comes from a listed ride within the radius; it
   * carries the ride's id and scheduled time, and the estimated pickup of
   * Rider 2 is that time plus the travel time from Rider 1's pickup.
   */
  lemma ControllerMatchSound(dist: Distance, maps: MapService, rides: seq<Ride>, authId: int, scheduled: Option<int>,
                             now: int, start2: Point, end2: Point, m: Match)
    requires ValidMetric(dist)
    requires m in ControllerMatches(dist, maps, rides, authId, scheduled, now, start2, end2)
    ensures exists i :: 0 <= i < |rides|
              && Listed(rides[i], authId, RequestedTime(scheduled, now))
              && WithinRadius(dist, rides[i], start2, end2)
              && m.rideId == rides[i].id
              && m.rideScheduledTime == rides[i].scheduledTime
              && m.estimatedPickup == EstimatedPickup(maps, rides[i], start2, rides[i].scheduledTime.value)
  {
    var requested := RequestedTime(scheduled, now);
    var candidate := ride => ControllerCandidate(dist, maps, authId, requested, now, start2, end2, ride);
    SortedCandidateFromRide(candidate, rides, m);
    var i :| 0 <= i < |rides| && candidate(rides[i]) == Some(m);
    ControllerCandidateSound(dist, maps, authId, requested, now, start2, end2, rides[i], m);
  }

  /** A match made of one ride: the ride is listed and within the radius, and the match carries its id and times. */
  lemma ControllerCandidateSound(dist: Distance, maps: MapService, authId: int, requested: int, now: int,
                                 start2: Point, end2: Point, ride: Ride, m: Match)
    requires ValidMetric(dist)
    requires ControllerCandidate(dist, maps, authId, requested, now, start2, end2, ride) == Some(m)
    ensures Listed(ride, authId, requested) && WithinRadius(dist, ride, start2, end2)
    ensures m.rideId == ride.id && m.rideScheduledTime == ride.scheduledTime
    ensures m.estimatedPickup == EstimatedPickup(maps, ride, start2, ride.scheduledTime.value)
  {
    OverheadForRide(dist, maps, ride, start2, end2);
  }

  /** Every listed ride within the radius yields a match, provided the map service has a solo estimate for Rider 2. */
  lemma ControllerMatchComplete(dist: Distance, maps: MapService, rides: seq<Ride>, authId: int, scheduled: Option<int>,
                                now: int, start2: Point, end2: Point, i: nat)
    requires ValidMetric(dist)
    requires i < |rides| && Listed(rides[i], authId, RequestedTime(scheduled, now)) && WithinRadius(dist, rides[i], start2, end2)
    requires maps(start2, end2).Some?
    ensures exists m :: m in ControllerMatches(dist, maps, rides, authId, scheduled, now, start2, end2) && m.rideId == rides[i].id
  {
    var requested := RequestedTime(scheduled, now);
    var candidate := ride => ControllerCandidate(dist, maps, authId, requested, now, start2, end2, ride);
    OverheadForRide(dist, maps, rides[i], start2, end2);
    RideCandidateSorted(candidate, rides, i);
  }

  /** Without a solo estimate for Rider 2 nothing matches. */
  lemma ControllerNoEstimateNoMatches(dist: Distance, maps: MapService, rides: seq<Ride>, authId: int, scheduled: Option<int>,
                                      now: int, start2: Point, end2: Point)
    requires ValidMetric(dist)
    requires maps(start2, end2).None?
    ensures ControllerMatches(dist, maps, rides, authId, scheduled, now, start2, end2) == []
  {
    var requested := RequestedTime(scheduled, now);
    var candidate := ride => ControllerCandidate(dist, maps, authId, requested, now, start2, end2, ride);
    var found := Candidates(candidate, rides);
    if |found| > 0 {
      CandidatesFromRides(candidate, rides, found[0]);
    }
  }

  // ---------------------------------------------------------------------------
  // findMatches (standalone matcher)

  /** The requester's own ride, skipped only when a (truthy, non-zero) user id is given. */
  predicate OwnRide(userId: Option<int>, ride: Ride)
  {
    userId.Some? && userId.value != 0 && ride.userId == userId.value
  }

  /** The time filter of the standalone matcher: a ride without a scheduled time always passes. */
  predicate TimeAccepted(requested: int, ride: Ride)
  {
    ride.scheduledTime.None? || InWindow(requested, ride.scheduledTime.value)
  }

  /** The times attached to a match, only when the ride has a scheduled time. */
  function StandaloneAnnotate(maps: MapService, ride: Ride, start2: Point, m: Match): Match
  {
    if ride.scheduledTime.None? then m
    else
      var rideTime := ride.scheduledTime.value;
      var estimate := if S2 in m.sequence && S1 in m.sequence then EstimatedPickup(maps, ride, start2, rideTime) else None;
      m.(estimatedPickup := estimate, rideScheduledTime := Some(rideTime))
  }

  /** What `findMatches` makes of one available ride: a match, or nothing. */
  function StandaloneCandidate(dist: Distance, maps: MapService, userId: Option<int>, requested: int,
                               start2: Point, end2: Point, ride: Ride): Option<Match>
    requires ValidMetric(dist)
  {
    if !OwnRide(userId, ride) && TimeAccepted(requested, ride) && WithinRadius(dist, ride, start2, end2) then
      match OverheadFor(dist, maps, ride, start2, end2)
      case None => None
      case Some(m) => Some(StandaloneAnnotate(maps, ride, start2, m))
    else None
  }

  /** The matches `findMatches` returns: the candidates in list order, then sorted by total overhead. */
  function StandaloneMatches(dist: Distance, maps: MapService, rides: seq<Ride>, userId: Option<int>, scheduled: Option<int>,
                             now: int, start2: Point, end2: Point): seq<Match>
    requires ValidMetric(dist)
  {
    var requested := RequestedTime(scheduled, now);
    SortByOverhead(Candidates(ride => StandaloneCandidate(dist, maps, userId, requested, start2, end2, ride), rides))
  }

  /** The body of `findMatches`' loop for one available ride. */
  method StandaloneConsider(dist: Distance, maps: MapService, userId: Option<int>, requested: int,
                            start2: Point, end2: Point, ride: Ride) returns (found: Option<Match>)
    requires ValidMetric(dist)
    ensures found == StandaloneCandidate(dist, maps, userId, requested, start2, end2, ride)
  {
    found := None;
    if userId.Some? && userId.value != 0 && ride.userId == userId.value {
      return;
    }
    if ride.scheduledTime.Some? && !InWindow(requested, ride.scheduledTime.value) {
      return;
    }
    if dist(ride.pickup, start2) <= RadiusKm && dist(ride.destination, end2) <= RadiusKm {
      var matchData := CalculateOverhead(dist, maps, ride, start2, end2);
      if matchData.Some? {
        var m := StandaloneTimes(maps, ride, start2, matchData.value);
        found := Some(m);
      }
    }
  }

  /** The times `findMatches` attaches to the match of one ride, only when the ride is scheduled. */
  method StandaloneTimes(maps: MapService, ride: Ride, start2: Point, m: Match) returns (r: Match)
    ensures r == StandaloneAnnotate(maps, ride, start2, m)
  {
    r := m;
    if ride.scheduledTime.Some? {
      var rideTime := ride.scheduledTime.value;
      var estimate: Option<int> := None;
      if S2 in m.sequence && S1 in m.sequence {
        var travel := maps(ride.pickup, start2);
        if travel.Some? {
          estimate := Some(rideTime + travel.value.durationSec);
        }
      }
      r := m.(estimatedPickup := estimate, rideScheduledTime := Some(rideTime));
    }
  }

  /**
   * `findMatches`: scans the available rides, skips the requester's own, the
   * scheduled rides outside the window and the rides out of radius, computes
   * the overhead of the rest, attaches the times and sorts.
   */
  method FindMatches(dist: Distance, maps: MapService, rides: seq<Ride>, userId: Option<int>, scheduled: Option<int>,
                     now: int, start2: Point, end2: Point) returns (matches: seq<Match>)
    requires ValidMetric(dist)
    ensures matches == StandaloneMatches(dist, maps, rides, userId, scheduled, now, start2, end2)
  {
    var requested := if scheduled.Some? then scheduled.value else now;
    ghost var candidate := ride => StandaloneCandidate(dist, maps, userId, requested, start2, end2, ride);
    matches := [];
    for i := 0 to |rides|
      invariant matches == Candidates(candidate, rides[..i])
    {
      var found := StandaloneConsider(dist, maps, userId, requested, start2, end2, rides[i]);
      assert rides[..i + 1][..i] == rides[..i];
      assert found == candidate(rides[i]);
      if found.Some? {
        matches := matches + [found.value];
      }
    }
    assert rides[..|rides|] == rides;
    matches := SortByOverhead(matches);
  }

  /**
   * Every match of the standalone matcher comes from a ride that is not the
   * requester's own, is in the window or unscheduled, and is within the
   * radius; a scheduled ride's match carries its time and the estimated
   * pickup of Rider 2, an unscheduled ride's match carries neither.
   */
  lemma StandaloneMatchSound(dist: Distance, maps: MapService, rides: seq<Ride>, userId: Option<int>, scheduled: Option<int>,
                             now: int, start2: Point, end2: Point, m: Match)
    requires ValidMetric(dist)
    requires m in StandaloneMatches(dist, maps, rides, userId, scheduled, now, start2, end2)
    ensures exists i :: 0 <= i < |rides|
              && !OwnRide(userId, rides[i])
              && TimeAccepted(RequestedTime(scheduled, now), rides[i])
              && WithinRadius(dist, rides[i], start2, end2)
              && m.rideId == rides[i].id
              && m.rideScheduledTime == rides[i].scheduledTime
              && m.estimatedPickup == (if rides[i].scheduledTime.Some?
                                       then EstimatedPickup(maps, rides[i], start2, rides[i].scheduledTime.value)
                                       else None)
  {
    var requested := RequestedTime(scheduled, now);
    var candidate := ride => StandaloneCandidate(dist, maps, userId, requested, start2, end2, ride);
    SortedCandidateFromRide(candidate, rides, m);
    var i :| 0 <= i < |rides| && candidate(rides[i]) == Some(m);
    StandaloneCandidateSound(dist, maps, userId, requested, start2, end2, rides[i], m);
  }

  /**
   * A match made of one ride: the ride passes the three filters, and the
   * match carries its id and, when it is scheduled, its times.
   */
  lemma StandaloneCandidateSound(dist: Distance, maps: MapService, userId: Option<int>, requested: int,
                                 start2: Point, end2: Point, ride: Ride, m: Match)
    requires ValidMetric(dist)
    requires StandaloneCandidate(dist, maps, userId, requested, start2, end2, ride) == Some(m)
    ensures !OwnRide(userId, ride) && TimeAccepted(requested, ride) && WithinRadius(dist, ride, start2, end2)
    ensures m.rideId == ride.id && m.rideScheduledTime == ride.scheduledTime
    ensures m.estimatedPickup == (if ride.scheduledTime.Some?
                                  then EstimatedPickup(maps, ride, start2, ride.scheduledTime.value)
                                  else None)
  {
    OverheadForRide(dist, maps, ride, start2, end2);
    var reported := OverheadFor(dist, maps, ride, start2, end2).value;
    assert m == StandaloneAnnotate(maps, ride, start2, reported);
  }

  /** Every ride that passes the three filters yields a match, provided the map service has a solo estimate for Rider 2. */
  lemma StandaloneMatchComplete(dist: Distance, maps: MapService, rides: seq<Ride>, userId: Option<int>, scheduled: Option<int>,
                                now: int, start2: Point, end2: Point, i: nat)
    requires ValidMetric(dist)
    requires i < |rides| && !OwnRide(userId, rides[i]) && TimeAccepted(RequestedTime(scheduled, now), rides[i])
    requires WithinRadius(dist, rides[i], start2, end2)
    requires maps(start2, end2).Some?
    ensures exists m :: m in StandaloneMatches(dist, maps, rides, userId, scheduled, now, start2, end2) && m.rideId == rides[i].id
  {
    var requested := RequestedTime(scheduled, now);
    var candidate := ride => StandaloneCandidate(dist, maps, userId, requested, start2, end2, ride);
    OverheadForRide(dist, maps, rides[i], start2, end2);
    RideCandidateSorted(candidate, rides, i);
  }
}
