/**
 * The shuttle driver's stop processing: assigning the driver to the booked
 * rides of a route, picking riders up and dropping them off as the shuttle
 * leaves each stop, and the riders told on arrival and on each location
 * update. The ride table is a sequence the operations update ride by ride.
 */
module Shuttle {
  import opened Wrappers
  import opened Rides

  /** A shuttle booking. Times are seconds on one clock; a missing time is `None`. */
  datatype ShuttleRide = ShuttleRide(
    id: int,
    userId: int,
    rideType: RideType,
    routeId: int,
    driverId: Option<int>,
    status: RideStatus,
    startStop: int,
    endStop: int,
    startTime: Option<int>,
    endTime: Option<int>)

  /** How far from now, either way, a booking's start time may be for `startTrip` to take it: 60 minutes. */
  const AssignWindow: int := 3600

  // ---------------------------------------------------------------------------
  // What happens to one ride

  /** A booked shuttle ride of the route, starting within an hour of now either way. */
  predicate DueForTrip(r: ShuttleRide, routeId: int, now: int)
  {
    && r.routeId == routeId
    && r.rideType == Shuttle
    && r.status == Active
    && r.startTime.Some?
    && now - AssignWindow <= r.startTime.value <= now + AssignWindow
  }

  /** `startTrip` on one ride: a ride due for the trip gets the driver. */
  function AssignDriver(r: ShuttleRide, routeId: int, driverId: int, now: int): ShuttleRide
  {
    if DueForTrip(r, routeId, now) then r.(driverId := Some(driverId)) else r
  }

  /** An active ride of this driver and route that starts at the stop. */
  predicate BoardsAt(r: ShuttleRide, routeId: int, driverId: int, stop: int)
  {
    r.routeId == routeId && r.driverId == Some(driverId) && r.startStop == stop && r.status == Active
  }

  /** A running ride of this driver and route that ends at the stop. */
  predicate AlightsAt(r: ShuttleRide, routeId: int, driverId: int, stop: int)
  {
    r.routeId == routeId && r.driverId == Some(driverId) && r.endStop == stop && r.status == Running
  }

  /** The pickup phase of `departStop` on one ride: it starts running now. */
  function PickUp(r: ShuttleRide, routeId: int, driverId: int, stop: int, now: int): ShuttleRide
  {
    if BoardsAt(r, routeId, driverId, stop) then r.(status := Running, startTime := Some(now)) else r
  }

  /** The drop-off phase of `departStop` on one ride: it is completed now. */
  function DropOff(r: ShuttleRide, routeId: int, driverId: int, stop: int, now: int): ShuttleRide
  {
    if AlightsAt(r, routeId, driverId, stop) then r.(status := Completed, endTime := Some(now)) else r
  }

  /** `departStop` on one ride: the pickup phase, then the drop-off phase on its result. */
  function Depart(r: ShuttleRide, routeId: int, driverId: int, stop: int, now: int): ShuttleRide
  {
    DropOff(PickUp(r, routeId, driverId, stop, now), routeId, driverId, stop, now)
  }

  /** A status step the stop processing may take: none, or forward along active, running, completed. */
  predicate Forward(before: RideStatus, after: RideStatus)
  {
    || before == after
    || (before == Active && (after == Running || after == Completed))
    || (before == Running && after == Completed)
  }

  /** A ride the driver's location updates are sent for. */
  predicate Tracked(r: ShuttleRide, driverId: int)
  {
    r.driverId == Some(driverId) && (r.status == Active || r.status == Running) && r.rideType == Shuttle
  }

  // ---------------------------------------------------------------------------
  // Who is told

  /** The riders of the rides boarding at the stop, one entry per ride, in table order. */
  function Boarding(rides: seq<ShuttleRide>, routeId: int, driverId: int, stop: int): seq<int>
  {
    if |rides| == 0 then []
    else
      var last := rides[|rides| - 1];
      Boarding(rides[..|rides| - 1], routeId, driverId, stop)
        + (if BoardsAt(last, routeId, driverId, stop) then [last.userId] else [])
  }

  /** The riders of the tracked rides, one entry per ride, in table order. */
  function TrackedUsers(rides: seq<ShuttleRide>, driverId: int): seq<int>
  {
    if |rides| == 0 then []
    else
      var last := rides[|rides| - 1];
      TrackedUsers(rides[..|rides| - 1], driverId) + (if Tracked(last, driverId) then [last.userId] else [])
  }

  /** `unique()`: each value once, at its first occurrence. */
  function Unique(s: seq<int>): seq<int>
  {
    if |s| == 0 then []
    else
      var u := Unique(s[..|s| - 1]);
      if s[|s| - 1] in u then u else u + [s[|s| - 1]]
  }

  /** No value occurs twice. */
  predicate NoDuplicates(s: seq<int>)
  {
    forall i, j :: 0 <= i < j < |s| ==> s[i] != s[j]
  }

  /** `Unique` keeps every value of its input and adds none, and keeps each only once. */
  lemma {:induction false} UniqueKeepsValuesOnce(s: seq<int>)
    ensures forall x :: x in Unique(s) <==> x in s
    ensures NoDuplicates(Unique(s))
  {
    if |s| > 0 {
      var init := s[..|s| - 1];
      UniqueKeepsValuesOnce(init);
      assert s == init + [s[|s| - 1]];
    }
  }

  /** The riders told on arrival are exactly the riders of the rides boarding at the stop. */
  lemma {:induction false} BoardingRiders(rides: seq<ShuttleRide>, routeId: int, driverId: int, stop: int, u: int)
    ensures u in Boarding(rides, routeId, driverId, stop) <==>
              exists k :: 0 <= k < |rides| && BoardsAt(rides[k], routeId, driverId, stop) && rides[k].userId == u
  {
    if |rides| > 0 {
      var init := rides[..|rides| - 1];
      BoardingRiders(init, routeId, driverId, stop, u);
      if exists k :: 0 <= k < |rides| && BoardsAt(rides[k], routeId, driverId, stop) && rides[k].userId == u {
        var k :| 0 <= k < |rides| && BoardsAt(rides[k], routeId, driverId, stop) && rides[k].userId == u;
        if k < |rides| - 1 {
          assert init[k] == rides[k];
        }
      }
    }
  }

  /** The riders of the tracked rides are exactly the users of some tracked ride. */
  lemma {:induction false} TrackedRiders(rides: seq<ShuttleRide>, driverId: int, u: int)
    ensures u in TrackedUsers(rides, driverId) <==>
              exists k :: 0 <= k < |rides| && Tracked(rides[k], driverId) && rides[k].userId == u
  {
    if |rides| > 0 {
      var init := rides[..|rides| - 1];
      TrackedRiders(init, driverId, u);
      if exists k :: 0 <= k < |rides| && Tracked(rides[k], driverId) && rides[k].userId == u {
        var k :| 0 <= k < |rides| && Tracked(rides[k], driverId) && rides[k].userId == u;
        if k < |rides| - 1 {
          assert init[k] == rides[k];
        }
      }
    }
  }

  /**
   * `liveLocation` sends exactly one update to each rider of a ride of this
   * driver that is active or running: every such rider once, and nobody else.
   */
  lemma LiveLocationReachesEachRiderOnce(rides: seq<ShuttleRide>, driverId: int)
    ensures NoDuplicates(Unique(TrackedUsers(rides, driverId)))
    ensures forall u :: u in Unique(TrackedUsers(rides, driverId)) <==>
              exists k :: 0 <= k < |rides| && Tracked(rides[k], driverId) && rides[k].userId == u
  {
    UniqueKeepsValuesOnce(TrackedUsers(rides, driverId));
    forall u
      ensures u in TrackedUsers(rides, driverId) <==>
                exists k :: 0 <= k < |rides| && Tracked(rides[k], driverId) && rides[k].userId == u
    {
      TrackedRiders(rides, driverId, u);
    }
  }

  // ---------------------------------------------------------------------------
  // What one call does to one ride

  /** `startTrip` gives a ride the driver exactly when it is due, and changes nothing else about it. */
  lemma AssignDriverOnlyWhenDue(r: ShuttleRide, routeId: int, driverId: int, now: int)
    ensures var r' := AssignDriver(r, routeId, driverId, now);
            && r'.(driverId := r.driverId) == r
            && (r'.driverId == Some(driverId) <==> DueForTrip(r, routeId, now) || r.driverId == Some(driverId))
            && (!DueForTrip(r, routeId, now) ==> r' == r)
  {
  }

  /**
   * `departStop` starts every ride boarding at the stop and completes every
   * ride alighting there; a ride that both boards and alights at the stop is
   * completed in the same call, because the pickups are saved before the
   * drop-offs are looked up. Every other ride is left as it was, and a ride's
   * status only ever moves forward.
   */
  lemma DepartEffect(r: ShuttleRide, routeId: int, driverId: int, stop: int, now: int)
    ensures var r' := Depart(r, routeId, driverId, stop, now);
            && Forward(r.status, r'.status)
            && (BoardsAt(r, routeId, driverId, stop) && r.endStop != stop ==>
                  r' == r.(status := Running, startTime := Some(now)))
            && (BoardsAt(r, routeId, driverId, stop) && r.endStop == stop ==>
                  r' == r.(status := Completed, startTime := Some(now), endTime := Some(now)))
            && (AlightsAt(r, routeId, driverId, stop) ==> r' == r.(status := Completed, endTime := Some(now)))
            && (!BoardsAt(r, routeId, driverId, stop) && !AlightsAt(r, routeId, driverId, stop) ==> r' == r)
  {
  }

  /**
   * A run along stops A, B and C: two riders board at A, one alighting at B
   * and the other at C. Leaving A starts both; leaving B completes the first
   * and leaves the second running; leaving C completes the second.
   */
  lemma {:induction false} MultiStopRun(x: ShuttleRide, y: ShuttleRide, routeId: int, driverId: int,
                                        a: int, b: int, c: int, t1: int, t2: int, t3: int)
    requires a != b && b != c && a != c
    requires BoardsAt(x, routeId, driverId, a) && BoardsAt(y, routeId, driverId, a)
    requires x.endStop == b && y.endStop == c
    ensures var x1, y1 := Depart(x, routeId, driverId, a, t1), Depart(y, routeId, driverId, a, t1);
            var x2, y2 := Depart(x1, routeId, driverId, b, t2), Depart(y1, routeId, driverId, b, t2);
            var x3, y3 := Depart(x2, routeId, driverId, c, t3), Depart(y2, routeId, driverId, c, t3);
            && x1.status == Running && y1.status == Running
            && x2.status == Completed && x2.endTime == Some(t2)
            && y2.status == Running && y2.endTime == y.endTime
            && x3 == x2
            && y3.status == Completed && y3.endTime == Some(t3)
  {
    DepartEffect(x, routeId, driverId, a, t1);
    DepartEffect(y, routeId, driverId, a, t1);
    var x1, y1 := Depart(x, routeId, driverId, a, t1), Depart(y, routeId, driverId, a, t1);
    DepartEffect(x1, routeId, driverId, b, t2);
    DepartEffect(y1, routeId, driverId, b, t2);
    var x2, y2 := Depart(x1, routeId, driverId, b, t2), Depart(y1, routeId, driverId, b, t2);
    DepartEffect(x2, routeId, driverId, c, t3);
    DepartEffect(y2, routeId, driverId, c, t3);
  }

  // ---------------------------------------------------------------------------
  // The ride table and the driver's requests

  class ShuttleBoard {
    var rides: seq<ShuttleRide>

    constructor (rides: seq<ShuttleRide>)
      ensures this.rides == rides
    {
      this.rides := rides;
    }

    /**
     * `startTrip`: every booked shuttle ride of the route whose start time is
     * within an hour of now, either way, is given this driver; every other
     * ride is left as it was.
     */
    method StartTrip(routeId: int, driverId: int, now: int)
      modifies this
      ensures |rides| == |old(rides)|
      ensures forall k :: 0 <= k < |rides| ==> rides[k] == AssignDriver(old(rides)[k], routeId, driverId, now)
    {
      for i := 0 to |rides|
        invariant |rides| == |old(rides)|
        invariant forall k :: 0 <= k < i ==> rides[k] == AssignDriver(old(rides)[k], routeId, driverId, now)
        invariant forall k :: i <= k < |rides| ==> rides[k] == old(rides)[k]
      {
        if DueForTrip(rides[i], routeId, now) {
          rides := rides[i := rides[i].(driverId := Some(driverId))];
        }
      }
    }

    /**
     * `arriveAtStop`: tells the rider of every active ride of this driver and
     * route that starts at the stop, once per ride; no ride changes.
     */
    method ArriveAtStop(routeId: int, driverId: int, stop: int) returns (notified: seq<int>)
      ensures notified == Boarding(rides, routeId, driverId, stop)
    {
      notified := [];
      for i := 0 to |rides|
        invariant notified == Boarding(rides[..i], routeId, driverId, stop)
      {
        assert rides[..i + 1][..i] == rides[..i];
        if BoardsAt(rides[i], routeId, driverId, stop) {
          notified := notified + [rides[i].userId];
        }
      }
      assert rides[..|rides|] == rides;
    }

    /**
     * `departStop`: first every active ride of this driver and route that
     * starts at the stop is set running with its start time now; then every
     * running ride of theirs that ends at the stop is set completed with its
     * end time now.
     */
    method DepartStop(routeId: int, driverId: int, stop: int, now: int)
      modifies this
      ensures |rides| == |old(rides)|
      ensures forall k :: 0 <= k < |rides| ==> rides[k] == Depart(old(rides)[k], routeId, driverId, stop, now)
    {
      for i := 0 to |rides|
        invariant |rides| == |old(rides)|
        invariant forall k :: 0 <= k < i ==> rides[k] == PickUp(old(rides)[k], routeId, driverId, stop, now)
        invariant forall k :: i <= k < |rides| ==> rides[k] == old(rides)[k]
      {
        if BoardsAt(rides[i], routeId, driverId, stop) {
          rides := rides[i := rides[i].(status := Running, startTime := Some(now))];
        }
      }
      for i := 0 to |rides|
        invariant |rides| == |old(rides)|
        invariant forall k :: 0 <= k < i ==> rides[k] == Depart(old(rides)[k], routeId, driverId, stop, now)
        invariant forall k :: i <= k < |rides| ==> rides[k] == PickUp(old(rides)[k], routeId, driverId, stop, now)
      {
        if AlightsAt(rides[i], routeId, driverId, stop) {
          rides := rides[i := rides[i].(status := Completed, endTime := Some(now))];
        }
      }
    }

    /**
     * `liveLocation`: one location update for each distinct rider of an
     * active or running shuttle ride of this driver, in the order the riders
     * first appear in the table.
     */
    method LiveLocation(driverId: int) returns (recipients: seq<int>)
      ensures recipients == Unique(TrackedUsers(rides, driverId))
    {
      recipients := [];
      for i := 0 to |rides|
        invariant recipients == Unique(TrackedUsers(rides[..i], driverId))
      {
        assert rides[..i + 1][..i] == rides[..i];
        ghost var seen := TrackedUsers(rides[..i], driverId);
        if Tracked(rides[i], driverId) {
          assert TrackedUsers(rides[..i + 1], driverId) == seen + [rides[i].userId];
          assert (seen + [rides[i].userId])[..|seen|] == seen;
        } else {
          assert TrackedUsers(rides[..i + 1], driverId) == seen;
        }
        if Tracked(rides[i], driverId) && rides[i].userId !in recipients {
          recipients := recipients + [rides[i].userId];
        }
      }
      assert rides[..|rides|] == rides;
    }
  }
}
