/**
 * The sequence optimizer's search space and its bookkeeping: the four
 * pickup/drop-off orders, who is in the car on each segment, the segment
 * durations and prices, and the strict-less-than argmin over the orders.
 */
module Sequencing {
  import opened Wrappers
  import opened Geo

  /** Rider 1 owns the posted ride; Rider 2 is the requester. */
  datatype Rider = One | Two

  /** A waypoint code: `S1`, `S2` (pickups) and `E1`, `E2` (drop-offs). */
  datatype Waypoint = Pickup(rider: Rider) | Dropoff(rider: Rider)

  const S1: Waypoint := Pickup(One)
  const S2: Waypoint := Pickup(Two)
  const E1: Waypoint := Dropoff(One)
  const E2: Waypoint := Dropoff(Two)

  /** The fixed list of orders, in the order they are evaluated. */
  const Orders: seq<seq<Waypoint>> :=
    [[S1, S2, E1, E2], [S1, S2, E2, E1], [S2, S1, E1, E2], [S2, S1, E2, E1]]

  /** An order of the four waypoints that picks both riders up (in either order) before dropping either off. */
  ghost predicate PooledOrder(o: seq<Waypoint>)
  {
    && |o| == 4
    && {o[0], o[1]} == {S1, S2}
    && {o[2], o[3]} == {E1, E2}
  }

  /** Every rider value is one of the two riders. */
  lemma RiderCases(r: Rider)
    ensures r == One || r == Two
  {
  }

  /** Every pooled order is one of the evaluated orders. */
  lemma PooledOrderIsListed(o: seq<Waypoint>)
    requires PooledOrder(o)
    ensures o in Orders
  {
    assert o[0] in {S1, S2} && o[1] in {S1, S2} && o[0] != o[1];
    assert o[2] in {E1, E2} && o[3] in {E1, E2} && o[2] != o[3];
    assert o == [o[0], o[1], o[2], o[3]];
    if o[0] == S1 && o[2] == E1 { assert o == Orders[0]; }
    else if o[0] == S1 { assert o == Orders[1]; }
    else if o[2] == E1 { assert o == Orders[2]; }
    else { assert o == Orders[3]; }
  }

  /** The evaluated orders are pairwise different. */
  lemma OrdersDistinct(i: nat, j: nat)
    requires i < 4 && j < 4 && Orders[i] == Orders[j]
    ensures i == j
  {
    assert Orders[i][0] == Orders[j][0] && Orders[i][2] == Orders[j][2];
  }

  /** Every evaluated order is a pooled order. */
  lemma ListedOrderIsPooled(o: seq<Waypoint>)
    requires o in Orders
    ensures PooledOrder(o)
  {
  }

  /** The evaluated orders are exactly the pooled orders: none is missing and none is extra. */
  lemma OrdersAreThePooledOrders(o: seq<Waypoint>)
    ensures o in Orders <==> PooledOrder(o)
  {
    if PooledOrder(o) {
      PooledOrderIsListed(o);
    }
    if o in Orders {
      ListedOrderIsPooled(o);
    }
  }

  /** `array_search`: the index of the first occurrence of `w` in `o`. */
  function Position(o: seq<Waypoint>, w: Waypoint): (i: nat)
    requires w in o
    ensures i < |o| && o[i] == w && w !in o[..i]
  {
    if o[0] == w then 0
    else
      assert w in o[1..];
      var j := Position(o[1..], w);
      assert o[..j + 1] == [o[0]] + o[1..][..j];
      j + 1
  }

  /** In every evaluated order each rider is picked up before being dropped off, and both pickups come first. */
  lemma PickupPrecedesDropoff(o: seq<Waypoint>, r: Rider)
    requires o in Orders
    ensures Pickup(r) in o && Dropoff(r) in o
    ensures Position(o, Pickup(r)) < 2 <= Position(o, Dropoff(r))
  {
    ListedOrderIsPooled(o);
    RiderCases(r);
    assert Pickup(r) in {o[0], o[1]} && Dropoff(r) in {o[2], o[3]};
    assert o[..2] == [o[0], o[1]];
    var i := Position(o, Pickup(r));
    var j := Position(o, Dropoff(r));
    assert o[i] != o[2] && o[i] != o[3];
    assert o[j] != o[0] && o[j] != o[1];
  }

  /** The four points of a pooled trip: Rider 1's pickup and drop-off, then Rider 2's. */
  datatype Trip = Trip(start1: Point, end1: Point, start2: Point, end2: Point)

  /** The coordinate of a waypoint code (the `coords` list built beside each order). */
  function Coord(t: Trip, w: Waypoint): Point
  {
    match w
    case Pickup(One) => t.start1
    case Pickup(Two) => t.start2
    case Dropoff(One) => t.end1
    case Dropoff(Two) => t.end2
  }

  /** The duration of segment `i`, from the `i`th to the `i+1`st waypoint of `o`. */
  function SegDur(dist: Distance, t: Trip, o: seq<Waypoint>, i: nat): real
    requires i + 1 < |o|
  {
    SegmentDuration(dist, Coord(t, o[i]), Coord(t, o[i + 1]))
  }

  /** The sum of the durations of segments `lo` .. `hi - 1`; zero when `lo >= hi`. */
  function SubDuration(dist: Distance, t: Trip, o: seq<Waypoint>, lo: nat, hi: nat): real
    requires hi < |o|
    decreases hi
  {
    if hi <= lo then 0.0 else SubDuration(dist, t, o, lo, hi - 1) + SegDur(dist, t, o, hi - 1)
  }

  /** The total duration of an order: all three segments. */
  function TotalDuration(dist: Distance, t: Trip, o: seq<Waypoint>): real
    requires |o| == 4
  {
    SubDuration(dist, t, o, 0, 3)
  }

  /** A sub-sequence duration is a sum of non-negative segments, so it lies between 0 and the total. */
  lemma SubDurationWithinTotal(dist: Distance, t: Trip, o: seq<Waypoint>, lo: nat, hi: nat)
    requires ValidMetric(dist) && |o| == 4 && hi <= 3
    ensures 0.0 <= SubDuration(dist, t, o, lo, hi) <= TotalDuration(dist, t, o)
  {
    SubDurationNonNegative(dist, t, o, lo, hi);
    SubDurationNonNegative(dist, t, o, 0, 3);
    if lo < hi {
      SubDurationAppend(dist, t, o, lo, hi);
      SubDurationAppend(dist, t, o, hi, 3);
      SubDurationNonNegative(dist, t, o, 0, lo);
      SubDurationNonNegative(dist, t, o, hi, 3);
    }
  }

  lemma {:induction false} SubDurationNonNegative(dist: Distance, t: Trip, o: seq<Waypoint>, lo: nat, hi: nat)
    requires ValidMetric(dist) && hi < |o|
    ensures SubDuration(dist, t, o, lo, hi) >= 0.0
    decreases hi
  {
    if lo < hi {
      SubDurationNonNegative(dist, t, o, lo, hi - 1);
      SegmentDurationBounds(dist, Coord(t, o[hi - 1]), Coord(t, o[hi]));
    }
  }

  /** Segments `0 .. hi-1` are segments `0 .. lo-1` followed by `lo .. hi-1`. */
  lemma {:induction false} SubDurationAppend(dist: Distance, t: Trip, o: seq<Waypoint>, lo: nat, hi: nat)
    requires lo <= hi < |o|
    ensures SubDuration(dist, t, o, 0, hi) == SubDuration(dist, t, o, 0, lo) + SubDuration(dist, t, o, lo, hi)
    decreases hi
  {
    if lo < hi {
      SubDurationAppend(dist, t, o, lo, hi - 1);
    }
  }

  // ---------------------------------------------------------------------------
  // Occupancy and the fare split

  /** Applying a waypoint to the set of riders in the car: a pickup adds, a drop-off removes. */
  function Board(active: set<Rider>, w: Waypoint): set<Rider>
  {
    match w
    case Pickup(r) => active + {r}
    case Dropoff(r) => active - {r}
  }

  /** The riders in the car after the first `n` waypoints; segment `i` carries `OccupancyAfter(o, i + 1)`. */
  function OccupancyAfter(o: seq<Waypoint>, n: nat): set<Rider>
    requires n <= |o|
  {
    if n == 0 then {} else Board(OccupancyAfter(o, n - 1), o[n - 1])
  }

  /**
   * In every evaluated order the first segment carries only the rider picked
   * up first, the middle segment carries both riders, and the last segment
   * carries only the rider dropped off last: always one or two occupants.
   */
  lemma SegmentOccupancy(o: seq<Waypoint>)
    requires o in Orders
    ensures OccupancyAfter(o, 1) == {o[0].rider}
    ensures OccupancyAfter(o, 2) == {One, Two}
    ensures OccupancyAfter(o, 3) == {o[3].rider}
  {
  }

  /** The fare model: 2.00 per km, plus a 5.00 base fare per rider. */
  const PricePerKm: real := 2.0
  const BaseFare: real := 5.0

  /** The price of a segment, its distance taken back from its duration at 120 s per km. */
  function SegmentPrice(segDur: real): real
  {
    segDur / SecondsPerKm * PricePerKm
  }

  /** A rider's share of a segment's price: an even split among the riders in the car. */
  function ShareOf(r: Rider, occupants: set<Rider>, price: real): real
  {
    if r in occupants then price / (|occupants| as real) else 0.0
  }

  /** What rider `r` has been charged for the first `n` segments of `o`. */
  function CostUpTo(dist: Distance, t: Trip, o: seq<Waypoint>, r: Rider, n: nat): real
    requires n < |o|
  {
    if n == 0 then 0.0
    else CostUpTo(dist, t, o, r, n - 1) + ShareOf(r, OccupancyAfter(o, n), SegmentPrice(SegDur(dist, t, o, n - 1)))
  }

  /** A share of a non-negative price is non-negative. */
  lemma SharePositive(r: Rider, occupants: set<Rider>, price: real)
    requires price >= 0.0
    ensures ShareOf(r, occupants, price) >= 0.0
  {
    if r in occupants {
      assert |occupants| >= 1;
    }
  }

  /** With one or two occupants the two shares of a segment add up to its price. */
  lemma SharesAddUp(occupants: set<Rider>, price: real)
    requires occupants != {}
    ensures ShareOf(One, occupants, price) + ShareOf(Two, occupants, price) == price
  {
    forall x | x in occupants ensures x == One || x == Two {
      RiderCases(x);
    }
    if One in occupants && Two in occupants {
      assert occupants == {One, Two};
    } else if One in occupants {
      assert occupants == {One};
    } else {
      assert occupants == {Two};
    }
  }

  /**
   * Cost conservation: for every evaluated order the two riders' costs add up
   * to the price of the whole route, nothing lost and nothing counted twice.
   */
  lemma {:induction false} CostConservation(dist: Distance, t: Trip, o: seq<Waypoint>)
    requires o in Orders
    ensures CostUpTo(dist, t, o, One, 3) + CostUpTo(dist, t, o, Two, 3) == SegmentPrice(TotalDuration(dist, t, o))
  {
    SegmentOccupancy(o);
    SharesAddUp(OccupancyAfter(o, 1), SegmentPrice(SegDur(dist, t, o, 0)));
    SharesAddUp(OccupancyAfter(o, 2), SegmentPrice(SegDur(dist, t, o, 1)));
    SharesAddUp(OccupancyAfter(o, 3), SegmentPrice(SegDur(dist, t, o, 2)));
    var a, b, c := SegDur(dist, t, o, 0), SegDur(dist, t, o, 1), SegDur(dist, t, o, 2);
    var o1, o2, o3 := OccupancyAfter(o, 1), OccupancyAfter(o, 2), OccupancyAfter(o, 3);
    CostOfThreeSegments(dist, t, o, One);
    CostOfThreeSegments(dist, t, o, Two);
    assert TotalDuration(dist, t, o) == a + b + c;
    assert SegmentPrice(a + b + c) == SegmentPrice(a) + SegmentPrice(b) + SegmentPrice(c);
  }

  /** A rider's cost over a four-waypoint route is the sum of its shares of the three segments. */
  lemma CostOfThreeSegments(dist: Distance, t: Trip, o: seq<Waypoint>, r: Rider)
    requires |o| == 4
    ensures CostUpTo(dist, t, o, r, 3)
         == ShareOf(r, OccupancyAfter(o, 1), SegmentPrice(SegDur(dist, t, o, 0)))
          + ShareOf(r, OccupancyAfter(o, 2), SegmentPrice(SegDur(dist, t, o, 1)))
          + ShareOf(r, OccupancyAfter(o, 3), SegmentPrice(SegDur(dist, t, o, 2)))
  {
    assert CostUpTo(dist, t, o, r, 1) == ShareOf(r, OccupancyAfter(o, 1), SegmentPrice(SegDur(dist, t, o, 0)));
    assert CostUpTo(dist, t, o, r, 2) == CostUpTo(dist, t, o, r, 1) + ShareOf(r, OccupancyAfter(o, 2), SegmentPrice(SegDur(dist, t, o, 1)));
  }

  /** Under the haversine bounds nobody is charged a negative amount. */
  lemma {:induction false} CostNonNegative(dist: Distance, t: Trip, o: seq<Waypoint>, r: Rider, n: nat)
    requires ValidMetric(dist) && n < |o|
    ensures CostUpTo(dist, t, o, r, n) >= 0.0
  {
    if n > 0 {
      CostNonNegative(dist, t, o, r, n - 1);
      var occ := OccupancyAfter(o, n);
      var price := SegmentPrice(SegDur(dist, t, o, n - 1));
      SegmentDurationBounds(dist, Coord(t, o[n - 1]), Coord(t, o[n]));
      assert price >= 0.0;
      SharePositive(r, occ, price);
    }
  }

  // ---------------------------------------------------------------------------
  // Choosing the order

  /** `PHP_INT_MAX`, the initial minimum of the search. */
  const PhpIntMax: real := 9223372036854775807.0

  /** The total durations of the four orders, in evaluation order. */
  function Totals(dist: Distance, t: Trip): (totals: seq<real>)
    ensures |totals| == 4
  {
    [TotalDuration(dist, t, Orders[0]), TotalDuration(dist, t, Orders[1]),
     TotalDuration(dist, t, Orders[2]), TotalDuration(dist, t, Orders[3])]
  }

  /** The running minimum: the best total so far, or `PHP_INT_MAX` before any. */
  function MinSoFar(totals: seq<real>, best: Option<nat>): real
  {
    if best.Some? && best.value < |totals| then totals[best.value] else PhpIntMax
  }

  /** The index kept after scanning the first `n` totals with a strict `<` against the running minimum. */
  function Scan(totals: seq<real>, n: nat): Option<nat>
    requires n <= |totals|
  {
    if n == 0 then None
    else
      var best := Scan(totals, n - 1);
      if totals[n - 1] < MinSoFar(totals, best) then Some(n - 1) else best
  }

  /**
   * The scan keeps the FIRST index of the smallest total below `PHP_INT_MAX`:
   * no total is smaller, and every earlier total is strictly larger.
   */
  lemma {:induction false} ScanFindsFirstMinimum(totals: seq<real>, n: nat)
    requires n <= |totals|
    ensures Scan(totals, n).None? <==> forall j :: 0 <= j < n ==> totals[j] >= PhpIntMax
    ensures Scan(totals, n).Some? ==>
              var i := Scan(totals, n).value;
              && i < n && totals[i] < PhpIntMax
              && (forall j :: 0 <= j < n ==> totals[i] <= totals[j])
              && (forall j :: 0 <= j < i ==> totals[i] < totals[j])
  {
    if n > 0 {
      ScanFindsFirstMinimum(totals, n - 1);
    }
  }

  /** The index in `Orders` of the chosen order. */
  function BestOrder(dist: Distance, t: Trip): Option<nat>
  {
    Scan(Totals(dist, t), 4)
  }

  /**
   * Order `o` has the least total duration of the evaluated orders, and no
   * order listed before it is as short.
   */
  ghost predicate FirstShortest(dist: Distance, t: Trip, o: seq<Waypoint>)
  {
    && |o| == 4
    && (forall j :: 0 <= j < 4 ==> TotalDuration(dist, t, o) <= TotalDuration(dist, t, Orders[j]))
    && (forall j :: 0 <= j < 4 && Orders[j] == o ==>
          forall i :: 0 <= i < j ==> TotalDuration(dist, t, o) < TotalDuration(dist, t, Orders[i]))
  }

  /** Under the haversine bounds one of the four orders is always chosen. */
  lemma BestOrderChosen(dist: Distance, t: Trip)
    requires ValidMetric(dist)
    ensures BestOrder(dist, t).Some? && BestOrder(dist, t).value < 4
  {
    BestOrderIsFirstMinimum(dist, t);
  }

  /**
   * Under the haversine bounds an order is always chosen; it has the smallest
   * total duration of the four, and ties go to the earliest order.
   */
  lemma BestOrderIsFirstMinimum(dist: Distance, t: Trip)
    requires ValidMetric(dist)
    ensures BestOrder(dist, t).Some?
    ensures var k := BestOrder(dist, t).value;
            && k < 4
            && (forall j :: 0 <= j < 4 ==> TotalDuration(dist, t, Orders[k]) <= TotalDuration(dist, t, Orders[j]))
            && (forall j :: 0 <= j < k ==> TotalDuration(dist, t, Orders[k]) < TotalDuration(dist, t, Orders[j]))
  {
    var totals := Totals(dist, t);
    SubDurationWithinTotal(dist, t, Orders[0], 0, 3);
    SegmentDurationBounds(dist, Coord(t, Orders[0][0]), Coord(t, Orders[0][1]));
    SegmentDurationBounds(dist, Coord(t, Orders[0][1]), Coord(t, Orders[0][2]));
    SegmentDurationBounds(dist, Coord(t, Orders[0][2]), Coord(t, Orders[0][3]));
    assert totals[0] < PhpIntMax;
    ScanFindsFirstMinimum(totals, 4);
    assert forall j :: 0 <= j < 4 ==> totals[j] == TotalDuration(dist, t, Orders[j]);
  }
}
