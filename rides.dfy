/** The ride record shared by the matching, pooling and shuttle operations. */
module Rides {
  import opened Wrappers
  import opened Geo

  /** The ride statuses the operations read and write. */
  datatype RideStatus = Pending | Active | Running | RideEnd | Completed | Canceled

  /** How a ride is booked: alone, pooled with a second rider, or on a shuttle route. */
  datatype RideType = Normal | Shared | Shuttle

  /** Who cancelled a ride. */
  datatype Party = ByUser | ByDriver

  /**
   * A posted ride as the matcher sees it. Times are seconds on one clock;
   * `durationMin` is the stored solo duration in minutes and `distanceKm` the
   * stored solo distance.
   */
  datatype Ride = Ride(
    id: int,
    userId: int,
    status: RideStatus,
    rideType: RideType,
    secondUserId: Option<int>,
    pickup: Point,
    destination: Point,
    distanceKm: real,
    durationMin: real,
    scheduledTime: Option<int>)
}
