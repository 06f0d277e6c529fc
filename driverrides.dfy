/**
 * The driver's side of an ordinary ride: starting it with the rider's OTP,
 * ending it, cancelling it (with a balance penalty past the cancellation
 * limit), confirming a cash payment and reading the receipt. The ride table
 * is a sequence and the driver's balance a field the requests update.
 */
module DriverRides {
  import opened Wrappers
  import opened Rides
  import opened Validation

  /** The payment states the requests read and write. */
  datatype PaymentStatus = PaymentPending | WaitingForCashPayment | PaymentComplete

  /** A ride as the driver's requests see it. Times are seconds on one clock; the OTP is stored as a number. */
  datatype DriverRide = DriverRide(
    id: int,
    userId: int,
    driverId: Option<int>,
    status: RideStatus,
    otp: nat,
    amount: real,
    commissionPercentage: real,
    commissionAmount: real,
    tipsAmount: real,
    discountAmount: real,
    paymentStatus: PaymentStatus,
    startTime: Option<int>,
    endTime: Option<int>,
    canceledBy: Option<Party>,
    cancelReason: Option<string>,
    cancelledAt: Option<int>)

  /** The answer to a request: success, or the error it is refused with. */
  datatype Outcome =
    | Ok
    | InvalidInput     // a request field fails validation
    | NotFound         // no ride with that id in the state the request needs, or not this driver's
    | AnotherRunning   // the driver already has a running ride
    | InvalidOtp       // the OTP does not match the ride's
    | CashNotPending   // the ride is not waiting for a cash payment
    | NotCompleted     // the ride is not completed, so there is no receipt

  // ---------------------------------------------------------------------------
  // Lookups and request fields

  /** `find($id)`: the position of the ride with this id, if there is one. */
  function Find(rides: seq<DriverRide>, id: int): (k: Option<nat>)
    ensures k.Some? ==> k.value < |rides| && rides[k.value].id == id
    ensures k.None? ==> forall j :: 0 <= j < |rides| ==> rides[j].id != id
  {
    if |rides| == 0 then None
    else if rides[0].id == id then Some(0)
    else
      var k := Find(rides[1..], id);
      if k.Some? then Some(k.value + 1) else None
  }

  /** The ride with this id, when it is this driver's and in one of the given statuses. */
  function OwnRide(rides: seq<DriverRide>, id: int, driverId: int, statuses: set<RideStatus>): (k: Option<nat>)
    ensures k.Some? <==> exists j :: 0 <= j < |rides| && rides[j].id == id && Find(rides, id) == Some(j)
                                     && rides[j].driverId == Some(driverId) && rides[j].status in statuses
    ensures k.Some? ==> k.value < |rides| && rides[k.value].id == id
                        && rides[k.value].driverId == Some(driverId) && rides[k.value].status in statuses
  {
    var k := Find(rides, id);
    if k.Some? && rides[k.value].driverId == Some(driverId) && rides[k.value].status in statuses then k else None
  }

  /** `Ride::running()->where('driver_id', …)->first()`: the driver has a running ride. */
  predicate HasRunning(rides: seq<DriverRide>, driverId: int)
  {
    exists k :: 0 <= k < |rides| && rides[k].status == Running && rides[k].driverId == Some(driverId)
  }

  predicate IsDigit(c: char)
  {
    '0' <= c <= '9'
  }

  /** The `digits:6` rule: exactly six characters, all decimal digits. */
  predicate SixDigits(s: string)
  {
    |s| == 6 && forall i :: 0 <= i < |s| ==> IsDigit(s[i])
  }

  /** The number a string of decimal digits spells. */
  function DigitsValue(s: string): (v: nat)
    requires forall i :: 0 <= i < |s| ==> IsDigit(s[i])
  {
    if |s| == 0 then 0
    else
      assert IsDigit(s[|s| - 1]);
      DigitsValue(s[..|s| - 1]) * 10 + (s[|s| - 1] as int - '0' as int)
  }

  /**
   * The OTP check compares the stored number with the digits sent, as PHP's
   * loose `!=` compares two numeric values: leading zeros sent do not matter.
   */
  lemma {:induction false} OtpIgnoresLeadingZeros(s: string)
    requires forall i :: 0 <= i < |s| ==> IsDigit(s[i])
    ensures DigitsValue("0" + s) == DigitsValue(s)
  {
    if |s| > 0 {
      var init := s[..|s| - 1];
      OtpIgnoresLeadingZeros(init);
      assert ("0" + s)[..|"0" + s| - 1] == "0" + init;
    }
  }

  // ---------------------------------------------------------------------------
  // What each request does to the ride

  /** A start: running from now, with the commission `amount / 100 * commission_percentage` recorded. */
  function Started(r: DriverRide, now: int): DriverRide
  {
    r.(startTime := Some(now), status := Running, commissionAmount := r.amount / 100.0 * r.commissionPercentage)
  }

  /** An end: the ride awaits payment, ended now. */
  function Ended(r: DriverRide, now: int): DriverRide
  {
    r.(paymentStatus := PaymentPending, status := RideEnd, endTime := Some(now))
  }

  /** A cancellation by the driver, for the reason given, now. */
  function CanceledByDriver(r: DriverRide, reason: string, now: int): DriverRide
  {
    r.(cancelReason := Some(reason), canceledBy := Some(ByDriver), status := Canceled, cancelledAt := Some(now))
  }

  /** The commission recorded at the start is the ride's percentage of its amount. */
  lemma StartedCommission(r: DriverRide, now: int)
    requires r.amount >= 0.0 && 0.0 <= r.commissionPercentage <= 100.0
    ensures 0.0 <= Started(r, now).commissionAmount <= r.amount
    ensures Started(r, now).commissionAmount * 100.0 == r.amount * r.commissionPercentage
  {
    var c := r.amount / 100.0;
    assert c >= 0.0 && c * 100.0 == r.amount;
    assert c * r.commissionPercentage >= 0.0;
    assert c * r.commissionPercentage <= c * 100.0;
  }

  /** Counts the driver's rides cancelled by the driver: `canceled_user_type = DRIVER`. */
  function DriverCancelCount(rides: seq<DriverRide>, driverId: int): nat
  {
    if |rides| == 0 then 0
    else DriverCancelCount(rides[..|rides| - 1], driverId) + CancelWeight(rides[|rides| - 1], driverId)
  }

  /** One for a ride of the driver cancelled by the driver, zero otherwise. */
  function CancelWeight(r: DriverRide, driverId: int): nat
  {
    if r.driverId == Some(driverId) && r.canceledBy == Some(ByDriver) then 1 else 0
  }

  /** Replacing one ride changes the count by the difference of the two rides' weights. */
  lemma {:induction false} CancelCountUpdate(rides: seq<DriverRide>, k: nat, r: DriverRide, driverId: int)
    requires k < |rides|
    ensures DriverCancelCount(rides[k := r], driverId)
            == DriverCancelCount(rides, driverId) - CancelWeight(rides[k], driverId) + CancelWeight(r, driverId)
  {
    var last := |rides| - 1;
    assert rides[k := r][..last] == if k == last then rides[..last] else rides[..last][k := r];
    if k < last {
      CancelCountUpdate(rides[..last], k, r, driverId);
    }
  }

  /**
   * A driver's cancellation of their own active or running ride adds exactly
   * one to their cancellation count, so from the `limit`-th cancellation on
   * every further one is penalised.
   */
  lemma CancelCountsOnce(rides: seq<DriverRide>, k: nat, driverId: int, reason: string, now: int)
    requires k < |rides| && rides[k].driverId == Some(driverId) && rides[k].canceledBy.None?
    ensures DriverCancelCount(rides[k := CanceledByDriver(rides[k], reason, now)], driverId)
            == DriverCancelCount(rides, driverId) + 1
  {
    CancelCountUpdate(rides, k, CanceledByDriver(rides[k], reason, now), driverId);
  }

  /** What the receipt states as the amount paid: the fare plus tips, less the discount. */
  function FinalAmount(r: DriverRide): real
  {
    r.amount + r.tipsAmount - r.discountAmount
  }

  // ---------------------------------------------------------------------------
  // The driver's requests

  class DriverDesk {
    const driverId: int
    var balance: real
    var rides: seq<DriverRide>

    /** Ride ids are unique, and only a cancelled ride records who cancelled it. */
    ghost predicate Valid()
      reads this
    {
      && (forall i, j :: 0 <= i < j < |rides| ==> rides[i].id != rides[j].id)
      && (forall k :: 0 <= k < |rides| ==> rides[k].canceledBy.Some? ==> rides[k].status == Canceled)
    }

    constructor (driverId: int, balance: real, rides: seq<DriverRide>)
      requires forall i, j :: 0 <= i < j < |rides| ==> rides[i].id != rides[j].id
      requires forall k :: 0 <= k < |rides| ==> rides[k].canceledBy.Some? ==> rides[k].status == Canceled
      ensures Valid()
      ensures this.driverId == driverId && this.balance == balance && this.rides == rides
    {
      this.driverId := driverId;
      this.balance := balance;
      this.rides := rides;
    }

    /**
     * `start`: the OTP must be six digits; the ride must be this driver's and
     * active; the driver must have no running ride; the OTP must match. Then
     * the ride runs from now with its commission recorded. A refused request
     * changes nothing.
     */
    method Start(id: int, otp: string, now: int) returns (outcome: Outcome)
      requires Valid()
      modifies this
      ensures Valid() && balance == old(balance)
      ensures var k := OwnRide(old(rides), id, driverId, {Active});
              && (!SixDigits(otp) ==> outcome == InvalidInput)
              && (SixDigits(otp) && k.None? ==> outcome == NotFound)
              && (SixDigits(otp) && k.Some? && HasRunning(old(rides), driverId) ==> outcome == AnotherRunning)
              && (SixDigits(otp) && k.Some? && !HasRunning(old(rides), driverId) && DigitsValue(otp) != old(rides)[k.value].otp ==>
                    outcome == InvalidOtp)
              && (outcome == Ok <==>
                    SixDigits(otp) && k.Some? && !HasRunning(old(rides), driverId) && DigitsValue(otp) == old(rides)[k.value].otp)
              && (outcome == Ok ==> rides == old(rides)[k.value := Started(old(rides)[k.value], now)])
              && (outcome != Ok ==> rides == old(rides))
    {
      if !SixDigits(otp) {
        return InvalidInput;
      }
      var k := OwnRide(rides, id, driverId, {Active});
      if k.None? {
        return NotFound;
      }
      if HasRunning(rides, driverId) {
        return AnotherRunning;
      }
      if rides[k.value].otp != DigitsValue(otp) {
        return InvalidOtp;
      }
      rides := rides[k.value := Started(rides[k.value], now)];
      outcome := Ok;
    }

    /**
     * `end`: this driver's running ride is ended now and awaits payment; any
     * other ride is refused and nothing changes.
     */
    method End(id: int, now: int) returns (outcome: Outcome)
      requires Valid()
      modifies this
      ensures Valid() && balance == old(balance)
      ensures var k := OwnRide(old(rides), id, driverId, {Running});
              && (k.None? ==> outcome == NotFound && rides == old(rides))
              && (k.Some? ==> outcome == Ok && rides == old(rides)[k.value := Ended(old(rides)[k.value], now)])
    {
      var k := OwnRide(rides, id, driverId, {Running});
      if k.None? {
        return NotFound;
      }
      rides := rides[k.value := Ended(rides[k.value], now)];
      outcome := Ok;
    }

    /**
     * `cancel`: the reason is required (not blank); the ride must be this driver's and
     * active or running. When the driver has already cancelled `limit` or more
     * rides, `penalty` is taken from their balance. The ride is then cancelled
     * by the driver, now, for the reason given.
     */
    method Cancel(id: int, reason: string, now: int, limit: int, penalty: real) returns (outcome: Outcome, penalized: bool)
      requires Valid()
      modifies this
      ensures Valid()
      ensures var k := OwnRide(old(rides), id, driverId, {Active, Running});
              && (Blank(reason) ==> outcome == InvalidInput)
              && (!Blank(reason) && k.None? ==> outcome == NotFound)
              && (outcome == Ok <==> !Blank(reason) && k.Some?)
              && (outcome != Ok ==> !penalized && rides == old(rides) && balance == old(balance))
              && (outcome == Ok ==>
                    && penalized == (DriverCancelCount(old(rides), driverId) >= limit)
                    && balance == old(balance) - (if penalized then penalty else 0.0)
                    && rides == old(rides)[k.value := CanceledByDriver(old(rides)[k.value], reason, now)]
                    && DriverCancelCount(rides, driverId) == DriverCancelCount(old(rides), driverId) + 1)
    {
      penalized := false;
      if Blank(reason) {
        return InvalidInput, false;
      }
      var k := OwnRide(rides, id, driverId, {Active, Running});
      if k.None? {
        return NotFound, false;
      }
      var cancelRideCount := DriverCancelCount(rides, driverId);
      penalized := cancelRideCount >= limit;
      if penalized {
        balance := balance - penalty;
      }
      CancelCountsOnce(rides, k.value, driverId, reason, now);
      rides := rides[k.value := CanceledByDriver(rides[k.value], reason, now)];
      outcome := Ok;
    }

    /**
     * `receivedCashPayment`: accepted only for this driver's ended ride that
     * is waiting for a cash payment. The payment itself is not part of this
     * model; the ride table is unchanged.
     */
    method ReceivedCashPayment(id: int) returns (outcome: Outcome)
      ensures var k := OwnRide(rides, id, driverId, {RideEnd});
              && (k.None? ==> outcome == NotFound)
              && (k.Some? && rides[k.value].paymentStatus != WaitingForCashPayment ==> outcome == CashNotPending)
              && (outcome == Ok <==> k.Some? && rides[k.value].paymentStatus == WaitingForCashPayment)
    {
      var k := OwnRide(rides, id, driverId, {RideEnd});
      if k.None? {
        return NotFound;
      }
      if rides[k.value].paymentStatus != WaitingForCashPayment {
        return CashNotPending;
      }
      outcome := Ok;
    }

    /**
     * `receipt`: for this driver's completed ride, the amount the receipt
     * states; a ride of theirs not yet completed has none.
     */
    method Receipt(id: int) returns (outcome: Outcome, finalAmount: real)
      ensures var k := Find(rides, id);
              && (k.None? || rides[k.value].driverId != Some(driverId) ==> outcome == NotFound)
              && (k.Some? && rides[k.value].driverId == Some(driverId) && rides[k.value].status != Completed ==>
                    outcome == NotCompleted)
              && (outcome == Ok <==> k.Some? && rides[k.value].driverId == Some(driverId) && rides[k.value].status == Completed)
              && (outcome == Ok ==> finalAmount == rides[k.value].amount + rides[k.value].tipsAmount - rides[k.value].discountAmount)
    {
      finalAmount := 0.0;
      var k := Find(rides, id);
      if k.None? || rides[k.value].driverId != Some(driverId) {
        return NotFound, 0.0;
      }
      if rides[k.value].status != Completed {
        return NotCompleted, 0.0;
      }
      outcome := Ok;
      finalAmount := FinalAmount(rides[k.value]);
    }
  }
}
