/** The rides hook: the searched rides, the driver's own rides and requests, the loading flag and
    the error text. Several actions fall back to demo data when the call fails. Fares are whole
    cents and are never computed with; every `Date.now()` value and ISO stamp the source reads
    is a parameter. */
module RidesHook {
  import opened Outcomes
  import opened Text
  import opened Lists

  const DemoDriver := 1
  const UpdateFailed := "Failed to update ride"

  /** A ride as the client holds it; the embedded `driver` and `car` records are display data
      and are not modelled. */
  datatype Ride = Ride(
    id: int, driverId: int, carId: int, startLocation: string, endLocation: string,
    startTime: string, seatsAvailable: int, totalFare: int, status: string, createdAt: string)

  /** `CreateRideData` */
  datatype CreateRideData = CreateRideData(
    carId: int, startLocation: string, endLocation: string, startTime: string,
    seatsAvailable: int, totalFare: int)

  /** A ride request as the client holds it. */
  datatype RideRequest = RideRequest(
    id: int, riderId: int, rideId: int, status: string, requestedAt: string, message: Option<string>)

  /** What `requestRide` returns: the server's request, or the `{ id, status }` stand-in it makes
      up when the call fails. */
  datatype RequestReply = Sent(request: RideRequest) | Simulated(id: int, status: string)

  function RideId(r: Ride): int {
    r.id
  }

  /** The submitted fields of a ride. */
  function DataOf(r: Ride): CreateRideData {
    CreateRideData(r.carId, r.startLocation, r.endLocation, r.startTime, r.seatsAvailable, r.totalFare)
  }

  /** The ride `createRide` makes up when the call fails: the temporary id, driver 1, the
      submitted fields, status "active". */
  function MockNewRide(data: CreateRideData, tempId: int, nowStamp: string): Ride {
    Ride(tempId, DemoDriver, data.carId, data.startLocation, data.endLocation, data.startTime,
      data.seatsAvailable, data.totalFare, "active", nowStamp)
  }

  /** The made-up ride carries exactly the submitted fields. */
  lemma MockNewRideCarriesData(data: CreateRideData, tempId: int, nowStamp: string)
    ensures DataOf(MockNewRide(data, tempId, nowStamp)) == data
    ensures MockNewRide(data, tempId, nowStamp).driverId == DemoDriver
    ensures MockNewRide(data, tempId, nowStamp).status == "active"
  {
  }

  /** The two demo rides `searchRides` shows when the call fails. `in2h` and `in4h` are the ISO
      times two and four hours from now. */
  function MockRides(in2h: string, in4h: string, nowStamp: string): (r: seq<Ride>)
    ensures |r| == 2 && r[0].id != r[1].id
    ensures forall i :: 0 <= i < |r| ==> r[i].status == "active"
  {
    [Ride(1, 2, 1, "Stanford University", "San Francisco", in2h, 3, 2500, "active", nowStamp),
     Ride(2, 3, 2, "Palo Alto", "Mountain View", in4h, 2, 1500, "active", nowStamp)]
  }

  /** The demo ride `getMyRides` shows when the call fails, starting a day from now. */
  function MockMyRides(tomorrow: string, nowStamp: string): (r: seq<Ride>)
    ensures |r| == 1 && r[0].id == 101 && r[0].driverId == DemoDriver
  {
    [Ride(101, DemoDriver, 1, "Stanford University", "San Francisco", tomorrow, 3, 2500, "active", nowStamp)]
  }

  /** The demo request `getMyRequests` shows when the call fails. */
  function MockRequests(nowStamp: string): (r: seq<RideRequest>)
    ensures |r| == 1 && r[0].status == "pending" && r[0].riderId == DemoDriver
  {
    [RideRequest(1, DemoDriver, 1, "pending", nowStamp, Some("Hi, I would like to join your ride!"))]
  }

  /** The demo details `getRideDetails` returns when the call fails: the asked-for id on the
      first demo ride. */
  function MockRideDetails(rideId: int, in2h: string, nowStamp: string): (r: Ride)
    ensures r.id == rideId && r.driverId == 2 && r.status == "active"
  {
    Ride(rideId, 2, 1, "Stanford University", "San Francisco", in2h, 3, 2500, "active", nowStamp)
  }

  const MinuteMs := 60 * 1000
  const HourMs := 60 * MinuteMs
  const DayMs := 24 * HourMs

  /** `getTimeUntilRide` for a ride `diffMs` milliseconds away. Whole hours and the minutes past
      them are floor divisions; more than 24 whole hours is shown in whole days. */
  function TimeUntilRide(diffMs: int): (r: string)
    ensures r == "Started" <==> diffMs < 0
    ensures diffMs >= 25 * HourMs ==>
      r == NatToString(diffMs / DayMs) + (if diffMs >= 2 * DayMs then " days" else " day")
    ensures HourMs <= diffMs < 25 * HourMs ==>
      r == NatToString(diffMs / HourMs) + "h " + NatToString(diffMs % HourMs / MinuteMs) + "m"
    ensures 0 <= diffMs < HourMs ==> r == NatToString(diffMs / MinuteMs) + "m"
  {
    if diffMs < 0 then "Started"
    else
      var diffHours := diffMs / (1000 * 60 * 60);
      var diffMinutes := (diffMs % (1000 * 60 * 60)) / (1000 * 60);
      CountdownArithmetic(diffMs);
      Countdown(diffHours, diffMinutes)
  }

  /** The text for a non-negative difference of `diffHours` whole hours and `diffMinutes` more
      minutes: it always starts with a digit. */
  function Countdown(diffHours: nat, diffMinutes: nat): (r: string)
    ensures |r| > 0 && IsDigit(r[0])
  {
    var r :=
      if diffHours > 24 then
        var diffDays := diffHours / 24;
        NatToString(diffDays) + " day" + (if diffDays > 1 then "s" else "")
      else if diffHours > 0 then
        NatToString(diffHours) + "h " + NatToString(diffMinutes) + "m"
      else
        NatToString(diffMinutes) + "m";
    assert r[0] == r[..1][0];
    r
  }

  /** The thresholds of the hour count, moved to milliseconds. */
  lemma CountdownArithmetic(diffMs: int)
    requires diffMs >= 0
    ensures diffMs / HourMs > 24 <==> diffMs >= 25 * HourMs
    ensures diffMs / HourMs > 0 <==> diffMs >= HourMs
    ensures diffMs / HourMs / 24 == diffMs / DayMs
    ensures diffMs / DayMs > 1 <==> diffMs >= 2 * DayMs
    ensures diffMs < HourMs ==> diffMs % HourMs / MinuteMs == diffMs / MinuteMs
  {
  }

  /** The hours and minutes shown are the whole time left rounded down to the minute, with the
      minutes always below 60. */
  lemma TimeUntilRideRoundsDown(diffMs: int)
    requires diffMs >= 0
    ensures var h, m := diffMs / HourMs, diffMs % HourMs / MinuteMs;
      0 <= m < 60 && h * HourMs + m * MinuteMs <= diffMs < h * HourMs + (m + 1) * MinuteMs
  {
  }

  /** The day count gets a plural "s" exactly when it is above one. */
  lemma DaysPlural(diffMs: int)
    requires diffMs >= 25 * HourMs
    ensures var r := TimeUntilRide(diffMs);
      (diffMs / DayMs > 1 <==> r[|r| - 1] == 's') && diffMs / DayMs >= 1
  {
    var n := NatToString(diffMs / DayMs);
    var r := TimeUntilRide(diffMs);
    if diffMs >= 2 * DayMs {
      assert r == n + " days";
    } else {
      assert r == n + " day";
    }
  }

  class Rides {
    var rides: seq<Ride>
    var myRides: seq<Ride>
    var myRequests: seq<RideRequest>
    var loading: bool
    var error: Option<string>

    constructor ()
      ensures rides == [] && myRides == [] && myRequests == [] && !loading && error == None
    {
      rides := [];
      myRides := [];
      myRequests := [];
      loading := false;
      error := None;
    }

    /** `searchRides`: the fetched rides (`[]` for a null body), or the two demo rides when the
        call fails; the error is never set. */
    method SearchRides(response: Outcome<Option<seq<Ride>>>, in2h: string, in4h: string, nowStamp: string)
      modifies this`rides, this`loading, this`error
      ensures !loading && error == None
      ensures response.Success? ==> rides == (if response.value.Some? then response.value.value else [])
      ensures response.Failure? ==> rides == MockRides(in2h, in4h, nowStamp)
    {
      loading := true;
      error := None;
      match response {
        case Success(data) =>
          rides := if data.Some? then data.value else [];
        case Failure(_) =>
          rides := MockRides(in2h, in4h, nowStamp);
      }
      loading := false;
    }

    /** `createRide`: one ride is appended either way, the server's or the made-up one, and
        returned; no error is set. */
    method CreateRide(data: CreateRideData, response: Outcome<Ride>, tempId: int, nowStamp: string)
      returns (r: Ride)
      modifies this`myRides, this`loading, this`error
      ensures !loading && error == None
      ensures myRides == old(myRides) + [r]
      ensures response.Success? ==> r == response.value
      ensures response.Failure? ==> r == MockNewRide(data, tempId, nowStamp)
    {
      loading := true;
      error := None;
      match response {
        case Success(newRide) =>
          r := newRide;
        case Failure(_) =>
          r := MockNewRide(data, tempId, nowStamp);
      }
      myRides := myRides + [r];
      loading := false;
    }

    /** `getMyRides`: the fetched rides, or the one demo ride when the call fails. */
    method GetMyRides(response: Outcome<Option<seq<Ride>>>, tomorrow: string, nowStamp: string)
      modifies this`myRides, this`loading, this`error
      ensures !loading && error == None
      ensures response.Success? ==> myRides == (if response.value.Some? then response.value.value else [])
      ensures response.Failure? ==> myRides == MockMyRides(tomorrow, nowStamp)
    {
      loading := true;
      error := None;
      match response {
        case Success(data) =>
          myRides := if data.Some? then data.value else [];
        case Failure(_) =>
          myRides := MockMyRides(tomorrow, nowStamp);
      }
      loading := false;
    }

    /** `requestRide`: never throws and touches no list; a failed call yields a pending
        stand-in with the temporary id. */
    method RequestRide(rideId: int, message: Option<string>, response: Outcome<RideRequest>, tempId: int)
      returns (r: RequestReply)
      modifies this`loading, this`error
      ensures !loading && error == None
      ensures response.Success? ==> r == Sent(response.value)
      ensures response.Failure? ==> r == Simulated(tempId, "pending")
    {
      loading := true;
      error := None;
      match response {
        case Success(request) =>
          r := Sent(request);
        case Failure(_) =>
          r := Simulated(tempId, "pending");
      }
      loading := false;
    }

    /** `getMyRequests`: the fetched requests, or the one demo request when the call fails. */
    method GetMyRequests(response: Outcome<Option<seq<RideRequest>>>, nowStamp: string)
      modifies this`myRequests, this`loading, this`error
      ensures !loading && error == None
      ensures response.Success? ==> myRequests == (if response.value.Some? then response.value.value else [])
      ensures response.Failure? ==> myRequests == MockRequests(nowStamp)
    {
      loading := true;
      error := None;
      match response {
        case Success(data) =>
          myRequests := if data.Some? then data.value else [];
        case Failure(_) =>
          myRequests := MockRequests(nowStamp);
      }
      loading := false;
    }

    /** `updateRide`: every ride with that id becomes the returned one; on failure the list is
        kept, the error text is set and the error is rethrown. */
    method UpdateRide(rideId: int, response: Outcome<Ride>) returns (r: Result<Ride>)
      modifies this`myRides, this`loading, this`error
      ensures !loading
      ensures response.Success? ==>
        r == Ok(response.value) && error == None &&
        myRides == ReplaceWhere(old(myRides), RideId, rideId, response.value)
      ensures response.Failure? ==>
        r == Thrown(response.message) && myRides == old(myRides) &&
        error == Some(ErrorText(response.message, UpdateFailed))
    {
      loading := true;
      error := None;
      match response {
        case Success(updatedRide) =>
          myRides := ReplaceWhere(myRides, RideId, rideId, updatedRide);
          r := Ok(updatedRide);
        case Failure(message) =>
          error := Some(ErrorText(message, UpdateFailed));
          r := Thrown(message);
      }
      loading := false;
    }

    /** `getRideDetails`: the fetched ride, or the demo details for that id; no list changes. */
    method GetRideDetails(rideId: int, response: Outcome<Ride>, in2h: string, nowStamp: string)
      returns (r: Ride)
      modifies this`loading, this`error
      ensures !loading && error == None
      ensures response.Success? ==> r == response.value
      ensures response.Failure? ==> r == MockRideDetails(rideId, in2h, nowStamp)
    {
      loading := true;
      error := None;
      r := if response.Success? then response.value else MockRideDetails(rideId, in2h, nowStamp);
      loading := false;
    }
  }

  /** A successful update keeps the number of rides of every id, provided the server answers
      with the ride it was asked to update. */
  lemma UpdateKeepsIdCounts(s: seq<Ride>, rideId: int, updated: Ride, other: int)
    requires updated.id == rideId
    ensures CountKey(ReplaceWhere(s, RideId, rideId, updated), RideId, other) == CountKey(s, RideId, other)
  {
    ReplaceWhereKeepsCount(s, RideId, rideId, updated, other);
  }
}
