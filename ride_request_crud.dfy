/** The ride-request table and its queries. A request joins the ride it is for through
    `ride_id`; the rides' own table is read only here. */
module RideRequestCrud {
  import opened Outcomes
  import opened Lists

  const Pending := "pending"
  const Accepted := "accepted"
  /** Six hours, the half-width of the rider's time window, in milliseconds. */
  const WindowMs := 6 * 60 * 60 * 1000

  /** A ride request. `requestedAt` is the insertion time in milliseconds. */
  datatype RideRequest = RideRequest(
    id: int, rideId: int, riderId: int, status: string, message: Option<string>, requestedAt: int)

  /** The columns of a ride that the joins look at. */
  datatype Ride = Ride(id: int, driverId: int, startTime: int, status: string)

  function RequestId(q: RideRequest): int {
    q.id
  }

  function RideId(r: Ride): int {
    r.id
  }

  function RideAndRider(q: RideRequest): (int, int) {
    (q.rideId, q.riderId)
  }

  /** The ride a request joins: the row of `rides` whose id is the request's `ride_id`. */
  function RideOf(rides: seq<Ride>, q: RideRequest): Option<Ride> {
    Find(rides, RideId, q.rideId)
  }

  predicate RequestIdsUnique(requests: seq<RideRequest>) {
    forall i, j :: 0 <= i < j < |requests| ==> requests[i].id != requests[j].id
  }

  function ForRideWithStatus(rideId: int, status: string): RideRequest -> bool {
    (q: RideRequest) => q.rideId == rideId && q.status == status
  }

  /** `get_ride_requests`: exactly the pending requests for the ride. */
  function GetRideRequests(requests: seq<RideRequest>, rideId: int): (r: seq<RideRequest>)
    ensures forall i :: 0 <= i < |r| ==> r[i].rideId == rideId && r[i].status == Pending && r[i] in requests
    ensures forall i :: 0 <= i < |requests| && requests[i].rideId == rideId && requests[i].status == Pending ==>
      requests[i] in r
  {
    Filter(requests, ForRideWithStatus(rideId, Pending))
  }

  /** `get_ride_accepted_requests`: exactly the accepted requests for the ride. */
  function GetRideAcceptedRequests(requests: seq<RideRequest>, rideId: int): (r: seq<RideRequest>)
    ensures forall i :: 0 <= i < |r| ==> r[i].rideId == rideId && r[i].status == Accepted && r[i] in requests
    ensures forall i :: 0 <= i < |requests| && requests[i].rideId == rideId && requests[i].status == Accepted ==>
      requests[i] in r
  {
    Filter(requests, ForRideWithStatus(rideId, Accepted))
  }

  /** A request is never both pending and accepted, so the two lists share no request. */
  lemma PendingAndAcceptedDisjoint(requests: seq<RideRequest>, rideId: int)
    ensures forall i, j :: 0 <= i < |GetRideRequests(requests, rideId)| && 0 <= j < |GetRideAcceptedRequests(requests, rideId)| ==>
      GetRideRequests(requests, rideId)[i] != GetRideAcceptedRequests(requests, rideId)[j]
  {
  }

  /** The join condition of `get_user_ride_requests`: the rider's request whose ride is active
      and starts no earlier than six hours before `now` and no later than six hours after. */
  predicate InUserWindow(rides: seq<Ride>, userId: int, now: int, q: RideRequest) {
    var ride := RideOf(rides, q);
    q.riderId == userId && ride.Some? && now - WindowMs <= ride.value.startTime <= now + WindowMs &&
    ride.value.status == "active"
  }

  function UserWindow(rides: seq<Ride>, userId: int, now: int): RideRequest -> bool {
    (q: RideRequest) => InUserWindow(rides, userId, now, q)
  }

  /** `get_user_ride_requests`: exactly the requests satisfying the window condition. */
  function GetUserRideRequests(requests: seq<RideRequest>, rides: seq<Ride>, userId: int, now: int)
    : (r: seq<RideRequest>)
    ensures forall i :: 0 <= i < |r| ==> InUserWindow(rides, userId, now, r[i]) && r[i] in requests
    ensures forall i :: 0 <= i < |requests| && InUserWindow(rides, userId, now, requests[i]) ==> requests[i] in r
  {
    Filter(requests, UserWindow(rides, userId, now))
  }

  /** Both ends of the window are included: a ride starting exactly six hours from now, in
      either direction, still counts. */
  lemma UserWindowInclusive(rides: seq<Ride>, q: RideRequest, now: int)
    requires RideOf(rides, q).Some? && RideOf(rides, q).value.status == "active"
    requires RideOf(rides, q).value.startTime == now - 21600000 || RideOf(rides, q).value.startTime == now + 21600000
    ensures InUserWindow(rides, q.riderId, now, q)
  {
  }

  /** The join condition of `get_driver_ride_requests`: the request's ride is the driver's and
      active. */
  predicate OnDriversRide(rides: seq<Ride>, driverId: int, q: RideRequest) {
    var ride := RideOf(rides, q);
    ride.Some? && ride.value.driverId == driverId && ride.value.status == "active"
  }

  function DriversRide(rides: seq<Ride>, driverId: int): RideRequest -> bool {
    (q: RideRequest) => OnDriversRide(rides, driverId, q)
  }

  /** `ORDER BY requested_at DESC` */
  predicate NewestFirst(s: seq<RideRequest>) {
    forall i, j :: 0 <= i < j < |s| ==> s[i].requestedAt >= s[j].requestedAt
  }

  /** Puts `x` into a newest-first list before the first element not newer than it. */
  function InsertNewestFirst(x: RideRequest, s: seq<RideRequest>): (r: seq<RideRequest>)
    requires NewestFirst(s)
    ensures NewestFirst(r) && multiset(r) == multiset(s) + multiset{x}
    ensures |r| == |s| + 1 && (r[0] == x || (s != [] && r[0] == s[0]))
  {
    if s == [] || x.requestedAt >= s[0].requestedAt then
      [x] + s
    else
      var t := InsertNewestFirst(x, s[1..]);
      assert s == [s[0]] + s[1..];
      [s[0]] + t
  }

  /** The rows ordered newest first (the order among equal times is left to the database). */
  function SortNewestFirst(s: seq<RideRequest>): (r: seq<RideRequest>)
    ensures NewestFirst(r) && multiset(r) == multiset(s)
  {
    if s == [] then []
    else
      assert s == [s[0]] + s[1..];
      InsertNewestFirst(s[0], SortNewestFirst(s[1..]))
  }

  /** `get_driver_ride_requests`: the requests on the driver's active rides, newest first. */
  function GetDriverRideRequests(requests: seq<RideRequest>, rides: seq<Ride>, driverId: int)
    : (r: seq<RideRequest>)
    ensures NewestFirst(r)
    ensures multiset(r) == multiset(Filter(requests, DriversRide(rides, driverId)))
  {
    SortNewestFirst(Filter(requests, DriversRide(rides, driverId)))
  }

  /** The driver's list holds exactly the requests on the driver's active rides. */
  lemma DriverRequestsExactly(requests: seq<RideRequest>, rides: seq<Ride>, driverId: int, q: RideRequest)
    ensures q in GetDriverRideRequests(requests, rides, driverId) <==> q in requests && OnDriversRide(rides, driverId, q)
  {
    var f := Filter(requests, DriversRide(rides, driverId));
    var r := GetDriverRideRequests(requests, rides, driverId);
    assert q in r <==> q in multiset(r);
    assert q in f <==> q in multiset(f);
    if q in requests && OnDriversRide(rides, driverId, q) {
      var i :| 0 <= i < |requests| && requests[i] == q;
      assert q in f;
    }
    if q in f {
      var i :| 0 <= i < |f| && f[i] == q;
    }
  }

  /** `user_already_requested`: some request, in any status, has this ride and rider. */
  function UserAlreadyRequested(requests: seq<RideRequest>, rideId: int, userId: int): (b: bool)
    ensures b <==> exists i :: 0 <= i < |requests| && requests[i].rideId == rideId && requests[i].riderId == userId
  {
    var i := FindIndex(requests, RideAndRider, (rideId, userId));
    assert i >= 0 ==> RideAndRider(requests[i]) == (rideId, userId);
    i != -1
  }

  /** `get_existing_request_time`: when the first such request was made, or None. The ISO
      rendering of the time is not modelled: the time is returned as a number. */
  function GetExistingRequestTime(requests: seq<RideRequest>, rideId: int, userId: int): (r: Option<int>)
    ensures r.None? <==> !UserAlreadyRequested(requests, rideId, userId)
    ensures r.Some? ==> (exists i :: 0 <= i < |requests| && requests[i].rideId == rideId &&
                                     requests[i].riderId == userId && requests[i].requestedAt == r.value)
  {
    var found := Find(requests, RideAndRider, (rideId, userId));
    if found.None? then None else Some(found.value.requestedAt)
  }

  class RideRequestTable {
    var requests: seq<RideRequest>
    /** The next value of the autoincrement key. */
    var nextId: int

    ghost predicate Valid()
      reads this
    {
      RequestIdsUnique(requests) && forall i :: 0 <= i < |requests| ==> requests[i].id < nextId
    }

    constructor ()
      ensures Valid() && requests == [] && nextId == 1
    {
      requests := [];
      nextId := 1;
    }

    /** `create_ride_request`: inserts one pending request with the given ride, rider and
        message, stamped `now`. It does not look for an earlier request of the same rider. */
    method Create(rideId: int, riderId: int, message: Option<string>, now: int) returns (q: RideRequest)
      requires Valid()
      modifies this
      ensures Valid()
      ensures q == RideRequest(old(nextId), rideId, riderId, Pending, message, now)
      ensures requests == old(requests) + [q] && nextId == old(nextId) + 1
    {
      q := RideRequest(nextId, rideId, riderId, Pending, message, now);
      requests := requests + [q];
      nextId := nextId + 1;
    }

    /** `update_ride_request_status`: None for an unknown id; otherwise that request's status
        becomes `status` and nothing else changes. */
    method UpdateStatus(requestId: int, status: string) returns (r: Option<RideRequest>)
      requires Valid()
      modifies this`requests
      ensures Valid()
      ensures r.None? <==> forall i :: 0 <= i < |old(requests)| ==> old(requests)[i].id != requestId
      ensures r.None? ==> requests == old(requests)
      ensures r.Some? ==> var i := FindIndex(old(requests), RequestId, requestId);
        r.value == old(requests)[i].(status := status) && requests == old(requests)[i := r.value]
    {
      var i := FindIndex(requests, RequestId, requestId);
      if i == -1 {
        return None;
      }
      var q := requests[i].(status := status);
      requests := requests[i := q];
      r := Some(q);
    }
  }

  /** Creating twice for the same ride and rider adds two requests for that pair to whatever
      the table held, with distinct ids: the duplicate check is the caller's, through
      `user_already_requested`. */
  method CreateDoesNotDeduplicate(t: RideRequestTable, rideId: int, riderId: int, now: int)
    returns (firstId: int, secondId: int)
    requires t.Valid()
    modifies t
    ensures t.Valid() && firstId != secondId
    ensures CountKey(t.requests, RideAndRider, (rideId, riderId)) ==
      CountKey(old(t.requests), RideAndRider, (rideId, riderId)) + 2
    ensures UserAlreadyRequested(t.requests, rideId, riderId)
  {
    var before := t.requests;
    var a := t.Create(rideId, riderId, None, now);
    var b := t.Create(rideId, riderId, None, now);
    CountKeyAppend(before, RideAndRider, a, (rideId, riderId));
    CountKeyAppend(before + [a], RideAndRider, b, (rideId, riderId));
    assert t.requests[|t.requests| - 1] == b;
    firstId, secondId := a.id, b.id;
  }
}
