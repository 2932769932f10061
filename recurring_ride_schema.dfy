/** The backend's recurring-ride records: the database row with its column defaults, the
    create body with its `schedule_type` default, the partial update body, the response body,
    and the two option records. */
module RecurringRideSchema {
  import opened Outcomes

  const DefaultScheduleType := "weekly"
  const DefaultStatus := "active"

  /** The fields a driver submits (`RecurringRideBase`, also the create body). `dayOfWeek` is a
      plain integer (documented as 0=Monday .. 6=Sunday, never range-checked); `startTime` is a
      time of day as seconds after midnight; `totalFare` is the float amount, kept opaque. */
  datatype RecurringRideBase = RecurringRideBase(
    carId: int,
    startLocation: string,
    endLocation: string,
    dayOfWeek: int,
    startTime: int,
    seatsAvailable: int,
    totalFare: int,
    scheduleType: string)

  /** A create body as sent: `scheduleType` is None when the client leaves it out. */
  datatype CreateRequest = CreateRequest(
    carId: int,
    startLocation: string,
    endLocation: string,
    dayOfWeek: int,
    startTime: int,
    seatsAvailable: int,
    totalFare: int,
    scheduleType: Option<string>)

  /** Parsing a create body into `RecurringRideCreate`: every field is taken as sent, and a
      missing `schedule_type` becomes "weekly". */
  function ParseCreate(req: CreateRequest): (b: RecurringRideBase)
    ensures b.scheduleType == if req.scheduleType.Some? then req.scheduleType.value else DefaultScheduleType
    ensures b.carId == req.carId && b.startLocation == req.startLocation && b.endLocation == req.endLocation
    ensures b.dayOfWeek == req.dayOfWeek && b.startTime == req.startTime
    ensures b.seatsAvailable == req.seatsAvailable && b.totalFare == req.totalFare
  {
    RecurringRideBase(req.carId, req.startLocation, req.endLocation, req.dayOfWeek,
      req.startTime, req.seatsAvailable, req.totalFare,
      match req.scheduleType case Some(t) => t case None => DefaultScheduleType)
  }

  /** A row of `recurring_rides`. Every column is NOT NULL; `id` is the primary key;
      timestamps are milliseconds. */
  datatype RecurringRide = RecurringRide(
    id: int,
    driverId: int,
    carId: int,
    startLocation: string,
    endLocation: string,
    dayOfWeek: int,
    startTime: int,
    seatsAvailable: int,
    totalFare: int,
    scheduleType: string,
    status: string,
    createdAt: int,
    updatedAt: int)

  /** `RecurringRide(**body.dict(), driver_id=driverId)` once inserted: the body's fields, the
      given driver, the next key, status "active" and both timestamps at insertion time. */
  function NewRow(body: RecurringRideBase, driverId: int, id: int, now: int): RecurringRide {
    RecurringRide(id, driverId, body.carId, body.startLocation, body.endLocation,
      body.dayOfWeek, body.startTime, body.seatsAvailable, body.totalFare, body.scheduleType,
      DefaultStatus, now, now)
  }

  /** The `RecurringRideBase` part of a row. */
  function BaseOf(row: RecurringRide): RecurringRideBase {
    RecurringRideBase(row.carId, row.startLocation, row.endLocation, row.dayOfWeek,
      row.startTime, row.seatsAvailable, row.totalFare, row.scheduleType)
  }

  /** `RecurringRideResponse`: the base fields plus id, driver, status and timestamps. */
  datatype RecurringRideResponse = RecurringRideResponse(
    base: RecurringRideBase, id: int, driverId: int, status: string, createdAt: int, updatedAt: int)

  /** The response body of a row (`from_attributes`). */
  function ToResponse(row: RecurringRide): RecurringRideResponse {
    RecurringRideResponse(BaseOf(row), row.id, row.driverId, row.status, row.createdAt, row.updatedAt)
  }

  /** A created row answers with exactly the submitted fields, the caller as driver, status
      "active", and the default schedule type when none was sent. */
  lemma CreateResponseRoundTrip(req: CreateRequest, driverId: int, id: int, now: int)
    ensures ToResponse(NewRow(ParseCreate(req), driverId, id, now)).base == ParseCreate(req)
    ensures ToResponse(NewRow(ParseCreate(req), driverId, id, now)).driverId == driverId
    ensures ToResponse(NewRow(ParseCreate(req), driverId, id, now)).status == DefaultStatus
    ensures req.scheduleType.None? ==>
      ToResponse(NewRow(ParseCreate(req), driverId, id, now)).base.scheduleType == "weekly"
  {
  }

  /** A field of the update body: not sent, sent as null, or sent with a value. */
  datatype Field<T> = Unset | Null | Value(v: T)

  /** `RecurringRideUpdate`: the patchable fields. There is no car, schedule type or driver. */
  datatype RecurringRideUpdate = RecurringRideUpdate(
    startLocation: Field<string>,
    endLocation: Field<string>,
    dayOfWeek: Field<int>,
    startTime: Field<int>,
    seatsAvailable: Field<int>,
    totalFare: Field<int>,
    status: Field<string>)

  /** The body `{}`: every field left at its default. */
  const EmptyUpdate := RecurringRideUpdate(Unset, Unset, Unset, Unset, Unset, Unset, Unset)

  /** One `setattr(row, key, value)` of the update loop; None stands for null. */
  datatype Assignment =
    | SetStartLocation(text: Option<string>)
    | SetEndLocation(text: Option<string>)
    | SetDayOfWeek(number: Option<int>)
    | SetStartTime(number: Option<int>)
    | SetSeatsAvailable(number: Option<int>)
    | SetTotalFare(number: Option<int>)
    | SetStatus(text: Option<string>)

  /** Whether an assignment writes null. */
  predicate WritesNull(a: Assignment) {
    match a
    case SetStartLocation(t) => t.None?
    case SetEndLocation(t) => t.None?
    case SetDayOfWeek(n) => n.None?
    case SetStartTime(n) => n.None?
    case SetSeatsAvailable(n) => n.None?
    case SetTotalFare(n) => n.None?
    case SetStatus(t) => t.None?
  }

  /** The entry of one field in `dict(exclude_unset=True)`. */
  function Entry<T>(f: Field<T>, make: Option<T> -> Assignment): seq<Assignment> {
    match f
    case Unset => []
    case Null => [make(None)]
    case Value(v) => [make(Some(v))]
  }

  /** `update.dict(exclude_unset=True).items()`: the explicitly sent fields, null ones
      included, in declaration order. */
  function SetFields(u: RecurringRideUpdate): seq<Assignment> {
    Entry(u.startLocation, t => SetStartLocation(t)) +
    Entry(u.endLocation, t => SetEndLocation(t)) +
    Entry(u.dayOfWeek, n => SetDayOfWeek(n)) +
    Entry(u.startTime, n => SetStartTime(n)) +
    Entry(u.seatsAvailable, n => SetSeatsAvailable(n)) +
    Entry(u.totalFare, n => SetTotalFare(n)) +
    Entry(u.status, t => SetStatus(t))
  }

  /** Whether the body sends some field as null. */
  predicate SendsNull(u: RecurringRideUpdate) {
    u.startLocation.Null? || u.endLocation.Null? || u.dayOfWeek.Null? || u.startTime.Null? ||
    u.seatsAvailable.Null? || u.totalFare.Null? || u.status.Null?
  }

  /** `setattr(row, key, value)`; a null leaves the in-memory row as it was, since the commit
      that would store it fails. */
  function Assign(row: RecurringRide, a: Assignment): RecurringRide {
    match a
    case SetStartLocation(t) => if t.Some? then row.(startLocation := t.value) else row
    case SetEndLocation(t) => if t.Some? then row.(endLocation := t.value) else row
    case SetDayOfWeek(n) => if n.Some? then row.(dayOfWeek := n.value) else row
    case SetStartTime(n) => if n.Some? then row.(startTime := n.value) else row
    case SetSeatsAvailable(n) => if n.Some? then row.(seatsAvailable := n.value) else row
    case SetTotalFare(n) => if n.Some? then row.(totalFare := n.value) else row
    case SetStatus(t) => if t.Some? then row.(status := t.value) else row
  }

  /** The row after the assignments, applied in order. */
  function AssignAll(row: RecurringRide, items: seq<Assignment>): RecurringRide {
    if items == [] then row else Assign(AssignAll(row, items[..|items| - 1]), items[|items| - 1])
  }

  /** The value a field of the body leaves a column with. */
  function Patch<T>(f: Field<T>, current: T): T {
    if f.Value? then f.v else current
  }

  /** The reference meaning of an update: each sent field takes its value, every other column
      (the id, driver, car, schedule type and timestamps in particular) keeps its own. */
  function Patched(row: RecurringRide, u: RecurringRideUpdate): (r: RecurringRide)
    ensures r.id == row.id && r.driverId == row.driverId && r.carId == row.carId
    ensures r.scheduleType == row.scheduleType
    ensures r.createdAt == row.createdAt && r.updatedAt == row.updatedAt
    ensures u == EmptyUpdate ==> r == row
  {
    row.(startLocation := Patch(u.startLocation, row.startLocation),
         endLocation := Patch(u.endLocation, row.endLocation),
         dayOfWeek := Patch(u.dayOfWeek, row.dayOfWeek),
         startTime := Patch(u.startTime, row.startTime),
         seatsAvailable := Patch(u.seatsAvailable, row.seatsAvailable),
         totalFare := Patch(u.totalFare, row.totalFare),
         status := Patch(u.status, row.status))
  }

  /** Applying assignments one list after another is applying their concatenation. */
  lemma {:induction false} AssignAllAppend(row: RecurringRide, a: seq<Assignment>, b: seq<Assignment>)
    ensures AssignAll(row, a + b) == AssignAll(AssignAll(row, a), b)
  {
    if b == [] {
      assert a + b == a;
    } else {
      var c := a + b;
      assert c[..|c| - 1] == a + b[..|b| - 1];
      AssignAllAppend(row, a, b[..|b| - 1]);
    }
  }

  /** Applying one field's entry: a value is assigned, and a null or unset field leaves the
      row (a null is caught at commit instead). */
  lemma AssignEntry<T>(row: RecurringRide, f: Field<T>, make: Option<T> -> Assignment)
    requires Assign(row, make(None)) == row
    ensures AssignAll(row, Entry(f, make)) == if f.Value? then Assign(row, make(Some(f.v))) else row
  {
    var e := Entry(f, make);
    if e != [] {
      assert e[..|e| - 1] == [];
    }
  }

  /** The seven entries of the update loop, one list after another. */
  lemma AssignFields(row: RecurringRide, u: RecurringRideUpdate)
    ensures AssignAll(row, SetFields(u)) ==
      var r1 := AssignAll(row, Entry(u.startLocation, t => SetStartLocation(t)));
      var r2 := AssignAll(r1, Entry(u.endLocation, t => SetEndLocation(t)));
      var r3 := AssignAll(r2, Entry(u.dayOfWeek, n => SetDayOfWeek(n)));
      var r4 := AssignAll(r3, Entry(u.startTime, n => SetStartTime(n)));
      var r5 := AssignAll(r4, Entry(u.seatsAvailable, n => SetSeatsAvailable(n)));
      var r6 := AssignAll(r5, Entry(u.totalFare, n => SetTotalFare(n)));
      AssignAll(r6, Entry(u.status, t => SetStatus(t)))
  {
    var e1 := Entry(u.startLocation, t => SetStartLocation(t));
    var e2 := Entry(u.endLocation, t => SetEndLocation(t));
    var e3 := Entry(u.dayOfWeek, n => SetDayOfWeek(n));
    var e4 := Entry(u.startTime, n => SetStartTime(n));
    var e5 := Entry(u.seatsAvailable, n => SetSeatsAvailable(n));
    var e6 := Entry(u.totalFare, n => SetTotalFare(n));
    var e7 := Entry(u.status, t => SetStatus(t));
    AssignAllAppend(row, e1, e2);
    AssignAllAppend(row, e1 + e2, e3);
    AssignAllAppend(row, e1 + e2 + e3, e4);
    AssignAllAppend(row, e1 + e2 + e3 + e4, e5);
    AssignAllAppend(row, e1 + e2 + e3 + e4 + e5, e6);
    AssignAllAppend(row, e1 + e2 + e3 + e4 + e5 + e6, e7);
  }

  /** The `setattr` loop over `dict(exclude_unset=True)` does what `Patched` says. */
  lemma SetattrLoopIsPatch(row: RecurringRide, u: RecurringRideUpdate)
    ensures AssignAll(row, SetFields(u)) == Patched(row, u)
  {
    AssignFields(row, u);
    AssignEntry(row, u.startLocation, t => SetStartLocation(t));
    var r1 := AssignAll(row, Entry(u.startLocation, t => SetStartLocation(t)));
    AssignEntry(r1, u.endLocation, t => SetEndLocation(t));
    var r2 := AssignAll(r1, Entry(u.endLocation, t => SetEndLocation(t)));
    AssignEntry(r2, u.dayOfWeek, n => SetDayOfWeek(n));
    var r3 := AssignAll(r2, Entry(u.dayOfWeek, n => SetDayOfWeek(n)));
    AssignEntry(r3, u.startTime, n => SetStartTime(n));
    var r4 := AssignAll(r3, Entry(u.startTime, n => SetStartTime(n)));
    AssignEntry(r4, u.seatsAvailable, n => SetSeatsAvailable(n));
    var r5 := AssignAll(r4, Entry(u.seatsAvailable, n => SetSeatsAvailable(n)));
    AssignEntry(r5, u.totalFare, n => SetTotalFare(n));
    var r6 := AssignAll(r5, Entry(u.totalFare, n => SetTotalFare(n)));
    AssignEntry(r6, u.status, t => SetStatus(t));
  }

  /** The loop writes some null exactly when the body sends a field as null. */
  lemma SetFieldsWritesNull(u: RecurringRideUpdate)
    ensures (exists i :: 0 <= i < |SetFields(u)| && WritesNull(SetFields(u)[i])) <==> SendsNull(u)
  {
    var e1 := Entry(u.startLocation, t => SetStartLocation(t));
    var e2 := Entry(u.endLocation, t => SetEndLocation(t));
    var e3 := Entry(u.dayOfWeek, n => SetDayOfWeek(n));
    var e4 := Entry(u.startTime, n => SetStartTime(n));
    var e5 := Entry(u.seatsAvailable, n => SetSeatsAvailable(n));
    var e6 := Entry(u.totalFare, n => SetTotalFare(n));
    var e7 := Entry(u.status, t => SetStatus(t));
    var s := SetFields(u);
    assert s == e1 + e2 + e3 + e4 + e5 + e6 + e7;
    if SendsNull(u) {
      if u.startLocation.Null? {
        assert WritesNull(s[0]);
      } else if u.endLocation.Null? {
        assert WritesNull(s[|e1|]);
      } else if u.dayOfWeek.Null? {
        assert WritesNull(s[|e1 + e2|]);
      } else if u.startTime.Null? {
        assert WritesNull(s[|e1 + e2 + e3|]);
      } else if u.seatsAvailable.Null? {
        assert WritesNull(s[|e1 + e2 + e3 + e4|]);
      } else if u.totalFare.Null? {
        assert WritesNull(s[|e1 + e2 + e3 + e4 + e5|]);
      } else {
        assert WritesNull(s[|e1 + e2 + e3 + e4 + e5 + e6|]);
      }
    }
  }

  /** `DayOfWeekOption`; `text` is the `label` field ("label" is a Dafny keyword). */
  datatype DayOfWeekOption = DayOfWeekOption(value: int, text: string)

  /** `ScheduleOption`; `text` is the `label` field. */
  datatype ScheduleOption = ScheduleOption(value: string, text: string)
}
