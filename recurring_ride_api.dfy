/** The HTTP endpoints over the recurring-ride table: each one calls one CRUD operation and maps
    its outcome to a response body or an HTTP error. Authentication is a parameter: the caller's
    user id is what `get_current_user` resolved. */
module RecurringRideApi {
  import opened Outcomes
  import opened Lists
  import opened RecurringRideSchema
  import opened RecurringRideCrud

  /** A reply: a body serialised through the response model, an `HTTPException` with its status
      code and detail, or a request that query validation rejected (422) before the handler ran. */
  datatype Reply<T> = Body(value: T) | HttpError(code: nat, detail: string) | Invalid(parameter: string)

  const DefaultLimit := 50
  const MaxLimit := 100
  const NotFoundDetail := "Recurring ride not found"
  const NotOwnedDetail := "Recurring ride not found or unauthorized"
  const DeletedMessage := "Recurring ride deleted successfully"

  /** `List[RecurringRideResponse]`: every row serialised, in order. */
  function Responses(rows: seq<RecurringRide>): (r: seq<RecurringRideResponse>)
    ensures |r| == |rows|
    ensures forall i :: 0 <= i < |rows| ==> r[i] == ToResponse(rows[i])
  {
    if rows == [] then [] else [ToResponse(rows[0])] + Responses(rows[1..])
  }

  /** `GET /`: the active rides of one day when `day_of_week` is given (the limit is then not
      applied), otherwise at most `limit` active rides; a limit above 100 fails validation.
      `limit` is `None` when the query string does not carry it. */
  function SearchRecurringRides(rows: seq<RecurringRide>, limit: Option<int>, dayOfWeek: Option<int>)
    : (r: Reply<seq<RecurringRideResponse>>)
    ensures r.HttpError? == false
    ensures r.Invalid? <==> limit.Some? && limit.value > MaxLimit
    ensures r.Body? && dayOfWeek.Some? ==> r.value == Responses(GetRecurringRidesByDay(rows, dayOfWeek.value))
    ensures r.Body? && dayOfWeek.None? ==>
      r.value == Responses(GetAllRecurringRides(rows, if limit.Some? then limit.value else DefaultLimit))
  {
    var n := if limit.Some? then limit.value else DefaultLimit;
    if n > MaxLimit then Invalid("limit")
    else if dayOfWeek.Some? then Body(Responses(GetRecurringRidesByDay(rows, dayOfWeek.value)))
    else Body(Responses(GetAllRecurringRides(rows, n)))
  }

  /** Every ride a search returns is active; with no day given there are at most `limit` of them
      (50 when no limit is sent); with a day given every one is on that day. */
  lemma SearchReturnsActive(rows: seq<RecurringRide>, limit: Option<int>, dayOfWeek: Option<int>)
    ensures var r := SearchRecurringRides(rows, limit, dayOfWeek);
      r.Body? ==>
        (forall i :: 0 <= i < |r.value| ==> r.value[i].status == "active") &&
        (dayOfWeek.Some? ==> forall i :: 0 <= i < |r.value| ==> r.value[i].base.dayOfWeek == dayOfWeek.value) &&
        (dayOfWeek.None? ==> |r.value| <= if limit.Some? && limit.value >= 0 then limit.value
                                         else if limit.Some? then |rows| else DefaultLimit)
  {
    var r := SearchRecurringRides(rows, limit, dayOfWeek);
    if r.Body? {
      if dayOfWeek.Some? {
        var f := GetRecurringRidesByDay(rows, dayOfWeek.value);
        assert forall i :: 0 <= i < |r.value| ==> r.value[i] == ToResponse(f[i]);
      } else {
        var f := GetAllRecurringRides(rows, if limit.Some? then limit.value else DefaultLimit);
        assert forall i :: 0 <= i < |r.value| ==> r.value[i] == ToResponse(f[i]);
        assert |f| <= |Filter(rows, IsActive)| <= |rows|;
      }
    }
  }

  /** When a day is given, the limit does not change the answer (as long as it passes validation). */
  lemma SearchByDayIgnoresLimit(rows: seq<RecurringRide>, a: Option<int>, b: Option<int>, day: int)
    requires SearchRecurringRides(rows, a, Some(day)).Body? && SearchRecurringRides(rows, b, Some(day)).Body?
    ensures SearchRecurringRides(rows, a, Some(day)) == SearchRecurringRides(rows, b, Some(day))
  {
  }

  /** `GET /my-recurring-rides`: the caller's rides whatever their status. */
  function GetMyRecurringRides(rows: seq<RecurringRide>, userId: int): (r: seq<RecurringRideResponse>)
    ensures |r| <= |rows|
    ensures forall i :: 0 <= i < |r| ==> r[i].driverId == userId
    ensures forall i :: 0 <= i < |rows| && rows[i].driverId == userId ==> ToResponse(rows[i]) in r
    ensures forall i :: 0 <= i < |r| ==>
      exists j :: 0 <= j < |rows| && rows[j].driverId == userId && r[i] == ToResponse(rows[j])
  {
    var mine := GetUserRecurringRides(rows, userId);
    var r := Responses(mine);
    assert forall i :: 0 <= i < |mine| ==> r[i] == ToResponse(mine[i]) && ToResponse(mine[i]).driverId == userId;
    forall i | 0 <= i < |rows| && rows[i].driverId == userId
      ensures ToResponse(rows[i]) in r
    {
      var j :| 0 <= j < |mine| && mine[j] == rows[i];
      assert r[j] == ToResponse(rows[i]);
    }
    forall i | 0 <= i < |r|
      ensures exists j :: 0 <= j < |rows| && rows[j].driverId == userId && r[i] == ToResponse(rows[j])
    {
      var j :| 0 <= j < |rows| && rows[j] == mine[i];
      assert rows[j].driverId == userId && r[i] == ToResponse(rows[j]);
    }
    r
  }

  /** `GET /{id}`: the ride, or 404 "Recurring ride not found" when no row has that id. */
  function GetRecurringRideDetails(rows: seq<RecurringRide>, id: int): (r: Reply<RecurringRideResponse>)
    ensures r.Invalid? == false
    ensures r.HttpError? <==> forall i :: 0 <= i < |rows| ==> rows[i].id != id
    ensures r.HttpError? ==> r == HttpError(404, NotFoundDetail)
    ensures r.Body? ==> r.value.id == id && exists i :: 0 <= i < |rows| && ToResponse(rows[i]) == r.value
  {
    var found := GetRecurringRide(rows, id);
    if found.None? then HttpError(404, NotFoundDetail)
    else
      var i := FindIndex(rows, IdOf, id);
      assert ToResponse(rows[i]) == ToResponse(found.value);
      Body(ToResponse(found.value))
  }

  /** `POST /`: inserts the ride with the caller as driver and answers with the new row. */
  method CreateNewRecurringRide(table: RecurringRideTable, req: CreateRequest, userId: int, now: int)
    returns (r: RecurringRideResponse)
    requires table.Valid()
    modifies table
    ensures table.Valid()
    ensures table.rows == old(table.rows) + [NewRow(ParseCreate(req), userId, old(table.nextId), now)]
    ensures r == ToResponse(NewRow(ParseCreate(req), userId, old(table.nextId), now))
    ensures r.base == ParseCreate(req) && r.driverId == userId && r.status == DefaultStatus
  {
    var row := table.Create(ParseCreate(req), userId, now);
    CreateResponseRoundTrip(req, userId, old(table.nextId), now);
    r := ToResponse(row);
  }

  /** `PUT /{id}`: 404 "Recurring ride not found or unauthorized" when the caller drives no ride
      with that id, 500 when the commit is rejected, otherwise the refreshed row. */
  method UpdateRecurringRideDetails(table: RecurringRideTable, id: int, patch: RecurringRideUpdate,
                                    userId: int, now: int)
    returns (r: Reply<RecurringRideResponse>)
    requires table.Valid()
    modifies table`rows
    ensures table.Valid()
    ensures var i := FindIndex(old(table.rows), IdAndDriver, (id, userId));
      (i == -1 ==> r == HttpError(404, NotOwnedDetail) && table.rows == old(table.rows)) &&
      (i >= 0 && SendsNull(patch) ==> r.HttpError? && r.code == 500 && table.rows == old(table.rows)) &&
      (i >= 0 && !SendsNull(patch) ==>
        var row := Committed(old(table.rows)[i], patch, now);
        r == Body(ToResponse(row)) && table.rows == old(table.rows)[i := row])
  {
    var u := table.Update(id, patch, userId, now);
    match u {
      case NotFound => r := HttpError(404, NotOwnedDetail);
      case IntegrityError => r := HttpError(500, "Internal Server Error");
      case Updated(row) => r := Body(ToResponse(row));
    }
  }

  /** `DELETE /{id}`: removes the caller's ride and confirms, or 404 when the caller drives no
      ride with that id. */
  method DeleteRecurringRideEndpoint(table: RecurringRideTable, id: int, userId: int)
    returns (r: Reply<string>)
    requires table.Valid()
    modifies table`rows
    ensures table.Valid()
    ensures r.Body? <==> exists i :: 0 <= i < |old(table.rows)| && old(table.rows)[i].id == id && old(table.rows)[i].driverId == userId
    ensures r.Body? ==> r.value == DeletedMessage && table.rows == Filter(old(table.rows), NotId(id))
    ensures !r.Body? ==> r == HttpError(404, NotOwnedDetail) && table.rows == old(table.rows)
  {
    var deleted := table.Delete(id, userId);
    if deleted {
      r := Body(DeletedMessage);
    } else {
      r := HttpError(404, NotOwnedDetail);
    }
  }

  /** `GET /options/days-of-week`: Monday as 0 through Sunday as 6. */
  function DaysOfWeekOptions(): (r: seq<DayOfWeekOption>)
    ensures |r| == 7
  {
    [DayOfWeekOption(0, "Monday"), DayOfWeekOption(1, "Tuesday"), DayOfWeekOption(2, "Wednesday"),
     DayOfWeekOption(3, "Thursday"), DayOfWeekOption(4, "Friday"), DayOfWeekOption(5, "Saturday"),
     DayOfWeekOption(6, "Sunday")]
  }

  /** The day options are indexed by their value: option `d` has value `d`, so the values are
      exactly 0..6 and distinct, and every label is non-empty. */
  lemma DaysOfWeekIndexedByValue()
    ensures forall d :: 0 <= d < 7 ==> DaysOfWeekOptions()[d].value == d && DaysOfWeekOptions()[d].text != ""
  {
  }

  /** `GET /options/schedule-types` */
  function ScheduleTypeOptions(): (r: seq<ScheduleOption>)
    ensures |r| == 4
  {
    [ScheduleOption("weekly", "Every week"), ScheduleOption("daily", "Every day"),
     ScheduleOption("weekdays", "Every weekday"), ScheduleOption("weekends", "Every weekend")]
  }

  /** The schedule-type values are distinct, and the default schedule type is the first one. */
  lemma ScheduleTypesDistinct()
    ensures forall i, j :: 0 <= i < j < 4 ==> ScheduleTypeOptions()[i].value != ScheduleTypeOptions()[j].value
    ensures ScheduleTypeOptions()[0].value == DefaultScheduleType
  {
  }
}
