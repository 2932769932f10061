/** The recurring-rides hook: two ride lists, the loading flag, the error text and the two option
    tables, each changed by one async action. Every API call is an outcome parameter, and a
    rethrown error is the `Thrown` value an action returns. */
module RecurringRidesHook {
  import opened Outcomes
  import opened Lists
  import opened RecurringRideSchema
  import RecurringRideApi

  const SearchFailed := "Failed to fetch recurring rides"
  const FetchMineFailed := "Failed to fetch your recurring rides"
  const CreateFailed := "Failed to create recurring ride"
  const UpdateFailed := "Failed to update recurring ride"
  const DeleteFailed := "Failed to delete recurring ride"
  const UnknownDay := "Unknown"

  function RideId(r: RecurringRideResponse): int {
    r.id
  }

  /** `ride => ride.id !== id` */
  function NotRide(id: int): RecurringRideResponse -> bool {
    (r: RecurringRideResponse) => r.id != id
  }

  function DayValue(o: DayOfWeekOption): int {
    o.value
  }

  function ScheduleValue(o: ScheduleOption): string {
    o.value
  }

  /** `daysOfWeek.find(d => d.value === dayOfWeek)?.label || 'Unknown'` */
  function DayLabel(daysOfWeek: seq<DayOfWeekOption>, dayOfWeek: int): (r: string)
    ensures r != ""
    ensures (forall i :: 0 <= i < |daysOfWeek| ==> daysOfWeek[i].value != dayOfWeek) ==> r == UnknownDay
    ensures forall i ::
      (0 <= i < |daysOfWeek| && daysOfWeek[i].value == dayOfWeek &&
       forall j :: 0 <= j < i ==> daysOfWeek[j].value != dayOfWeek) ==>
      r == (if daysOfWeek[i].text != "" then daysOfWeek[i].text else UnknownDay)
  {
    var day := Find(daysOfWeek, DayValue, dayOfWeek);
    if day.Some? && day.value.text != "" then day.value.text else UnknownDay
  }

  /** `scheduleTypes.find(t => t.value === scheduleType)?.label || scheduleType` */
  function ScheduleTypeLabel(scheduleTypes: seq<ScheduleOption>, scheduleType: string): (r: string)
    ensures (forall i :: 0 <= i < |scheduleTypes| ==> scheduleTypes[i].value != scheduleType) ==> r == scheduleType
    ensures forall i ::
      (0 <= i < |scheduleTypes| && scheduleTypes[i].value == scheduleType &&
       forall j :: 0 <= j < i ==> scheduleTypes[j].value != scheduleType) ==>
      r == (if scheduleTypes[i].text != "" then scheduleTypes[i].text else scheduleType)
  {
    var t := Find(scheduleTypes, ScheduleValue, scheduleType);
    if t.Some? && t.value.text != "" then t.value.text else scheduleType
  }

  /** Before the options have loaded every day is "Unknown" and every schedule type shows as
      its raw value. */
  lemma LabelsBeforeOptionsLoad(dayOfWeek: int, scheduleType: string)
    ensures DayLabel([], dayOfWeek) == UnknownDay
    ensures ScheduleTypeLabel([], scheduleType) == scheduleType
  {
  }

  /** With the table the server sends, day 0 to 6 read Monday to Sunday and any other number
      reads "Unknown". */
  lemma DayLabelsFromServer(d: int)
    ensures 0 <= d < 7 ==> DayLabel(RecurringRideApi.DaysOfWeekOptions(), d) == RecurringRideApi.DaysOfWeekOptions()[d].text
    ensures d == 0 ==> DayLabel(RecurringRideApi.DaysOfWeekOptions(), d) == "Monday"
    ensures d == 6 ==> DayLabel(RecurringRideApi.DaysOfWeekOptions(), d) == "Sunday"
    ensures !(0 <= d < 7) ==> DayLabel(RecurringRideApi.DaysOfWeekOptions(), d) == UnknownDay
  {
    RecurringRideApi.DaysOfWeekIndexedByValue();
  }

  /** With the table the server sends, "weekly" reads "Every week" and an unknown type reads as
      itself. */
  lemma ScheduleLabelsFromServer(t: string)
    ensures ScheduleTypeLabel(RecurringRideApi.ScheduleTypeOptions(), "weekly") == "Every week"
    ensures (forall i :: 0 <= i < 4 ==> RecurringRideApi.ScheduleTypeOptions()[i].value != t) ==>
      ScheduleTypeLabel(RecurringRideApi.ScheduleTypeOptions(), t) == t
  {
    var opts := RecurringRideApi.ScheduleTypeOptions();
    assert opts[0].value == "weekly";
  }

  /** A created ride whose id the list did not hold appears exactly once after it is appended. */
  lemma CreatedRideAppearsOnce(mine: seq<RecurringRideResponse>, newRide: RecurringRideResponse)
    requires CountKey(mine, RideId, newRide.id) == 0
    ensures CountKey(mine + [newRide], RideId, newRide.id) == 1
  {
    CountKeyAppend(mine, RideId, newRide, newRide.id);
  }

  /** Deleting the same id twice leaves what deleting it once left. */
  lemma DeleteIdempotent(rides: seq<RecurringRideResponse>, id: int)
    ensures Filter(Filter(rides, NotRide(id)), NotRide(id)) == Filter(rides, NotRide(id))
    ensures forall i :: 0 <= i < |Filter(rides, NotRide(id))| ==> Filter(rides, NotRide(id))[i].id != id
  {
    FilterIdempotent(rides, NotRide(id));
  }

  /** Deleting keeps every other ride, in its order: the list is the old one with the rides of
      that id dropped. */
  lemma DeleteKeepsOthersInOrder(before: seq<RecurringRideResponse>, x: RecurringRideResponse,
                                 after: seq<RecurringRideResponse>, id: int)
    requires x.id != id
    ensures Filter(before + [x] + after, NotRide(id)) ==
      Filter(before, NotRide(id)) + [x] + Filter(after, NotRide(id))
  {
    FilterKeepsOne(before, x, after, NotRide(id));
  }

  /** Updating the same id twice with the same returned ride is updating it once. */
  lemma UpdateIdempotent(rides: seq<RecurringRideResponse>, id: int, updated: RecurringRideResponse)
    requires updated.id == id
    ensures ReplaceWhere(ReplaceWhere(rides, RideId, id, updated), RideId, id, updated) ==
      ReplaceWhere(rides, RideId, id, updated)
  {
    ReplaceWhereIdempotent(rides, RideId, id, updated);
  }

  class RecurringRides {
    var recurringRides: seq<RecurringRideResponse>
    var myRecurringRides: seq<RecurringRideResponse>
    var loading: bool
    var error: Option<string>
    var daysOfWeek: seq<DayOfWeekOption>
    var scheduleTypes: seq<ScheduleOption>

    /** The initial state: empty lists, not loading, no error, no options. */
    constructor ()
      ensures recurringRides == [] && myRecurringRides == [] && !loading && error == None
      ensures daysOfWeek == [] && scheduleTypes == []
    {
      recurringRides := [];
      myRecurringRides := [];
      loading := false;
      error := None;
      daysOfWeek := [];
      scheduleTypes := [];
    }

    /** `loadOptions`: both tables are set only when both requests succeed; a failure is logged
        and changes nothing. */
    method LoadOptions(days: Outcome<seq<DayOfWeekOption>>, schedules: Outcome<seq<ScheduleOption>>)
      modifies this`daysOfWeek, this`scheduleTypes
      ensures days.Success? && schedules.Success? ==>
        daysOfWeek == days.value && scheduleTypes == schedules.value
      ensures !(days.Success? && schedules.Success?) ==>
        daysOfWeek == old(daysOfWeek) && scheduleTypes == old(scheduleTypes)
    {
      if days.Success? && schedules.Success? {
        daysOfWeek := days.value;
        scheduleTypes := schedules.value;
      }
    }

    /** `searchRecurringRides`: the fetched list (`[]` for a null body), or `[]` and the error
        text on failure. */
    method SearchRecurringRides(response: Outcome<Option<seq<RecurringRideResponse>>>)
      modifies this`recurringRides, this`loading, this`error
      ensures !loading
      ensures response.Success? ==>
        error == None && recurringRides == (if response.value.Some? then response.value.value else [])
      ensures response.Failure? ==> recurringRides == [] && error == Some(ErrorText(response.message, SearchFailed))
    {
      loading := true;
      error := None;
      match response {
        case Success(data) =>
          recurringRides := if data.Some? then data.value else [];
        case Failure(message) =>
          error := Some(ErrorText(message, SearchFailed));
          recurringRides := [];
      }
      loading := false;
    }

    /** `getMyRecurringRides`: the same protocol on the caller's own list. */
    method GetMyRecurringRides(response: Outcome<Option<seq<RecurringRideResponse>>>)
      modifies this`myRecurringRides, this`loading, this`error
      ensures !loading
      ensures response.Success? ==>
        error == None && myRecurringRides == (if response.value.Some? then response.value.value else [])
      ensures response.Failure? ==> myRecurringRides == [] && error == Some(ErrorText(response.message, FetchMineFailed))
    {
      loading := true;
      error := None;
      match response {
        case Success(data) =>
          myRecurringRides := if data.Some? then data.value else [];
        case Failure(message) =>
          error := Some(ErrorText(message, FetchMineFailed));
          myRecurringRides := [];
      }
      loading := false;
    }

    /** `createRecurringRide`: the created ride is appended and returned; on failure the list is
        kept, the error text is set and the error is rethrown. */
    method CreateRecurringRide(response: Outcome<RecurringRideResponse>) returns (r: Result<RecurringRideResponse>)
      modifies this`myRecurringRides, this`loading, this`error
      ensures !loading
      ensures response.Success? ==>
        r == Ok(response.value) && error == None && myRecurringRides == old(myRecurringRides) + [response.value]
      ensures response.Failure? ==>
        r == Thrown(response.message) && myRecurringRides == old(myRecurringRides) &&
        error == Some(ErrorText(response.message, CreateFailed))
    {
      loading := true;
      error := None;
      match response {
        case Success(newRide) =>
          myRecurringRides := myRecurringRides + [newRide];
          r := Ok(newRide);
        case Failure(message) =>
          error := Some(ErrorText(message, CreateFailed));
          r := Thrown(message);
      }
      loading := false;
    }

    /** `updateRecurringRide`: every ride with that id becomes the returned one; on failure the
        list is kept, the error text is set and the error is rethrown. */
    method UpdateRecurringRide(id: int, response: Outcome<RecurringRideResponse>)
      returns (r: Result<RecurringRideResponse>)
      modifies this`myRecurringRides, this`loading, this`error
      ensures !loading
      ensures response.Success? ==>
        r == Ok(response.value) && error == None &&
        myRecurringRides == ReplaceWhere(old(myRecurringRides), RideId, id, response.value)
      ensures response.Failure? ==>
        r == Thrown(response.message) && myRecurringRides == old(myRecurringRides) &&
        error == Some(ErrorText(response.message, UpdateFailed))
    {
      loading := true;
      error := None;
      match response {
        case Success(updatedRide) =>
          myRecurringRides := ReplaceWhere(myRecurringRides, RideId, id, updatedRide);
          r := Ok(updatedRide);
        case Failure(message) =>
          error := Some(ErrorText(message, UpdateFailed));
          r := Thrown(message);
      }
      loading := false;
    }

    /** `deleteRecurringRide`: every ride with that id is dropped; on failure the list is kept,
        the error text is set and the error is rethrown. */
    method DeleteRecurringRide(id: int, response: Outcome<()>) returns (r: Result<()>)
      modifies this`myRecurringRides, this`loading, this`error
      ensures !loading
      ensures response.Success? ==>
        r == Ok(()) && error == None && myRecurringRides == Filter(old(myRecurringRides), NotRide(id))
      ensures response.Failure? ==>
        r == Thrown(response.message) && myRecurringRides == old(myRecurringRides) &&
        error == Some(ErrorText(response.message, DeleteFailed))
    {
      loading := true;
      error := None;
      match response {
        case Success(_) =>
          myRecurringRides := Filter(myRecurringRides, NotRide(id));
          r := Ok(());
        case Failure(message) =>
          error := Some(ErrorText(message, DeleteFailed));
          r := Thrown(message);
      }
      loading := false;
    }

    /** A successful update followed by a successful delete of the same id never lengthens the
        list and leaves no ride with that id. */
    method UpdateThenDelete(id: int, updated: RecurringRideResponse)
      modifies this`myRecurringRides, this`loading, this`error
      ensures |myRecurringRides| <= |old(myRecurringRides)|
      ensures forall i :: 0 <= i < |myRecurringRides| ==> myRecurringRides[i].id != id
      ensures !loading && error == None
    {
      var n := |myRecurringRides|;
      var u := UpdateRecurringRide(id, Success(updated));
      assert |myRecurringRides| == n;
      var d := DeleteRecurringRide(id, Success(()));
    }
  }
}
