/** The recurring-ride table and its CRUD operations: the getters are filters over the rows,
    create inserts a row, update runs the `setattr` loop on the caller's own row, delete removes
    the caller's own row. Rows are kept in insertion order, which stands for the database's
    unspecified order. */
module RecurringRideCrud {
  import opened Outcomes
  import opened Lists
  import opened RecurringRideSchema

  function IdOf(r: RecurringRide): int {
    r.id
  }

  /** The key of `filter(id == ..., driver_id == ...)`. */
  function IdAndDriver(r: RecurringRide): (int, int) {
    (r.id, r.driverId)
  }

  function IsActive(r: RecurringRide): bool {
    r.status == "active"
  }

  function DrivenBy(userId: int): RecurringRide -> bool {
    (r: RecurringRide) => r.driverId == userId
  }

  function ActiveOn(day: int): RecurringRide -> bool {
    (r: RecurringRide) => r.dayOfWeek == day && r.status == "active"
  }

  function NotId(id: int): RecurringRide -> bool {
    (r: RecurringRide) => r.id != id
  }

  /** `id` is the primary key. */
  predicate IdsUnique(rows: seq<RecurringRide>) {
    forall i, j :: 0 <= i < j < |rows| ==> rows[i].id != rows[j].id
  }

  /** SQL `LIMIT n`: the first n rows; a negative limit is taken as no limit (SQLite's rule;
      the database engine is not part of this model). */
  function Limit<T>(s: seq<T>, n: int): (r: seq<T>)
    ensures n >= 0 ==> |r| == (if n < |s| then n else |s|)
    ensures n < 0 ==> r == s
    ensures |r| <= |s| && r == s[..|r|]
  {
    if n < 0 || n >= |s| then s else s[..n]
  }

  /** `get_recurring_ride`: the row with that id, or None when there is none. */
  function GetRecurringRide(rows: seq<RecurringRide>, id: int): (r: Option<RecurringRide>)
    ensures r.Some? ==> r.value in rows && r.value.id == id
    ensures r.None? <==> forall i :: 0 <= i < |rows| ==> rows[i].id != id
  {
    Find(rows, IdOf, id)
  }

  /** `get_user_recurring_rides`: exactly the rows the user drives, whatever their status. */
  function GetUserRecurringRides(rows: seq<RecurringRide>, userId: int): (r: seq<RecurringRide>)
    ensures forall i :: 0 <= i < |r| ==> r[i].driverId == userId && r[i] in rows
    ensures forall i :: 0 <= i < |rows| && rows[i].driverId == userId ==> rows[i] in r
  {
    Filter(rows, DrivenBy(userId))
  }

  /** `get_all_recurring_rides`: at most `limit` rows, all active, taken from the front. */
  function GetAllRecurringRides(rows: seq<RecurringRide>, limit: int): (r: seq<RecurringRide>)
    ensures limit >= 0 ==> |r| <= limit
    ensures forall i :: 0 <= i < |r| ==> r[i].status == "active" && r[i] in rows
    ensures limit >= 0 ==> |r| == if limit < |Filter(rows, IsActive)| then limit else |Filter(rows, IsActive)|
    ensures (limit < 0 || |Filter(rows, IsActive)| <= limit) ==> r == Filter(rows, IsActive)
    ensures r == Filter(rows, IsActive)[..|r|]
  {
    Limit(Filter(rows, IsActive), limit)
  }

  /** `get_recurring_rides_by_day`: exactly the active rows on that day. */
  function GetRecurringRidesByDay(rows: seq<RecurringRide>, day: int): (r: seq<RecurringRide>)
    ensures forall i :: 0 <= i < |r| ==> r[i].dayOfWeek == day && r[i].status == "active" && r[i] in rows
    ensures forall i :: 0 <= i < |rows| && rows[i].dayOfWeek == day && rows[i].status == "active" ==> rows[i] in r
  {
    Filter(rows, ActiveOn(day))
  }

  /** The row an update commits: the patched row, with `updated_at` refreshed only when some
      column actually changed (otherwise no UPDATE is issued). */
  function Committed(row: RecurringRide, u: RecurringRideUpdate, now: int): RecurringRide {
    var p := Patched(row, u);
    if p == row then row else p.(updatedAt := now)
  }

  /** What `update_recurring_ride` ends with: no such own row (None), a commit rejected because
      a NOT NULL column was set to null, or the refreshed row. */
  datatype UpdateResult = NotFound | IntegrityError | Updated(row: RecurringRide)

  /** With unique ids, removing the row at `i` is filtering out its id. */
  lemma RemoveAtIsFilter(rows: seq<RecurringRide>, i: int)
    requires IdsUnique(rows) && 0 <= i < |rows|
    ensures rows[..i] + rows[i + 1..] == Filter(rows, NotId(rows[i].id))
  {
    var p := NotId(rows[i].id);
    var a, b := rows[..i], rows[i + 1..];
    forall k | 0 <= k < |a| ensures p(a[k]) {
      assert a[k] == rows[k];
    }
    forall k | 0 <= k < |b| ensures p(b[k]) {
      assert b[k] == rows[i + 1 + k];
    }
    FilterDropsOne(a, rows[i], b, p);
    assert rows == a + [rows[i]] + b;
  }

  class RecurringRideTable {
    var rows: seq<RecurringRide>
    /** The next value of the autoincrement key. */
    var nextId: int

    ghost predicate Valid()
      reads this
    {
      IdsUnique(rows) && forall i :: 0 <= i < |rows| ==> rows[i].id < nextId
    }

    constructor ()
      ensures Valid() && rows == [] && nextId == 1
    {
      rows := [];
      nextId := 1;
    }

    /** `create_recurring_ride`: inserts one row with the body's fields, the given driver, the
        next key and the column defaults, and returns it. */
    method Create(body: RecurringRideBase, driverId: int, now: int) returns (row: RecurringRide)
      requires Valid()
      modifies this
      ensures Valid()
      ensures row == NewRow(body, driverId, old(nextId), now)
      ensures rows == old(rows) + [row] && nextId == old(nextId) + 1
    {
      row := NewRow(body, driverId, nextId, now);
      rows := rows + [row];
      nextId := nextId + 1;
    }

    /** `update_recurring_ride`: finds the row with that id owned by the driver, assigns every
        sent field in turn, then commits. */
    method Update(id: int, patch: RecurringRideUpdate, driverId: int, now: int) returns (r: UpdateResult)
      requires Valid()
      modifies this`rows
      ensures Valid()
      ensures var i := FindIndex(old(rows), IdAndDriver, (id, driverId));
        (i == -1 ==> r == NotFound && rows == old(rows)) &&
        (i >= 0 && SendsNull(patch) ==> r == IntegrityError && rows == old(rows)) &&
        (i >= 0 && !SendsNull(patch) ==>
          r == Updated(Committed(old(rows)[i], patch, now)) && rows == old(rows)[i := r.row])
    {
      var i := FindIndex(rows, IdAndDriver, (id, driverId));
      if i == -1 {
        return NotFound;
      }
      var items := SetFields(patch);
      var row := rows[i];
      var writesNull := false;
      for k := 0 to |items|
        invariant row == AssignAll(rows[i], items[..k])
        invariant writesNull <==> exists j :: 0 <= j < k && WritesNull(items[j])
      {
        assert items[..k + 1][..k] == items[..k];
        row := Assign(row, items[k]);
        writesNull := writesNull || WritesNull(items[k]);
      }
      assert items[..|items|] == items;
      SetFieldsWritesNull(patch);
      if writesNull {
        return IntegrityError;
      }
      SetattrLoopIsPatch(rows[i], patch);
      if row != rows[i] {
        row := row.(updatedAt := now);
      }
      rows := rows[i := row];
      r := Updated(row);
    }

    /** `delete_recurring_ride`: removes the row with that id owned by the driver, if any. */
    method Delete(id: int, driverId: int) returns (deleted: bool)
      requires Valid()
      modifies this`rows
      ensures Valid()
      ensures deleted <==> exists i :: 0 <= i < |old(rows)| && old(rows)[i].id == id && old(rows)[i].driverId == driverId
      ensures deleted ==> rows == Filter(old(rows), NotId(id))
      ensures !deleted ==> rows == old(rows)
    {
      var i := FindIndex(rows, IdAndDriver, (id, driverId));
      if i == -1 {
        return false;
      }
      RemoveAtIsFilter(rows, i);
      rows := rows[..i] + rows[i + 1..];
      deleted := true;
    }
  }
}
