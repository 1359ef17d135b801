/**
 * The calendar table and its repository: create with a uniqueness check on
 * (userId, accountId, provider), update of the API key, lookups that hide
 * soft-deleted rows, and soft delete.
 *
 * Errors follow the repository's catch clauses: `create` and `update` rewrap
 * every error, their own AppErrors included, into status 500 with the same
 * message; `findById`, `findByUserId` and `delete` rethrow their own AppErrors
 * unchanged and rewrap only database errors.
 */
module CalendarRepository {
  import opened Wrappers
  import opened AppErrors
  import opened JsText

  /** A row of the calendar table. */
  datatype CalendarRow = CalendarRow(id: string, userId: string, accountId: string, provider: string,
                                     apiKey: string, isDeleted: bool)

  /** The calendar entity the repository hands out: a row without its deletion flag. */
  datatype CalendarEntity = CalendarEntity(id: string, userId: string, accountId: string, provider: string, apiKey: string)

  datatype CreateRequest = CreateRequest(userId: string, accountId: string, provider: string, apiKey: string)
  datatype UpdateRequest = UpdateRequest(id: string, userId: string, apiKey: string)
  datatype DeleteResponse = DeleteResponse(success: bool, id: string, message: string)

  const MissingCreateFields := "Missing required fields to create calendar"
  const DuplicateCalendar := "Calendar already exists for this user with the same account and provider..."
  const MissingUpdateFields := "Calendar ID, User ID, and API Key are required for update"
  const MissingLookupFields := "Calendar ID and User ID are required"
  const MissingUserId := "User ID is required"
  const MissingDeleteId := "Calendar ID is required for deletion"
  const Deleted := "Calendar deleted successfully"
  /** Stands for the message of the database client's "record to update not found" error. */
  const RecordNotFound := "Record to update not found."

  function ToEntity(row: CalendarRow): CalendarEntity {
    CalendarEntity(row.id, row.userId, row.accountId, row.provider, row.apiKey)
  }

  /** The row `create` inserts for a request, under the id the database generates. */
  function NewRow(req: CreateRequest, id: string): CalendarRow {
    CalendarRow(id, req.userId, req.accountId, req.provider, req.apiKey, false)
  }

  predicate SameOwner(row: CalendarRow, req: CreateRequest) {
    row.userId == req.userId && row.accountId == req.accountId && row.provider == req.provider
  }

  /** How many rows of the table belong to the user, are not deleted, and read as entity `e`. */
  function LiveCount(rows: seq<CalendarRow>, userId: string, e: CalendarEntity): nat {
    if rows == [] then 0
    else (if !rows[0].isDeleted && rows[0].userId == userId && ToEntity(rows[0]) == e then 1 else 0) + LiveCount(rows[1..], userId, e)
  }

  /** The rows `findByUserId` returns: those of the user that are not deleted, in table order. */
  function LiveRowsOf(rows: seq<CalendarRow>, userId: string): (r: seq<CalendarEntity>)
    ensures |r| <= |rows|
    ensures forall e :: multiset(r)[e] == LiveCount(rows, userId, e)
    ensures forall e :: e in r ==> exists row :: row in rows && !row.isDeleted && row.userId == userId && e == ToEntity(row)
    ensures forall row :: row in rows && !row.isDeleted && row.userId == userId ==> ToEntity(row) in r
  {
    if rows == [] then []
    else
      var rest := LiveRowsOf(rows[1..], userId);
      if !rows[0].isDeleted && rows[0].userId == userId then [ToEntity(rows[0])] + rest else rest
  }

  class CalendarTable {
    var rows: seq<CalendarRow>

    /** Calendar ids are unique. */
    ghost predicate Valid()
      reads this
    {
      forall i, j :: 0 <= i < j < |rows| ==> rows[i].id != rows[j].id
    }

    /** True when `id` is not the id of any calendar; new rows get such an id. */
    predicate FreshId(id: string)
      reads this
    {
      forall i :: 0 <= i < |rows| ==> rows[i].id != id
    }

    constructor ()
      ensures Valid() && rows == []
    {
      rows := [];
    }

    /**
     * `create`. Both of its own checks throw inside the try block, so the catch
     * turns them into status 500 with their message. The duplicate lookup does
     * not look at `isDeleted`: a soft-deleted calendar still blocks a new one.
     */
    method Create(req: CreateRequest, newId: string) returns (r: Result<CalendarEntity, AppError>)
      requires Valid() && FreshId(newId) && newId != ""
      modifies this
      ensures Valid()
      ensures req.userId == "" || req.accountId == "" || req.provider == "" || req.apiKey == "" ==>
        r == Failure(AppError(500, MissingCreateFields)) && rows == old(rows)
      ensures req.userId != "" && req.accountId != "" && req.provider != "" && req.apiKey != "" ==>
        if exists i :: 0 <= i < |old(rows)| && SameOwner(old(rows)[i], req) then
          r == Failure(AppError(500, DuplicateCalendar)) && rows == old(rows)
        else
          && rows == old(rows) + [NewRow(req, newId)]
          && r == Success(CalendarEntity(newId, req.userId, req.accountId, req.provider, req.apiKey))
          && FindById(newId, req.userId) == Success(Some(r.value))
    {
      if req.userId == "" || req.accountId == "" || req.provider == "" || req.apiKey == "" {
        return Failure(AppError(500, MissingCreateFields));
      }
      var i := 0;
      while i < |rows|
        invariant 0 <= i <= |rows|
        invariant forall k :: 0 <= k < i ==> !SameOwner(rows[k], req)
      {
        if SameOwner(rows[i], req) {
          return Failure(AppError(500, DuplicateCalendar));
        }
        i := i + 1;
      }
      var row := NewRow(req, newId);
      rows := rows + [row];
      r := Success(ToEntity(row));
      assert rows[|rows| - 1] == row;
      assert forall k :: 0 <= k < |rows| && rows[k].id == newId ==> k == |rows| - 1;
    }

    /**
     * `update`: sets the API key of the calendar with this id and owner, deleted
     * or not. Every error, its own included, becomes status 500.
     */
    method Update(req: UpdateRequest) returns (r: Result<CalendarEntity, AppError>)
      requires Valid()
      modifies this
      ensures Valid() && |rows| == |old(rows)|
      ensures req.id == "" || req.userId == "" || req.apiKey == "" ==>
        r == Failure(AppError(500, MissingUpdateFields)) && rows == old(rows)
      ensures r.Failure? ==> rows == old(rows) && r.error.statusCode == 500
      ensures req.id != "" && req.userId != "" && req.apiKey != "" ==>
        (r.Success? <==> exists i :: 0 <= i < |old(rows)| && old(rows)[i].id == req.id && old(rows)[i].userId == req.userId)
      ensures r.Success? ==>
        && r.value.apiKey == req.apiKey && r.value.id == req.id && r.value.userId == req.userId
        && (exists i :: 0 <= i < |rows| && old(rows)[i].id == req.id && old(rows)[i].userId == req.userId
                        && r.value == ToEntity(rows[i]))
        && forall i :: 0 <= i < |rows| ==>
             rows[i] == if old(rows)[i].id == req.id then old(rows)[i].(apiKey := req.apiKey) else old(rows)[i]
    {
      if req.id == "" || req.userId == "" || req.apiKey == "" {
        return Failure(AppError(500, MissingUpdateFields));
      }
      var i := 0;
      while i < |rows|
        invariant 0 <= i <= |rows|
        invariant forall k :: 0 <= k < i ==> !(rows[k].id == req.id && rows[k].userId == req.userId)
      {
        if rows[i].id == req.id && rows[i].userId == req.userId {
          var row := rows[i].(apiKey := req.apiKey);
          rows := rows[i := row];
          return Success(ToEntity(row));
        }
        i := i + 1;
      }
      r := Failure(AppError(500, RecordNotFound));
    }

    /** `findById`: the caller's calendar with this id, unless it is deleted. */
    function FindById(id: string, userId: string): (r: Result<Option<CalendarEntity>, AppError>)
      reads this
      requires Valid()
      ensures id == "" || userId == "" <==> r == Failure(AppError(404, MissingLookupFields))
      ensures r.Success? && r.value.Some? <==>
        id != "" && userId != "" && exists i :: 0 <= i < |rows| && rows[i].id == id && rows[i].userId == userId && !rows[i].isDeleted
      ensures r.Success? && r.value.Some? ==> r.value.value.id == id && r.value.value.userId == userId
      ensures forall i :: 0 <= i < |rows| && id != "" && userId != "" && rows[i].id == id && rows[i].userId == userId && !rows[i].isDeleted ==>
        r == Success(Some(ToEntity(rows[i])))
    {
      if id == "" || userId == "" then Failure(AppError(404, MissingLookupFields))
      else Success(FirstLive(rows, id, userId))
    }

    /** `findByUserId`: the user's calendars that are not deleted, looked up under the trimmed id. */
    function FindByUserId(userId: string): (r: Result<seq<CalendarEntity>, AppError>)
      reads this
      ensures userId == "" <==> r == Failure(AppError(404, MissingUserId))
      ensures r.Success? ==> forall e :: e in r.value <==>
        exists i :: 0 <= i < |rows| && !rows[i].isDeleted && rows[i].userId == Trim(userId) && e == ToEntity(rows[i])
      ensures r.Success? ==> forall e :: multiset(r.value)[e] == LiveCount(rows, Trim(userId), e)
    {
      if userId == "" then Failure(AppError(404, MissingUserId))
      else
        var found := LiveRowsOf(rows, Trim(userId));
        assert forall e :: e in found ==> exists i :: 0 <= i < |rows| && !rows[i].isDeleted && rows[i].userId == Trim(userId) && e == ToEntity(rows[i]);
        Success(found)
    }

    /**
     * `delete`: a soft delete of the calendar with this id, whoever owns it.
     * Deleting a calendar that is already deleted succeeds again.
     */
    method Delete(id: string) returns (r: Result<DeleteResponse, AppError>)
      requires Valid()
      modifies this
      ensures Valid() && |rows| == |old(rows)|
      ensures id == "" ==> r == Failure(AppError(404, MissingDeleteId)) && rows == old(rows)
      ensures id != "" ==> (r.Success? <==> exists i :: 0 <= i < |old(rows)| && old(rows)[i].id == id)
      ensures r.Failure? ==> rows == old(rows)
      ensures id != "" && r.Failure? ==> r.error == AppError(500, RecordNotFound)
      ensures r.Success? ==>
        && r.value == DeleteResponse(true, id, Deleted)
        && (forall i :: 0 <= i < |rows| ==>
              rows[i] == if old(rows)[i].id == id then old(rows)[i].(isDeleted := true) else old(rows)[i])
        && forall u :: FindById(id, u) == (if u == "" then Failure(AppError(404, MissingLookupFields)) else Success(None))
    {
      if id == "" {
        return Failure(AppError(404, MissingDeleteId));
      }
      var i := 0;
      while i < |rows|
        invariant 0 <= i <= |rows|
        invariant forall k :: 0 <= k < i ==> rows[k].id != id
      {
        if rows[i].id == id {
          rows := rows[i := rows[i].(isDeleted := true)];
          return Success(DeleteResponse(true, id, Deleted));
        }
        i := i + 1;
      }
      r := Failure(AppError(500, RecordNotFound));
    }
  }

  /** The first row with this id and owner that is not deleted. */
  function FirstLive(rows: seq<CalendarRow>, id: string, userId: string): (r: Option<CalendarEntity>)
    ensures r.Some? <==> exists i :: 0 <= i < |rows| && rows[i].id == id && rows[i].userId == userId && !rows[i].isDeleted
    ensures r.Some? ==>
      exists i :: 0 <= i < |rows| && rows[i].id == id && rows[i].userId == userId && !rows[i].isDeleted && r.value == ToEntity(rows[i])
  {
    if rows == [] then None
    else if rows[0].id == id && rows[0].userId == userId && !rows[0].isDeleted then Some(ToEntity(rows[0]))
    else
      var r := FirstLive(rows[1..], id, userId);
      assert r.Some? ==> exists i :: 0 <= i < |rows| - 1 && rows[1..][i].id == id && rows[1..][i].userId == userId && !rows[1..][i].isDeleted;
      assert r.Some? ==> exists i :: 0 <= i < |rows| - 1 && rows[1..][i].id == id && rows[1..][i].userId == userId
                                     && !rows[1..][i].isDeleted && r.value == ToEntity(rows[1..][i]);
      r
  }
}
