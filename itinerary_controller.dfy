/**
 * backend/src/controllers/itineraryController.js: the five itinerary
 * handlers, mounted under a trip (`/trips/:tripId/itinerary`) behind the
 * gate and with no request schema: the body reaches the ORM as sent, and
 * only ItineraryDay.js's validators and the database's column widths and
 * foreign keys stand in its way.
 */
module ItineraryController {
  import opened Wrappers
  import opened Models
  import opened Responses
  import opened ErrorHandler
  import opened Associations
  import opened Store
  import opened Query

  /** The sort key of `order: [['day_number', 'ASC']]`. */
  function DayNumber(d: ItineraryDay): int {
    d.dayNumber
  }

  /** `ItineraryDay.findOne({where: {id, trip_id: tripId}})` finds a row. */
  predicate DayOfTrip(days: map<Id, ItineraryDay>, tripId: Id, id: Id) {
    id in days && days[id].tripId == tripId
  }

  /** An itinerary request body: the column keys it carries (`None` when left out). */
  datatype DayBody = DayBody(
    tripId: Option<Id>, dayNumber: Option<int>, date: Option<Date>, title: Option<string>, description: Option<string>)

  // ----- getAllItineraryDays -----

  /** `getAllItineraryDays`: the trip's days by day number. */
  method GetAllItineraryDays(db: Database, caller: Id, tripId: Id) returns (r: Reply<seq<ItineraryDay>>)
    ensures !OwnsTrip(db.trips, caller, tripId) ==> r == ErrorResponse(404, "Trip not found")
    ensures OwnsTrip(db.trips, caller, tripId) ==>
      && r.Success() && r.status == 200 && r.Message() == "Itinerary days retrieved successfully" && r.body.data.Some?
      && multiset(r.body.data.value) == multiset(DaysOfTrip(db.days, tripId))
      && Ordered(r.body.data.value, DayNumber, true)
  {
    if !OwnsTrip(db.trips, caller, tripId) {
      return ErrorResponse(404, "Trip not found");
    }
    var ds := SelectSorted(db.days.Values, DayInTrip(tripId), DayNumber, true);
    r := SuccessResponse(200, "Itinerary days retrieved successfully", Some(ds));
  }

  // ----- getItineraryDayById -----

  /** `getItineraryDayById`: a day is shown only through its own trip, and only to that trip's owner. */
  function GetItineraryDayById(trips: map<Id, Trip>, days: map<Id, ItineraryDay>, caller: Id, tripId: Id, id: Id)
    : (r: Reply<ItineraryDay>)
    ensures !OwnsTrip(trips, caller, tripId) ==> r == ErrorResponse(404, "Trip not found")
    ensures OwnsTrip(trips, caller, tripId) && !DayOfTrip(days, tripId, id) ==> r == ErrorResponse(404, "Itinerary day not found")
    ensures r.Success() <==> OwnsTrip(trips, caller, tripId) && DayOfTrip(days, tripId, id)
    ensures r.Success() ==>
      && r.status == 200 && r.Message() == "Itinerary day retrieved successfully"
      && r.body.data == Some(days[id]) && trips[days[id].tripId].userId == caller
  {
    if !OwnsTrip(trips, caller, tripId) then ErrorResponse(404, "Trip not found")
    else if !DayOfTrip(days, tripId, id) then ErrorResponse(404, "Itinerary day not found")
    else SuccessResponse(200, "Itinerary day retrieved successfully", Some(days[id]))
  }

  // ----- createItineraryDay -----

  /** The row `ItineraryDay.create` stores: trip_id from the path; a trip_id in the body is not read. */
  function NewDay(id: Id, tripId: Id, b: DayBody, now: nat): (d: ItineraryDay)
    requires DayViolations(b.dayNumber, b.date) == []
    ensures d.id == id && d.tripId == tripId && d.createdAt == now
    ensures d.dayNumber == b.dayNumber.value && d.date == b.date.value
    ensures d.title == b.title && d.description == b.description
    ensures DayConstraints(d) <==> Fits(b.title, 100)
  {
    ItineraryDay(id, tripId, b.dayNumber.value, b.date.value, b.title, b.description, now)
  }

  /**
   * `createItineraryDay`. Sequelize's items for day_number and date come
   * first; a title wider than STRING(100) is then refused by the database.
   */
  method CreateItineraryDay(db: Database, caller: Id, tripId: Id, body: DayBody) returns (r: Reply<ItineraryDay>)
    requires db.Valid()
    modifies db`days, db`nextDayId, db`clock
    ensures db.Valid()
    ensures !OwnsTrip(old(db.trips), caller, tripId) ==> r == ErrorResponse(404, "Trip not found") && unchanged(db)
    ensures OwnsTrip(old(db.trips), caller, tripId) && DayViolations(body.dayNumber, body.date) != [] ==>
      r == HandleError(ValidationError(DayViolations(body.dayNumber, body.date))) && unchanged(db)
    ensures OwnsTrip(old(db.trips), caller, tripId) && DayViolations(body.dayNumber, body.date) == [] && !Fits(body.title, 100) ==>
      r == HandleError(DataTooLong("title")) && unchanged(db)
    ensures OwnsTrip(old(db.trips), caller, tripId) && DayViolations(body.dayNumber, body.date) == [] && Fits(body.title, 100) ==>
      var d := NewDay(old(db.nextDayId), tripId, body, old(db.clock));
      && old(db.nextDayId) !in old(db.days)
      && db.days == old(db.days)[d.id := d]
      && db.nextDayId == old(db.nextDayId) + 1 && db.clock == old(db.clock) + 1
      && r == SuccessResponse(201, "Itinerary day added successfully", Some(d))
  {
    if !OwnsTrip(db.trips, caller, tripId) {
      return ErrorResponse(404, "Trip not found");
    }
    var items := DayViolations(body.dayNumber, body.date);
    if items != [] {
      return HandleError(ValidationError(items));
    }
    if !Fits(body.title, 100) {
      return HandleError(DataTooLong("title"));
    }
    var d := NewDay(db.nextDayId, tripId, body, db.clock);
    db.InsertDay(d);
    r := SuccessResponse(201, "Itinerary day added successfully", Some(d));
  }

  // ----- updateItineraryDay -----

  /** The outcome of `itineraryDay.update(updateData)`: the saved row, or the error that stopped it. */
  datatype DaySaved = DaySaved(row: ItineraryDay) | DayRefused(err: AppError)

  /** `itineraryDay.set(updateData)` as written: every key the body carries, trip_id included, replaces the row's. */
  function PatchDayAsWritten(d: ItineraryDay, b: DayBody): ItineraryDay {
    d.(tripId := b.tripId.GetOr(d.tripId),
       dayNumber := b.dayNumber.GetOr(d.dayNumber),
       date := b.date.GetOr(d.date),
       title := if b.title.Some? then b.title else d.title,
       description := if b.description.Some? then b.description else d.description)
  }

  /**
   * What `save` does with a patched row: a changed day_number below 1 is
   * Sequelize's item; then the database refuses a title wider than its
   * column and a trip_id naming no trip.
   */
  function SaveRow(trips: map<Id, Trip>, d: ItineraryDay, d': ItineraryDay): (s: DaySaved)
    ensures s.DaySaved? <==> (d'.dayNumber != d.dayNumber ==> d'.dayNumber >= 1) && Fits(d'.title, 100) && d'.tripId in trips
    ensures s.DaySaved? ==> s.row == d'
  {
    if d'.dayNumber != d.dayNumber && d'.dayNumber < 1 then DayRefused(ValidationError([Failed("min", "day_number")]))
    else if !Fits(d'.title, 100) then DayRefused(DataTooLong("title"))
    else if d'.tripId !in trips then DayRefused(ForeignKeyConstraintError)
    else DaySaved(d')
  }

  /** `itineraryDay.update(updateData)` as written. */
  function SaveDayAsWritten(trips: map<Id, Trip>, d: ItineraryDay, b: DayBody): DaySaved {
    SaveRow(trips, d, PatchDayAsWritten(d, b))
  }

  /**
   * As written, a body carrying another trip's id moves the day into that
   * trip, whoever owns it: the ownership check ran on the trip of the path,
   * not on the trip the day ends up in.
   */
  lemma TripIdPatchMovesDay(trips: map<Id, Trip>, days: map<Id, ItineraryDay>, d: ItineraryDay, other: Id)
    requires DayConstraints(d) && other in trips && d.id in days && days[d.id] == d
    ensures SaveDayAsWritten(trips, d, DayBody(Some(other), None, None, None, None)) == DaySaved(d.(tripId := other))
    ensures GetItineraryDayById(trips, days[d.id := d.(tripId := other)], trips[other].userId, other, d.id).Success()
    ensures other != d.tripId ==> !DayOfTrip(days[d.id := d.(tripId := other)], d.tripId, d.id)
  {
  }

  /** The patch as intended: the day stays in the trip it was found through; a trip_id in the body is ignored. */
  function PatchDay(d: ItineraryDay, b: DayBody): (d': ItineraryDay)
    ensures d' == PatchDayAsWritten(d, b.(tripId := None))
    ensures d'.id == d.id && d'.tripId == d.tripId && d'.createdAt == d.createdAt
  {
    d.(dayNumber := b.dayNumber.GetOr(d.dayNumber),
       date := b.date.GetOr(d.date),
       title := if b.title.Some? then b.title else d.title,
       description := if b.description.Some? then b.description else d.description)
  }

  /**
   * The corrected save never moves a day to another trip, keeps the row
   * within ItineraryDay.js's constraints, and agrees with the save as
   * written on every body that names no other trip.
   */
  lemma SaveDayKeepsTrip(trips: map<Id, Trip>, d: ItineraryDay, b: DayBody)
    requires DayConstraints(d) && d.tripId in trips
    ensures match SaveRow(trips, d, PatchDay(d, b))
      case DaySaved(row) => row.tripId == d.tripId && DayConstraints(row)
      case DayRefused(_) => true
    ensures (b.tripId.None? || b.tripId == Some(d.tripId)) ==> SaveDayAsWritten(trips, d, b) == SaveRow(trips, d, PatchDay(d, b))
  {
    assert b.tripId == Some(d.tripId) ==> PatchDayAsWritten(d, b) == PatchDay(d, b);
  }

  /** `updateItineraryDay`, with the day kept in the trip of the path. */
  method UpdateItineraryDay(db: Database, caller: Id, tripId: Id, id: Id, body: DayBody) returns (r: Reply<ItineraryDay>)
    requires db.Valid()
    modifies db`days
    ensures db.Valid()
    ensures !OwnsTrip(db.trips, caller, tripId) ==> r == ErrorResponse(404, "Trip not found") && db.days == old(db.days)
    ensures OwnsTrip(db.trips, caller, tripId) && !DayOfTrip(old(db.days), tripId, id) ==>
      r == ErrorResponse(404, "Itinerary day not found") && db.days == old(db.days)
    ensures OwnsTrip(db.trips, caller, tripId) && DayOfTrip(old(db.days), tripId, id) ==>
      match SaveRow(db.trips, old(db.days)[id], PatchDay(old(db.days)[id], body))
      case DayRefused(err) => r == HandleError(err) && db.days == old(db.days)
      case DaySaved(d') =>
        && d'.tripId == tripId
        && db.days == old(db.days)[id := d']
        && r == SuccessResponse(200, "Itinerary day updated successfully", Some(d'))
  {
    if !OwnsTrip(db.trips, caller, tripId) {
      return ErrorResponse(404, "Trip not found");
    }
    if !DayOfTrip(db.days, tripId, id) {
      return ErrorResponse(404, "Itinerary day not found");
    }
    var d := db.days[id];
    match SaveRow(db.trips, d, PatchDay(d, body))
    case DayRefused(err) =>
      r := HandleError(err);
    case DaySaved(d') =>
      assert DayConstraints(d);
      db.ReplaceDay(d');
      r := SuccessResponse(200, "Itinerary day updated successfully", Some(d'));
  }

  // ----- deleteItineraryDay -----

  /** `deleteItineraryDay`: only the day's own row goes. */
  method DeleteItineraryDay(db: Database, caller: Id, tripId: Id, id: Id) returns (r: Reply<ItineraryDay>)
    requires db.Valid()
    modifies db`days
    ensures db.Valid()
    ensures !OwnsTrip(db.trips, caller, tripId) ==> r == ErrorResponse(404, "Trip not found") && db.days == old(db.days)
    ensures OwnsTrip(db.trips, caller, tripId) && !DayOfTrip(old(db.days), tripId, id) ==>
      r == ErrorResponse(404, "Itinerary day not found") && db.days == old(db.days)
    ensures OwnsTrip(db.trips, caller, tripId) && DayOfTrip(old(db.days), tripId, id) ==>
      r == SuccessResponse(200, "Itinerary day deleted successfully") && db.days == old(db.days) - {id}
  {
    if !OwnsTrip(db.trips, caller, tripId) {
      return ErrorResponse(404, "Trip not found");
    }
    if !DayOfTrip(db.days, tripId, id) {
      return ErrorResponse(404, "Itinerary day not found");
    }
    db.RemoveDay(id);
    r := SuccessResponse(200, "Itinerary day deleted successfully");
  }
}
