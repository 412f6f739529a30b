/**
 * The arithmetic of backend/src/controllers/tripController.js: a trip's
 * length in days, and the summary `getTripSummary` builds from a trip and
 * its expenses, with the per-category reduce as the loop it is.
 */
module TripSummary {
  import opened Wrappers
  import opened Models
  import opened Aggregates

  /** `Math.ceil((end - start) / 86400000)` over two DATEONLY values, which lie whole days apart. */
  function Days(t: Trip): (n: int)
    ensures TripConstraints(t) ==> n >= 1
  {
    t.endDate - t.startDate
  }

  /** The summary's `trip`: id, name, destination, dates, budget and status. */
  datatype TripBrief = TripBrief(
    id: Id, name: string, destination: string, startDate: Date, endDate: Date, budget: Option<Cents>, status: Status)

  datatype TripSummary = TripSummary(
    trip: TripBrief,
    totalExpenses: int,
    remainingBudget: Option<int>,
    expensesByCategory: seq<CategoryTotal>,
    days: int,
    expenseCount: nat)

  function Brief(t: Trip): TripBrief {
    TripBrief(t.id, t.name, t.destination, t.startDate, t.endDate, t.budget, t.status)
  }

  /** `trip.budget ? parseFloat(trip.budget) - totalExpenses : null`: a stored budget, even 0.00, is a string and so truthy. */
  function Remaining(budget: Option<Cents>, total: int): (r: Option<int>)
    ensures r.None? <==> budget.None?
    ensures r.Some? ==> r.value + total == budget.value
  {
    if budget.Some? then Some(budget.value - total) else None
  }

  /** The summary of trip `t` over its expenses `es`, as the handler builds it. */
  function Summarize(t: Trip, es: seq<Expense>): TripSummary {
    var total := SumAmounts(es);
    TripSummary(Brief(t), total, Remaining(t.budget, total), Totals(es), Days(t), |es|)
  }

  /**
   * The per-category sums add up to the total, the count is the number of
   * expenses, and the remaining budget is what is left of the budget.
   */
  lemma SummaryAddsUp(t: Trip, es: seq<Expense>)
    ensures SumTotals(Summarize(t, es).expensesByCategory) == Summarize(t, es).totalExpenses == SumAmounts(es)
    ensures Summarize(t, es).remainingBudget == if t.budget.Some? then Some(t.budget.value - SumAmounts(es)) else None
    ensures Distinct(TotalCategories(Summarize(t, es).expensesByCategory))
    ensures forall c :: c in TotalCategories(Summarize(t, es).expensesByCategory) <==> c in CategoriesOf(es)
  {
    assert SumTotals(Totals(es)) == SumAmounts(es) by { TotalsAddUp(es); }
    assert Distinct(TotalCategories(Totals(es))) && forall c :: c in TotalCategories(Totals(es)) <==> c in CategoriesOf(es) by {
      TotalsCategories(es);
    }
  }

  /** Over a listing of a trip's expenses, the count is the number of expenses the trip has. */
  lemma SummaryCountsExpenses(t: Trip, es: seq<Expense>, rows: set<Expense>)
    requires multiset(es) == multiset(rows)
    ensures Summarize(t, es).expenseCount == |rows|
  {
    assert |es| == |multiset(es)|;
    assert |multiset(rows)| == |rows|;
  }

  /**
   * The summary does not depend on the order the expenses arrive in, except
   * for the order of the categories: the total, the count, the remaining
   * budget and each category's sum are the same.
   */
  lemma SummaryOrderFree(t: Trip, a: seq<Expense>, b: seq<Expense>, k: nat, l: nat)
    requires multiset(a) == multiset(b)
    requires k < |Summarize(t, a).expensesByCategory| && l < |Summarize(t, b).expensesByCategory|
    requires Summarize(t, a).expensesByCategory[k].category == Summarize(t, b).expensesByCategory[l].category
    ensures Summarize(t, a).totalExpenses == Summarize(t, b).totalExpenses
    ensures Summarize(t, a).expenseCount == Summarize(t, b).expenseCount
    ensures Summarize(t, a).remainingBudget == Summarize(t, b).remainingBudget
    ensures Summarize(t, a).expensesByCategory[k].total == Summarize(t, b).expensesByCategory[l].total
  {
    SumAmountsPermutation(a, b);
    assert |a| == |multiset(a)| == |multiset(b)| == |b|;
    OfCategoryPermutation(a, b, Summarize(t, a).expensesByCategory[k].category);
  }

  /**
   * The state of the reduce of lines 179-182 after the expenses `s`: the
   * object's keys in insertion order, and each key's running sum.
   */
  predicate Accumulated(s: seq<Expense>, order: seq<Category>, acc: map<Category, int>) {
    && order == FirstSeen(CategoriesOf(s))
    && (forall c :: c in acc <==> c in order)
    && (forall c :: c in acc ==> acc[c] == SumAmounts(OfCategory(s, c)))
  }

  /** One step of the reduce: `acc[category] = (acc[category] || 0) + amount`. */
  lemma AccumulateStep(s: seq<Expense>, e: Expense, order: seq<Category>, acc: map<Category, int>)
    requires Accumulated(s, order, acc)
    ensures Accumulated(s + [e], if e.category in acc then order else order + [e.category],
                        acc[e.category := (if e.category in acc then acc[e.category] else 0) + e.amount])
  {
    var order' := if e.category in acc then order else order + [e.category];
    var acc' := acc[e.category := (if e.category in acc then acc[e.category] else 0) + e.amount];
    assert order' == FirstSeen(CategoriesOf(s + [e])) by {
      FirstSeenSnoc(s, e);
    }
    assert forall c :: c in acc' <==> c in order';
    forall c | c in acc' ensures acc'[c] == SumAmounts(OfCategory(s + [e], c)) {
      if c !in acc {
        FirstSeenDistinct(CategoriesOf(s));
        AbsentCategoryEmpty(s, c);
      }
      SumStep(s, e, c, if c in acc then acc[c] else 0);
    }
  }

  lemma SumStep(s: seq<Expense>, e: Expense, c: Category, before: int)
    requires before == SumAmounts(OfCategory(s, c))
    ensures SumAmounts(OfCategory(s + [e], c)) == if e.category == c then before + e.amount else before
  {
    OfCategorySnoc(s, e, c);
    if e.category == c {
      SumAmountsSnoc(OfCategory(s, c), e);
    } else {
      assert OfCategory(s, c) + [] == OfCategory(s, c);
    }
  }

  /** The step for a category the object already has: its sum grows. */
  lemma AccumulateKnown(s: seq<Expense>, e: Expense, order: seq<Category>, acc: map<Category, int>)
    requires Accumulated(s, order, acc) && e.category in acc
    ensures Accumulated(s + [e], order, acc[e.category := acc[e.category] + e.amount])
  {
    AccumulateStep(s, e, order, acc);
  }

  /** The step for a category met for the first time: it becomes the last key. */
  lemma AccumulateNew(s: seq<Expense>, e: Expense, order: seq<Category>, acc: map<Category, int>)
    requires Accumulated(s, order, acc) && e.category !in acc
    ensures Accumulated(s + [e], order + [e.category], acc[e.category := e.amount])
  {
    AccumulateStep(s, e, order, acc);
    assert 0 + e.amount == e.amount;
  }

  /** A category no expense of `s` has selects nothing. */
  lemma AbsentCategoryEmpty(s: seq<Expense>, c: Category)
    requires c !in CategoriesOf(s)
    ensures OfCategory(s, c) == []
  {
    OfCategoryMembers(s, c);
  }

  /** The object `acc` read in the key order `order`, as `{category, total}` rows. */
  function TotalsIn(order: seq<Category>, acc: map<Category, int>): seq<CategoryTotal> {
    seq(|order|, k requires 0 <= k < |order| => CategoryTotal(order[k], if order[k] in acc then acc[order[k]] else 0))
  }

  /** The object the reduce leaves, read in key order, is the first-seen per-category totals. */
  lemma AccumulatedTotals(es: seq<Expense>, order: seq<Category>, acc: map<Category, int>)
    requires Accumulated(es, order, acc)
    ensures TotalsIn(order, acc) == Totals(es)
  {
  }

  /** The reduce of lines 179-182, with the object's keys in insertion order. */
  method CategoryTotals(es: seq<Expense>) returns (r: seq<CategoryTotal>)
    ensures r == Totals(es)
  {
    var order: seq<Category> := [];
    var acc: map<Category, int> := map[];
    for i := 0 to |es|
      invariant Accumulated(es[..i], order, acc)
    {
      var e := es[i];
      assert es[..i + 1] == es[..i] + [e];
      if e.category in acc {
        AccumulateKnown(es[..i], e, order, acc);
        acc := acc[e.category := acc[e.category] + e.amount];
      } else {
        AccumulateNew(es[..i], e, order, acc);
        order := order + [e.category];
        acc := acc[e.category := e.amount];
      }
    }
    assert es[..|es|] == es;
    AccumulatedTotals(es, order, acc);
    r := TotalsIn(order, acc);
  }

}

/**
 * backend/src/controllers/tripController.js: the six trip handlers, behind
 * the gate (each takes the principal's id as `caller`) and, for create and
 * update, behind the trip schemas. Every lookup is scoped by owner: a trip
 * that is missing and a trip of someone else give the same 404.
 */
module TripController {
  import opened TripSummary
  import opened Wrappers
  import opened Models
  import opened Responses
  import opened ErrorHandler
  import opened Associations
  import opened Store
  import opened Query
  import opened Aggregates
  import opened Joi
  import opened TripValidator

  /** The sort key of `order: [['created_at', 'DESC']]`. */
  function TripCreatedAt(t: Trip): int {
    t.createdAt
  }

  // ----- getAllTrips -----

  /** One entry of the listing: the trip, its expenses, their total and its length in days. */
  datatype TripWithTotals = TripWithTotals(trip: Trip, expenses: seq<Expense>, totalExpenses: int, days: int)

  function TripsOf(items: seq<TripWithTotals>): (r: seq<Trip>)
    ensures |r| == |items| && forall i :: 0 <= i < |items| ==> r[i] == items[i].trip
  {
    seq(|items|, i requires 0 <= i < |items| => items[i].trip)
  }

  /** The entry carries every expense of its trip once and the totals computed over them. */
  predicate Totalled(x: TripWithTotals, expenses: map<Id, Expense>) {
    && multiset(x.expenses) == multiset(ExpensesOfTrip(expenses, x.trip.id))
    && x.totalExpenses == SumAmounts(x.expenses)
    && x.days == Days(x.trip)
  }

  /** The listing of the caller's trips: each of them once, newest first, each with its totals. */
  predicate ListsOwnTrips(items: seq<TripWithTotals>, trips: map<Id, Trip>, expenses: map<Id, Expense>, caller: Id) {
    && multiset(TripsOf(items)) == multiset(Where(trips.Values, TripOwnedBy(caller)))
    && Ordered(TripsOf(items), TripCreatedAt, false)
    && forall i :: 0 <= i < |items| ==> Totalled(items[i], expenses)
  }

  /** `getAllTrips`. */
  method GetAllTrips(db: Database, caller: Id) returns (r: Reply<seq<TripWithTotals>>)
    ensures r.Success() && r.status == 200 && r.Message() == "Trips retrieved successfully"
    ensures r.body.data.Some? && ListsOwnTrips(r.body.data.value, db.trips, db.expenses, caller)
  {
    var trips := SelectSorted(db.trips.Values, TripOwnedBy(caller), TripCreatedAt, false);
    var items: seq<TripWithTotals> := [];
    for i := 0 to |trips|
      invariant TripsOf(items) == trips[..i]
      invariant forall j :: 0 <= j < i ==> Totalled(items[j], db.expenses)
    {
      var es := Select(db.expenses.Values, ExpenseInTrip(trips[i].id));
      items := items + [TripWithTotals(trips[i], es, SumAmounts(es), Days(trips[i]))];
    }
    assert trips[..|trips|] == trips;
    r := SuccessResponse(200, "Trips retrieved successfully", Some(items));
  }

  /**
   * Only the caller's trips are listed, each exactly once, and the totals
   * do not depend on the order the expenses arrive in.
   */
  lemma OwnTripsOnly(items: seq<TripWithTotals>, trips: map<Id, Trip>, expenses: map<Id, Expense>, caller: Id)
    requires ListsOwnTrips(items, trips, expenses, caller)
    ensures forall i :: 0 <= i < |items| ==> items[i].trip in trips.Values && items[i].trip.userId == caller
    ensures forall t :: t in trips.Values && t.userId == caller ==> t in TripsOf(items)
    ensures forall i, j :: 0 <= i < j < |items| ==> items[i].trip != items[j].trip
    ensures forall i, es :: 0 <= i < |items| && multiset(es) == multiset(ExpensesOfTrip(expenses, items[i].trip.id)) ==>
      items[i].totalExpenses == SumAmounts(es)
  {
    var ts := TripsOf(items);
    ListingExact(ts, trips.Values, TripOwnedBy(caller));
    forall i | 0 <= i < |items| ensures items[i].trip in trips.Values && items[i].trip.userId == caller {
      assert ts[i] == items[i].trip;
      assert ts[i] in ts;
    }
    forall i, j | 0 <= i < j < |items| ensures items[i].trip != items[j].trip {
      assert ts[i] != ts[j];
    }
    forall i, es | 0 <= i < |items| && multiset(es) == multiset(ExpensesOfTrip(expenses, items[i].trip.id))
      ensures items[i].totalExpenses == SumAmounts(es)
    {
      SumAmountsPermutation(items[i].expenses, es);
    }
  }

  /** In a coherent database a trip's total is never negative: every stored amount is at least 0. */
  lemma TotalNonNegative(t: Tables, x: TripWithTotals)
    requires Coherent(t) && Totalled(x, t.expenses)
    ensures x.totalExpenses >= 0
  {
    forall e | e in x.expenses ensures e.amount >= 0 {
      assert e in multiset(x.expenses);
      assert e in t.expenses.Values;
    }
    SumAmountsNonNegative(x.expenses);
  }

  // ----- getTripById -----

  /** The trip with its expenses, images and itinerary days, the total of the expenses and its length. */
  datatype TripDetail = TripDetail(
    trip: Trip, expenses: seq<Expense>, images: seq<Image>, itineraryDays: seq<ItineraryDay>,
    totalExpenses: int, days: int)

  predicate Detailed(d: TripDetail, t: Tables, id: Id)
    requires id in t.trips
  {
    && d.trip == t.trips[id]
    && multiset(d.expenses) == multiset(ExpensesOfTrip(t.expenses, id))
    && multiset(d.images) == multiset(ImagesOfTrip(t.images, id))
    && multiset(d.itineraryDays) == multiset(DaysOfTrip(t.days, id))
    && d.totalExpenses == SumAmounts(d.expenses)
    && d.days == Days(d.trip)
  }

  /** `getTripById`. */
  method GetTripById(db: Database, caller: Id, id: Id) returns (r: Reply<TripDetail>)
    ensures !OwnsTrip(db.trips, caller, id) ==> r == ErrorResponse(404, "Trip not found")
    ensures OwnsTrip(db.trips, caller, id) ==>
      && r.Success() && r.status == 200 && r.Message() == "Trip retrieved successfully"
      && r.body.data.Some? && Detailed(r.body.data.value, db.Snapshot(), id)
  {
    if !OwnsTrip(db.trips, caller, id) {
      return ErrorResponse(404, "Trip not found");
    }
    var trip := db.trips[id];
    var es := Select(db.expenses.Values, ExpenseInTrip(id));
    var images := Select(db.images.Values, ImageInTrip(id));
    var days := Select(db.days.Values, DayInTrip(id));
    r := SuccessResponse(200, "Trip retrieved successfully",
                         Some(TripDetail(trip, es, images, days, SumAmounts(es), Days(trip))));
  }

  // ----- createTrip -----

  function BudgetOf(v: Num): Option<Cents> {
    if v.Number? then Some(v.cents) else None
  }

  /** The row `Trip.create` stores for a body the create schema accepted; `status || 'planning'`. */
  function NewTrip(id: Id, caller: Id, b: TripBody, now: nat): (t: Trip)
    requires CreateTripAccepts(b)
    ensures t.id == id && t.userId == caller && t.createdAt == now
    ensures b.status.None? ==> t.status == Planning
    ensures b.status.Some? ==> StatusName(t.status) == b.status.value.s
    ensures TripConstraints(t)
  {
    Trip(id, caller, b.name.value.s, b.destination.value.s, b.startDate.value.day, b.endDate.value.day,
         if b.budget.Some? then BudgetOf(b.budget.value) else None,
         if b.description.Some? then Some(b.description.value.s) else None,
         if b.status.Some? then ParseStatus(b.status.value.s).value else Planning,
         now)
  }

  /** `validate(createTripSchema)` then `createTrip`. */
  method CreateTrip(db: Database, caller: Id, body: TripBody) returns (r: Reply<Trip>)
    requires db.Valid() && caller in db.users
    modifies db`trips, db`nextTripId, db`clock
    ensures db.Valid()
    ensures !CreateTripAccepts(body) ==>
      && r == ErrorResponse(400, "Validation failed", Some(CreateTripDetails(body)))
      && db.trips == old(db.trips) && db.nextTripId == old(db.nextTripId) && db.clock == old(db.clock)
    ensures CreateTripAccepts(body) ==>
      var t := NewTrip(old(db.nextTripId), caller, body, old(db.clock));
      && old(db.nextTripId) !in old(db.trips)
      && db.trips == old(db.trips)[t.id := t]
      && db.nextTripId == old(db.nextTripId) + 1 && db.clock == old(db.clock) + 1
      && r == SuccessResponse(201, "Trip created successfully", Some(t))
  {
    var verdict := Verdict<Trip>(CreateTripDetails(body));
    if verdict.Some? {
      return verdict.value;
    }
    var t := NewTrip(db.nextTripId, caller, body, db.clock);
    db.InsertTrip(t);
    r := SuccessResponse(201, "Trip created successfully", Some(t));
  }

  // ----- updateTrip -----

  /** `trip.set(updateData)` for a body the update schema accepted: the fields it carries replace the row's. */
  function PatchTrip(t: Trip, b: TripBody): (t': Trip)
    requires UpdateTripAccepts(b)
    ensures t'.id == t.id && t'.userId == t.userId && t'.createdAt == t.createdAt
    ensures t'.name == (if b.name.Some? then b.name.value.s else t.name)
    ensures t'.destination == (if b.destination.Some? then b.destination.value.s else t.destination)
    ensures t'.startDate == (if b.startDate.Some? then b.startDate.value.day else t.startDate)
    ensures t'.endDate == (if b.endDate.Some? then b.endDate.value.day else t.endDate)
    ensures t'.budget == (if b.budget.Some? then BudgetOf(b.budget.value) else t.budget)
    ensures t'.description == (if b.description.Some? then Some(b.description.value.s) else t.description)
    ensures b.status.Some? ==> StatusName(t'.status) == b.status.value.s
    ensures b.status.None? ==> t'.status == t.status
  {
    t.(name := if b.name.Some? then b.name.value.s else t.name,
       destination := if b.destination.Some? then b.destination.value.s else t.destination,
       startDate := if b.startDate.Some? then b.startDate.value.day else t.startDate,
       endDate := if b.endDate.Some? then b.endDate.value.day else t.endDate,
       budget := if b.budget.Some? then BudgetOf(b.budget.value) else t.budget,
       description := if b.description.Some? then Some(b.description.value.s) else t.description,
       status := if b.status.Some? then ParseStatus(b.status.value.s).value else t.status)
  }

  /** The attributes whose value `set` changed: the only ones `save` validates. */
  function ChangedFields(t: Trip, t': Trip): set<string> {
    (if t'.name != t.name then {"name"} else {})
    + (if t'.destination != t.destination then {"destination"} else {})
    + (if t'.startDate != t.startDate then {"start_date"} else {})
    + (if t'.endDate != t.endDate then {"end_date"} else {})
    + (if t'.budget != t.budget then {"budget"} else {})
    + (if t'.description != t.description then {"description"} else {})
    + (if t'.status != t.status then {"status"} else {})
  }

  /** The outcome of `trip.update(body)`: the saved row, or the validation items that stopped it. */
  datatype Saved = Saved(row: Trip) | Rejected(items: seq<ErrorItem>)

  /** `trip.update(updateData)` as written: only the changed attributes are validated. */
  function SaveAsWritten(t: Trip, b: TripBody): Saved
    requires UpdateTripAccepts(b)
  {
    var t' := PatchTrip(t, b);
    var items := TripViolationsOn(t', ChangedFields(t, t'));
    if items == [] then Saved(t') else Rejected(items)
  }

  /**
   * As written, moving only the start date to or past the end date is saved:
   * `isAfterStartDate` sits on end_date, which did not change, so it never runs.
   */
  lemma StartDatePatchSkipsDateCheck(t: Trip, day: Date)
    requires TripConstraints(t) && day >= t.endDate
    ensures var b := TripBody(None, None, Some(IsoDate(day)), None, None, None, None, []);
      && UpdateTripAccepts(b)
      && SaveAsWritten(t, b) == Saved(t.(startDate := day))
      && !TripConstraints(SaveAsWritten(t, b).row)
  {
    var b := TripBody(None, None, Some(IsoDate(day)), None, None, None, None, []);
    assert ChangedFields(t, PatchTrip(t, b)) == {"start_date"};
  }

  /** `trip.update(updateData)` with the whole merged row validated, as the model intends. */
  function SavePatch(t: Trip, b: TripBody): (s: Saved)
    requires UpdateTripAccepts(b)
    ensures s.Saved? ==> s.row == PatchTrip(t, b) && TripConstraints(s.row)
    ensures s.Rejected? ==> s.items == TripViolations(PatchTrip(t, b)) && s.items != []
  {
    var t' := PatchTrip(t, b);
    TripViolationsExact(t');
    if TripViolations(t') == [] then Saved(t') else Rejected(TripViolations(t'))
  }

  /**
   * On a row that met its constraints, the corrected save refuses exactly
   * the patches that leave the end date not after the start date, and it
   * agrees with the save as written on every patch it accepts.
   */
  lemma SavePatchRefusesOnlyDateOrder(t: Trip, b: TripBody)
    requires TripConstraints(t) && UpdateTripAccepts(b)
    ensures SavePatch(t, b).Rejected? <==> PatchTrip(t, b).endDate <= PatchTrip(t, b).startDate
    ensures SavePatch(t, b).Rejected? ==>
      SavePatch(t, b).items == [ErrorItem("end_date", "End date must be after start date")]
    ensures SavePatch(t, b).Saved? ==> SaveAsWritten(t, b) == SavePatch(t, b)
  {
    TripViolationsExact(PatchTrip(t, b));
  }

  /** `validate(updateTripSchema)` then `updateTrip`, with the merged row validated. */
  method UpdateTrip(db: Database, caller: Id, id: Id, body: TripBody) returns (r: Reply<Trip>)
    requires db.Valid()
    modifies db`trips
    ensures db.Valid()
    ensures !UpdateTripAccepts(body) ==>
      r == ErrorResponse(400, "Validation failed", Some(UpdateTripDetails(body))) && db.trips == old(db.trips)
    ensures UpdateTripAccepts(body) && !OwnsTrip(old(db.trips), caller, id) ==>
      r == ErrorResponse(404, "Trip not found") && db.trips == old(db.trips)
    ensures UpdateTripAccepts(body) && OwnsTrip(old(db.trips), caller, id) ==>
      match SavePatch(old(db.trips)[id], body)
      case Rejected(items) => r == HandleError(ValidationError(items)) && db.trips == old(db.trips)
      case Saved(t') =>
        && db.trips == old(db.trips)[id := t']
        && r == SuccessResponse(200, "Trip updated successfully", Some(t'))
  {
    var verdict := Verdict<Trip>(UpdateTripDetails(body));
    if verdict.Some? {
      return verdict.value;
    }
    if !OwnsTrip(db.trips, caller, id) {
      return ErrorResponse(404, "Trip not found");
    }
    match SavePatch(db.trips[id], body)
    case Rejected(items) =>
      r := HandleError(ValidationError(items));
    case Saved(t') =>
      db.ReplaceTrip(t');
      r := SuccessResponse(200, "Trip updated successfully", Some(t'));
  }

  // ----- deleteTrip -----

  /** `deleteTrip`: `trip.destroy()` and the cascades it sets off. */
  method DeleteTrip(db: Database, caller: Id, id: Id) returns (r: Reply<Trip>)
    requires db.Valid()
    modifies db`trips, db`expenses, db`days, db`images, db`comments
    ensures db.Valid()
    ensures !OwnsTrip(old(db.trips), caller, id) ==>
      r == ErrorResponse(404, "Trip not found") && db.Snapshot() == old(db.Snapshot())
    ensures OwnsTrip(old(db.trips), caller, id) ==>
      r == SuccessResponse(200, "Trip deleted successfully") && db.Snapshot() == DeleteTripCascade(old(db.Snapshot()), id)
  {
    if !OwnsTrip(db.trips, caller, id) {
      return ErrorResponse(404, "Trip not found");
    }
    ghost var s := db.Snapshot();
    DeleteTripCascadeCoherent(s, id);
    db.DestroyTrip(id);
    r := SuccessResponse(200, "Trip deleted successfully");
  }

  // ----- getTripSummary -----

  /** `getTripSummary`; `expenses` is the order the trip's expenses arrived in. */
  method GetTripSummary(db: Database, caller: Id, id: Id) returns (r: Reply<TripSummary>, ghost expenses: seq<Expense>)
    ensures !OwnsTrip(db.trips, caller, id) ==> r == ErrorResponse(404, "Trip not found")
    ensures OwnsTrip(db.trips, caller, id) ==>
      && multiset(expenses) == multiset(ExpensesOfTrip(db.expenses, id))
      && r == SuccessResponse(200, "Trip summary retrieved successfully", Some(Summarize(db.trips[id], expenses)))
  {
    if !OwnsTrip(db.trips, caller, id) {
      return ErrorResponse(404, "Trip not found"), [];
    }
    var trip := db.trips[id];
    var es := Select(db.expenses.Values, ExpenseInTrip(id));
    expenses := es;
    var total := SumAmounts(es);
    var byCategory := CategoryTotals(es);
    r := SuccessResponse(200, "Trip summary retrieved successfully",
                         Some(TripSummary(Brief(trip), total, Remaining(trip.budget, total), byCategory, Days(trip), |es|)));
  }
}
