/**
 * backend/src/controllers/expenseController.js: the six expense handlers,
 * mounted under a trip (`/trips/:tripId/expenses`) behind the gate, with
 * the expense schemas in front of create and update. Every handler first
 * looks the trip up scoped by owner, then the expense scoped by that trip.
 */
module ExpenseController {
  import opened Wrappers
  import opened Models
  import opened Responses
  import opened ErrorHandler
  import opened Associations
  import opened Store
  import opened Query
  import opened Aggregates
  import opened Joi
  import opened ExpenseValidator

  /** The sort key of `order: [['date', 'DESC']]`. */
  function ExpenseDate(e: Expense): int {
    e.date
  }

  /** `Expense.findOne({where: {id, trip_id: tripId}})` finds a row. */
  predicate ExpenseOfTrip(expenses: map<Id, Expense>, tripId: Id, id: Id) {
    id in expenses && expenses[id].tripId == tripId
  }

  // ----- getAllExpenses -----

  /** `getAllExpenses`: the trip's expenses, latest date first. */
  method GetAllExpenses(db: Database, caller: Id, tripId: Id) returns (r: Reply<seq<Expense>>)
    ensures !OwnsTrip(db.trips, caller, tripId) ==> r == ErrorResponse(404, "Trip not found")
    ensures OwnsTrip(db.trips, caller, tripId) ==>
      && r.Success() && r.status == 200 && r.Message() == "Expenses retrieved successfully" && r.body.data.Some?
      && multiset(r.body.data.value) == multiset(ExpensesOfTrip(db.expenses, tripId))
      && Ordered(r.body.data.value, ExpenseDate, false)
  {
    if !OwnsTrip(db.trips, caller, tripId) {
      return ErrorResponse(404, "Trip not found");
    }
    var es := SelectSorted(db.expenses.Values, ExpenseInTrip(tripId), ExpenseDate, false);
    r := SuccessResponse(200, "Expenses retrieved successfully", Some(es));
  }

  // ----- getExpenseById -----

  /**
   * `getExpenseById`. An expense is shown only through its own trip, and
   * only to that trip's owner: any other path gives one of the two 404s.
   */
  function GetExpenseById(trips: map<Id, Trip>, expenses: map<Id, Expense>, caller: Id, tripId: Id, id: Id): (r: Reply<Expense>)
    ensures !OwnsTrip(trips, caller, tripId) ==> r == ErrorResponse(404, "Trip not found")
    ensures OwnsTrip(trips, caller, tripId) && !ExpenseOfTrip(expenses, tripId, id) ==> r == ErrorResponse(404, "Expense not found")
    ensures r.Success() <==> OwnsTrip(trips, caller, tripId) && ExpenseOfTrip(expenses, tripId, id)
    ensures r.Success() ==>
      && r.status == 200 && r.Message() == "Expense retrieved successfully"
      && r.body.data == Some(expenses[id]) && trips[expenses[id].tripId].userId == caller
  {
    if !OwnsTrip(trips, caller, tripId) then ErrorResponse(404, "Trip not found")
    else if !ExpenseOfTrip(expenses, tripId, id) then ErrorResponse(404, "Expense not found")
    else SuccessResponse(200, "Expense retrieved successfully", Some(expenses[id]))
  }

  // ----- createExpense -----

  /**
   * The row `Expense.create` stores for a body the create schema accepted:
   * trip_id from the path, receipt_image the uploaded file's path or null.
   * It meets Expense.js's constraints exactly when that path fits STRING(255).
   */
  function NewExpense(id: Id, tripId: Id, b: ExpenseBody, receipt: Option<string>, now: nat): (e: Expense)
    requires CreateExpenseAccepts(b)
    ensures e.id == id && e.tripId == tripId && e.createdAt == now
    ensures e.amount == b.amount.value.cents && e.amount > 0
    ensures CategoryName(e.category) == b.category.value.s && e.date == b.date.value.day
    ensures e.receiptImage == receipt
    ensures ExpenseConstraints(e) <==> Fits(receipt, 255)
  {
    Expense(id, tripId, b.amount.value.cents, ParseCategory(b.category.value.s).value, b.date.value.day,
            if b.description.Some? then Some(b.description.value.s) else None,
            receipt, now)
  }

  /**
   * `validate(createExpenseSchema)` then `createExpense`; `receipt` is
   * `req.file.path` when a file was uploaded. A path longer than the column
   * is refused by the database.
   */
  method CreateExpense(db: Database, caller: Id, tripId: Id, body: ExpenseBody, receipt: Option<string>)
    returns (r: Reply<Expense>)
    requires db.Valid()
    modifies db`expenses, db`nextExpenseId, db`clock
    ensures db.Valid()
    ensures !CreateExpenseAccepts(body) ==>
      r == ErrorResponse(400, "Validation failed", Some(CreateExpenseDetails(body))) && unchanged(db)
    ensures CreateExpenseAccepts(body) && !OwnsTrip(old(db.trips), caller, tripId) ==>
      r == ErrorResponse(404, "Trip not found") && unchanged(db)
    ensures CreateExpenseAccepts(body) && OwnsTrip(old(db.trips), caller, tripId) && !Fits(receipt, 255) ==>
      r == HandleError(DataTooLong("receipt_image")) && unchanged(db)
    ensures CreateExpenseAccepts(body) && OwnsTrip(old(db.trips), caller, tripId) && Fits(receipt, 255) ==>
      var e := NewExpense(old(db.nextExpenseId), tripId, body, receipt, old(db.clock));
      && old(db.nextExpenseId) !in old(db.expenses)
      && db.expenses == old(db.expenses)[e.id := e]
      && db.nextExpenseId == old(db.nextExpenseId) + 1 && db.clock == old(db.clock) + 1
      && r == SuccessResponse(201, "Expense added successfully", Some(e))
  {
    var verdict := Verdict<Expense>(CreateExpenseDetails(body));
    if verdict.Some? {
      return verdict.value;
    }
    if !OwnsTrip(db.trips, caller, tripId) {
      return ErrorResponse(404, "Trip not found");
    }
    if !Fits(receipt, 255) {
      return HandleError(DataTooLong("receipt_image"));
    }
    var e := NewExpense(db.nextExpenseId, tripId, body, receipt, db.clock);
    db.InsertExpense(e);
    r := SuccessResponse(201, "Expense added successfully", Some(e));
  }

  // ----- updateExpense -----

  /**
   * `expense.update(updateData)` for a body the update schema accepted; the
   * schema admits only the four expense keys, so trip_id, receipt_image and
   * created_at stay. Sequelize's check of the changed attributes cannot
   * fail: the schema's bounds are at least as tight as Expense.js's.
   */
  function PatchExpense(e: Expense, b: ExpenseBody): (e': Expense)
    requires UpdateExpenseAccepts(b)
    ensures e'.id == e.id && e'.tripId == e.tripId && e'.createdAt == e.createdAt && e'.receiptImage == e.receiptImage
    ensures e'.amount == (if b.amount.Some? then b.amount.value.cents else e.amount)
    ensures b.category.Some? ==> CategoryName(e'.category) == b.category.value.s
    ensures b.category.None? ==> e'.category == e.category
    ensures e'.date == (if b.date.Some? then b.date.value.day else e.date)
    ensures e'.description == (if b.description.Some? then Some(b.description.value.s) else e.description)
    ensures ExpenseConstraints(e) ==> ExpenseConstraints(e')
  {
    e.(amount := if b.amount.Some? then b.amount.value.cents else e.amount,
       category := if b.category.Some? then ParseCategory(b.category.value.s).value else e.category,
       date := if b.date.Some? then b.date.value.day else e.date,
       description := if b.description.Some? then Some(b.description.value.s) else e.description)
  }

  /** `validate(updateExpenseSchema)` then `updateExpense`. */
  method UpdateExpense(db: Database, caller: Id, tripId: Id, id: Id, body: ExpenseBody) returns (r: Reply<Expense>)
    requires db.Valid()
    modifies db`expenses
    ensures db.Valid()
    ensures !UpdateExpenseAccepts(body) ==>
      r == ErrorResponse(400, "Validation failed", Some(UpdateExpenseDetails(body))) && db.expenses == old(db.expenses)
    ensures UpdateExpenseAccepts(body) && !OwnsTrip(db.trips, caller, tripId) ==>
      r == ErrorResponse(404, "Trip not found") && db.expenses == old(db.expenses)
    ensures UpdateExpenseAccepts(body) && OwnsTrip(db.trips, caller, tripId) && !ExpenseOfTrip(old(db.expenses), tripId, id) ==>
      r == ErrorResponse(404, "Expense not found") && db.expenses == old(db.expenses)
    ensures UpdateExpenseAccepts(body) && OwnsTrip(db.trips, caller, tripId) && ExpenseOfTrip(old(db.expenses), tripId, id) ==>
      var e' := PatchExpense(old(db.expenses)[id], body);
      && db.expenses == old(db.expenses)[id := e']
      && r == SuccessResponse(200, "Expense updated successfully", Some(e'))
  {
    var verdict := Verdict<Expense>(UpdateExpenseDetails(body));
    if verdict.Some? {
      return verdict.value;
    }
    if !OwnsTrip(db.trips, caller, tripId) {
      return ErrorResponse(404, "Trip not found");
    }
    if !ExpenseOfTrip(db.expenses, tripId, id) {
      return ErrorResponse(404, "Expense not found");
    }
    var e' := PatchExpense(db.expenses[id], body);
    assert ExpenseConstraints(db.expenses[id]);
    db.ReplaceExpense(e');
    r := SuccessResponse(200, "Expense updated successfully", Some(e'));
  }

  // ----- deleteExpense -----

  /** `deleteExpense`: only the expense's own row goes. */
  method DeleteExpense(db: Database, caller: Id, tripId: Id, id: Id) returns (r: Reply<Expense>)
    requires db.Valid()
    modifies db`expenses
    ensures db.Valid()
    ensures !OwnsTrip(db.trips, caller, tripId) ==>
      r == ErrorResponse(404, "Trip not found") && db.expenses == old(db.expenses)
    ensures OwnsTrip(db.trips, caller, tripId) && !ExpenseOfTrip(old(db.expenses), tripId, id) ==>
      r == ErrorResponse(404, "Expense not found") && db.expenses == old(db.expenses)
    ensures OwnsTrip(db.trips, caller, tripId) && ExpenseOfTrip(old(db.expenses), tripId, id) ==>
      r == SuccessResponse(200, "Expense deleted successfully") && db.expenses == old(db.expenses) - {id}
  {
    if !OwnsTrip(db.trips, caller, tripId) {
      return ErrorResponse(404, "Trip not found");
    }
    if !ExpenseOfTrip(db.expenses, tripId, id) {
      return ErrorResponse(404, "Expense not found");
    }
    db.RemoveExpense(id);
    r := SuccessResponse(200, "Expense deleted successfully");
  }

  // ----- getExpensesByCategory -----

  /**
   * The state of the reduce of lines 173-187 after the expenses `s`: the
   * object's keys in insertion order, and each key's group so far.
   */
  predicate Grouped(s: seq<Expense>, order: seq<Category>, acc: map<Category, CategoryGroup>) {
    && order == FirstSeen(CategoriesOf(s))
    && (forall c :: c in acc <==> c in order)
    && (forall c :: c in acc ==> acc[c] == GroupOf(s, c))
  }

  /** The group `acc[category]` becomes: total, count and list each take the expense. */
  function AddToGroup(g: CategoryGroup, e: Expense): CategoryGroup {
    CategoryGroup(g.category, g.total + e.amount, g.count + 1, g.expenses + [e])
  }

  /** One step of the reduce, for the expense's own category. */
  lemma GroupGrows(s: seq<Expense>, e: Expense)
    ensures GroupOf(s + [e], e.category) == AddToGroup(GroupOf(s, e.category), e)
  {
    OfCategorySnoc(s, e, e.category);
    SumAmountsSnoc(OfCategory(s, e.category), e);
  }

  /** One step of the reduce, for every other category. */
  lemma GroupStays(s: seq<Expense>, e: Expense, c: Category)
    requires c != e.category
    ensures GroupOf(s + [e], c) == GroupOf(s, c)
  {
    OfCategorySnoc(s, e, c);
    assert OfCategory(s, c) + [] == OfCategory(s, c);
  }

  /** A category first met at `e`: the group `{category, total: 0, count: 0, expenses: []}` is the empty one. */
  lemma NewGroupEmpty(s: seq<Expense>, c: Category)
    requires c !in FirstSeen(CategoriesOf(s))
    ensures GroupOf(s, c) == CategoryGroup(c, 0, 0, [])
  {
    FirstSeenDistinct(CategoriesOf(s));
    OfCategoryMembers(s, c);
  }

  /** One step of the reduce: `acc[category]` is created empty if absent, then takes the expense. */
  lemma GroupStep(s: seq<Expense>, e: Expense, order: seq<Category>, acc: map<Category, CategoryGroup>)
    requires Grouped(s, order, acc)
    ensures var g := if e.category in acc then acc[e.category] else CategoryGroup(e.category, 0, 0, []);
      Grouped(s + [e], if e.category in acc then order else order + [e.category], acc[e.category := AddToGroup(g, e)])
  {
    var g := if e.category in acc then acc[e.category] else CategoryGroup(e.category, 0, 0, []);
    var order' := if e.category in acc then order else order + [e.category];
    var acc' := acc[e.category := AddToGroup(g, e)];
    assert order' == FirstSeen(CategoriesOf(s + [e])) by {
      FirstSeenSnoc(s, e);
    }
    assert forall c :: c in acc' <==> c in order';
    forall c | c in acc' ensures acc'[c] == GroupOf(s + [e], c) {
      if c == e.category {
        if c !in acc {
          NewGroupEmpty(s, c);
        }
        GroupGrows(s, e);
      } else {
        assert acc'[c] == acc[c] == GroupOf(s, c);
        GroupStays(s, e, c);
      }
    }
    assert Grouped(s + [e], order', acc');
  }

  /** The object the reduce leaves, read in key order, is the first-seen groups. */
  lemma GroupedGroups(es: seq<Expense>, order: seq<Category>, acc: map<Category, CategoryGroup>)
    requires Grouped(es, order, acc)
    ensures forall k :: 0 <= k < |order| ==> order[k] in acc
    ensures seq(|order|, k requires 0 <= k < |order| && order[k] in acc => acc[order[k]]) == Groups(es)
  {
  }

  /** `getExpensesByCategory`'s reduce, with `Object.values` reading the keys in insertion order. */
  method GroupByCategory(es: seq<Expense>) returns (r: seq<CategoryGroup>)
    ensures r == Groups(es)
  {
    var order: seq<Category> := [];
    var acc: map<Category, CategoryGroup> := map[];
    for i := 0 to |es|
      invariant Grouped(es[..i], order, acc)
    {
      var e := es[i];
      assert es[..i + 1] == es[..i] + [e];
      GroupStep(es[..i], e, order, acc);
      var g := if e.category in acc then acc[e.category] else CategoryGroup(e.category, 0, 0, []);
      if e.category !in acc {
        order := order + [e.category];
      }
      acc := acc[e.category := AddToGroup(g, e)];
    }
    assert es[..|es|] == es;
    GroupedGroups(es, order, acc);
    r := seq(|order|, k requires 0 <= k < |order| && order[k] in acc => acc[order[k]]);
  }

  /** `getExpensesByCategory`; `expenses` is the order the trip's expenses arrived in. */
  method GetExpensesByCategory(db: Database, caller: Id, tripId: Id) returns (r: Reply<seq<CategoryGroup>>, ghost expenses: seq<Expense>)
    ensures !OwnsTrip(db.trips, caller, tripId) ==> r == ErrorResponse(404, "Trip not found")
    ensures OwnsTrip(db.trips, caller, tripId) ==>
      && multiset(expenses) == multiset(ExpensesOfTrip(db.expenses, tripId))
      && r == SuccessResponse(200, "Expenses by category retrieved successfully", Some(Groups(expenses)))
  {
    if !OwnsTrip(db.trips, caller, tripId) {
      return ErrorResponse(404, "Trip not found"), [];
    }
    var es := Select(db.expenses.Values, ExpenseInTrip(tripId));
    expenses := es;
    var groups := GroupByCategory(es);
    r := SuccessResponse(200, "Expenses by category retrieved successfully", Some(groups));
  }

  /**
   * The groups of this handler and the summary's `expensesByCategory` name
   * the same categories in the same order, with the same totals.
   */
  lemma GroupsAgreeWithTotals(es: seq<Expense>)
    ensures |Groups(es)| == |Totals(es)|
    ensures forall k :: 0 <= k < |Groups(es)| ==>
      Groups(es)[k].category == Totals(es)[k].category && Groups(es)[k].total == Totals(es)[k].total
  {
  }
}
