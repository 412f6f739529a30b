/**
 * The database the controllers share, as one object: a map from id to row
 * per table, the next autoincrement id per table, and a clock that stamps
 * `created_at` / `upload_date` and only moves forward. `Valid()` gathers the
 * ownership links, foreign keys and field constraints every handler keeps.
 */
module Store {
  import opened Wrappers
  import opened Models
  import opened Associations
  import opened Query

  /** The contents of every table, the autoincrement counters and the clock, as one value. */
  datatype Tables = Tables(
    users: map<Id, User>, trips: map<Id, Trip>, expenses: map<Id, Expense>,
    days: map<Id, ItineraryDay>, images: map<Id, Image>, comments: map<Id, Comment>,
    nextUserId: Id, nextTripId: Id, nextExpenseId: Id, nextDayId: Id, nextImageId: Id, nextCommentId: Id,
    clock: nat)

  /** The ownership links, foreign keys and field constraints of a database state. */
  ghost predicate Coherent(t: Tables) {
    && UsersWellFormed(t.users, t.nextUserId, t.clock)
    && TripsWellFormed(t.trips, t.users, t.nextTripId, t.clock)
    && ExpensesWellFormed(t.expenses, t.trips, t.nextExpenseId, t.clock)
    && DaysWellFormed(t.days, t.trips, t.nextDayId, t.clock)
    && ImagesWellFormed(t.images, t.trips, t.users, t.nextImageId, t.clock)
    && CommentsWellFormed(t.comments, t.trips, t.users, t.images, t.nextCommentId, t.clock)
  }

  class Database {
    var users: map<Id, User>
    var trips: map<Id, Trip>
    var expenses: map<Id, Expense>
    var days: map<Id, ItineraryDay>
    var images: map<Id, Image>
    var comments: map<Id, Comment>
    var nextUserId: Id
    var nextTripId: Id
    var nextExpenseId: Id
    var nextDayId: Id
    var nextImageId: Id
    var nextCommentId: Id
    var clock: nat

    /** The current state as a value. */
    function Snapshot(): Tables
      reads this
    {
      Tables(users, trips, expenses, days, images, comments,
             nextUserId, nextTripId, nextExpenseId, nextDayId, nextImageId, nextCommentId, clock)
    }

    ghost predicate Valid()
      reads this
    {
      Coherent(Snapshot())
    }

    /** An empty database; autoincrement ids start at 1. */
    constructor ()
      ensures Valid()
      ensures users == map[] && trips == map[] && expenses == map[]
      ensures days == map[] && images == map[] && comments == map[]
      ensures nextUserId == 1 && nextTripId == 1 && nextExpenseId == 1
      ensures nextDayId == 1 && nextImageId == 1 && nextCommentId == 1 && clock == 0
    {
      users, trips, expenses, days, images, comments := map[], map[], map[], map[], map[], map[];
      nextUserId, nextTripId, nextExpenseId, nextDayId, nextImageId, nextCommentId := 1, 1, 1, 1, 1, 1;
      clock := 0;
    }

    /** `Trip.create`: the row goes in under the next id, stamped with the clock. */
    method InsertTrip(x: Trip)
      requires Valid() && x.id == nextTripId && x.createdAt == clock
      requires x.userId in users && TripConstraints(x)
      modifies this`trips, this`nextTripId, this`clock
      ensures Valid()
      ensures x.id !in old(trips) && trips == old(trips)[x.id := x]
      ensures nextTripId == old(nextTripId) + 1 && clock == old(clock) + 1
    {
      ghost var s := Snapshot();
      AddTripKeepsCoherent(s, x);
      trips, nextTripId, clock := trips[x.id := x], nextTripId + 1, clock + 1;
      assert Snapshot() == s.(trips := s.trips[x.id := x], nextTripId := s.nextTripId + 1, clock := s.clock + 1);
    }

    /** `trip.save()` on an existing row: owner and created_at stay, the row meets its constraints. */
    method ReplaceTrip(x: Trip)
      requires Valid() && x.id in trips
      requires x.userId == trips[x.id].userId && x.createdAt == trips[x.id].createdAt && TripConstraints(x)
      modifies this`trips
      ensures Valid()
      ensures trips == old(trips)[x.id := x]
    {
      ghost var s := Snapshot();
      ReplaceTripKeepsCoherent(s, x);
      trips := trips[x.id := x];
      assert Snapshot() == s.(trips := s.trips[x.id := x]);
    }

    /** `Expense.create`: the row goes in under the next id, stamped with the clock. */
    method InsertExpense(x: Expense)
      requires Valid() && x.id == nextExpenseId && x.createdAt == clock
      requires x.tripId in trips && ExpenseConstraints(x)
      modifies this`expenses, this`nextExpenseId, this`clock
      ensures Valid()
      ensures x.id !in old(expenses) && expenses == old(expenses)[x.id := x]
      ensures nextExpenseId == old(nextExpenseId) + 1 && clock == old(clock) + 1
    {
      ghost var s := Snapshot();
      AddExpenseKeepsCoherent(s, x);
      expenses, nextExpenseId, clock := expenses[x.id := x], nextExpenseId + 1, clock + 1;
      assert Snapshot() == s.(expenses := s.expenses[x.id := x], nextExpenseId := s.nextExpenseId + 1, clock := s.clock + 1);
    }

    /** `expense.update(...)` on an existing row: trip and created_at stay, the row meets its constraints. */
    method ReplaceExpense(x: Expense)
      requires Valid() && x.id in expenses
      requires x.tripId == expenses[x.id].tripId && x.createdAt == expenses[x.id].createdAt && ExpenseConstraints(x)
      modifies this`expenses
      ensures Valid()
      ensures expenses == old(expenses)[x.id := x]
    {
      ghost var s := Snapshot();
      ReplaceExpenseKeepsCoherent(s, x);
      expenses := expenses[x.id := x];
      assert Snapshot() == s.(expenses := s.expenses[x.id := x]);
    }

    /** `expense.destroy()`: nothing refers to an expense, so only its row goes. */
    method RemoveExpense(id: Id)
      requires Valid()
      modifies this`expenses
      ensures Valid()
      ensures expenses == old(expenses) - {id}
    {
      ghost var s := Snapshot();
      RemoveExpenseKeepsCoherent(s, id);
      expenses := expenses - {id};
      assert Snapshot() == s.(expenses := s.expenses - {id});
    }

    /** `ItineraryDay.create`: the row goes in under the next id, stamped with the clock. */
    method InsertDay(x: ItineraryDay)
      requires Valid() && x.id == nextDayId && x.createdAt == clock
      requires x.tripId in trips && DayConstraints(x)
      modifies this`days, this`nextDayId, this`clock
      ensures Valid()
      ensures x.id !in old(days) && days == old(days)[x.id := x]
      ensures nextDayId == old(nextDayId) + 1 && clock == old(clock) + 1
    {
      ghost var s := Snapshot();
      AddDayKeepsCoherent(s, x);
      days, nextDayId, clock := days[x.id := x], nextDayId + 1, clock + 1;
      assert Snapshot() == s.(days := s.days[x.id := x], nextDayId := s.nextDayId + 1, clock := s.clock + 1);
    }

    /** `itineraryDay.update(...)` on an existing row: created_at stays, the trip exists, the row meets its constraints. */
    method ReplaceDay(x: ItineraryDay)
      requires Valid() && x.id in days
      requires x.tripId in trips && x.createdAt == days[x.id].createdAt && DayConstraints(x)
      modifies this`days
      ensures Valid()
      ensures days == old(days)[x.id := x]
    {
      ghost var s := Snapshot();
      ReplaceDayKeepsCoherent(s, x);
      days := days[x.id := x];
      assert Snapshot() == s.(days := s.days[x.id := x]);
    }

    /** `itineraryDay.destroy()`: nothing refers to a day, so only its row goes. */
    method RemoveDay(id: Id)
      requires Valid()
      modifies this`days
      ensures Valid()
      ensures days == old(days) - {id}
    {
      ghost var s := Snapshot();
      RemoveDayKeepsCoherent(s, id);
      days := days - {id};
      assert Snapshot() == s.(days := s.days - {id});
    }

    /** `Image.create`: the row goes in under the next id, its upload_date the clock. */
    method InsertImage(x: Image)
      requires Valid() && x.id == nextImageId && x.uploadDate == clock
      requires x.tripId in trips && x.userId in users && ImageConstraints(x)
      modifies this`images, this`nextImageId, this`clock
      ensures Valid()
      ensures x.id !in old(images) && images == old(images)[x.id := x]
      ensures nextImageId == old(nextImageId) + 1 && clock == old(clock) + 1
    {
      ghost var s := Snapshot();
      AddImageKeepsCoherent(s, x);
      images, nextImageId, clock := images[x.id := x], nextImageId + 1, clock + 1;
      assert Snapshot() == s.(images := s.images[x.id := x], nextImageId := s.nextImageId + 1, clock := s.clock + 1);
    }

    /** `image.update(...)` on an existing row: trip, uploader and upload_date stay, the row meets its constraints. */
    method ReplaceImage(x: Image)
      requires Valid() && x.id in images
      requires x.tripId == images[x.id].tripId && x.userId == images[x.id].userId
      requires x.uploadDate == images[x.id].uploadDate && ImageConstraints(x)
      modifies this`images
      ensures Valid()
      ensures images == old(images)[x.id := x]
    {
      ghost var s := Snapshot();
      ReplaceImageKeepsCoherent(s, x);
      images := images[x.id := x];
      assert Snapshot() == s.(images := s.images[x.id := x]);
    }

    /**
     * `image.destroy()`: the row goes, and the cascade removes the comments
     * on it (`DeleteImageCascadeCoherent` shows that this keeps `Valid()`).
     */
    method DestroyImage(id: Id)
      modifies this`images, this`comments
      ensures Snapshot() == DeleteImageCascade(old(Snapshot()), id)
    {
      comments := Purge(comments, CommentOnImages({id}));
      images := images - {id};
    }

    /** `Comment.create`: the row goes in under the next id, stamped with the clock. */
    method InsertComment(x: Comment)
      requires Valid() && x.id == nextCommentId && x.createdAt == clock
      requires x.tripId in trips && x.userId in users && CommentConstraints(x)
      requires x.imageId.Some? ==> x.imageId.value in images && images[x.imageId.value].tripId == x.tripId
      modifies this`comments, this`nextCommentId, this`clock
      ensures Valid()
      ensures x.id !in old(comments) && comments == old(comments)[x.id := x]
      ensures nextCommentId == old(nextCommentId) + 1 && clock == old(clock) + 1
    {
      ghost var s := Snapshot();
      AddCommentKeepsCoherent(s, x);
      PutComment(x);
    }

    /** The write of `InsertComment`, as a change of the snapshot. */
    method PutComment(x: Comment)
      modifies this`comments, this`nextCommentId, this`clock
      ensures Snapshot() == old(Snapshot()).(comments := old(comments)[x.id := x], nextCommentId := old(nextCommentId) + 1,
                                             clock := old(clock) + 1)
    {
      comments, nextCommentId, clock := comments[x.id := x], nextCommentId + 1, clock + 1;
    }

    /** `comment.update(...)` on an existing row: trip, author, image and created_at stay, the row meets its constraints. */
    method ReplaceComment(x: Comment)
      requires Valid() && x.id in comments
      requires x.tripId == comments[x.id].tripId && x.userId == comments[x.id].userId
      requires x.imageId == comments[x.id].imageId && x.createdAt == comments[x.id].createdAt && CommentConstraints(x)
      modifies this`comments
      ensures Valid()
      ensures comments == old(comments)[x.id := x]
    {
      ghost var s := Snapshot();
      ReplaceCommentKeepsCoherent(s, x);
      comments := comments[x.id := x];
      assert Snapshot() == s.(comments := s.comments[x.id := x]);
    }

    /** `comment.destroy()`: nothing refers to a comment, so only its row goes. */
    method RemoveComment(id: Id)
      requires Valid()
      modifies this`comments
      ensures Valid()
      ensures comments == old(comments) - {id}
    {
      ghost var s := Snapshot();
      RemoveCommentKeepsCoherent(s, id);
      comments := comments - {id};
      assert Snapshot() == s.(comments := s.comments - {id});
    }

    /**
     * `trip.destroy()`: the row goes, and the cascades remove what hangs off
     * it (`DeleteTripCascadeCoherent` shows that this keeps `Valid()`).
     */
    method DestroyTrip(id: Id)
      modifies this`trips, this`expenses, this`days, this`images, this`comments
      ensures Snapshot() == DeleteTripCascade(old(Snapshot()), id)
    {
      var t := Cascade(Snapshot(), id);
      trips, expenses, days, images, comments := t.trips, t.expenses, t.days, t.images, t.comments;
    }
  }

  /** `Trip.findOne({where: {id: tripId, user_id: caller}})` finds a row. */
  predicate OwnsTrip(trips: map<Id, Trip>, caller: Id, tripId: Id) {
    tripId in trips && trips[tripId].userId == caller
  }

  /** The rows of each child table whose trip_id is `tripId`. */
  function ExpensesOfTrip(expenses: map<Id, Expense>, tripId: Id): set<Expense> {
    Where(expenses.Values, ExpenseInTrip(tripId))
  }

  function DaysOfTrip(days: map<Id, ItineraryDay>, tripId: Id): set<ItineraryDay> {
    Where(days.Values, DayInTrip(tripId))
  }

  function ImagesOfTrip(images: map<Id, Image>, tripId: Id): set<Image> {
    Where(images.Values, ImageInTrip(tripId))
  }

  /**
   * A cascade's removal, as the database performs it: every row `gone`
   * selects is deleted, one key at a time; the other rows stay as they were.
   */
  method Purge<T>(m: map<Id, T>, gone: T -> bool) returns (r: map<Id, T>)
    ensures r == DropWhere(m, gone)
  {
    r := m;
    var todo := m.Keys;
    while todo != {}
      invariant todo <= m.Keys
      invariant forall k :: k in r <==> k in m && (k in todo || !gone(m[k]))
      invariant forall k :: k in r ==> r[k] == m[k]
      decreases |todo|
    {
      var k :| k in todo;
      if gone(m[k]) {
        r := r - {k};
      }
      todo := todo - {k};
    }
  }

  /**
   * Destroying trip `id`: the trip goes, and the ON DELETE CASCADE edges of
   * backend/src/models/index.js remove its expenses, itinerary days, images
   * and comments, and the comments on the removed images.
   */
  function DeleteTripCascade(t: Tables, id: Id): Tables {
    t.(trips := t.trips - {id},
       expenses := DropWhere(t.expenses, ExpenseInTrip(id)),
       days := DropWhere(t.days, DayInTrip(id)),
       images := DropWhere(t.images, ImageInTrip(id)),
       comments := CommentsWithoutImages(DropWhere(t.comments, CommentInTrip(id)), TripImageIds(t.images, id)))
  }

  /** The cascade as the database runs it: each child table purged one row at a time. */
  method Cascade(t: Tables, id: Id) returns (t': Tables)
    ensures t' == DeleteTripCascade(t, id)
  {
    var goneImages := TripImageIds(t.images, id);
    var expenses := Purge(t.expenses, ExpenseInTrip(id));
    var days := Purge(t.days, DayInTrip(id));
    var images := Purge(t.images, ImageInTrip(id));
    var kept := Purge(t.comments, CommentInTrip(id));
    var comments := Purge(kept, CommentOnImages(goneImages));
    t' := t.(trips := t.trips - {id}, expenses := expenses, days := days, images := images, comments := comments);
  }

  /**
   * After the cascade no row refers to the trip, every row of another trip
   * is kept unchanged, and the users, counters and clock are untouched.
   */
  lemma DeleteTripCascadeExact(t: Tables, id: Id)
    requires CommentsWellFormed(t.comments, t.trips, t.users, t.images, t.nextCommentId, t.clock)
    ensures var t' := DeleteTripCascade(t, id);
      && t'.users == t.users && t'.trips == t.trips - {id}
      && t'.nextTripId == t.nextTripId && t'.clock == t.clock
      && (forall k :: k in t'.expenses ==> k in t.expenses && t'.expenses[k] == t.expenses[k] && t.expenses[k].tripId != id)
      && (forall k :: k in t.expenses && t.expenses[k].tripId != id ==> k in t'.expenses)
      && (forall k :: k in t'.days ==> k in t.days && t'.days[k] == t.days[k] && t.days[k].tripId != id)
      && (forall k :: k in t.days && t.days[k].tripId != id ==> k in t'.days)
      && (forall k :: k in t'.images ==> k in t.images && t'.images[k] == t.images[k] && t.images[k].tripId != id)
      && (forall k :: k in t.images && t.images[k].tripId != id ==> k in t'.images)
      && (forall k :: k in t'.comments ==> k in t.comments && t'.comments[k] == t.comments[k] && t.comments[k].tripId != id)
      && (forall k :: k in t.comments && t.comments[k].tripId != id ==> k in t'.comments)
  {
    CommentsAfterTripDelete(t.comments, t.trips, t.users, t.images, t.nextCommentId, t.clock, id);
  }

  /** The cascade leaves a coherent database. */
  lemma DeleteTripCascadeCoherent(t: Tables, id: Id)
    requires Coherent(t)
    ensures Coherent(DeleteTripCascade(t, id))
  {
    TripsAfterTripDelete(t.trips, t.users, t.nextTripId, t.clock, id);
    ExpensesAfterTripDelete(t.expenses, t.trips, t.nextExpenseId, t.clock, id);
    DaysAfterTripDelete(t.days, t.trips, t.nextDayId, t.clock, id);
    ImagesAfterTripDelete(t.images, t.trips, t.users, t.nextImageId, t.clock, id);
    CommentsAfterTripDelete(t.comments, t.trips, t.users, t.images, t.nextCommentId, t.clock, id);
  }

  /** Destroying image `id`: the image goes, and so do the comments on it. */
  function DeleteImageCascade(t: Tables, id: Id): Tables {
    t.(images := t.images - {id}, comments := CommentsWithoutImages(t.comments, {id}))
  }

  /** The image's comments are gone, every other comment and image is kept. */
  lemma DeleteImageCascadeCoherent(t: Tables, id: Id)
    requires Coherent(t)
    ensures Coherent(DeleteImageCascade(t, id))
    ensures forall k :: k in DeleteImageCascade(t, id).comments <==>
      k in t.comments && t.comments[k].imageId != Some(id)
  {
  }

  lemma AddTripKeepsCoherent(t: Tables, x: Trip)
    requires Coherent(t) && x.id == t.nextTripId && x.createdAt == t.clock
    requires x.userId in t.users && TripConstraints(x)
    ensures Coherent(t.(trips := t.trips[x.id := x], nextTripId := t.nextTripId + 1, clock := t.clock + 1))
  {
    var trips := t.trips[x.id := x];
    var t' := t.(trips := trips, nextTripId := t.nextTripId + 1, clock := t.clock + 1);
    assert UsersWellFormed(t'.users, t'.nextUserId, t'.clock) by {
      UsersGrow(t.users, t.nextUserId, t.nextUserId, t.clock, t.clock + 1);
    }
    assert TripsWellFormed(t'.trips, t'.users, t'.nextTripId, t'.clock) by {
      TripsPut(t.trips, t.users, t.nextTripId, t.nextTripId + 1, t.clock, t.clock + 1, x);
    }
    assert ExpensesWellFormed(t'.expenses, t'.trips, t'.nextExpenseId, t'.clock) by {
      ExpensesGrow(t.expenses, t.trips, trips, t.nextExpenseId, t.nextExpenseId, t.clock, t.clock + 1);
    }
    assert DaysWellFormed(t'.days, t'.trips, t'.nextDayId, t'.clock) by {
      DaysGrow(t.days, t.trips, trips, t.nextDayId, t.nextDayId, t.clock, t.clock + 1);
    }
    assert ImagesWellFormed(t'.images, t'.trips, t'.users, t'.nextImageId, t'.clock) by {
      ImagesGrow(t.images, t.trips, trips, t.users, t.users, t.nextImageId, t.nextImageId, t.clock, t.clock + 1);
    }
    assert CommentsWellFormed(t'.comments, t'.trips, t'.users, t'.images, t'.nextCommentId, t'.clock) by {
      CommentsGrow(t.comments, t.trips, trips, t.users, t.users, t.images, t.images,
                   t.nextCommentId, t.nextCommentId, t.clock, t.clock + 1);
    }
  }

  lemma ReplaceTripKeepsCoherent(t: Tables, x: Trip)
    requires Coherent(t) && x.id in t.trips
    requires x.userId == t.trips[x.id].userId && x.createdAt == t.trips[x.id].createdAt && TripConstraints(x)
    ensures Coherent(t.(trips := t.trips[x.id := x]))
  {
    var trips := t.trips[x.id := x];
    TripsPut(t.trips, t.users, t.nextTripId, t.nextTripId, t.clock, t.clock, x);
    ExpensesGrow(t.expenses, t.trips, trips, t.nextExpenseId, t.nextExpenseId, t.clock, t.clock);
    DaysGrow(t.days, t.trips, trips, t.nextDayId, t.nextDayId, t.clock, t.clock);
    ImagesGrow(t.images, t.trips, trips, t.users, t.users, t.nextImageId, t.nextImageId, t.clock, t.clock);
    CommentsGrow(t.comments, t.trips, trips, t.users, t.users, t.images, t.images,
                 t.nextCommentId, t.nextCommentId, t.clock, t.clock);
  }

  lemma AddExpenseKeepsCoherent(t: Tables, x: Expense)
    requires Coherent(t) && x.id == t.nextExpenseId && x.createdAt == t.clock
    requires x.tripId in t.trips && ExpenseConstraints(x)
    ensures Coherent(t.(expenses := t.expenses[x.id := x], nextExpenseId := t.nextExpenseId + 1, clock := t.clock + 1))
  {
    var t' := t.(expenses := t.expenses[x.id := x], nextExpenseId := t.nextExpenseId + 1, clock := t.clock + 1);
    assert UsersWellFormed(t'.users, t'.nextUserId, t'.clock) by {
      UsersGrow(t.users, t.nextUserId, t.nextUserId, t.clock, t.clock + 1);
    }
    assert TripsWellFormed(t'.trips, t'.users, t'.nextTripId, t'.clock) by {
      TripsGrow(t.trips, t.users, t.users, t.nextTripId, t.nextTripId, t.clock, t.clock + 1);
    }
    assert ExpensesWellFormed(t'.expenses, t'.trips, t'.nextExpenseId, t'.clock) by {
      ExpensesPut(t.expenses, t.trips, t.nextExpenseId, t.nextExpenseId + 1, t.clock, t.clock + 1, x);
    }
    assert DaysWellFormed(t'.days, t'.trips, t'.nextDayId, t'.clock) by {
      DaysGrow(t.days, t.trips, t.trips, t.nextDayId, t.nextDayId, t.clock, t.clock + 1);
    }
    assert ImagesWellFormed(t'.images, t'.trips, t'.users, t'.nextImageId, t'.clock) by {
      ImagesGrow(t.images, t.trips, t.trips, t.users, t.users, t.nextImageId, t.nextImageId, t.clock, t.clock + 1);
    }
    assert CommentsWellFormed(t'.comments, t'.trips, t'.users, t'.images, t'.nextCommentId, t'.clock) by {
      CommentsGrow(t.comments, t.trips, t.trips, t.users, t.users, t.images, t.images,
                   t.nextCommentId, t.nextCommentId, t.clock, t.clock + 1);
    }
  }

  lemma ReplaceExpenseKeepsCoherent(t: Tables, x: Expense)
    requires Coherent(t) && x.id in t.expenses
    requires x.tripId == t.expenses[x.id].tripId && x.createdAt == t.expenses[x.id].createdAt && ExpenseConstraints(x)
    ensures Coherent(t.(expenses := t.expenses[x.id := x]))
  {
    ExpensesPut(t.expenses, t.trips, t.nextExpenseId, t.nextExpenseId, t.clock, t.clock, x);
  }

  lemma RemoveExpenseKeepsCoherent(t: Tables, id: Id)
    requires Coherent(t)
    ensures Coherent(t.(expenses := t.expenses - {id}))
  {
  }

  lemma AddDayKeepsCoherent(t: Tables, x: ItineraryDay)
    requires Coherent(t) && x.id == t.nextDayId && x.createdAt == t.clock
    requires x.tripId in t.trips && DayConstraints(x)
    ensures Coherent(t.(days := t.days[x.id := x], nextDayId := t.nextDayId + 1, clock := t.clock + 1))
  {
    var t' := t.(days := t.days[x.id := x], nextDayId := t.nextDayId + 1, clock := t.clock + 1);
    assert UsersWellFormed(t'.users, t'.nextUserId, t'.clock) by {
      UsersGrow(t.users, t.nextUserId, t.nextUserId, t.clock, t.clock + 1);
    }
    assert TripsWellFormed(t'.trips, t'.users, t'.nextTripId, t'.clock) by {
      TripsGrow(t.trips, t.users, t.users, t.nextTripId, t.nextTripId, t.clock, t.clock + 1);
    }
    assert ExpensesWellFormed(t'.expenses, t'.trips, t'.nextExpenseId, t'.clock) by {
      ExpensesGrow(t.expenses, t.trips, t.trips, t.nextExpenseId, t.nextExpenseId, t.clock, t.clock + 1);
    }
    assert DaysWellFormed(t'.days, t'.trips, t'.nextDayId, t'.clock) by {
      DaysPut(t.days, t.trips, t.nextDayId, t.nextDayId + 1, t.clock, t.clock + 1, x);
    }
    assert ImagesWellFormed(t'.images, t'.trips, t'.users, t'.nextImageId, t'.clock) by {
      ImagesGrow(t.images, t.trips, t.trips, t.users, t.users, t.nextImageId, t.nextImageId, t.clock, t.clock + 1);
    }
    assert CommentsWellFormed(t'.comments, t'.trips, t'.users, t'.images, t'.nextCommentId, t'.clock) by {
      CommentsGrow(t.comments, t.trips, t.trips, t.users, t.users, t.images, t.images,
                   t.nextCommentId, t.nextCommentId, t.clock, t.clock + 1);
    }
  }

  lemma ReplaceDayKeepsCoherent(t: Tables, x: ItineraryDay)
    requires Coherent(t) && x.id in t.days
    requires x.tripId in t.trips && x.createdAt == t.days[x.id].createdAt && DayConstraints(x)
    ensures Coherent(t.(days := t.days[x.id := x]))
  {
    DaysPut(t.days, t.trips, t.nextDayId, t.nextDayId, t.clock, t.clock, x);
  }

  lemma RemoveDayKeepsCoherent(t: Tables, id: Id)
    requires Coherent(t)
    ensures Coherent(t.(days := t.days - {id}))
  {
  }

  lemma AddImageKeepsCoherent(t: Tables, x: Image)
    requires Coherent(t) && x.id == t.nextImageId && x.uploadDate == t.clock
    requires x.tripId in t.trips && x.userId in t.users && ImageConstraints(x)
    ensures Coherent(t.(images := t.images[x.id := x], nextImageId := t.nextImageId + 1, clock := t.clock + 1))
  {
    var images := t.images[x.id := x];
    var t' := t.(images := images, nextImageId := t.nextImageId + 1, clock := t.clock + 1);
    assert UsersWellFormed(t'.users, t'.nextUserId, t'.clock) by {
      UsersGrow(t.users, t.nextUserId, t.nextUserId, t.clock, t.clock + 1);
    }
    assert TripsWellFormed(t'.trips, t'.users, t'.nextTripId, t'.clock) by {
      TripsGrow(t.trips, t.users, t.users, t.nextTripId, t.nextTripId, t.clock, t.clock + 1);
    }
    assert ExpensesWellFormed(t'.expenses, t'.trips, t'.nextExpenseId, t'.clock) by {
      ExpensesGrow(t.expenses, t.trips, t.trips, t.nextExpenseId, t.nextExpenseId, t.clock, t.clock + 1);
    }
    assert DaysWellFormed(t'.days, t'.trips, t'.nextDayId, t'.clock) by {
      DaysGrow(t.days, t.trips, t.trips, t.nextDayId, t.nextDayId, t.clock, t.clock + 1);
    }
    assert ImagesWellFormed(t'.images, t'.trips, t'.users, t'.nextImageId, t'.clock) by {
      ImagesPut(t.images, t.trips, t.users, t.nextImageId, t.nextImageId + 1, t.clock, t.clock + 1, x);
    }
    assert CommentsWellFormed(t'.comments, t'.trips, t'.users, t'.images, t'.nextCommentId, t'.clock) by {
      assert x.id !in t.images;
      CommentsGrow(t.comments, t.trips, t.trips, t.users, t.users, t.images, images,
                   t.nextCommentId, t.nextCommentId, t.clock, t.clock + 1);
    }
  }

  lemma ReplaceImageKeepsCoherent(t: Tables, x: Image)
    requires Coherent(t) && x.id in t.images
    requires x.tripId == t.images[x.id].tripId && x.userId == t.images[x.id].userId
    requires x.uploadDate == t.images[x.id].uploadDate && ImageConstraints(x)
    ensures Coherent(t.(images := t.images[x.id := x]))
  {
    var images := t.images[x.id := x];
    ImagesPut(t.images, t.trips, t.users, t.nextImageId, t.nextImageId, t.clock, t.clock, x);
    CommentsGrow(t.comments, t.trips, t.trips, t.users, t.users, t.images, images,
                 t.nextCommentId, t.nextCommentId, t.clock, t.clock);
  }

  lemma AddCommentKeepsCoherent(t: Tables, x: Comment)
    requires Coherent(t) && x.id == t.nextCommentId && x.createdAt == t.clock
    requires x.tripId in t.trips && x.userId in t.users && CommentConstraints(x)
    requires x.imageId.Some? ==> x.imageId.value in t.images && t.images[x.imageId.value].tripId == x.tripId
    ensures Coherent(t.(comments := t.comments[x.id := x], nextCommentId := t.nextCommentId + 1, clock := t.clock + 1))
  {
    var t' := t.(comments := t.comments[x.id := x], nextCommentId := t.nextCommentId + 1, clock := t.clock + 1);
    assert UsersWellFormed(t'.users, t'.nextUserId, t'.clock) by {
      UsersGrow(t.users, t.nextUserId, t.nextUserId, t.clock, t.clock + 1);
    }
    assert TripsWellFormed(t'.trips, t'.users, t'.nextTripId, t'.clock) by {
      TripsGrow(t.trips, t.users, t.users, t.nextTripId, t.nextTripId, t.clock, t.clock + 1);
    }
    assert ExpensesWellFormed(t'.expenses, t'.trips, t'.nextExpenseId, t'.clock) by {
      ExpensesGrow(t.expenses, t.trips, t.trips, t.nextExpenseId, t.nextExpenseId, t.clock, t.clock + 1);
    }
    assert DaysWellFormed(t'.days, t'.trips, t'.nextDayId, t'.clock) by {
      DaysGrow(t.days, t.trips, t.trips, t.nextDayId, t.nextDayId, t.clock, t.clock + 1);
    }
    assert ImagesWellFormed(t'.images, t'.trips, t'.users, t'.nextImageId, t'.clock) by {
      ImagesGrow(t.images, t.trips, t.trips, t.users, t.users, t.nextImageId, t.nextImageId, t.clock, t.clock + 1);
    }
    assert CommentsWellFormed(t'.comments, t'.trips, t'.users, t'.images, t'.nextCommentId, t'.clock) by {
      CommentsPut(t.comments, t.trips, t.users, t.images, t.nextCommentId, t.nextCommentId + 1, t.clock, t.clock + 1, x);
    }
  }

  lemma ReplaceCommentKeepsCoherent(t: Tables, x: Comment)
    requires Coherent(t) && x.id in t.comments
    requires x.tripId == t.comments[x.id].tripId && x.userId == t.comments[x.id].userId
    requires x.imageId == t.comments[x.id].imageId && x.createdAt == t.comments[x.id].createdAt && CommentConstraints(x)
    ensures Coherent(t.(comments := t.comments[x.id := x]))
  {
    CommentsPut(t.comments, t.trips, t.users, t.images, t.nextCommentId, t.nextCommentId, t.clock, t.clock, x);
  }

  lemma RemoveCommentKeepsCoherent(t: Tables, id: Id)
    requires Coherent(t)
    ensures Coherent(t.(comments := t.comments - {id}))
  {
  }

}
