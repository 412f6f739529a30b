/**
 * backend/src/models/index.js: the ownership links between the tables and
 * the cascade-on-delete edges, over tables given as maps from id to row.
 */
module Associations {
  import opened Wrappers
  import opened Models

  /** Each user row is stored under its primary key. */
  predicate KeyedById(users: map<Id, User>) {
    forall k :: k in users ==> users[k].id == k
  }

  /** Every row is stored under its own id, and ids are below the next autoincrement value. */
  ghost predicate UsersWellFormed(users: map<Id, User>, next: Id, clock: nat) {
    && KeyedById(users)
    && (forall k :: k in users ==> k < next && users[k].createdAt < clock)
    && UniqueEmails(users)
  }

  /** No two users share an email. */
  predicate UniqueEmails(users: map<Id, User>) {
    forall a, b :: a in users && b in users && users[a].email == users[b].email ==> a == b
  }

  /** Some user has this email (`User.findOne({where: {email}})` finds a row). */
  predicate EmailTaken(users: map<Id, User>, email: string) {
    exists k :: k in users && users[k].email == email
  }

  /** User hasMany Trip: each trip has one owner through user_id. */
  ghost predicate TripsWellFormed(trips: map<Id, Trip>, users: map<Id, User>, next: Id, clock: nat) {
    forall k :: k in trips ==>
      && trips[k].id == k && k < next && trips[k].createdAt < clock
      && trips[k].userId in users
      && TripConstraints(trips[k])
  }

  /** Trip hasMany Expense. */
  ghost predicate ExpensesWellFormed(expenses: map<Id, Expense>, trips: map<Id, Trip>, next: Id, clock: nat) {
    forall k :: k in expenses ==>
      && expenses[k].id == k && k < next && expenses[k].createdAt < clock
      && expenses[k].tripId in trips
      && ExpenseConstraints(expenses[k])
  }

  /** Trip hasMany ItineraryDay. */
  ghost predicate DaysWellFormed(days: map<Id, ItineraryDay>, trips: map<Id, Trip>, next: Id, clock: nat) {
    forall k :: k in days ==>
      && days[k].id == k && k < next && days[k].createdAt < clock
      && days[k].tripId in trips
      && DayConstraints(days[k])
  }

  /** Trip hasMany Image; User hasMany Image (the uploader). */
  ghost predicate ImagesWellFormed(images: map<Id, Image>, trips: map<Id, Trip>, users: map<Id, User>, next: Id, clock: nat) {
    forall k :: k in images ==>
      && images[k].id == k && k < next && images[k].uploadDate < clock
      && images[k].tripId in trips
      && images[k].userId in users
      && ImageConstraints(images[k])
  }

  /**
   * Trip hasMany Comment; User hasMany Comment (the author); Image hasMany
   * Comment, optionally, and a comment on an image belongs to that image's trip.
   */
  ghost predicate CommentsWellFormed(comments: map<Id, Comment>, trips: map<Id, Trip>, users: map<Id, User>,
                                     images: map<Id, Image>, next: Id, clock: nat) {
    forall k :: k in comments ==>
      && comments[k].id == k && k < next && comments[k].createdAt < clock
      && comments[k].tripId in trips
      && comments[k].userId in users
      && (comments[k].imageId.Some? ==>
            comments[k].imageId.value in images && images[comments[k].imageId.value].tripId == comments[k].tripId)
      && CommentConstraints(comments[k])
  }

  /** The rows of a table that survive deleting those `gone` selects. */
  function DropWhere<T>(m: map<Id, T>, gone: T -> bool): (r: map<Id, T>)
    ensures forall k :: k in r <==> k in m && !gone(m[k])
    ensures forall k :: k in r ==> r[k] == m[k]
  {
    map k | k in m && !gone(m[k]) :: m[k]
  }

  /** The comments that survive deleting the images whose ids are `goneImages`. */
  function CommentsWithoutImages(comments: map<Id, Comment>, goneImages: set<Id>): map<Id, Comment> {
    DropWhere(comments, CommentOnImages(goneImages))
  }

  /** `where: {image_id: ...}` over a set of image ids. */
  function CommentOnImages(imageIds: set<Id>): Comment -> bool {
    (c: Comment) => c.imageId.Some? && c.imageId.value in imageIds
  }

  /** The ids of the images of a trip. */
  function TripImageIds(images: map<Id, Image>, tripId: Id): set<Id> {
    set k | k in images && images[k].tripId == tripId
  }

  /** A later clock, larger counters and tables that only gain rows keep the links intact. */
  lemma UsersGrow(users: map<Id, User>, next: Id, next': Id, clock: nat, clock': nat)
    requires UsersWellFormed(users, next, clock) && next <= next' && clock <= clock'
    ensures UsersWellFormed(users, next', clock')
  {
  }

  lemma TripsGrow(trips: map<Id, Trip>, users: map<Id, User>, users': map<Id, User>, next: Id, next': Id, clock: nat, clock': nat)
    requires TripsWellFormed(trips, users, next, clock)
    requires users.Keys <= users'.Keys && next <= next' && clock <= clock'
    ensures TripsWellFormed(trips, users', next', clock')
  {
  }

  lemma ExpensesGrow(expenses: map<Id, Expense>, trips: map<Id, Trip>, trips': map<Id, Trip>, next: Id, next': Id, clock: nat, clock': nat)
    requires ExpensesWellFormed(expenses, trips, next, clock)
    requires trips.Keys <= trips'.Keys && next <= next' && clock <= clock'
    ensures ExpensesWellFormed(expenses, trips', next', clock')
  {
  }

  lemma DaysGrow(days: map<Id, ItineraryDay>, trips: map<Id, Trip>, trips': map<Id, Trip>, next: Id, next': Id, clock: nat, clock': nat)
    requires DaysWellFormed(days, trips, next, clock)
    requires trips.Keys <= trips'.Keys && next <= next' && clock <= clock'
    ensures DaysWellFormed(days, trips', next', clock')
  {
  }

  lemma ImagesGrow(images: map<Id, Image>, trips: map<Id, Trip>, trips': map<Id, Trip>, users: map<Id, User>, users': map<Id, User>,
                   next: Id, next': Id, clock: nat, clock': nat)
    requires ImagesWellFormed(images, trips, users, next, clock)
    requires trips.Keys <= trips'.Keys && users.Keys <= users'.Keys && next <= next' && clock <= clock'
    ensures ImagesWellFormed(images, trips', users', next', clock')
  {
  }

  /** Images that stay keep their trip, so the comments on them stay on the same trip. */
  lemma CommentsGrow(comments: map<Id, Comment>, trips: map<Id, Trip>, trips': map<Id, Trip>, users: map<Id, User>, users': map<Id, User>,
                     images: map<Id, Image>, images': map<Id, Image>, next: Id, next': Id, clock: nat, clock': nat)
    requires CommentsWellFormed(comments, trips, users, images, next, clock)
    requires trips.Keys <= trips'.Keys && users.Keys <= users'.Keys && next <= next' && clock <= clock'
    requires forall i :: i in images ==> i in images' && images'[i].tripId == images[i].tripId
    ensures CommentsWellFormed(comments, trips', users', images', next', clock')
  {
  }

  /** Storing a trip row that meets Trip.js's constraints, owned by an existing user, keeps the trips table well formed. */
  lemma TripsPut(trips: map<Id, Trip>, users: map<Id, User>, next: Id, next': Id, clock: nat, clock': nat, x: Trip)
    requires TripsWellFormed(trips, users, next, clock)
    requires next <= next' && clock <= clock' && x.id < next' && x.createdAt < clock'
    requires x.userId in users && TripConstraints(x)
    ensures TripsWellFormed(trips[x.id := x], users, next', clock')
  {
  }

  /** Storing an expense row that meets Expense.js's constraints, on an existing trip, keeps the expenses table well formed. */
  lemma ExpensesPut(expenses: map<Id, Expense>, trips: map<Id, Trip>, next: Id, next': Id, clock: nat, clock': nat, x: Expense)
    requires ExpensesWellFormed(expenses, trips, next, clock)
    requires next <= next' && clock <= clock' && x.id < next' && x.createdAt < clock'
    requires x.tripId in trips && ExpenseConstraints(x)
    ensures ExpensesWellFormed(expenses[x.id := x], trips, next', clock')
  {
  }

  /** Storing an itinerary day that meets ItineraryDay.js's constraints, on an existing trip, keeps the days table well formed. */
  lemma DaysPut(days: map<Id, ItineraryDay>, trips: map<Id, Trip>, next: Id, next': Id, clock: nat, clock': nat, x: ItineraryDay)
    requires DaysWellFormed(days, trips, next, clock)
    requires next <= next' && clock <= clock' && x.id < next' && x.createdAt < clock'
    requires x.tripId in trips && DayConstraints(x)
    ensures DaysWellFormed(days[x.id := x], trips, next', clock')
  {
  }

  /** Storing an image row that meets Image.js's constraints, on an existing trip and by an existing user. */
  lemma ImagesPut(images: map<Id, Image>, trips: map<Id, Trip>, users: map<Id, User>,
                  next: Id, next': Id, clock: nat, clock': nat, x: Image)
    requires ImagesWellFormed(images, trips, users, next, clock)
    requires next <= next' && clock <= clock' && x.id < next' && x.uploadDate < clock'
    requires x.tripId in trips && x.userId in users && ImageConstraints(x)
    ensures ImagesWellFormed(images[x.id := x], trips, users, next', clock')
  {
  }

  /** Storing a comment row on an existing trip, by an existing user, and on an image of that same trip if any. */
  lemma CommentsPut(comments: map<Id, Comment>, trips: map<Id, Trip>, users: map<Id, User>, images: map<Id, Image>,
                    next: Id, next': Id, clock: nat, clock': nat, x: Comment)
    requires CommentsWellFormed(comments, trips, users, images, next, clock)
    requires next <= next' && clock <= clock' && x.id < next' && x.createdAt < clock'
    requires x.tripId in trips && x.userId in users && CommentConstraints(x)
    requires x.imageId.Some? ==> x.imageId.value in images && images[x.imageId.value].tripId == x.tripId
    ensures CommentsWellFormed(comments[x.id := x], trips, users, images, next', clock')
  {
  }

  /** Storing a row under `k` keeps emails unique when no other row has its email. */
  lemma PutKeepsEmailsUnique(users: map<Id, User>, k: Id, u: User)
    requires UniqueEmails(users) && !EmailTaken(users - {k}, u.email)
    ensures UniqueEmails(users[k := u])
  {
    forall a | a in users && a != k
      ensures users[a].email != u.email
    {
      assert a in users - {k};
    }
  }

  /** A new user under the next id, stamped with the clock, with an unused email. */
  lemma UsersAdd(users: map<Id, User>, next: Id, clock: nat, u: User)
    requires UsersWellFormed(users, next, clock)
    requires u.id == next && u.createdAt == clock && !EmailTaken(users, u.email)
    ensures UsersWellFormed(users[u.id := u], next + 1, clock + 1)
  {
    assert users - {u.id} == users;
    PutKeepsEmailsUnique(users, u.id, u);
  }

  /** A user row rewritten in place, keeping id and created_at, with an email no other row has. */
  lemma UsersReplace(users: map<Id, User>, next: Id, clock: nat, u: User)
    requires UsersWellFormed(users, next, clock)
    requires u.id in users && u.createdAt == users[u.id].createdAt && !EmailTaken(users - {u.id}, u.email)
    ensures UsersWellFormed(users[u.id := u], next, clock)
  {
    PutKeepsEmailsUnique(users, u.id, u);
  }

  /** `where: {user_id: caller}` on trips. */
  function TripOwnedBy(caller: Id): Trip -> bool {
    (t: Trip) => t.userId == caller
  }

  /** `where: {trip_id: tripId}` on each child table. */
  function ExpenseInTrip(tripId: Id): Expense -> bool {
    (e: Expense) => e.tripId == tripId
  }

  function DayInTrip(tripId: Id): ItineraryDay -> bool {
    (d: ItineraryDay) => d.tripId == tripId
  }

  function ImageInTrip(tripId: Id): Image -> bool {
    (i: Image) => i.tripId == tripId
  }

  function CommentInTrip(tripId: Id): Comment -> bool {
    (c: Comment) => c.tripId == tripId
  }

  /** Removing a trip with no rows of its own left behind keeps every table's links. */
  lemma TripsAfterTripDelete(trips: map<Id, Trip>, users: map<Id, User>, next: Id, clock: nat, id: Id)
    requires TripsWellFormed(trips, users, next, clock)
    ensures TripsWellFormed(trips - {id}, users, next, clock)
  {
  }

  lemma ExpensesAfterTripDelete(expenses: map<Id, Expense>, trips: map<Id, Trip>, next: Id, clock: nat, id: Id)
    requires ExpensesWellFormed(expenses, trips, next, clock)
    ensures ExpensesWellFormed(DropWhere(expenses, ExpenseInTrip(id)), trips - {id}, next, clock)
    ensures forall k :: k in DropWhere(expenses, ExpenseInTrip(id)) <==> k in expenses && expenses[k].tripId != id
  {
  }

  lemma DaysAfterTripDelete(days: map<Id, ItineraryDay>, trips: map<Id, Trip>, next: Id, clock: nat, id: Id)
    requires DaysWellFormed(days, trips, next, clock)
    ensures DaysWellFormed(DropWhere(days, DayInTrip(id)), trips - {id}, next, clock)
    ensures forall k :: k in DropWhere(days, DayInTrip(id)) <==> k in days && days[k].tripId != id
  {
  }

  lemma ImagesAfterTripDelete(images: map<Id, Image>, trips: map<Id, Trip>, users: map<Id, User>, next: Id, clock: nat, id: Id)
    requires ImagesWellFormed(images, trips, users, next, clock)
    ensures ImagesWellFormed(DropWhere(images, ImageInTrip(id)), trips - {id}, users, next, clock)
    ensures forall k :: k in DropWhere(images, ImageInTrip(id)) <==> k in images && images[k].tripId != id
  {
  }

  /**
   * Both cascades that reach the comments (from the trip and from its
   * images) together remove exactly the trip's comments, since a comment on
   * an image is on that image's trip.
   */
  lemma CommentsAfterTripDelete(comments: map<Id, Comment>, trips: map<Id, Trip>, users: map<Id, User>,
                                images: map<Id, Image>, next: Id, clock: nat, id: Id)
    requires CommentsWellFormed(comments, trips, users, images, next, clock)
    ensures var c' := CommentsWithoutImages(DropWhere(comments, CommentInTrip(id)), TripImageIds(images, id));
      && CommentsWellFormed(c', trips - {id}, users, DropWhere(images, ImageInTrip(id)), next, clock)
      && (forall k :: k in c' <==> k in comments && comments[k].tripId != id)
      && (forall k :: k in c' ==> c'[k] == comments[k])
  {
    var kept := DropWhere(comments, CommentInTrip(id));
    var c' := CommentsWithoutImages(kept, TripImageIds(images, id));
    forall k | k in kept
      ensures k in c'
    {
      if kept[k].imageId.Some? {
        assert kept[k].imageId.value !in TripImageIds(images, id);
      }
    }
  }
}
