/**
 * The records of backend/src/models/: User (its shape, as the controllers use
 * it), Trip, Expense, ItineraryDay, Image and Comment, with the field
 * constraints their model definitions declare.
 *
 * Dates (DATEONLY) are day ordinals, amounts (DECIMAL(10,2)) are integer
 * cents, and `created_at` / `upload_date` are readings of the store's
 * monotonic clock. Each constraint is given twice: as a predicate, and as the
 * list of validation items Sequelize reports when it fails. Sequelize records
 * a notNull item while it walks the attributes, and an item of a failed
 * validator only when that validator's promise settles, so notNull items come
 * first.
 */
module Models {
  import opened Wrappers
  import opened ErrorHandler

  type Id = nat
  /** A DATEONLY value as a day ordinal. */
  type Date = int
  /** A DECIMAL(10,2) value in hundredths. */
  type Cents = int

  datatype Status = Planning | Ongoing | Completed
  datatype Category = Food | Transport | Accommodation | Activities | Shopping | Other

  /** The six values of the expenses.category ENUM, in declaration order. */
  const AllCategories: seq<Category> := [Food, Transport, Accommodation, Activities, Shopping, Other]

  function StatusName(s: Status): string {
    match s
    case Planning => "planning"
    case Ongoing => "ongoing"
    case Completed => "completed"
  }

  /** The ENUM value spelled `s`, if any. */
  function ParseStatus(s: string): (r: Option<Status>)
    ensures r.Some? ==> StatusName(r.value) == s
    ensures s in {"planning", "ongoing", "completed"} <==> r.Some?
  {
    if s == "planning" then Some(Planning)
    else if s == "ongoing" then Some(Ongoing)
    else if s == "completed" then Some(Completed)
    else None
  }

  function CategoryName(c: Category): string {
    match c
    case Food => "Food"
    case Transport => "Transport"
    case Accommodation => "Accommodation"
    case Activities => "Activities"
    case Shopping => "Shopping"
    case Other => "Other"
  }

  const CategoryNames: set<string> := {"Food", "Transport", "Accommodation", "Activities", "Shopping", "Other"}

  function ParseCategory(s: string): (r: Option<Category>)
    ensures r.Some? ==> CategoryName(r.value) == s
    ensures s in CategoryNames <==> r.Some?
  {
    if s == "Food" then Some(Food)
    else if s == "Transport" then Some(Transport)
    else if s == "Accommodation" then Some(Accommodation)
    else if s == "Activities" then Some(Activities)
    else if s == "Shopping" then Some(Shopping)
    else if s == "Other" then Some(Other)
    else None
  }

  /** Every ENUM value is parsed back from its own spelling, and every category is listed once. */
  lemma EnumNamesRoundTrip(s: Status, c: Category)
    ensures ParseStatus(StatusName(s)) == Some(s)
    ensures ParseCategory(CategoryName(c)) == Some(c)
    ensures c in AllCategories
  {
  }

  /** A user row; `passwordHash` is the only credential stored. */
  datatype User = User(
    id: Id,
    username: string,
    email: string,
    passwordHash: string,
    fullName: Option<string>,
    profileImage: Option<string>,
    createdAt: nat)

  /** A user row read with `attributes: {exclude: ['password_hash']}`. */
  datatype PublicUser = PublicUser(
    id: Id,
    username: string,
    email: string,
    fullName: Option<string>,
    profileImage: Option<string>,
    createdAt: nat)

  /** The row without its password hash; every other column is kept. */
  function PublicView(u: User): (v: PublicUser)
    ensures v.id == u.id && v.username == u.username && v.email == u.email
    ensures v.fullName == u.fullName && v.profileImage == u.profileImage && v.createdAt == u.createdAt
  {
    PublicUser(u.id, u.username, u.email, u.fullName, u.profileImage, u.createdAt)
  }

  datatype Trip = Trip(
    id: Id,
    userId: Id,
    name: string,
    destination: string,
    startDate: Date,
    endDate: Date,
    budget: Option<Cents>,
    description: Option<string>,
    status: Status,
    createdAt: nat)

  datatype Expense = Expense(
    id: Id,
    tripId: Id,
    amount: Cents,
    category: Category,
    date: Date,
    description: Option<string>,
    receiptImage: Option<string>,
    createdAt: nat)

  datatype ItineraryDay = ItineraryDay(
    id: Id,
    tripId: Id,
    dayNumber: int,
    date: Date,
    title: Option<string>,
    description: Option<string>,
    createdAt: nat)

  /** backend/src/models/Image.js, taken as a record shape. */
  datatype Image = Image(
    id: Id,
    tripId: Id,
    userId: Id,
    imageUrl: string,
    caption: Option<string>,
    uploadDate: nat)

  datatype Comment = Comment(
    id: Id,
    tripId: Id,
    userId: Id,
    imageId: Option<Id>,
    commentText: string,
    createdAt: nat)

  /** A nullable `STRING(width)` column holds the value. */
  predicate Fits(s: Option<string>, width: nat) {
    s.None? || |s.value| <= width
  }

  /** Sequelize's item for a failed built-in validator. */
  function Failed(validator: string, field: string): ErrorItem {
    ErrorItem(field, "Validation " + validator + " on " + field + " failed")
  }

  /** Sequelize's item for a null in a NOT NULL attribute. */
  function CannotBeNull(model: string, field: string): ErrorItem {
    ErrorItem(field, model + "." + field + " cannot be null")
  }

  // ----- Trip -----

  const TripFields: set<string> := {"name", "destination", "start_date", "end_date", "budget", "description", "status"}

  /** Trip.js: name length 3..100, destination length 2..100, end after start, budget null or at least 0. */
  predicate TripConstraints(t: Trip) {
    && 3 <= |t.name| <= 100
    && 2 <= |t.destination| <= 100
    && t.endDate > t.startDate
    && (t.budget.None? || t.budget.value >= 0)
  }

  /**
   * The items Sequelize reports for `t` when it validates only the attributes
   * in `fields` (the others are skipped). `isAfterStartDate` sits on end_date.
   * The trip schemas refuse bad lengths and negative budgets before the model
   * sees them, so behind the handlers at most one item fails and the order of
   * several is left open.
   */
  function TripViolationsOn(t: Trip, fields: set<string>): seq<ErrorItem> {
    (if "name" in fields && !(3 <= |t.name| <= 100) then [Failed("len", "name")] else [])
    + (if "destination" in fields && !(2 <= |t.destination| <= 100) then [Failed("len", "destination")] else [])
    + (if "end_date" in fields && t.endDate <= t.startDate
       then [ErrorItem("end_date", "End date must be after start date")] else [])
    + (if "budget" in fields && t.budget.Some? && t.budget.value < 0 then [Failed("min", "budget")] else [])
  }

  function TripViolations(t: Trip): seq<ErrorItem> {
    TripViolationsOn(t, TripFields)
  }

  /** Validating every attribute reports nothing exactly when the row meets Trip.js's constraints. */
  lemma TripViolationsExact(t: Trip)
    ensures TripViolations(t) == [] <==> TripConstraints(t)
  {
  }

  // ----- Expense -----

  /** Expense.js: amount at least 0; description and receipt_image fit STRING(255). */
  predicate ExpenseConstraints(e: Expense) {
    && e.amount >= 0
    && Fits(e.description, 255)
    && Fits(e.receiptImage, 255)
  }

  // ----- ItineraryDay -----

  /** ItineraryDay.js: day_number at least 1; title fits STRING(100). */
  predicate DayConstraints(d: ItineraryDay) {
    d.dayNumber >= 1 && Fits(d.title, 100)
  }

  /**
   * The items Sequelize reports for a new day's day_number and date (absent
   * is `None`): the notNull items in attribute order, then the `min` item;
   * the title's width is the database's check.
   */
  function DayViolations(dayNumber: Option<int>, date: Option<Date>): (r: seq<ErrorItem>)
    ensures r == [] <==> dayNumber.Some? && dayNumber.value >= 1 && date.Some?
    ensures CannotBeNull("ItineraryDay", "day_number") in r <==> dayNumber.None?
    ensures CannotBeNull("ItineraryDay", "date") in r <==> date.None?
    ensures Failed("min", "day_number") in r <==> dayNumber.Some? && dayNumber.value < 1
  {
    (if dayNumber.None? then [CannotBeNull("ItineraryDay", "day_number")] else [])
    + (if date.None? then [CannotBeNull("ItineraryDay", "date")] else [])
    + (if dayNumber.Some? && dayNumber.value < 1 then [Failed("min", "day_number")] else [])
  }

  /** A day_number below 1 with no date: the date's notNull item comes before the `min` item. */
  lemma NotNullBeforeMin(n: int)
    requires n < 1
    ensures DayViolations(Some(n), None) == [CannotBeNull("ItineraryDay", "date"), Failed("min", "day_number")]
  {
  }

  // ----- Image -----

  /** Image.js: image_url and caption fit STRING(255). */
  predicate ImageConstraints(i: Image) {
    |i.imageUrl| <= 255 && Fits(i.caption, 255)
  }

  // ----- Comment -----

  /**
   * A character JavaScript's `\s` class matches: the ASCII white space, the
   * Unicode space separators, the line and paragraph separators and the
   * byte-order mark.
   */
  predicate JsWhiteSpace(ch: char) {
    ch in {' ', '\t', '\n', '\U{000B}', '\U{000C}', '\r', '\U{00A0}', '\U{1680}',
           '\U{2028}', '\U{2029}', '\U{202F}', '\U{205F}', '\U{3000}', '\U{FEFF}'}
    || '\U{2000}' <= ch <= '\U{200A}'
  }

  /**
   * Sequelize's `notEmpty` refuses a value that matches `/^[\s\t\r\n]*$/`:
   * the empty string and every string made only of white space.
   */
  predicate Blank(s: string) {
    forall i :: 0 <= i < |s| ==> JsWhiteSpace(s[i])
  }

  /** Comment.js: comment_text passes `notEmpty`. */
  predicate CommentConstraints(c: Comment) {
    !Blank(c.commentText)
  }

  /** The items Sequelize reports for a comment_text value (absent is `None`). */
  function CommentTextViolations(text: Option<string>): (r: seq<ErrorItem>)
    ensures r == [] <==> (text.Some? && !Blank(text.value))
    ensures text.None? ==> r == [CannotBeNull("Comment", "comment_text")]
    ensures text.Some? && Blank(text.value) ==> r == [Failed("notEmpty", "comment_text")]
  {
    match text
    case None => [CannotBeNull("Comment", "comment_text")]
    case Some(s) => if Blank(s) then [Failed("notEmpty", "comment_text")] else []
  }

  /** White space alone is refused like the empty string; text with any other character passes. */
  lemma BlankTextRefused()
    ensures CommentTextViolations(Some("")) == [Failed("notEmpty", "comment_text")]
    ensures CommentTextViolations(Some("   ")) == [Failed("notEmpty", "comment_text")]
    ensures CommentTextViolations(Some("\t\r\n")) == [Failed("notEmpty", "comment_text")]
    ensures CommentTextViolations(Some(" ok ")) == []
  {
    assert !JsWhiteSpace(" ok "[1]);
  }

  /** A value too long for its column: rejected by the database, not by Sequelize's validators. */
  function DataTooLong(column: string): AppError {
    AppError("SequelizeDatabaseError", "Data too long for column '" + column + "' at row 1", "", None, [])
  }
}
