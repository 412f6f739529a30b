# TravelMate backend, modelled in Dafny

TravelMate's backend is an Express REST API over a Sequelize database. A
signed-in user plans trips. Each trip has expenses, itinerary days,
uploaded images and comments. This project models that backend:

- the gate that turns an `Authorization: Bearer …` header into the current user;
- the auth, trip, expense, itinerary, image and comment handlers;
- the associations and cascades that tie the tables together;
- the field constraints of the Sequelize models;
- the Joi request schemas for trips and expenses;
- the error handler and the `{success, message, data|errors}` response envelope.

The database is one `Store.Database` object holding one map per table,
keyed by id. It also holds an autoincrement counter per table and one clock
that stamps `created_at` and `upload_date`. `Database.Valid()` is the
invariant every handler keeps: each row is stored under its own id, every
foreign key points at a row that exists, every row meets its model's
constraints, and no two users share an email. Each handler is a method over
the database that returns a `Reply`, a status plus envelope. Each handler
states its whole effect:

- which error it returns, and when;
- that a refused request changes nothing;
- which single row is added, replaced or removed otherwise.

Pure decisions are functions over values: the gate, login, the schemas, the
patches and the error mapping.

Modules follow the source files:

- `Responses` is responseUtils.js.
- `ErrorHandler` is errorHandler.js.
- `Security` holds the password hasher and the token service, as parameters.
- `AuthMiddleware` is authMiddleware.js.
- `Joi` holds the parts of the Joi library the schemas use, as rule functions.
- `TripValidator` and `ExpenseValidator` are the two validator files.
- `Models` holds the model files and their constraints.
- `Associations` is models/index.js, as well-formedness predicates and cascade facts.
- `Store` holds the database class and the cascading deletes.
- `Query` is `findAll` with `where` and `order`.
- `Aggregates` holds sums, per-category lists and first-seen ordering.
- `TripSummary` and `TripController` are tripController.js.
- `ExpenseController`, `ItineraryController`, `ImageController`, `CommentController` and `AuthController` are their controllers.

Representation choices:

- DECIMAL(10,2) amounts and budgets are integer cents.
- DATEONLY values are day ordinals, so a trip's `days` is `end_date - start_date`.
- The `created_at`/`upload_date` orderings follow the monotonic clock.
- `findAll` results are specified by their multiset and their sort key. Rows
  that tie on the key may come in any order.
- A request body field is an `Option`, where `None` means the key was left out.
- A patch of a nullable column is a `Field`: `Absent`, `Null` or `Given`.

The per-category reduces of `getTripSummary` and `getExpensesByCategory` read a
JavaScript object in key-insertion order. They are modelled as loops over an
ordered key list and a map. They are proved equal to first-seen-order
reference definitions, which are proved to partition the expenses and to add
up to the total.

Comment listings and comment creation are not scoped to the trip's owner, as
in the source. Anyone may read, and any signed-in user may comment on any
trip. Only the author may edit or delete a comment.

## Model

| member | source | states |
|---|---|---|
| Responses.SuccessResponse | backend/src/utils/responseUtils.js:2-8 | the envelope has `success` set, the given status and message, and the given data |
| Responses.ErrorResponse | backend/src/utils/responseUtils.js:11-17 | the envelope has `success` unset, the given status and message, and the given errors |
| Responses.EnvelopeDefaults | backend/src/utils/responseUtils.js:2-17 | `data` and `errors` default to null; no success envelope equals an error envelope |
| ErrorHandler.FieldErrors | backend/src/middleware/errorHandler.js:8-11 | one `{field, message}` per inner error, in order, carrying its path and message |
| ErrorHandler.HandleError | backend/src/middleware/errorHandler.js:3-47 | a validation error gives 400 'Validation error' with the mapped items; every other error has no items; every recognised name gives 400 or 401, and 401 exactly for the two JWT names |
| ErrorHandler.FixedReplies | backend/src/middleware/errorHandler.js:16-40 | unique-constraint and foreign-key errors give 400 with their fixed texts; JsonWebTokenError gives 401 'Invalid token' and TokenExpiredError gives 401 'Token expired' |
| ErrorHandler.MulterMessages | backend/src/middleware/errorHandler.js:26-31 | a Multer error is 400: the size limit gives 'File too large. Maximum size is 5MB.', any other code gives 'File upload error: ' plus the error's message |
| ErrorHandler.DefaultStatus | backend/src/middleware/errorHandler.js:43 | `statusCode \|\| 500`: the error's status unless absent or 0, which become 500; never 0 |
| ErrorHandler.DefaultMessage | backend/src/middleware/errorHandler.js:44 | the error's message unless empty; never empty |
| ErrorHandler.UnrecognisedErrorsKeepTheirStatus | backend/src/middleware/errorHandler.js:43-46 | an unrecognised error is answered with its own status (or 500) and message (or 'Internal server error') |
| ErrorHandler.NotFoundHandler | backend/src/middleware/errorHandler.js:50-52 | an unmatched URL gives 404 'Route <url> not found' |
| AuthMiddleware.Split | backend/src/middleware/authMiddleware.js:14 | `split(' ')` always yields at least one piece |
| AuthMiddleware.BearerTokenPiece | backend/src/middleware/authMiddleware.js:14 | for a header starting with "Bearer ", piece 1 exists and is the text after the prefix up to the next space |
| AuthMiddleware.Authenticate | backend/src/middleware/authMiddleware.js:5-38 | every rejection is a 401; a missing or empty header, or one without the "Bearer " prefix, gives 'No token provided'; a principal let through is the stored row of that id without its password hash |
| AuthMiddleware.GateVerdicts | backend/src/middleware/authMiddleware.js:14-37 | with the prefix present: a token that fails verification gives 'Invalid or expired token'; a failing lookup gives 'Authentication failed'; a verified id with no row gives 'User not found'; otherwise that user's current row proceeds |
| AuthMiddleware.IssuedTokenPasses | backend/src/middleware/authMiddleware.js:17-34 | a token issued for a stored user lets that user's current row through |
| AuthController.Register | backend/src/controllers/authController.js:7-44 | a taken email gives 400 'Email already registered' and adds nobody; otherwise exactly one row, holding the hash and not the password, is added under the next id, and the 201 reply carries id, username, email, full_name and created_at |
| AuthController.AddUserKeepsCoherent | backend/src/controllers/authController.js:21-29 | adding a user under the next id with an unused email keeps every table link and the unique-email index |
| AuthController.FindByEmail | backend/src/controllers/authController.js:50-52 | finds a user exactly when one has that email, and the one found has it |
| AuthController.Login | backend/src/controllers/authController.js:47-88 | every failure is the same 401 'Invalid email or password'; success holds exactly when a stored user has that email and the password matches its hash; the reply holds a token signed over that user's {id, email, username} and the user without a hash |
| AuthController.RegisteredUserCanLogIn | backend/src/controllers/authController.js:66-84 | a user whose stored hash was made from a password logs in with that password |
| AuthController.LoginTokenOpensGate | backend/src/controllers/authController.js:66-70 | the token a login returns passes the gate as the user who logged in |
| AuthController.GetCurrentUser | backend/src/controllers/authController.js:91-106 | 200 'User retrieved successfully' with the principal the gate attached, which carries no hash |
| AuthController.ApplyProfile | backend/src/controllers/authController.js:123-126 | username, email and full_name are replaced when the body gives them and kept otherwise; id, hash, profile image and created_at are kept |
| AuthController.ReplaceUserKeepsCoherent | backend/src/controllers/authController.js:123-126 | rewriting a user row, with an email no other row holds, keeps the database coherent |
| AuthController.UpdateProfile | backend/src/controllers/authController.js:109-141 | changing to an email another user holds gives 400 'Email already in use' and no change; keeping one's own email skips the check; a body that sets none of username, email and full_name, or a vanished principal, gives 404 'User not found' with no change; otherwise only that user's row is replaced and 200 returns it without the hash |
| Joi.Report | backend/src/validators/tripValidator.js:8-12 | a failed rule reports its key, with the custom text when `.messages` gives one and Joi's template otherwise |
| Joi.StringDetails | backend/src/validators/tripValidator.js:4-22 | no detail exactly when the key is absent and optional, or the value is one of its `valid` values, or is a string meeting the empty/min/max rules; every detail names the key |
| Joi.NumberDetails | backend/src/validators/tripValidator.js:42-46 | no detail exactly when absent and optional, null and allowed, or a number that is positive when `.positive()` is set |
| Joi.DateDetails | backend/src/validators/tripValidator.js:24-30 | no detail exactly when absent and optional, or an ISO date |
| Joi.RefDay | backend/src/validators/tripValidator.js:34 | the reference resolves to the referenced key's date when it is ISO; for any other raw value, to the date Joi's format-less parse reads from it (a numeric string as milliseconds, another string through `new Date`, `null`, a number or a boolean as a timestamp); to no date when the key is absent or the value is blank, an object or an array |
| Joi.NullReferenceIsEpoch | backend/src/validators/tripValidator.js:28-34 | a `null` start date resolves to the epoch, so a later ISO end date gets no greater detail, while a value with no date gets one |
| Joi.GreaterDetails | backend/src/validators/tripValidator.js:32-40 | `greater(ref)` fails exactly when the value is an ISO date and the reference resolves to no date, giving any.ref, or to a date not before it, giving date.greater |
| Joi.UnknownDetails | backend/src/validators/tripValidator.js:3 | no detail exactly when every key of the body is a schema key; each detail names a body key the schema lacks |
| Joi.Verdict | backend/src/middleware/validation.js:5-19 | no details lets the handler run; otherwise 400 'Validation failed' with every detail |
| TripValidator.StatusValuesAreTheEnum | backend/src/validators/tripValidator.js:52-54 | the allowed status strings are exactly the spellings of the Trip status ENUM |
| TripValidator.CreateTripDetails | backend/src/validators/tripValidator.js:3-55 | no detail exactly when name has 3..100 characters, destination 2..100, both dates are ISO with end after start, budget is absent, null or positive, description is a string, status is one of three, and there are no unknown keys |
| TripValidator.UpdateTripDetails | backend/src/validators/tripValidator.js:57-89 | the same per-key rules with every key optional and no end-after-start check |
| TripValidator.CreateAcceptedIsUpdateAccepted | backend/src/validators/tripValidator.js:3-89 | every body the create schema accepts, the update schema accepts |
| TripValidator.EndBeforeStartRejected | backend/src/validators/tripValidator.js:32-40 | a create body whose end date is not after its start date gets 'End date must be after start date' on end_date |
| ExpenseValidator.CategoryValuesAreTheEnum | backend/src/validators/expenseValidator.js:13-19 | the allowed categories are exactly the spellings of the Expense category ENUM |
| ExpenseValidator.CreateExpenseDetails | backend/src/validators/expenseValidator.js:3-33 | no detail exactly when the amount is a positive number, the category one of six, the date ISO, the description absent or at most 255 characters, and there are no unknown keys |
| ExpenseValidator.UpdateExpenseDetails | backend/src/validators/expenseValidator.js:35-53 | the same per-key rules with every key optional |
| ExpenseValidator.UnknownCategoryRejected | backend/src/validators/expenseValidator.js:13-19 | a category outside the ENUM gets the schema's own message listing the six values |
| Models.ParseStatus | backend/src/models/Trip.js:58-61 | a string is a status exactly when it is planning, ongoing or completed, and it reads back as its own spelling |
| Models.ParseCategory | backend/src/models/Expense.js:27-30 | a string is a category exactly when it is one of the six ENUM values, and it reads back as its own spelling |
| Models.EnumNamesRoundTrip | backend/src/models/Expense.js:27-30 | every status and category parses back from its name, and every category is one of the six listed |
| Models.PublicView | backend/src/middleware/authMiddleware.js:24-26 | the user without `password_hash`, with every other column kept |
| Models.TripViolationsExact | backend/src/models/Trip.js:18-53 | validating a trip finds nothing exactly when its name has 3..100 characters, its destination 2..100, its end date is after its start, and its budget is null or at least 0 |
| Models.DayViolations | backend/src/models/ItineraryDay.js:20-30 | nothing is reported exactly when day_number is given and at least 1 and date is given; each notNull item is there exactly when its value is missing, and the min item exactly when day_number is below 1 |
| Models.NotNullBeforeMin | backend/src/models/ItineraryDay.js:20-30 | a day_number below 1 with no date reports the date's notNull item before day_number's min item |
| Models.CommentTextViolations | backend/src/models/Comment.js:36-42 | a missing comment_text gives the notNull item; a blank one, empty or made only of characters JavaScript's `\s` matches, gives the notEmpty item; nothing is reported exactly when it is given and not blank |
| Models.BlankTextRefused | backend/src/models/Comment.js:39-41 | "", "   " and "\t\r\n" each get the notEmpty item, while " ok " passes |
| Associations.UsersAdd | backend/src/controllers/authController.js:21-29 | a new user with an unused email keeps ids keyed and emails unique |
| Associations.TripsAfterTripDelete | backend/src/models/index.js:12-13 | removing one trip keeps every other trip's owner link |
| Associations.ExpensesAfterTripDelete | backend/src/models/index.js:16 | the cascade removes exactly the trip's expenses and leaves the rest linked to existing trips |
| Associations.DaysAfterTripDelete | backend/src/models/index.js:20 | the cascade removes exactly the trip's itinerary days and leaves the rest linked |
| Associations.ImagesAfterTripDelete | backend/src/models/index.js:24 | the cascade removes exactly the trip's images and leaves the rest linked to their trip and uploader |
| Associations.CommentsAfterTripDelete | backend/src/models/index.js:32-41 | the two cascades together, trip to comment and trip to image to comment, remove exactly the trip's comments; every other comment keeps its trip, author and image |
| Store.Database.constructor | backend/src/models/index.js:9-41 | an empty database is coherent and its ids start at 1 |
| Store.Database.InsertTrip | backend/src/controllers/tripController.js:91-100 | the trip goes in under the next id, nothing else changes, and the database stays coherent |
| Store.Database.ReplaceTrip | backend/src/controllers/tripController.js:125 | only that trip's row is replaced, and the database stays coherent |
| Store.Database.DestroyTrip | backend/src/controllers/tripController.js:147 | the new state is the trip cascade of the old one |
| Store.Database.InsertExpense | backend/src/controllers/expenseController.js:75-82 | the expense goes in under the next id, nothing else changes, and the database stays coherent |
| Store.Database.ReplaceExpense | backend/src/controllers/expenseController.js:114 | only that expense's row is replaced |
| Store.Database.RemoveExpense | backend/src/controllers/expenseController.js:145 | only that expense's row goes |
| Store.Database.InsertDay | backend/src/controllers/itineraryController.js:75-81 | the day goes in under the next id, nothing else changes, and the database stays coherent |
| Store.Database.ReplaceDay | backend/src/controllers/itineraryController.js:113 | only that day's row is replaced |
| Store.Database.RemoveDay | backend/src/controllers/itineraryController.js:144 | only that day's row goes |
| Store.Database.InsertImage | backend/src/controllers/imageController.js:50-55 | the image goes in under the next id, nothing else changes, and the database stays coherent |
| Store.Database.ReplaceImage | backend/src/controllers/imageController.js:87 | only that image's row is replaced |
| Store.Database.DestroyImage | backend/src/controllers/imageController.js:118 | the new state is the image cascade of the old one |
| Store.Database.InsertComment | backend/src/controllers/commentController.js:39-44 | the comment goes in under the next id, nothing else changes, and the database stays coherent |
| Store.Database.ReplaceComment | backend/src/controllers/commentController.js:141 | only that comment's row is replaced |
| Store.Database.RemoveComment | backend/src/controllers/commentController.js:166 | only that comment's row goes |
| Store.Cascade | backend/src/models/index.js:16-41 | purging the child tables one by one yields the trip cascade |
| Store.Purge | backend/src/models/index.js:16 | purging a table keeps exactly the rows the cascade does not select |
| Store.DeleteTripCascadeExact | backend/src/models/index.js:16-41 | deleting a trip removes it and exactly its expenses, days, images and comments, keeps every other row unchanged, and leaves users and counters alone |
| Store.DeleteTripCascadeCoherent | backend/src/models/index.js:12-41 | the trip cascade leaves no dangling foreign key |
| Store.DeleteImageCascadeCoherent | backend/src/models/index.js:40-41 | the image cascade leaves the database coherent and keeps exactly the comments not on that image |
| Store.AddTripKeepsCoherent | backend/src/models/Trip.js:10-61 | a new trip meeting Trip.js's constraints, owned by an existing user, keeps the database coherent |
| Store.ReplaceTripKeepsCoherent | backend/src/models/Trip.js:10-61 | a rewritten trip with the same owner that meets the constraints keeps the database coherent |
| Store.AddExpenseKeepsCoherent | backend/src/models/Expense.js:11-42 | a new expense meeting Expense.js's constraints, on an existing trip, keeps the database coherent |
| Store.ReplaceExpenseKeepsCoherent | backend/src/models/Expense.js:11-42 | a rewritten expense on the same trip keeps the database coherent |
| Store.RemoveExpenseKeepsCoherent | backend/src/models/index.js:16-17 | nothing refers to an expense, so removing one keeps the database coherent |
| Store.AddDayKeepsCoherent | backend/src/models/ItineraryDay.js:11-34 | a new day meeting ItineraryDay.js's constraints, on an existing trip, keeps the database coherent |
| Store.ReplaceDayKeepsCoherent | backend/src/models/ItineraryDay.js:11-34 | a rewritten day on an existing trip keeps the database coherent |
| Store.RemoveDayKeepsCoherent | backend/src/models/index.js:20-21 | removing a day keeps the database coherent |
| Store.AddImageKeepsCoherent | backend/src/models/Image.js:10-34 | a new image on an existing trip by an existing user keeps the database coherent |
| Store.ReplaceImageKeepsCoherent | backend/src/models/Image.js:27-34 | a rewritten image with the same trip and uploader keeps the database coherent |
| Store.AddCommentKeepsCoherent | backend/src/models/Comment.js:10-42 | a new comment with non-blank text on an existing trip by an existing user, on an image of that trip if any, keeps the database coherent |
| Store.ReplaceCommentKeepsCoherent | backend/src/models/Comment.js:10-42 | a rewritten comment with the same links and non-blank text keeps the database coherent |
| Store.RemoveCommentKeepsCoherent | backend/src/models/index.js:32-41 | nothing refers to a comment, so removing one keeps the database coherent |
| Query.SelectSorted | backend/src/controllers/expenseController.js:19-22 | `findAll({where, order})` returns every selected row once and nothing else, sorted by the key |
| Query.Select | backend/src/controllers/tripController.js:175 | `findAll` with no order returns every selected row once and nothing else |
| Query.ListingExact | backend/src/controllers/tripController.js:10-20 | a listing holds exactly the selected rows, none twice, as many as the filter selects |
| Aggregates.SumAmountsPermutation | backend/src/controllers/tripController.js:176 | the total does not depend on the order the rows arrive in |
| Aggregates.SumAmountsNonNegative | backend/src/models/Expense.js:20-26 | amounts of at least 0 give a total of at least 0 |
| Aggregates.OfCategoryMembers | backend/src/controllers/expenseController.js:173-187 | one category's list holds exactly the expenses of that category |
| Aggregates.OfCategoryPermutation | backend/src/controllers/expenseController.js:173-187 | one category's list and its total do not depend on the order of the rows |
| Aggregates.Partition | backend/src/controllers/expenseController.js:173-187 | over distinct categories covering the expenses, the per-category lists together are the expenses, as a multiset |
| Aggregates.CategoryTotalsAddUp | backend/src/controllers/tripController.js:179-182 | over distinct covering categories, the per-category totals add up to the total |
| Aggregates.AllCategoriesPartition | backend/src/models/Expense.js:27-30 | the six ENUM values are distinct and cover every expense |
| Aggregates.FirstSeenDistinct | backend/src/controllers/tripController.js:179-182 | first-seen order lists every category present once and no other |
| Aggregates.FirstSeenCategories | backend/src/controllers/tripController.js:179-182 | the keys are distinct, cover every expense, and are exactly the categories some expense has |
| Aggregates.TotalsCategories | backend/src/controllers/tripController.js:179-182 | the totals name each category present once, in first-seen order, and no other |
| Aggregates.TotalsAddUp | backend/src/controllers/tripController.js:176-182 | the per-category totals add up to the total of all the expenses |
| Aggregates.GroupsPartition | backend/src/controllers/expenseController.js:173-189 | the groups' expenses together are the expenses, as a multiset, and the group totals add up to the total |
| Aggregates.GroupsByCategory | backend/src/controllers/expenseController.js:173-189 | one group per category; each group's count is its list's length, its total is the sum of its list, and its list is exactly the expenses of its category |
| TripSummary.Days | backend/src/controllers/tripController.js:184 | the trip's length in days is at least 1 for a stored trip, whose end comes after its start |
| TripSummary.Remaining | backend/src/controllers/tripController.js:197 | null exactly when the budget is null; otherwise remaining plus spent is the budget |
| TripSummary.SummaryAddsUp | backend/src/controllers/tripController.js:176-200 | the per-category sums add up to totalExpenses, which is the sum of the amounts; remainingBudget is budget minus total, or null; one entry for each category present, and no other |
| TripSummary.SummaryCountsExpenses | backend/src/controllers/tripController.js:200 | expenseCount is the number of the trip's expenses |
| TripSummary.SummaryOrderFree | backend/src/controllers/tripController.js:175-200 | total, count, remaining budget and each category's sum do not depend on the order the expenses arrive in |
| TripSummary.AccumulatedTotals | backend/src/controllers/tripController.js:179-182 | the object the reduce leaves, read in key order, is the first-seen per-category totals |
| TripSummary.CategoryTotals | backend/src/controllers/tripController.js:179-182 | the category reduce's loop returns exactly the first-seen per-category totals |
| TripController.GetAllTrips | backend/src/controllers/tripController.js:6-38 | 200 listing the caller's trips, each once and newest first, each with all its expenses, their total and its length |
| TripController.OwnTripsOnly | backend/src/controllers/tripController.js:10-31 | the listing shows only the caller's trips, every one of them, none twice, and each total is the sum of that trip's expenses |
| TripController.TotalNonNegative | backend/src/controllers/tripController.js:25 | a listed trip's total is never negative |
| TripController.GetTripById | backend/src/controllers/tripController.js:41-84 | a missing or foreign trip gives 404 'Trip not found'; otherwise 200 with the trip, all its expenses, images and days, its total and its length |
| TripController.NewTrip | backend/src/controllers/tripController.js:91-100 | the new row is owned by the caller, has status 'planning' when none is given, and meets Trip.js's constraints |
| TripController.CreateTrip | backend/src/routes/tripRoutes.js:21 | a body the create schema refuses gives 400 'Validation failed' with its details and no change; otherwise exactly the new trip is added and 201 returns it |
| TripController.PatchTrip | backend/src/controllers/tripController.js:125 | each field the body carries replaces the row's, every other field is kept, and owner, id and created_at never change |
| TripController.StartDatePatchSkipsDateCheck | backend/src/controllers/tripController.js:125 | as written, a start date moved past the end date is saved, and the stored trip breaks end-after-start |
| TripController.SavePatch | backend/src/models/Trip.js:38-45 | the merged row is saved only when it meets Trip.js's constraints; otherwise the save is refused with exactly its violations |
| TripController.SavePatchRefusesOnlyDateOrder | backend/src/models/Trip.js:38-45 | for an accepted body, the merged row is refused exactly when its end date is not after its start, with the one end_date item; when saved it agrees with the code as written |
| TripController.UpdateTrip | backend/src/controllers/tripController.js:109-131 | schema failure gives 400 'Validation failed'; a missing or foreign trip gives 404 'Trip not found'; only that trip's row changes, to the merged row, when it is valid; a merged row with end before start is a validation error and no change |
| TripController.DeleteTrip | backend/src/controllers/tripController.js:134-153 | a missing or foreign trip gives 404 and the database is unchanged; otherwise 200, and the database is the trip cascade of the old one |
| TripController.GetTripSummary | backend/src/controllers/tripController.js:156-205 | a missing or foreign trip gives 404; otherwise 200 with the summary of all that trip's expenses |
| ExpenseController.GetAllExpenses | backend/src/controllers/expenseController.js:5-28 | a missing or foreign trip gives 404 'Trip not found'; otherwise 200 with exactly the trip's expenses, latest date first |
| ExpenseController.GetExpenseById | backend/src/controllers/expenseController.js:31-57 | a 404 for the trip, then for an expense outside it; success exactly when the caller owns the trip and the expense is in it |
| ExpenseController.NewExpense | backend/src/controllers/expenseController.js:75-82 | the trip comes from the path, the fields from the body, and the receipt from the upload (null without a file); the row fits Expense.js exactly when the receipt path fits 255 characters |
| ExpenseController.CreateExpense | backend/src/controllers/expenseController.js:60-88 | schema failure gives 400 and no change; a foreign trip gives 404 and no change; a too-long receipt path is a database error; otherwise exactly the new expense is added and 201 returns it |
| ExpenseController.PatchExpense | backend/src/controllers/expenseController.js:114 | fields the body carries replace the row's; trip, receipt and created_at stay; a valid row stays valid |
| ExpenseController.UpdateExpense | backend/src/controllers/expenseController.js:91-120 | 400 for the schema, 404 for the trip, 404 for an expense outside it, each with no change; otherwise only that expense changes, and 200 returns it |
| ExpenseController.DeleteExpense | backend/src/controllers/expenseController.js:123-151 | 404s as above with no change; otherwise only that expense is removed |
| ExpenseController.GroupedGroups | backend/src/controllers/expenseController.js:173-189 | the object the reduce leaves, read in key order, is the first-seen groups |
| ExpenseController.GroupByCategory | backend/src/controllers/expenseController.js:173-189 | the grouping loop returns exactly the first-seen groups |
| ExpenseController.GetExpensesByCategory | backend/src/controllers/expenseController.js:154-193 | a foreign trip gives 404; otherwise 200 with the groups of all the trip's expenses |
| ExpenseController.GroupsAgreeWithTotals | backend/src/controllers/expenseController.js:173-189 | the groups and the summary's category totals list the same categories in the same order with the same totals |
| ItineraryController.GetAllItineraryDays | backend/src/controllers/itineraryController.js:5-28 | 404 for a foreign trip; otherwise 200 with exactly the trip's days, by day number ascending |
| ItineraryController.GetItineraryDayById | backend/src/controllers/itineraryController.js:31-57 | a 404 for the trip, then for a day outside it; success exactly when the caller owns the trip and the day is in it |
| ItineraryController.NewDay | backend/src/controllers/itineraryController.js:75-81 | the trip comes from the path and the other fields from the body; the row fits ItineraryDay.js exactly when the title fits 100 characters |
| ItineraryController.CreateItineraryDay | backend/src/controllers/itineraryController.js:60-87 | 404 for a foreign trip; a missing or too-small day_number, or a missing date, is a validation error; a too-long title is a database error; each with no change; otherwise exactly the new day is added and 201 returns it |
| ItineraryController.SaveRow | backend/src/controllers/itineraryController.js:113 | the row is saved exactly when a changed day_number is at least 1, the title fits, and the trip exists; the saved row is the patched one |
| ItineraryController.TripIdPatchMovesDay | backend/src/controllers/itineraryController.js:113 | as written, a body with another trip's id moves the day there, where that trip's owner can read it, and the day is gone from its own trip |
| ItineraryController.PatchDay | backend/src/controllers/itineraryController.js:113 | the patch as intended: the body's fields replace the row's except trip_id; id, trip and created_at stay |
| ItineraryController.SaveDayKeepsTrip | backend/src/controllers/itineraryController.js:113 | a saved patch keeps the day in its trip and within its constraints, and agrees with the code as written whenever the body does not name another trip |
| ItineraryController.UpdateItineraryDay | backend/src/controllers/itineraryController.js:90-119 | 404 for the trip, then for a day outside it, with no change; a refused save is its error with no change; otherwise only that day's row changes, staying in the path's trip |
| ItineraryController.DeleteItineraryDay | backend/src/controllers/itineraryController.js:122-150 | 404s with no change; otherwise only that day is removed |
| ImageController.GetAllImages | backend/src/controllers/imageController.js:5-28 | 404 for a foreign trip; otherwise 200 with exactly the trip's images, newest upload first |
| ImageController.ImageUrlNamesFile | backend/src/controllers/imageController.js:50-55 | the url is '/uploads/images/' followed by the stored file's name, which can be read back from it |
| ImageController.UploadCaption | backend/src/controllers/imageController.js:54 | `caption \|\| null`: null exactly when the caption is left out or empty, otherwise the caption |
| ImageController.NewImage | backend/src/controllers/imageController.js:50-55 | the trip from the path, the caller as uploader, the url from the file name, the caption or null; the row fits Image.js exactly when url and caption fit 255 characters |
| ImageController.UploadImage | backend/src/controllers/imageController.js:31-61 | the trip check comes before the file check: 404, then 400 'No image file provided', then database errors for a too-long url or caption, each with no change; otherwise exactly the new image is added and 201 returns it |
| ImageController.PatchCaption | backend/src/controllers/imageController.js:87 | only the caption can change: left out keeps it, null clears it, a string replaces it |
| ImageController.PatchCaptionConstraints | backend/src/models/Image.js:31-34 | a patched image still fits its columns exactly when a given caption has at most 255 characters |
| ImageController.PatchCaptionIdempotent | backend/src/controllers/imageController.js:87 | applying the same caption update twice is applying it once |
| ImageController.UpdateImage | backend/src/controllers/imageController.js:64-93 | 404 for the trip, then 404 'Image not found' for an image outside it, then a database error for a too-long caption, each with no change; otherwise only that image's caption changes, and 200 returns it |
| ImageController.DeleteImage | backend/src/controllers/imageController.js:96-124 | 404s with no change; otherwise the image goes, the comments on it go with it, and every other comment and image stays as it was |
| CommentController.BriefOf | backend/src/controllers/commentController.js:13-15 | the author as included: id, username and profile_image of the stored user |
| CommentController.AuthorExists | backend/src/models/index.js:36-37 | in a coherent database every comment's author exists |
| CommentController.IncludeAuthors | backend/src/controllers/commentController.js:11-17 | each comment of the listing, in order, gets its stored author |
| CommentController.GetTripComments | backend/src/controllers/commentController.js:5-25 | public; 200 with exactly the trip's comments whose image_id is null, newest first, each with its author |
| CommentController.GetImageComments | backend/src/controllers/commentController.js:64-84 | public; 200 with exactly the image's comments, newest first, each with its author |
| CommentController.ListingsDisjoint | backend/src/controllers/commentController.js:10 | no comment is in both a trip's listing and an image's listing |
| CommentController.NewComment | backend/src/controllers/commentController.js:39-44 | the new row carries the trip, the caller as author, the image and the text, and meets Comment.js exactly when the text is not blank |
| CommentController.AddTripComment | backend/src/controllers/commentController.js:28-61 | only the trip's existence is checked, whoever owns it: 404 'Trip not found', then Comment.js's validation (400 'Validation error' for missing, empty or whitespace-only text), each with no change; otherwise exactly the new comment, with a null image_id, is added and 201 returns it with its author |
| CommentController.AddImageComment | backend/src/controllers/commentController.js:87-121 | 404 'Image not found', then validation (400 'Validation error' for missing, empty or whitespace-only text), each with no change; otherwise exactly the new comment is added, on the image's trip, and 201 returns it with its author |
| CommentController.AddedCommentListed | backend/src/controllers/commentController.js:9-19 | after adding a comment, a listing gains exactly that comment when it selects it, and is unchanged otherwise |
| CommentController.DeletedImageHasNoComments | backend/src/models/index.js:40 | after an image is deleted, its comment listing is empty |
| CommentController.EditViolations | backend/src/models/Comment.js:36-42 | an edit passes validation exactly when comment_text is left out or is a string that is not blank |
| CommentController.EditComment | backend/src/controllers/commentController.js:141 | only comment_text can change; a valid comment stays valid after an accepted edit |
| CommentController.UpdateComment | backend/src/controllers/commentController.js:124-147 | 404 'Comment not found', then 403 'You can only edit your own comments' for anyone but the author (the trip's owner too), then validation (400 'Validation error' for null, empty or whitespace-only text), each with no change; otherwise only that comment's text changes |
| CommentController.DeleteComment | backend/src/controllers/commentController.js:150-172 | 404, then 403 'You can only delete your own comments', each with no change; otherwise only that comment is removed |

## Left out

- HTTP, Express routing and request parsing are represented only by handler parameters: the caller id, path ids and body fields.
- Multer's storage is not modelled. Its stored file name or path is a parameter. The file stays on disk even when the handler then answers 404 or 400.
- bcrypt is replaced by a `Hasher` parameter. Salt generation and the cost factor are not modelled. The one assumption is that a password matches any hash made from it (`Security.HashSound`).
- JWT is replaced by a `TokenService` parameter. Signing keys and expiry are not modelled. The one assumption is that verifying a signed token returns its claims (`Security.TokenSound`).
- A lookup error in the gate is the `lookupFails` flag.
- Races between a handler's lookup and its write are not modelled. Handlers run one at a time.
- The register and login request schemas (`authValidator.js`) are not part of this model, and neither is `User.js`. Email uniqueness is the database's unique index, kept as part of `Valid()`.
- TripCollaborator is not used by any handler, and the front end is not part of this model.
- Joi details carry the custom `.messages` text where a schema gives one, and otherwise Joi's default template. Template details such as `{#limit}` quoting and `any.ref` formatting for a missing `start_date` are simplified.
- Date values are whole days. A `Joi.date().iso()` key also accepts an ISO date-time, which is not modelled.
- Joi.GreaterDetails: compares whole days where Joi compares date-time timestamps.
- TripValidator.CreateTripDetails: with ISO date-times, Joi compares timestamps, so a start of `2024-01-15T10:00Z` and an end of `2024-01-15T12:00Z` pass the schema. The model compares days and refuses them at the schema.
- TripController.CreateTrip: for that same-day date-time pair the source gives DATEONLY's trimmed days to Sequelize, whose `isAfterStartDate` answers 400 'Validation error'. The model answers 400 'Validation failed' from the schema.
- Joi `precision(2)` rounds an amount and never fails. The model takes amounts already in hundredths, so sub-cent inputs, unsafe numbers and DECIMAL(10,2)'s upper bound are not modelled.
- The `parseFloat` sums are exact integer sums. Floating-point rounding is not modelled.
- Lengths are counted in Unicode characters, whereas JavaScript counts UTF-16 code units and MySQL counts characters.
- Attribute projections (`attributes: [...]`) and ordering inside `include` are not modelled. Responses carry whole rows, except that user rows never carry the password hash.
- TripController.GetTripById: the itinerary days are given as an unordered multiset, because an `order` inside an `include` is not applied by Sequelize.
- Too-long values for a STRING column are modelled as MySQL strict mode rejects them: a `SequelizeDatabaseError` reported for the first offending column in attribute order, answered with 500.
- ItineraryController.SaveRow: when a patched day has both a too-long title and a trip_id naming no trip, the model reports the title. Which of the two MySQL reports is not modelled.
- AuthController.UpdateProfile: a body that sets no column is 404, as `User.update` then reports `[0]`. This takes `updateProfileSchema` to accept such a body. Every other update is taken to change the row, so `[updated]` is 1. An `updated_at` column, if the model has one, would make that hold, except for an identical update within the same second of the column's precision, which is 404 in the source and 200 here.
- A refused insert does not use up an id in the model. MySQL's autoincrement may skip one.
- Explicit JSON nulls in itinerary bodies, and non-string JSON values for `caption` and `comment_text`, are not modelled. Neither are body keys such as `id` or `created_at` in an itinerary update.
- ItineraryController.CreateItineraryDay: the itinerary routes have no schema, so a body reaches Sequelize as sent. Badly typed values are not modelled: a `day_number` such as `"abc"` or `1.5`, a `date` string that does not parse, and a `title` or `description` sent as an object or an array. In the source these give a Sequelize 400, a MySQL strict-mode 500 or a stored rounded value. `DayBody` holds only well-typed values.
- ItineraryController.UpdateItineraryDay: the same badly typed values are not modelled for an update.
- Trip and expense bodies with such values are refused by their schemas, which the model covers.
- The `updated_at` column of trips and comments is not modelled.
- CommentController.GetTripComments: a comment's author is always present, because `Valid()` rules out the `user: null` the include would give for a missing author.
- TripController.UpdateTrip: models the corrected save, which validates the whole merged row (see Findings). `StartDatePatchSkipsDateCheck` models the code as written.
- ItineraryController.UpdateItineraryDay: models the corrected patch, which keeps the day in the trip of the path (see Findings). `TripIdPatchMovesDay` models the code as written.

## Findings

| source | as written | input that shows it | evidently intended | confidence | as-written member | corrected member |
|---|---|---|---|---|---|---|
| backend/src/controllers/tripController.js:125 | `trip.update(body)` validates only the attributes that changed, and the `isAfterStartDate` check sits on end_date; the update schema has no cross-date rule | on a trip from day 10 to day 12, PUT `{"start_date": <day 20>}`: the row is saved with start 20 and end 12 | a trip's end date is always after its start date | not executed | TripController.StartDatePatchSkipsDateCheck | TripController.SavePatchRefusesOnlyDateOrder |
| backend/src/controllers/itineraryController.js:113 | `itineraryDay.update(req.body)` applies the raw body, trip_id included, with no validator on the route | PUT `/api/trips/1/itinerary/5` with `{"trip_id": 2}`, where trip 2 belongs to another user: the day moves into that user's trip | a day stays in the trip it was found through, which the caller owns | not executed | ItineraryController.TripIdPatchMovesDay | ItineraryController.SaveDayKeepsTrip |
