/**
 * backend/src/middleware/errorHandler.js: the last middleware, which turns an
 * error passed to `next(error)` into an error envelope, and the handler for
 * unmatched routes.
 */
module ErrorHandler {
  import opened Wrappers
  import opened Responses

  /** One inner item of a Sequelize validation error (`e.path`, `e.message`). */
  datatype ErrorItem = ErrorItem(path: string, message: string)

  /**
   * The fields of a thrown error that the handler reads. `statusCode` is
   * `None` when the error has none; `Some(0)` is kept distinct because the
   * source's `err.statusCode || 500` treats 0 as absent too.
   */
  datatype AppError = AppError(
    name: string,
    message: string,
    code: string,
    statusCode: Option<int>,
    errors: seq<ErrorItem>)

  const ValidationErrorName := "SequelizeValidationError"
  const UniqueConstraintErrorName := "SequelizeUniqueConstraintError"
  const ForeignKeyConstraintErrorName := "SequelizeForeignKeyConstraintError"
  const MulterErrorName := "MulterError"
  const JwtErrorName := "JsonWebTokenError"
  const TokenExpiredErrorName := "TokenExpiredError"

  /** The error names the handler recognises by their own branch. */
  predicate Recognised(name: string) {
    name in {ValidationErrorName, UniqueConstraintErrorName, ForeignKeyConstraintErrorName,
             MulterErrorName, JwtErrorName, TokenExpiredErrorName}
  }

  /** A Sequelize validation error carrying the given items. */
  function ValidationError(items: seq<ErrorItem>): AppError {
    AppError(ValidationErrorName, "Validation error", "", None, items)
  }

  /** The errors the store raises for unique-index and foreign-key violations. */
  const UniqueConstraintError := AppError(UniqueConstraintErrorName, "Validation error", "", None, [])
  const ForeignKeyConstraintError := AppError(ForeignKeyConstraintErrorName, "Foreign key violation", "", None, [])

  /** `err.errors.map(e => ({field: e.path, message: e.message}))`. */
  function FieldErrors(items: seq<ErrorItem>): (r: seq<FieldError>)
    ensures |r| == |items|
    ensures forall i :: 0 <= i < |items| ==> r[i] == FieldError(items[i].path, items[i].message)
  {
    seq(|items|, i requires 0 <= i < |items| => FieldError(items[i].path, items[i].message))
  }

  /** The if-chain of `errorHandler`, in the source's order. */
  function HandleError<D>(err: AppError): (r: Reply<D>)
    ensures !r.Success()
    ensures err.name == ValidationErrorName ==>
      r == ErrorResponse(400, "Validation error", Some(FieldErrors(err.errors)))
    ensures err.name != ValidationErrorName ==> r.body.errors == None
    ensures Recognised(err.name) ==> r.status in {400, 401}
    ensures err.name in {JwtErrorName, TokenExpiredErrorName} <==> (Recognised(err.name) && r.status == 401)
  {
    if err.name == ValidationErrorName then
      ErrorResponse(400, "Validation error", Some(FieldErrors(err.errors)))
    else if err.name == UniqueConstraintErrorName then
      ErrorResponse(400, "Duplicate entry. This record already exists.")
    else if err.name == ForeignKeyConstraintErrorName then
      ErrorResponse(400, "Referenced record does not exist.")
    else if err.name == MulterErrorName then
      if err.code == "LIMIT_FILE_SIZE" then ErrorResponse(400, "File too large. Maximum size is 5MB.")
      else ErrorResponse(400, "File upload error: " + err.message)
    else if err.name == JwtErrorName then
      ErrorResponse(401, "Invalid token")
    else if err.name == TokenExpiredErrorName then
      ErrorResponse(401, "Token expired")
    else
      ErrorResponse(DefaultStatus(err), DefaultMessage(err))
  }

  /** `err.statusCode || 500`: an absent or zero status code becomes 500. */
  function DefaultStatus(err: AppError): (s: int)
    ensures s != 0
    ensures (err.statusCode.Some? && err.statusCode.value != 0) ==> s == err.statusCode.value
    ensures (err.statusCode.None? || err.statusCode == Some(0)) ==> s == 500
  {
    match err.statusCode
    case Some(c) => if c != 0 then c else 500
    case None => 500
  }

  /** `err.message || 'Internal server error'`: an empty message is replaced. */
  function DefaultMessage(err: AppError): (m: string)
    ensures m != ""
    ensures err.message != "" ==> m == err.message
  {
    if err.message != "" then err.message else "Internal server error"
  }

  /** Errors the handler does not recognise keep their own status code and message when they have them. */
  lemma UnrecognisedErrorsKeepTheirStatus<D>(err: AppError)
    requires !Recognised(err.name)
    ensures HandleError<D>(err).status == DefaultStatus(err)
    ensures HandleError<D>(err).Message() == DefaultMessage(err)
    ensures HandleError<D>(err).status != 0 && HandleError<D>(err).Message() != ""
  {
  }

  /** The two Multer branches: the size limit has its fixed message, every other code reports Multer's message. */
  lemma MulterMessages<D>(err: AppError)
    requires err.name == MulterErrorName
    ensures HandleError<D>(err).status == 400
    ensures err.code == "LIMIT_FILE_SIZE" ==> HandleError<D>(err).Message() == "File too large. Maximum size is 5MB."
    ensures err.code != "LIMIT_FILE_SIZE" ==> HandleError<D>(err).Message() == "File upload error: " + err.message
  {
  }

  /** The store's and the token library's errors each get their own fixed status and text, whatever else they carry. */
  lemma FixedReplies<D>(err: AppError)
    ensures err.name == UniqueConstraintErrorName ==>
      HandleError<D>(err) == ErrorResponse(400, "Duplicate entry. This record already exists.")
    ensures err.name == ForeignKeyConstraintErrorName ==>
      HandleError<D>(err) == ErrorResponse(400, "Referenced record does not exist.")
    ensures err.name == JwtErrorName ==> HandleError<D>(err) == ErrorResponse(401, "Invalid token")
    ensures err.name == TokenExpiredErrorName ==> HandleError<D>(err) == ErrorResponse(401, "Token expired")
  {
  }

  /** `notFoundHandler`: every unmatched route is a 404 naming the URL. */
  function NotFoundHandler<D>(url: string): (r: Reply<D>)
    ensures !r.Success() && r.status == 404
    ensures r.Message() == "Route " + url + " not found"
  {
    ErrorResponse(404, "Route " + url + " not found")
  }
}
