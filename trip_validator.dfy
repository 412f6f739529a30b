/**
 * backend/src/validators/tripValidator.js: `createTripSchema` and
 * `updateTripSchema`, as the list of details Joi reports for a request body
 * and, beside it, a direct statement of the bodies each schema accepts.
 */
module TripValidator {
  import opened Wrappers
  import opened Responses
  import opened Models
  import opened Joi

  /** A trip request body: the seven schema keys (`None` when left out) and any other keys it carries. */
  datatype TripBody = TripBody(
    name: Option<Str>,
    destination: Option<Str>,
    startDate: Option<DateValue>,
    endDate: Option<DateValue>,
    budget: Option<Num>,
    description: Option<Str>,
    status: Option<Str>,
    extra: seq<string>)

  const TripKeys: set<string> := {"name", "destination", "start_date", "end_date", "budget", "description", "status"}

  const StatusValues: seq<string> := ["planning", "ongoing", "completed"]

  const CreateName := StringSchema(true, false, 3, Some(100), [], map[
    "string.min" := "Trip name must be at least 3 characters long",
    "string.max" := "Trip name must not exceed 100 characters",
    "any.required" := "Trip name is required"])

  const CreateDestination := StringSchema(true, false, 2, Some(100), [], map[
    "string.min" := "Destination must be at least 2 characters long",
    "string.max" := "Destination must not exceed 100 characters",
    "any.required" := "Destination is required"])

  const CreateStart := DateSchema(true, map[
    "date.format" := "Start date must be in ISO format (YYYY-MM-DD)",
    "any.required" := "Start date is required"])

  const CreateEnd := DateSchema(true, map[
    "date.format" := "End date must be in ISO format (YYYY-MM-DD)",
    "date.greater" := "End date must be after start date",
    "any.required" := "End date is required"])

  const UpdateName := StringSchema(false, false, 3, Some(100), [], map[])
  const UpdateDestination := StringSchema(false, false, 2, Some(100), [], map[])
  const UpdateDate := DateSchema(false, map[])

  /** Shared by both schemas: budget optional, null or positive; description any string; status one of three. */
  const Budget := NumberSchema(false, true, true, map[])
  const Description := StringSchema(false, true, 0, None, [], map[])
  const StatusSchema := StringSchema(false, false, 0, None, StatusValues, map[])

  predicate BudgetOk(v: Option<Num>) {
    v.None? || v.value.Null? || (v.value.Number? && v.value.cents > 0)
  }

  predicate DescriptionOk(v: Option<Str>) {
    v.None? || v.value.Text?
  }

  predicate StatusOk(v: Option<Str>) {
    v.None? || (v.value.Text? && ParseStatus(v.value.s).Some?)
  }

  predicate TextWithin(v: Option<Str>, min: nat, max: nat) {
    v.Some? && v.value.Text? && min <= |v.value.s| <= max
  }

  /** The bodies `createTripSchema` accepts. */
  predicate CreateTripAccepts(b: TripBody) {
    && TextWithin(b.name, 3, 100)
    && TextWithin(b.destination, 2, 100)
    && b.startDate.Some? && b.startDate.value.IsoDate?
    && b.endDate.Some? && b.endDate.value.IsoDate?
    && b.endDate.value.day > b.startDate.value.day
    && BudgetOk(b.budget)
    && DescriptionOk(b.description)
    && StatusOk(b.status)
    && forall k :: k in b.extra ==> k in TripKeys
  }

  /** The bodies `updateTripSchema` accepts: every key optional, no check between the two dates. */
  predicate UpdateTripAccepts(b: TripBody) {
    && (b.name.None? || TextWithin(b.name, 3, 100))
    && (b.destination.None? || TextWithin(b.destination, 2, 100))
    && (b.startDate.None? || b.startDate.value.IsoDate?)
    && (b.endDate.None? || b.endDate.value.IsoDate?)
    && BudgetOk(b.budget)
    && DescriptionOk(b.description)
    && StatusOk(b.status)
    && forall k :: k in b.extra ==> k in TripKeys
  }

  lemma StatusValuesAreTheEnum(s: string)
    ensures s in StatusValues <==> ParseStatus(s).Some?
  {
  }

  /** `createTripSchema.validate(body, {abortEarly: false})`: the details, key by key. */
  function CreateTripDetails(b: TripBody): (r: seq<FieldError>)
    ensures r == [] <==> CreateTripAccepts(b)
  {
    StatusValuesAreTheEnum(if b.status.Some? && b.status.value.Text? then b.status.value.s else "");
    StringDetails("name", CreateName, b.name)
    + StringDetails("destination", CreateDestination, b.destination)
    + DateDetails("start_date", CreateStart, b.startDate)
    + DateDetails("end_date", CreateEnd, b.endDate)
    + GreaterDetails("end_date", "start_date", CreateEnd.custom, b.endDate, b.startDate)
    + NumberDetails("budget", Budget, b.budget)
    + StringDetails("description", Description, b.description)
    + StringDetails("status", StatusSchema, b.status)
    + UnknownDetails(TripKeys, b.extra)
  }

  /** `updateTripSchema.validate(body, {abortEarly: false})`. */
  function UpdateTripDetails(b: TripBody): (r: seq<FieldError>)
    ensures r == [] <==> UpdateTripAccepts(b)
  {
    StatusValuesAreTheEnum(if b.status.Some? && b.status.value.Text? then b.status.value.s else "");
    StringDetails("name", UpdateName, b.name)
    + StringDetails("destination", UpdateDestination, b.destination)
    + DateDetails("start_date", UpdateDate, b.startDate)
    + DateDetails("end_date", UpdateDate, b.endDate)
    + NumberDetails("budget", Budget, b.budget)
    + StringDetails("description", Description, b.description)
    + StringDetails("status", StatusSchema, b.status)
    + UnknownDetails(TripKeys, b.extra)
  }

  /** Whatever the create schema accepts, the update schema accepts too. */
  lemma CreateAcceptedIsUpdateAccepted(b: TripBody)
    requires CreateTripDetails(b) == []
    ensures UpdateTripDetails(b) == []
  {
  }

  /** A create body whose end date is not after its start date: the create detail. */
  lemma EndBeforeStartRejected(b: TripBody)
    requires b.startDate.Some? && b.startDate.value.IsoDate?
    requires b.endDate.Some? && b.endDate.value.IsoDate?
    requires b.endDate.value.day <= b.startDate.value.day
    ensures FieldError("end_date", "End date must be after start date") in CreateTripDetails(b)
  {
    assert GreaterDetails("end_date", "start_date", CreateEnd.custom, b.endDate, b.startDate)
      == [FieldError("end_date", "End date must be after start date")];
  }
}
