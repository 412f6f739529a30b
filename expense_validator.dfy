/**
 * backend/src/validators/expenseValidator.js: `createExpenseSchema` and
 * `updateExpenseSchema`, as the details Joi reports and as a direct
 * statement of the bodies each accepts.
 */
module ExpenseValidator {
  import opened Wrappers
  import opened Responses
  import opened Models
  import opened Joi

  /** An expense request body: the four schema keys (`None` when left out) and any other keys. */
  datatype ExpenseBody = ExpenseBody(
    amount: Option<Num>,
    category: Option<Str>,
    date: Option<DateValue>,
    description: Option<Str>,
    extra: seq<string>)

  const ExpenseKeys: set<string> := {"amount", "category", "date", "description"}

  const CategoryValues: seq<string> := ["Food", "Transport", "Accommodation", "Activities", "Shopping", "Other"]

  const CreateAmount := NumberSchema(true, false, true, map[
    "number.positive" := "Amount must be a positive number",
    "any.required" := "Amount is required"])

  const CreateCategory := StringSchema(true, false, 0, None, CategoryValues, map[
    "any.only" := "Category must be one of: Food, Transport, Accommodation, Activities, Shopping, Other",
    "any.required" := "Category is required"])

  const CreateDate := DateSchema(true, map[
    "date.format" := "Date must be in ISO format (YYYY-MM-DD)",
    "any.required" := "Date is required"])

  const UpdateAmount := NumberSchema(false, false, true, map[])
  const UpdateCategory := StringSchema(false, false, 0, None, CategoryValues, map[])
  const UpdateDate := DateSchema(false, map[])

  /** Both schemas: description optional, possibly empty, at most 255 characters. */
  const Description := StringSchema(false, true, 0, Some(255), [], map[])

  predicate AmountOk(v: Option<Num>) {
    v.Some? && v.value.Number? && v.value.cents > 0
  }

  predicate CategoryOk(v: Option<Str>) {
    v.Some? && v.value.Text? && ParseCategory(v.value.s).Some?
  }

  predicate DescriptionOk(v: Option<Str>) {
    v.None? || (v.value.Text? && |v.value.s| <= 255)
  }

  /** The bodies `createExpenseSchema` accepts. */
  predicate CreateExpenseAccepts(b: ExpenseBody) {
    && AmountOk(b.amount)
    && CategoryOk(b.category)
    && b.date.Some? && b.date.value.IsoDate?
    && DescriptionOk(b.description)
    && forall k :: k in b.extra ==> k in ExpenseKeys
  }

  /** The bodies `updateExpenseSchema` accepts: the same rules, every key optional. */
  predicate UpdateExpenseAccepts(b: ExpenseBody) {
    && (b.amount.None? || AmountOk(b.amount))
    && (b.category.None? || CategoryOk(b.category))
    && (b.date.None? || b.date.value.IsoDate?)
    && DescriptionOk(b.description)
    && forall k :: k in b.extra ==> k in ExpenseKeys
  }

  lemma CategoryValuesAreTheEnum(s: string)
    ensures s in CategoryValues <==> ParseCategory(s).Some?
  {
  }

  /** `createExpenseSchema.validate(body, {abortEarly: false})`. */
  function CreateExpenseDetails(b: ExpenseBody): (r: seq<FieldError>)
    ensures r == [] <==> CreateExpenseAccepts(b)
  {
    CategoryValuesAreTheEnum(if b.category.Some? && b.category.value.Text? then b.category.value.s else "");
    NumberDetails("amount", CreateAmount, b.amount)
    + StringDetails("category", CreateCategory, b.category)
    + DateDetails("date", CreateDate, b.date)
    + StringDetails("description", Description, b.description)
    + UnknownDetails(ExpenseKeys, b.extra)
  }

  /** `updateExpenseSchema.validate(body, {abortEarly: false})`. */
  function UpdateExpenseDetails(b: ExpenseBody): (r: seq<FieldError>)
    ensures r == [] <==> UpdateExpenseAccepts(b)
  {
    CategoryValuesAreTheEnum(if b.category.Some? && b.category.value.Text? then b.category.value.s else "");
    NumberDetails("amount", UpdateAmount, b.amount)
    + StringDetails("category", UpdateCategory, b.category)
    + DateDetails("date", UpdateDate, b.date)
    + StringDetails("description", Description, b.description)
    + UnknownDetails(ExpenseKeys, b.extra)
  }

  /** A category outside the ENUM on create: the schema's own message. */
  lemma UnknownCategoryRejected(b: ExpenseBody)
    requires b.category.Some? && b.category.value.Text? && ParseCategory(b.category.value.s).None?
    ensures FieldError("category", "Category must be one of: Food, Transport, Accommodation, Activities, Shopping, Other")
      in CreateExpenseDetails(b)
  {
    CategoryValuesAreTheEnum(b.category.value.s);
  }
}
